/** `sec2Min` of src/app/videoeditor/NewVideoPlayer.tsx: seconds shown as minutes and seconds. */
module PlayerClock {

  /** JavaScript's `%` on numbers: the remainder takes the sign of the dividend. */
  function JsRemainder(a: real, b: real): (r: real)
    requires b != 0.0
    ensures 0.0 <= a && 0.0 < b ==> 0.0 <= r < b
    ensures 0.0 <= a && 0.0 < b ==> r == a - b * (a / b).Floor as real
  {
    var q := a / b;
    var t := if q >= 0.0 then q.Floor else -((-q).Floor);
    assert 0.0 <= a && 0.0 < b ==> a - b * t as real < b by {
      if 0.0 <= a && 0.0 < b {
        assert b * q == a;
        var f := q - t as real;
        assert f < 1.0;
        assert b * f < b * 1.0;
        assert a - b * t as real == b * f;
      }
    }
    a - b * t as real
  }

  datatype Clock = Clock(min: int, sec: int)

  /** The display: whole minutes, and the whole seconds left over from JavaScript's remainder by 60. */
  function Sec2Min(sec: real): (c: Clock)
    ensures 0.0 <= sec ==> c.min >= 0 && 0 <= c.sec <= 59
  {
    Clock((sec / 60.0).Floor, JsRemainder(sec, 60.0).Floor)
  }

  /** For any non-negative time the display adds back up to its whole seconds. */
  lemma Sec2MinRecombines(sec: real)
    requires 0.0 <= sec
    ensures Sec2Min(sec).min * 60 + Sec2Min(sec).sec == sec.Floor
  {
    var m := (sec / 60.0).Floor;
    var rem := JsRemainder(sec, 60.0);
    assert rem == sec - 60.0 * m as real;
    assert (60 * m) as real == 60.0 * m as real;
    FloorShift(sec, 60 * m);
  }

  /** Taking off a whole number before the floor takes it off after. */
  lemma FloorShift(v: real, k: int)
    ensures (v - k as real).Floor == v.Floor - k
  {
  }

  /** Under a minute, the display is zero minutes and the whole seconds. */
  lemma Sec2MinUnderAMinute(sec: real)
    requires 0.0 <= sec < 60.0
    ensures Sec2Min(sec) == Clock(0, sec.Floor)
  {
    assert (sec / 60.0).Floor == 0;
  }
}
