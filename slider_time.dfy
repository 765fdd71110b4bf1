/** `sliderValueToVideoTime` of src/lib/utils.ts: a 0-100 slider position as whole seconds. */
module SliderTime {

  /** `Math.round` on an exact number: the nearest integer, halves rounded up. */
  function Round(v: real): (r: int)
    ensures r as real - 0.5 <= v < r as real + 0.5
  {
    (v + 0.5).Floor
  }

  /** A slider position in percent, as that share of the duration rounded to whole seconds. */
  function SliderValueToVideoTime(duration: real, sliderValue: real): (r: int)
    ensures r as real - 0.5 <= duration * sliderValue / 100.0 < r as real + 0.5
  {
    Round(duration * sliderValue / 100.0)
  }

  /** Rounding is monotone. */
  lemma RoundMonotone(a: real, b: real)
    requires a <= b
    ensures Round(a) <= Round(b)
  {
  }

  /** Rounding an integer gives it back. */
  lemma RoundOfInteger(n: int)
    ensures Round(n as real) == n
  {
  }

  /** The left end of the slider is the start of the video. */
  lemma SliderStartIsZero(duration: real)
    ensures SliderValueToVideoTime(duration, 0.0) == 0
  {
  }

  /** The right end of the slider is the rounded duration, the duration itself when it is whole. */
  lemma SliderEndIsDuration(duration: real)
    ensures SliderValueToVideoTime(duration, 100.0) == Round(duration)
    ensures duration == duration.Floor as real ==> SliderValueToVideoTime(duration, 100.0) == duration.Floor
  {
    assert duration * 100.0 / 100.0 == duration;
    RoundOfInteger(duration.Floor);
  }

  /** Multiplying by a non-negative factor keeps the order. */
  lemma ScaleMonotone(d: real, a: real, b: real)
    requires 0.0 <= d && a <= b
    ensures d * a <= d * b
  {
    var e := b - a;
    assert d * b == d * a + d * e;
    assert 0.0 <= d * e;
  }

  /** For a non-negative duration, a slider further right never maps to an earlier time. */
  lemma {:induction false} SliderTimeMonotone(duration: real, s1: real, s2: real)
    requires 0.0 <= duration && s1 <= s2
    ensures SliderValueToVideoTime(duration, s1) <= SliderValueToVideoTime(duration, s2)
  {
    ScaleMonotone(duration, s1, s2);
    RoundMonotone(duration * s1 / 100.0, duration * s2 / 100.0);
  }

  /** A slider position in [0, 100] maps into [0, round(duration)]. */
  lemma SliderTimeBounds(duration: real, s: real)
    requires 0.0 <= duration && 0.0 <= s <= 100.0
    ensures 0 <= SliderValueToVideoTime(duration, s) <= Round(duration)
  {
    SliderStartIsZero(duration);
    SliderEndIsDuration(duration);
    SliderTimeMonotone(duration, 0.0, s);
    SliderTimeMonotone(duration, s, 100.0);
  }
}
