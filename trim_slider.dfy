/**
 * The trim-range sliders. src/app/videoeditor1/Slider.tsx and
 * src/app/videoeditor/Slider.tsx share `onValueChange`, which overwrites one end of
 * the range; the latter also maps antd's two-handle slider to a range.
 */
module TrimSlider {
  import opened VideoStore

  /** The component's local `start` / `end` state. */
  class RangeInputs {
    var start: real
    var end: real

    /** The local inputs start from the range the page hands in. */
    constructor (startTime: real, endTime: real)
      ensures start == startTime && end == endTime
    {
      start, end := startTime, endTime;
    }

    /**
     * `onValueChange`: `name` is the input's name and `seconds` its parsed value.
     * The input named "start" moves the start, any other the end; `result` is the
     * one range passed to `onChange`, and it equals the new local state.
     */
    method OnValueChange(name: string, seconds: real) returns (result: Range)
      modifies this
      ensures name == "start" ==> result == Range(seconds, old(end))
      ensures name != "start" ==> result == Range(old(start), seconds)
      ensures Range(start, end) == result
    {
      result := Range(start, end);
      if name == "start" {
        start := seconds;
        result := result.(startTime := seconds);
      } else {
        end := seconds;
        result := result.(endTime := seconds);
      }
    }
  }

  /** antd's range `onChange(values)`: the two handle positions, left first, become the range. */
  function RangeOfHandles(values: seq<real>): (r: Range)
    requires |values| == 2
    ensures [r.startTime, r.endTime] == values
  {
    Range(values[0], values[1])
  }
}
