/** Points on the screen and the clamp the label editors use to keep a label on the canvas. */
module Geometry {

  /** A client or canvas position (`{ x, y }`, react-dnd's `XYCoord`). */
  datatype Point = Point(x: real, y: real)

  /** `Math.min` on two numbers. */
  function Min(a: real, b: real): (r: real)
    ensures r <= a && r <= b
    ensures r == a || r == b
  {
    if a <= b then a else b
  }

  /** `Math.max` on two numbers. */
  function Max(a: real, b: real): (r: real)
    ensures a <= r && b <= r
    ensures r == a || r == b
  {
    if a <= b then b else a
  }

  /** The larger of 0 and the smaller of `v` and `hi`: keeps a coordinate inside `[0, hi]`. */
  function Clamp(v: real, hi: real): (r: real)
    ensures 0.0 <= r
    ensures 0.0 <= hi ==> r <= hi
    ensures 0.0 <= v <= hi ==> r == v
    ensures v < 0.0 ==> r == 0.0
    ensures 0.0 <= hi < v ==> r == hi
  {
    Max(0.0, Min(v, hi))
  }

  /** Clamps both coordinates to the `width` x `height` canvas rectangle. */
  function ClampToCanvas(p: Point, width: real, height: real): (r: Point)
    ensures 0.0 <= width ==> 0.0 <= r.x <= width
    ensures 0.0 <= height ==> 0.0 <= r.y <= height
    ensures InCanvas(p, width, height) ==> r == p
  {
    Point(Clamp(p.x, width), Clamp(p.y, height))
  }

  /** The point lies on the `width` x `height` canvas, edges included. */
  predicate InCanvas(p: Point, width: real, height: real)
  {
    0.0 <= p.x <= width && 0.0 <= p.y <= height
  }
}
