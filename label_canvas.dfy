/**
 * The canvas of src/app/videoeditor1/Canvas.tsx: it keeps its own copy of the
 * labels, appends a clamped label on a drop and repositions the dragged label on
 * a mouse move. The drag state belongs to the page that renders it (EditorOne).
 */
module LabelCanvas {
  import opened Wrappers
  import opened Geometry
  import opened VideoStore
  import opened LabelList
  import opened EditorOne

  class Canvas {
    const width: real
    const height: real
    var labels: seq<Label>

    /** The canvas starts from the labels the page hands it. */
    constructor (droppedLabels: seq<Label>, width: real, height: real)
      ensures labels == droppedLabels && this.width == width && this.height == height
    {
      this.width, this.height := width, height;
      labels := droppedLabels;
    }

    /**
     * `handleDrop`: appends the dropped label, reports the new list to `onChange`
     * and calls the page's mouse-up handler. `origin` is the canvas's bounding
     * rectangle corner, `freshId` the `Date.now()` id, `text` the dragged data.
     */
    method HandleDrop(client: Point, origin: Point, text: string, freshId: string, drag: DragState)
      returns (reported: seq<Label>)
      modifies this`labels, drag`dragging
      ensures labels == old(labels) + [DroppedLabel(client, origin, width, height, text, freshId)]
      ensures reported == labels
      ensures drag.dragging == None
    {
      var offsetX := client.x - origin.x;
      var offsetY := client.y - origin.y;
      var clampedX := Max(0.0, Min(offsetX, width));
      var clampedY := Max(0.0, Min(offsetY, height));
      labels := labels + [Label(clampedX, clampedY, text, freshId)];
      reported := labels;
      drag.Release();
    }

    /**
     * `handleMouseMove`: with a dragged label and a mounted canvas, every label
     * with the dragged id moves to the clamped cursor position and the list is
     * reported; otherwise nothing happens.
     */
    method HandleMouseMove(client: Point, drag: DragState, canvasMounted: bool)
      returns (reported: Option<seq<Label>>)
      modifies this`labels
      ensures drag.Prop() != "" && canvasMounted ==>
        labels == Repositioned(old(labels), drag.Prop(), DragTarget(client, drag.offset, width, height)) &&
        reported == Some(labels)
      ensures !(drag.Prop() != "" && canvasMounted) ==> labels == old(labels) && reported.None?
    {
      var draggingLabel := drag.Prop();
      if draggingLabel != "" && canvasMounted {
        var newX := client.x - drag.offset.x;
        var newY := client.y - drag.offset.y;
        var target := Point(Max(0.0, Min(newX, width)), Max(0.0, Min(newY, height)));
        labels := Repositioned(labels, draggingLabel, target);
        reported := Some(labels);
      } else {
        reported := None;
      }
    }
  }
}
