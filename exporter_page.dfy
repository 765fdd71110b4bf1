/**
 * The exporter page of src/app/exporter/page-drag-working.tsx, which keeps its
 * labels, drag state and trim window in component state.
 */
module ExporterPage {
  import opened Wrappers
  import opened Geometry
  import opened VideoStore
  import opened LabelList

  const CanvasWidth: real := 640.0
  const CanvasHeight: real := 360.0

  class Page {
    var droppedLabels: seq<Label>
    var draggingLabel: Option<string>
    var dragOffset: Point
    var videoFile: Option<FileHandle>
    var localVideoUrl: Option<string>
    var startTime: real
    var endTime: real
    var videoDuration: real

    /** The `useState` initial values. */
    constructor ()
      ensures droppedLabels == [] && draggingLabel.None? && dragOffset == Point(0.0, 0.0)
      ensures videoFile.None? && localVideoUrl.None?
      ensures startTime == 0.0 && endTime == 10.0 && videoDuration == 0.0
    {
      droppedLabels, draggingLabel, dragOffset := [], None, Point(0.0, 0.0);
      videoFile, localVideoUrl := None, None;
      startTime, endTime, videoDuration := 0.0, 10.0, 0.0;
    }

    /**
     * `handleVideoUpload`: with a chosen file, keep it and its object URL. The
     * duration arrives later, in `OnMetadataLoaded`.
     */
    method HandleVideoUpload(file: Option<FileHandle>, objectUrl: string)
      modifies this`videoFile, this`localVideoUrl
      ensures file.Some? ==> videoFile == file && localVideoUrl == Some(objectUrl)
      ensures file.None? ==> videoFile == old(videoFile) && localVideoUrl == old(localVideoUrl)
    {
      if file.Some? {
        videoFile := file;
        localVideoUrl := Some(objectUrl);
      }
    }

    /** `tempVideo.onloadedmetadata`: record the duration and cap the window end at ten seconds. */
    method OnMetadataLoaded(duration: real)
      modifies this`videoDuration, this`endTime
      ensures videoDuration == duration
      ensures endTime == Min(10.0, duration)
      ensures endTime <= 10.0 && endTime <= duration
    {
      videoDuration := duration;
      endTime := Min(10.0, duration);
    }

    /** `handleDrop`: append the dropped label, clamped to the 640 x 360 canvas. */
    method HandleDrop(client: Point, origin: Point, text: string, freshId: string)
      modifies this`droppedLabels
      ensures droppedLabels == old(droppedLabels) + [DroppedLabel(client, origin, CanvasWidth, CanvasHeight, text, freshId)]
      ensures var l := droppedLabels[|droppedLabels| - 1];
        0.0 <= l.x <= CanvasWidth && 0.0 <= l.y <= CanvasHeight
    {
      var offsetX := client.x - origin.x;
      var offsetY := client.y - origin.y;
      var clampedX := Max(0.0, Min(offsetX, CanvasWidth));
      var clampedY := Max(0.0, Min(offsetY, CanvasHeight));
      droppedLabels := droppedLabels + [Label(clampedX, clampedY, text, freshId)];
    }

    /** `handleLabelDrag`: start dragging `labelId`, taking the offset from its stored position if it exists. */
    method HandleLabelDrag(client: Point, labelId: string)
      modifies this`draggingLabel, this`dragOffset
      ensures draggingLabel == Some(labelId)
      ensures dragOffset == GrabOffset(droppedLabels, labelId, client, old(dragOffset))
    {
      draggingLabel := Some(labelId);
      var found := FindLabel(droppedLabels, labelId);
      if found.Some? {
        dragOffset := Point(client.x - found.value.x, client.y - found.value.y);
      }
    }

    /** `handleMouseMove`: reposition the dragged label, clamped; idle or unmounted, nothing happens. */
    method HandleMouseMove(client: Point, canvasMounted: bool)
      modifies this`droppedLabels
      ensures IsDragging(draggingLabel) && canvasMounted ==>
        droppedLabels == Repositioned(old(droppedLabels), draggingLabel.value,
                                      DragTarget(client, dragOffset, CanvasWidth, CanvasHeight))
      ensures !(IsDragging(draggingLabel) && canvasMounted) ==> droppedLabels == old(droppedLabels)
    {
      if IsDragging(draggingLabel) && canvasMounted {
        var newX := client.x - dragOffset.x;
        var newY := client.y - dragOffset.y;
        var clampedX := Max(0.0, Min(newX, CanvasWidth));
        var clampedY := Max(0.0, Min(newY, CanvasHeight));
        droppedLabels := Repositioned(droppedLabels, draggingLabel.value, Point(clampedX, clampedY));
      }
    }

    /** `handleMouseUp`. */
    method HandleMouseUp()
      modifies this`draggingLabel
      ensures draggingLabel.None?
    {
      draggingLabel := None;
    }

    /** After a release, moves change nothing until the next grab. */
    method ReleaseThenMove(client: Point, canvasMounted: bool)
      modifies this`draggingLabel, this`droppedLabels
      ensures draggingLabel.None? && droppedLabels == old(droppedLabels)
    {
      HandleMouseUp();
      HandleMouseMove(client, canvasMounted);
    }

    /**
     * Grabbing a label that lies on the canvas and moving at the same client point
     * leaves that label where it was; with distinct ids nothing moves at all.
     */
    method GrabThenMove(client: Point, labelId: string)
      requires FindLabel(droppedLabels, labelId).Some?
      requires var l := FindLabel(droppedLabels, labelId).value; InCanvas(Point(l.x, l.y), CanvasWidth, CanvasHeight)
      modifies this`draggingLabel, this`dragOffset, this`droppedLabels
      ensures draggingLabel == Some(labelId)
      ensures |droppedLabels| == |old(droppedLabels)|
      ensures forall i :: 0 <= i < |old(droppedLabels)| && FirstWithId(old(droppedLabels), labelId, i) ==>
        droppedLabels[i] == old(droppedLabels)[i]
      ensures DistinctLabelIds(old(droppedLabels)) ==> droppedLabels == old(droppedLabels)
    {
      HandleLabelDrag(client, labelId);
      HandleMouseMove(client, true);
      GrabThenMoveInPlace(old(droppedLabels), labelId, client, old(dragOffset), CanvasWidth, CanvasHeight);
    }
  }
}
