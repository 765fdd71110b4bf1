/**
 * The store-backed editor page of src/app/videoeditor1/VideoEditor.tsx: the record
 * it edits, the record its upload dispatches, and the drag state it hands to its canvas.
 */
module EditorOne {
  import opened Wrappers
  import opened Geometry
  import opened VideoStore
  import opened LabelList
  import EditorMain

  /**
   * `defaultVideo` of this page: no file, no labels, the first ten seconds, the
   * current time as its id, and neither a title nor an image.
   */
  function DefaultVideo(freshId: string): (v: Video)
    ensures v.id == freshId && v.labels == [] && v.range == Range(0.0, 10.0)
    ensures v.title.None? && v.img.None? && v.video == VideoDetail(None, None, 0.0)
  {
    Video(VideoDetail(None, None, 0.0), [], Range(0.0, 10.0), freshId, None, None)
  }

  // `videoData` is chosen as on the other editor page, with this page's default record.

  /**
   * What this page's upload form hands over once the video's metadata has loaded:
   * the chosen file, its object URL and its duration. The form has no title field.
   */
  datatype UploadForm = UploadForm(file: FileHandle, duration: real, videoUrl: string)

  /**
   * The record the upload dispatches: the current record with its video detail taken
   * from the form, its image cleared, its window cut to at most ten seconds from the
   * kept start, and its title read from a form that has none, so left undefined.
   */
  function UploadRecord(current: Video, form: UploadForm): (v: Video)
    ensures v.id == current.id && v.labels == current.labels
    ensures v.img.None? && v.title.None?
    ensures v.video == VideoDetail(Some(form.videoUrl), Some(form.file), form.duration)
    ensures v.range.startTime == current.range.startTime
    ensures v.range.endTime == Min(10.0, form.duration)
    ensures v.range.endTime <= 10.0 && (form.duration <= 10.0 ==> v.range.endTime == form.duration)
  {
    current.(
      img := None,
      title := None,
      video := current.video.(file := Some(form.file), duration := form.duration, url := Some(form.videoUrl)),
      range := Range(current.range.startTime, Min(10.0, form.duration)),
      id := current.id)
  }

  /** `handleVideoUpload`: a falsy argument dispatches nothing. */
  function UploadAction(videos: seq<Video>, freshId: string, form: Option<UploadForm>): (r: Option<Video>)
    ensures form.None? <==> r.None?
    ensures form.Some? ==> r.value == UploadRecord(EditorMain.CurrentVideo(videos, DefaultVideo(freshId)), form.value)
  {
    match form
    case None => None
    case Some(f) => Some(UploadRecord(EditorMain.CurrentVideo(videos, DefaultVideo(freshId)), f))
  }

  /**
   * The dispatched record keeps the current id, so `updateVideo` overwrites the first
   * record: its labels stay, and its title is lost.
   */
  lemma UploadOverwritesFirst(videos: seq<Video>, freshId: string, form: UploadForm)
    requires |videos| > 0
    ensures var v := UploadRecord(EditorMain.CurrentVideo(videos, DefaultVideo(freshId)), form);
      Upserted(videos, v) == videos[0 := v] &&
      Upserted(videos, v)[0].labels == videos[0].labels && Upserted(videos, v)[0].title.None?
  {
    assert videos[0].id in Ids(videos);
  }

  /**
   * Into an empty store the upload record is built from the default record, so
   * `updateVideo` appends a record with the fresh id, no labels, no title and the
   * window [0, min(10, duration)].
   */
  lemma UploadIntoEmptyStore(freshId: string, form: UploadForm)
    ensures var v := UploadRecord(EditorMain.CurrentVideo([], DefaultVideo(freshId)), form);
      Upserted([], v) == [v] && v.id == freshId && v.labels == [] && v.title.None? &&
      v.range == Range(0.0, Min(10.0, form.duration))
  {
  }

  /** `draggingLabel` and `dragOffset`, the page's drag state. */
  class DragState {
    var dragging: Option<string>
    var offset: Point

    constructor ()
      ensures dragging == None && offset == Point(0.0, 0.0)
    {
      dragging, offset := None, Point(0.0, 0.0);
    }

    /** The dragged id the page passes to its canvas, with the empty string when there is none. */
    function Prop(): (s: string)
      reads this
      ensures s == "" <==> !IsDragging(dragging)
      ensures IsDragging(dragging) ==> s == dragging.value
    {
      if IsDragging(dragging) then dragging.value else ""
    }

    /**
     * `handleLabelDrag(labelObj)`: the grabbed id becomes the dragged one; the
     * offset is taken relative to the stored label with that id, when there is one.
     */
    method Grab(labels: seq<Label>, grabbed: Label)
      modifies this
      ensures dragging == Some(grabbed.id)
      ensures offset == GrabOffset(labels, grabbed.id, Point(grabbed.x, grabbed.y), old(offset))
    {
      dragging := Some(grabbed.id);
      var found := FindLabel(labels, grabbed.id);
      if found.Some? {
        offset := Point(grabbed.x - found.value.x, grabbed.y - found.value.y);
      }
    }

    /** `handleMouseUp`. */
    method Release()
      modifies this`dragging
      ensures dragging == None
    {
      dragging := None;
    }
  }
}
