/**
 * The store-backed editor page of src/app/videoeditor/VideoEditor.tsx: which
 * record it edits, and the record `handleVideoUpload` dispatches to `updateVideo`.
 */
module EditorMain {
  import opened Wrappers
  import opened VideoStore

  /**
   * `defaultVideo`: no file, no labels, an empty title, no image and the first ten
   * seconds; its id is the current time as a string, here `freshId`.
   */
  function DefaultVideo(freshId: string): (v: Video)
    ensures v.id == freshId && v.labels == [] && v.range == Range(0.0, 10.0)
    ensures v.title == Some("") && v.img.None? && v.video == VideoDetail(None, None, 0.0)
  {
    Video(VideoDetail(None, None, 0.0), [], Range(0.0, 10.0), freshId, Some(""), None)
  }

  /**
   * `videoData`: the first record of the store, or the default one when the store
   * is empty. The store holds records only, so `videos[0] != null` always holds.
   */
  function CurrentVideo(videos: seq<Video>, fallback: Video): (v: Video)
    ensures |videos| > 0 ==> v == videos[0]
    ensures |videos| == 0 ==> v == fallback
  {
    if |videos| > 0 then videos[0] else fallback
  }

  /** What the upload form hands over: the file, its duration and object URL, and the title. */
  datatype UploadObject = UploadObject(file: Option<FileHandle>, duration: real, videoUrl: Option<string>, title: string)

  /**
   * The record the upload dispatches: the current record with the form's title, and
   * with its video detail replaced by the form's file, URL and duration when a file
   * came with the form; when only the title was edited the detail is kept.
   */
  function MergedUpload(current: Video, obj: UploadObject): (v: Video)
    ensures v.id == current.id && v.labels == current.labels && v.range == current.range && v.img == current.img
    ensures v.title == Some(obj.title)
    ensures obj.file.None? ==> v.video == current.video
    ensures obj.file.Some? ==> v.video == VideoDetail(obj.videoUrl, obj.file, obj.duration)
  {
    var detail := if obj.file.Some? then VideoDetail(obj.videoUrl, obj.file, obj.duration) else current.video;
    current.(title := Some(obj.title), video := detail)
  }

  /** `handleVideoUpload`: a falsy form object dispatches nothing. */
  function UploadAction(videos: seq<Video>, freshId: string, obj: Option<UploadObject>): (r: Option<Video>)
    ensures obj.None? <==> r.None?
    ensures obj.Some? ==> r.value == MergedUpload(CurrentVideo(videos, DefaultVideo(freshId)), obj.value)
  {
    match obj
    case None => None
    case Some(o) => Some(MergedUpload(CurrentVideo(videos, DefaultVideo(freshId)), o))
  }

  /**
   * Because the merged record keeps the current id, dispatching it to `updateVideo`
   * replaces the first record in place; into an empty store it is appended.
   */
  lemma UploadReplacesCurrent(videos: seq<Video>, freshId: string, obj: UploadObject)
    ensures var v := MergedUpload(CurrentVideo(videos, DefaultVideo(freshId)), obj);
      |videos| > 0 ==> Upserted(videos, v) == videos[0 := v]
    ensures |videos| == 0 ==>
      Upserted(videos, MergedUpload(CurrentVideo(videos, DefaultVideo(freshId)), obj)) == [MergedUpload(DefaultVideo(freshId), obj)]
  {
    var v := MergedUpload(CurrentVideo(videos, DefaultVideo(freshId)), obj);
    if |videos| > 0 {
      assert videos[0].id in Ids(videos);
      assert FindIndex(videos, v.id) == 0;
    }
  }
}
