/**
 * The Redux slice `videos`: a list of video records keyed by `id`, and the four
 * reducers that Immer lets update that list in place (src/store/videoSlice.ts).
 */
module VideoStore {
  import opened Wrappers

  /** A browser `File` (a video or a preview image); only its identity matters here. */
  datatype FileHandle = FileHandle(handle: nat)

  /** A text label placed on the video frame. */
  datatype Label = Label(x: real, y: real, text: string, id: string)

  /** The trim window in seconds. */
  datatype Range = Range(startTime: real, endTime: real)

  datatype VideoDetail = VideoDetail(url: Option<string>, file: Option<FileHandle>, duration: real)

  /**
   * A video record. The interface types `title` as a string, but nothing stops a
   * record whose `title` is undefined from reaching the store; `None` stands for that.
   */
  datatype Video = Video(
    video: VideoDetail,
    labels: seq<Label>,
    range: Range,
    id: string,
    title: Option<string>,
    img: Option<FileHandle>)

  datatype RangePayload = RangePayload(videoId: string, range: Range)

  datatype LabelPayload = LabelPayload(videoId: string, labels: seq<Label>)

  /** What dispatching a reducer did: it ran to the end, or it threw a `TypeError`. */
  datatype Outcome = Applied | ThrewTypeError

  /** No two records of the list share an id. */
  predicate DistinctIds(videos: seq<Video>)
  {
    forall i, j :: 0 <= i < j < |videos| ==> videos[i].id != videos[j].id
  }

  /** The ids present in the list. */
  function Ids(videos: seq<Video>): set<string>
  {
    set i | 0 <= i < |videos| :: videos[i].id
  }

  /** Both lists carry the same id at every position. */
  predicate SameIds(a: seq<Video>, b: seq<Video>)
  {
    |a| == |b| && forall i :: 0 <= i < |a| ==> a[i].id == b[i].id
  }

  /** The reducers' search by id: the first position holding `id`, or -1. */
  function FindIndex(videos: seq<Video>, id: string): (r: int)
    ensures -1 <= r < |videos|
    ensures r == -1 <==> id !in Ids(videos)
    ensures 0 <= r ==> videos[r].id == id && forall i :: 0 <= i < r ==> videos[i].id != id
  {
    if |videos| == 0 then -1
    else if videos[0].id == id then 0
    else
      var k := FindIndex(videos[1..], id);
      assert Ids(videos) == {videos[0].id} + Ids(videos[1..]) by {
        assert forall i :: 0 < i < |videos| ==> videos[i] == videos[1..][i - 1];
      }
      if k == -1 then -1 else k + 1
  }

  /**
   * `updateVideo`: the first record with the payload's id is overlaid by the
   * payload; with no such record the payload is pushed at the end. The payload is
   * a whole `Video`, so spreading it over the stored record takes every field from it.
   */
  function Upserted(videos: seq<Video>, payload: Video): (r: seq<Video>)
    ensures payload.id !in Ids(videos) ==>
      |r| == |videos| + 1 && r[..|videos|] == videos && r[|videos|] == payload
    ensures payload.id in Ids(videos) ==>
      var k := FindIndex(videos, payload.id);
      |r| == |videos| && r[k] == payload &&
      forall j :: 0 <= j < |videos| && j != k ==> r[j] == videos[j]
    ensures Ids(r) == Ids(videos) + {payload.id}
  {
    var k := FindIndex(videos, payload.id);
    if k != -1 then
      var r := videos[k := payload];
      assert Ids(r) == Ids(videos) by {
        forall x | x in Ids(videos) ensures x in Ids(r) {
          var i :| 0 <= i < |videos| && videos[i].id == x;
          assert r[if i == k then k else i].id == x;
        }
      }
      r
    else
      var r := videos + [payload];
      assert r[|videos|].id == payload.id;
      assert Ids(r) == Ids(videos) + {payload.id} by {
        forall x | x in Ids(videos) ensures x in Ids(r) {
          var i :| 0 <= i < |videos| && videos[i].id == x;
          assert r[i].id == x;
        }
      }
      r
  }

  /**
   * `updateRange`: the range of the first record with `videoId` becomes
   * `{ startTime, endTime }`. There is no not-found guard: `findIndex` yields -1,
   * `state[-1]` is `undefined` and assigning its `range` throws; a reducer that
   * throws leaves the state as it was, which `None` stands for.
   */
  function WithRange(videos: seq<Video>, payload: RangePayload): (r: Option<seq<Video>>)
    ensures r.None? <==> payload.videoId !in Ids(videos)
    ensures r.Some? ==>
      var k := FindIndex(videos, payload.videoId);
      |r.value| == |videos| &&
      r.value[k] == videos[k].(range := Range(payload.range.startTime, payload.range.endTime)) &&
      forall j :: 0 <= j < |videos| && j != k ==> r.value[j] == videos[j]
  {
    var k := FindIndex(videos, payload.videoId);
    if k == -1 then None
    else
      var Range(startTime, endTime) := payload.range;
      Some(videos[k := videos[k].(range := Range(startTime, endTime))])
  }

  /**
   * `updateLabels`: the labels of the first record with `videoId` are replaced;
   * with no such record nothing happens.
   */
  function WithLabels(videos: seq<Video>, payload: LabelPayload): (r: seq<Video>)
    ensures payload.videoId !in Ids(videos) ==> r == videos
    ensures payload.videoId in Ids(videos) ==>
      var k := FindIndex(videos, payload.videoId);
      |r| == |videos| && r[k] == videos[k].(labels := payload.labels) &&
      forall j :: 0 <= j < |videos| && j != k ==> r[j] == videos[j]
  {
    var k := FindIndex(videos, payload.videoId);
    if k == -1 then videos else videos[k := videos[k].(labels := payload.labels)]
  }

  /** `removeVideo`: removes the first record in place, whatever the payload. */
  function WithoutFirst(videos: seq<Video>): (r: seq<Video>)
    ensures |videos| == 0 ==> r == []
    ensures |videos| > 0 ==> |r| == |videos| - 1 && [videos[0]] + r == videos
  {
    videos[if |videos| == 0 then 0 else 1..]
  }

  /** Two lists with the same id at every position agree on where an id is found. */
  lemma {:induction false} FindIndexBySameIds(a: seq<Video>, b: seq<Video>, id: string)
    requires SameIds(a, b)
    ensures FindIndex(a, id) == FindIndex(b, id)
  {
    if |a| > 0 && a[0].id != id {
      FindIndexBySameIds(a[1..], b[1..], id);
    }
  }

  /** `updateVideo` keeps the ids of the store distinct. */
  lemma UpsertedKeepsIdsDistinct(videos: seq<Video>, payload: Video)
    requires DistinctIds(videos)
    ensures DistinctIds(Upserted(videos, payload))
  {
    var r := Upserted(videos, payload);
    if payload.id !in Ids(videos) {
      forall i, j | 0 <= i < j < |r| ensures r[i].id != r[j].id {
        if j == |videos| {
          assert r[i] == videos[i];
          assert videos[i].id in Ids(videos);
        } else {
          assert r[i] == videos[i] && r[j] == videos[j];
        }
      }
    } else {
      var k := FindIndex(videos, payload.id);
      assert SameIds(r, videos);
    }
  }

  /** `updateRange` and `updateLabels` leave every id where it was. */
  lemma FieldUpdatesKeepIds(videos: seq<Video>, rp: RangePayload, lp: LabelPayload)
    ensures WithRange(videos, rp).Some? ==> SameIds(WithRange(videos, rp).value, videos)
    ensures SameIds(WithLabels(videos, lp), videos)
  {
  }

  /** Hence `updateRange`, `updateLabels` and `removeVideo` keep the ids distinct too. */
  lemma FieldUpdatesKeepIdsDistinct(videos: seq<Video>, rp: RangePayload, lp: LabelPayload)
    requires DistinctIds(videos)
    ensures WithRange(videos, rp).Some? ==> DistinctIds(WithRange(videos, rp).value)
    ensures DistinctIds(WithLabels(videos, lp))
    ensures DistinctIds(WithoutFirst(videos))
  {
    FieldUpdatesKeepIds(videos, rp, lp);
    var r := WithoutFirst(videos);
    if |videos| > 0 {
      assert forall i :: 0 <= i < |r| ==> r[i] == videos[i + 1];
    }
  }

  /** Applying `updateRange` twice with one payload is applying it once. */
  lemma {:induction false} WithRangeIdempotent(videos: seq<Video>, payload: RangePayload)
    requires WithRange(videos, payload).Some?
    ensures WithRange(WithRange(videos, payload).value, payload) == WithRange(videos, payload)
  {
    var once := WithRange(videos, payload).value;
    FieldUpdatesKeepIds(videos, payload, LabelPayload(payload.videoId, []));
    FindIndexBySameIds(once, videos, payload.videoId);
    assert Ids(once) == Ids(videos) by {
      assert forall i :: 0 <= i < |once| ==> once[i].id == videos[i].id;
      forall x | x in Ids(videos) ensures x in Ids(once) {
        var i :| 0 <= i < |videos| && videos[i].id == x;
        assert once[i].id == x;
      }
    }
    var twice := WithRange(once, payload).value;
    assert twice == once;
  }

  /** Applying `updateLabels` twice with one payload is applying it once. */
  lemma {:induction false} WithLabelsIdempotent(videos: seq<Video>, payload: LabelPayload)
    ensures WithLabels(WithLabels(videos, payload), payload) == WithLabels(videos, payload)
  {
    var once := WithLabels(videos, payload);
    FieldUpdatesKeepIds(videos, RangePayload(payload.videoId, Range(0.0, 0.0)), payload);
    FindIndexBySameIds(once, videos, payload.videoId);
    if payload.videoId in Ids(videos) {
      var k := FindIndex(videos, payload.videoId);
      assert once[k].id == payload.videoId;
      assert payload.videoId in Ids(once);
    }
  }

  /**
   * The store itself: Immer hands each reducer a draft of the array and
   * the reducer writes into it.
   */
  class VideoList {
    var videos: seq<Video>

    /** `initialState`: no videos. */
    constructor ()
      ensures videos == []
    {
      videos := [];
    }

    method UpdateVideo(payload: Video)
      modifies this
      ensures videos == Upserted(old(videos), payload)
      ensures DistinctIds(old(videos)) ==> DistinctIds(videos)
    {
      var index := FindIndex(videos, payload.id);
      if index != -1 {
        videos := videos[index := payload];
      } else {
        videos := videos + [payload];
      }
      if DistinctIds(old(videos)) {
        UpsertedKeepsIdsDistinct(old(videos), payload);
      }
    }

    method UpdateRange(payload: RangePayload) returns (outcome: Outcome)
      modifies this
      ensures WithRange(old(videos), payload).None? ==> outcome == ThrewTypeError && videos == old(videos)
      ensures WithRange(old(videos), payload).Some? ==>
        outcome == Applied && videos == WithRange(old(videos), payload).value
      ensures DistinctIds(old(videos)) ==> DistinctIds(videos)
    {
      var index := FindIndex(videos, payload.videoId);
      if index == -1 {
        outcome := ThrewTypeError;
      } else {
        videos := videos[index := videos[index].(range := Range(payload.range.startTime, payload.range.endTime))];
        outcome := Applied;
      }
      if DistinctIds(old(videos)) {
        FieldUpdatesKeepIdsDistinct(old(videos), payload, LabelPayload("", []));
      }
    }

    method UpdateLabels(payload: LabelPayload)
      modifies this
      ensures videos == WithLabels(old(videos), payload)
      ensures DistinctIds(old(videos)) ==> DistinctIds(videos)
    {
      var index := FindIndex(videos, payload.videoId);
      if index != -1 {
        videos := videos[index := videos[index].(labels := payload.labels)];
      }
      if DistinctIds(old(videos)) {
        FieldUpdatesKeepIdsDistinct(old(videos), RangePayload(payload.videoId, Range(0.0, 0.0)), payload);
      }
    }

    /** The action's payload is ignored, so it is not a parameter. */
    method RemoveVideo()
      modifies this
      ensures videos == WithoutFirst(old(videos))
      ensures DistinctIds(old(videos)) ==> DistinctIds(videos)
    {
      if |videos| > 0 {
        videos := videos[1..];
      }
      if DistinctIds(old(videos)) {
        FieldUpdatesKeepIdsDistinct(old(videos), RangePayload("", Range(0.0, 0.0)), LabelPayload("", []));
      }
    }
  }
}
