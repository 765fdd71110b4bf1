/**
 * The label-list editing shared by src/app/videoeditor1/Canvas.tsx,
 * src/app/exporter/page-drag-working.tsx and src/app/videoeditor1/VideoEditor.tsx:
 * a drop appends a clamped label, a grab records where in the label the cursor
 * took hold, a move repositions the dragged label.
 */
module LabelList {
  import opened Wrappers
  import opened Geometry
  import opened VideoStore

  /** The drag guard: a null or empty dragged id means no label is being dragged. */
  predicate IsDragging(draggingLabel: Option<string>): (r: bool)
    ensures draggingLabel.None? ==> !r
    ensures draggingLabel == Some("") ==> !r
    ensures draggingLabel.Some? && |draggingLabel.value| > 0 ==> r
  {
    draggingLabel.Some? && draggingLabel.value != ""
  }

  /**
   * The label a drop creates: the client position made relative to the canvas's
   * top-left corner `origin`, clamped to the canvas.
   */
  function DroppedLabel(client: Point, origin: Point, width: real, height: real, text: string, id: string)
    : (l: Label)
    ensures l.text == text && l.id == id
    ensures 0.0 <= width ==> 0.0 <= l.x <= width
    ensures 0.0 <= height ==> 0.0 <= l.y <= height
    ensures InCanvas(Point(client.x - origin.x, client.y - origin.y), width, height) ==>
      l.x == client.x - origin.x && l.y == client.y - origin.y
  {
    var p := ClampToCanvas(Point(client.x - origin.x, client.y - origin.y), width, height);
    Label(p.x, p.y, text, id)
  }

  /** Where a move puts the dragged label: the cursor minus the grab offset, clamped to the canvas. */
  function DragTarget(client: Point, dragOffset: Point, width: real, height: real): (p: Point)
    ensures 0.0 <= width ==> 0.0 <= p.x <= width
    ensures 0.0 <= height ==> 0.0 <= p.y <= height
    ensures InCanvas(Point(client.x - dragOffset.x, client.y - dragOffset.y), width, height) ==>
      p == Point(client.x - dragOffset.x, client.y - dragOffset.y)
  {
    ClampToCanvas(Point(client.x - dragOffset.x, client.y - dragOffset.y), width, height)
  }

  /** The move's `map` over the labels: every label with the dragged id takes the new position, the others stay as they are. */
  function Repositioned(labels: seq<Label>, id: string, p: Point): (r: seq<Label>)
    ensures |r| == |labels|
    ensures forall i :: 0 <= i < |labels| ==> r[i].id == labels[i].id && r[i].text == labels[i].text
    ensures forall i :: 0 <= i < |labels| && labels[i].id == id ==> r[i].x == p.x && r[i].y == p.y
    ensures forall i :: 0 <= i < |labels| && labels[i].id != id ==> r[i] == labels[i]
  {
    seq(|labels|, i requires 0 <= i < |labels| =>
      if labels[i].id == id then labels[i].(x := p.x, y := p.y) else labels[i])
  }

  /** The label lookup of a grab: the first label with that id, if any. */
  function FindLabel(labels: seq<Label>, id: string): (r: Option<Label>)
    ensures r.None? <==> forall i :: 0 <= i < |labels| ==> labels[i].id != id
    ensures r.Some? ==> exists i :: 0 <= i < |labels| && FirstWithId(labels, id, i) && r.value == labels[i]
  {
    if |labels| == 0 then None
    else if labels[0].id == id then
      assert FirstWithId(labels, id, 0);
      Some(labels[0])
    else
      var r := FindLabel(labels[1..], id);
      if r.Some? then
        var i :| 0 <= i < |labels[1..]| && FirstWithId(labels[1..], id, i) && r.value == labels[1..][i];
        assert FirstWithId(labels, id, i + 1);
        r
      else
        assert forall i :: 0 < i < |labels| ==> labels[i] == labels[1..][i - 1];
        None
  }

  /** `labels[i]` is the first label of the list that carries `id`. */
  predicate FirstWithId(labels: seq<Label>, id: string, i: int)
    requires 0 <= i < |labels|
  {
    labels[i].id == id && forall j :: 0 <= j < i ==> labels[j].id != id
  }

  /**
   * The drag offset after grabbing label `id` at `cursor`: where in the label the
   * cursor took hold; when no label has that id the offset stays `current`.
   */
  function GrabOffset(labels: seq<Label>, id: string, cursor: Point, current: Point): (r: Point)
    ensures FindLabel(labels, id).None? ==> r == current
    ensures FindLabel(labels, id).Some? ==>
      r == Point(cursor.x - FindLabel(labels, id).value.x, cursor.y - FindLabel(labels, id).value.y)
  {
    match FindLabel(labels, id)
    case Some(found) => Point(cursor.x - found.x, cursor.y - found.y)
    case None => current
  }

  /**
   * Grabbing a label on the canvas and moving without letting the cursor travel
   * leaves that label where it was; with distinct ids the whole list is unchanged.
   */
  lemma {:induction false} GrabThenMoveInPlace(labels: seq<Label>, id: string, cursor: Point, current: Point,
                                               width: real, height: real)
    requires FindLabel(labels, id).Some?
    requires InCanvas(Point(FindLabel(labels, id).value.x, FindLabel(labels, id).value.y), width, height)
    ensures var offset := GrabOffset(labels, id, cursor, current);
      var r := Repositioned(labels, id, DragTarget(cursor, offset, width, height));
      (forall i :: 0 <= i < |labels| && FirstWithId(labels, id, i) ==> r[i] == labels[i]) &&
      (DistinctLabelIds(labels) ==> r == labels)
  {
    var l := FindLabel(labels, id).value;
    var offset := GrabOffset(labels, id, cursor, current);
    var target := DragTarget(cursor, offset, width, height);
    assert Point(cursor.x - offset.x, cursor.y - offset.y) == Point(l.x, l.y);
    assert target == Point(l.x, l.y);
    var r := Repositioned(labels, id, target);
    var k :| 0 <= k < |labels| && FirstWithId(labels, id, k) && l == labels[k];
    forall i | 0 <= i < |labels| && FirstWithId(labels, id, i) ensures r[i] == labels[i] {
      assert !(i < k) && !(k < i);
    }
    if DistinctLabelIds(labels) {
      forall i | 0 <= i < |labels| ensures r[i] == labels[i] {
        if labels[i].id == id {
          assert labels[i].id == labels[k].id;
        }
      }
    }
  }

  /** No two labels share an id. */
  predicate DistinctLabelIds(labels: seq<Label>)
  {
    forall i, j :: 0 <= i < j < |labels| ==> labels[i].id != labels[j].id
  }

  /** Moving twice to the same point is moving once. */
  lemma RepositionedIdempotent(labels: seq<Label>, id: string, p: Point)
    ensures Repositioned(Repositioned(labels, id, p), id, p) == Repositioned(labels, id, p)
  {
  }
}
