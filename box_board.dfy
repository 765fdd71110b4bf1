/**
 * The react-dnd drop target whose dropped boxes live in an object keyed by label
 * id. src/app/videoeditor/Canvas.tsx and src/app/videoeditor1/dragdrop/Container.tsx
 * hold the same code; they differ only in the element whose bounding rectangle the
 * drop offset is measured against (the canvas, or the container div).
 */
module BoxBoard {
  import opened Wrappers
  import opened Geometry
  import opened VideoStore

  /** No label after position `i` and before `n` carries the id of `labels[i]`. */
  predicate LastWithin(labels: seq<Label>, i: int, n: int)
    requires 0 <= i < n <= |labels|
  {
    forall j :: i < j < n ==> labels[j].id != labels[i].id
  }

  /** `labels[i]` is the last label of the list carrying its id (a `reduce` that writes `res[id]` keeps that one). */
  predicate LastWithId(labels: seq<Label>, i: int)
    requires 0 <= i < |labels|
  {
    LastWithin(labels, i, |labels|)
  }

  /** `boxes` is what the initial `reduce` builds from `labels`: one entry per id, the later duplicate winning. */
  predicate KeyedBy(boxes: map<string, Label>, labels: seq<Label>)
  {
    && boxes.Keys == (set i | 0 <= i < |labels| :: labels[i].id)
    && forall i :: 0 <= i < |labels| && LastWithId(labels, i) ==> boxes[labels[i].id] == labels[i]
  }

  /** Every box is stored under its own id. */
  predicate KeysMatchIds(boxes: map<string, Label>)
  {
    forall k :: k in boxes ==> boxes[k].id == k
  }

  /** `ks` lists every key of `boxes` once and `vs[i]` is the box under `ks[i]` (`Object.keys` / `Object.values`). */
  predicate Enumerates(boxes: map<string, Label>, ks: seq<string>, vs: seq<Label>)
  {
    && |ks| == |vs|
    && (forall i, j :: 0 <= i < j < |ks| ==> ks[i] != ks[j])
    && (forall k :: k in boxes ==> k in ks)
    && forall i :: 0 <= i < |ks| ==> ks[i] in boxes && vs[i] == boxes[ks[i]]
  }

  /** One `reduce` step adds exactly the id of `labels[n]` to the keys. */
  lemma KeysStep(labels: seq<Label>, n: int, before: map<string, Label>, after: map<string, Label>)
    requires 0 <= n < |labels|
    requires before.Keys == (set i | 0 <= i < n :: labels[i].id)
    requires after == before[labels[n].id := labels[n]]
    ensures after.Keys == (set i | 0 <= i < n + 1 :: labels[i].id)
  {
    assert (set i | 0 <= i < n + 1 :: labels[i].id) == (set i | 0 <= i < n :: labels[i].id) + {labels[n].id};
  }

  /** After one `reduce` step, each id still holds the last label seen with it. */
  lemma LastStep(labels: seq<Label>, n: int, before: map<string, Label>, after: map<string, Label>)
    requires 0 <= n < |labels|
    requires forall i :: 0 <= i < n && LastWithin(labels, i, n) ==> labels[i].id in before && before[labels[i].id] == labels[i]
    requires after == before[labels[n].id := labels[n]]
    ensures forall i :: 0 <= i < n + 1 && LastWithin(labels, i, n + 1) ==> labels[i].id in after && after[labels[i].id] == labels[i]
  {
    forall i | 0 <= i < n + 1 && LastWithin(labels, i, n + 1)
      ensures labels[i].id in after && after[labels[i].id] == labels[i]
    {
      if i < n {
        assert labels[n].id != labels[i].id;
        assert LastWithin(labels, i, n);
      }
    }
  }

  /** The initial `reduce`: walks the labels in order, storing each under its id, so a later duplicate overwrites an earlier one. */
  method BoxesOf(labels: seq<Label>) returns (boxes: map<string, Label>)
    ensures KeyedBy(boxes, labels)
  {
    boxes := map[];
    for n := 0 to |labels|
      invariant boxes.Keys == (set i | 0 <= i < n :: labels[i].id)
      invariant forall i :: 0 <= i < n && LastWithin(labels, i, n) ==> labels[i].id in boxes && boxes[labels[i].id] == labels[i]
    {
      var before := boxes;
      boxes := boxes[labels[n].id := labels[n]];
      KeysStep(labels, n, before, boxes);
      LastStep(labels, n, before, boxes);
    }
  }

  /** The initial map stores every label under its own id. */
  lemma KeyedByMatchesIds(boxes: map<string, Label>, labels: seq<Label>)
    requires KeyedBy(boxes, labels)
    ensures KeysMatchIds(boxes)
  {
    forall k | k in boxes ensures boxes[k].id == k {
      var i :| 0 <= i < |labels| && labels[i].id == k;
      while !LastWithId(labels, i)
        invariant 0 <= i < |labels| && labels[i].id == k
        decreases |labels| - i
      {
        var j :| i < j < |labels| && labels[j].id == labels[i].id;
        i := j;
      }
    }
  }

  /** The values of the map, one per key in some order, with the keys in the same order. */
  method ValuesOf(boxes: map<string, Label>) returns (ks: seq<string>, vs: seq<Label>)
    ensures Enumerates(boxes, ks, vs)
  {
    ks, vs := [], [];
    var rest := boxes.Keys;
    while rest != {}
      invariant rest <= boxes.Keys
      invariant |ks| == |vs|
      invariant forall i, j :: 0 <= i < j < |ks| ==> ks[i] != ks[j]
      invariant forall k :: k in boxes ==> (k in rest <==> k !in ks)
      invariant forall i :: 0 <= i < |ks| ==> ks[i] in boxes && vs[i] == boxes[ks[i]]
      decreases rest
    {
      var k :| k in rest;
      ks, vs := ks + [k], vs + [boxes[k]];
      rest := rest - {k};
    }
  }

  /**
   * `moveBox`'s immutability-helper update: a new box is stored whole under `id`; an
   * existing one gets the new coordinates merged in. A merge into a key that holds
   * nothing throws (immutability-helper refuses an undefined target), which `None`
   * stands for.
   */
  function Moved(boxes: map<string, Label>, id: string, text: string, x: real, y: real, isNew: bool)
    : (r: Option<map<string, Label>>)
    ensures r.None? <==> !isNew && id !in boxes
    ensures r.Some? ==> r.value.Keys == boxes.Keys + {id}
    ensures r.Some? ==> forall k :: k in boxes && k != id ==> r.value[k] == boxes[k]
    ensures isNew ==> r.value[id] == Label(x, y, text, id)
    ensures !isNew && id in boxes ==>
      r.value[id].x == x && r.value[id].y == y &&
      r.value[id].text == boxes[id].text && r.value[id].id == boxes[id].id
  {
    if isNew then Some(boxes[id := Label(x, y, text, id)])
    else if id in boxes then Some(boxes[id := boxes[id].(x := x, y := y)])
    else None
  }

  /** Moving a box keeps every box stored under its own id. */
  lemma MovedKeepsKeysMatchingIds(boxes: map<string, Label>, id: string, text: string, x: real, y: real, isNew: bool)
    requires KeysMatchIds(boxes)
    requires Moved(boxes, id, text, x, y, isNew).Some?
    ensures KeysMatchIds(Moved(boxes, id, text, x, y, isNew).value)
  {
  }

  /** The item react-dnd hands to `drop`: boxes already on the board carry an id, side-menu boxes only a text. */
  datatype DragItem = DragItem(id: Option<string>, text: string)

  /** The property name `boxes[item.id]` reads: an absent id is looked up as the key "undefined". */
  function LookupKey(item: DragItem): (k: string)
    ensures item.id.Some? ==> k == item.id.value
    ensures item.id.None? ==> k == "undefined"
  {
    match item.id
    case Some(s) => s
    case None => "undefined"
  }

  /** The id `drop` passes on: the item's own, unless it is absent or empty, in which case the fresh time-based one. */
  function DropId(item: DragItem, freshId: string): (r: string)
    ensures item.id.Some? && item.id.value != "" ==> r == item.id.value
    ensures item.id.None? || item.id.value == "" ==> r == freshId
  {
    if item.id.Some? && item.id.value != "" then item.id.value else freshId
  }

  /** The new-box decision of `drop`: nothing is stored under the key the item's id is read as. */
  predicate IsNewDrop(boxes: map<string, Label>, item: DragItem): (r: bool)
    ensures item.id.Some? ==> (r <==> item.id.value !in boxes)
    ensures item.id.None? ==> (r <==> "undefined" !in boxes)
  {
    LookupKey(item) !in boxes
  }

  /** The bounding rectangle of the drop target; only its top-left corner is read. */
  datatype DomRect = DomRect(left: real, top: real)

  /**
   * `getCorrectDroppedOffsetValue`: both branches of each coordinate compute the
   * final position minus the target's corner; a null position counts as (0, 0).
   */
  function DroppedOffset(initial: Option<Point>, final: Option<Point>, target: DomRect): (r: Point)
    ensures r == Point(final.GetOr(Point(0.0, 0.0)).x - target.left, final.GetOr(Point(0.0, 0.0)).y - target.top)
  {
    var Point(finalX, finalY) := final.GetOr(Point(0.0, 0.0));
    var Point(initialX, initialY) := initial.GetOr(Point(0.0, 0.0));
    var newY :=
      if finalY > initialY then initialY + (finalY - initialY) - target.top
      else initialY - (initialY - finalY) - target.top;
    var newX :=
      if finalX > initialX then initialX + (finalX - initialX) - target.left
      else initialX - (initialX - finalX) - target.left;
    Point(newX, newY)
  }

  /** Dropping a box with a non-empty id never throws, and is new exactly when that id holds no box. */
  lemma DropOfIdentifiedItem(boxes: map<string, Label>, item: DragItem, freshId: string, p: Point)
    requires item.id.Some? && item.id.value != ""
    ensures IsNewDrop(boxes, item) <==> item.id.value !in boxes
    ensures Moved(boxes, DropId(item, freshId), item.text, p.x, p.y, IsNewDrop(boxes, item)).Some?
  {
  }

  /** A side-menu box (no id) lands as a new box under the fresh id unless a box is stored under "undefined". */
  lemma DropOfSideMenuItem(boxes: map<string, Label>, text: string, freshId: string, p: Point)
    requires "undefined" !in boxes
    ensures var r := Moved(boxes, DropId(DragItem(None, text), freshId), text, p.x, p.y, IsNewDrop(boxes, DragItem(None, text)));
      r.Some? && r.value == boxes[freshId := Label(p.x, p.y, text, freshId)]
  {
  }

  /**
   * A drop throws exactly when the item's id is read as a key that holds a box while
   * the id passed on holds none: an item without an id when a box is stored under
   * "undefined", or an item with the empty id when a box is stored under "", in
   * both cases only if the fresh id is not a key. An item with a non-empty id never
   * makes a drop throw.
   */
  lemma DropThrowsWhen(boxes: map<string, Label>, item: DragItem, freshId: string, p: Point)
    ensures var r := Moved(boxes, DropId(item, freshId), item.text, p.x, p.y, IsNewDrop(boxes, item));
      (r.None? <==> LookupKey(item) in boxes && DropId(item, freshId) !in boxes) &&
      (item.id.None? ==> (r.None? <==> "undefined" in boxes && freshId !in boxes)) &&
      (item.id == Some("") ==> (r.None? <==> "" in boxes && freshId !in boxes)) &&
      (item.id.Some? && item.id.value != "" ==> r.Some?)
  {
  }

  /** What a `moveBox` call did: the update went through, or immutability-helper threw an `Error`. */
  datatype MoveOutcome = BoxMoved | ThrewError

  /** The component: `boxes` is its state and `onChange` receives the values after each move. */
  class Board {
    var boxes: map<string, Label>

    /** The initial state: the labels keyed by id. */
    constructor (labels: seq<Label>)
      ensures KeyedBy(boxes, labels)
      ensures KeysMatchIds(boxes)
    {
      var initial := BoxesOf(labels);
      KeyedByMatchesIds(initial, labels);
      boxes := initial;
    }

    /**
     * `moveBox`: `reported` is what `onChange` receives, `Object.values` of the new
     * map; on a throw the state stays and `onChange` is not called.
     */
    method MoveBox(id: string, text: string, x: real, y: real, isNew: bool)
      returns (outcome: MoveOutcome, reported: Option<seq<Label>>)
      modifies this
      ensures Moved(old(boxes), id, text, x, y, isNew).None? ==>
        outcome == ThrewError && boxes == old(boxes) && reported.None?
      ensures Moved(old(boxes), id, text, x, y, isNew).Some? ==>
        outcome == BoxMoved && boxes == Moved(old(boxes), id, text, x, y, isNew).value &&
        reported.Some? && exists ks :: Enumerates(boxes, ks, reported.value)
      ensures KeysMatchIds(old(boxes)) ==> KeysMatchIds(boxes)
    {
      var updated := Moved(boxes, id, text, x, y, isNew);
      if updated.None? {
        outcome, reported := ThrewError, None;
      } else {
        boxes := updated.value;
        var ks, vs := ValuesOf(boxes);
        outcome, reported := BoxMoved, Some(vs);
      }
    }

    /** `drop(item, monitor)`: the offset of the drop, then `moveBox` with the id and the new-box decision. */
    method Drop(item: DragItem, initial: Option<Point>, final: Option<Point>, target: DomRect, freshId: string)
      returns (outcome: MoveOutcome, reported: Option<seq<Label>>)
      modifies this
      ensures var p := DroppedOffset(initial, final, target);
        var r := Moved(old(boxes), DropId(item, freshId), item.text, p.x, p.y, IsNewDrop(old(boxes), item));
        (r.None? ==> outcome == ThrewError && boxes == old(boxes) && reported.None?) &&
        (r.Some? ==> outcome == BoxMoved && boxes == r.value &&
                     reported.Some? && exists ks :: Enumerates(boxes, ks, reported.value))
      ensures KeysMatchIds(old(boxes)) ==> KeysMatchIds(boxes)
    {
      var p := DroppedOffset(initial, final, target);
      outcome, reported := MoveBox(DropId(item, freshId), item.text, p.x, p.y, IsNewDrop(boxes, item));
    }
  }
}
