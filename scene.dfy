/** The operations the handlers apply to the ordered shape list: the
    `map` that repositions the dragged id and the `filter` that deletes by
    id, with their lemmas, and a lemma about the append a drop performs. */
module Scene {
  import opened Shapes

  /** One element of the move `map`: a shape with the dragged id gets the
      new position, every other shape is returned as it is. */
  function MoveOne(s: Shape, id: Id, x: int, y: int): (r: Shape)
    ensures r.id == s.id && r.kind == s.kind && r.width == s.width && r.height == s.height && r.color == s.color
    ensures s.id == id ==> r.x == x && r.y == y
    ensures s.id != id ==> r == s
  {
    if s.id == id then s.(x := x, y := y) else s
  }

  /** `prev.map(shape => shape.id === id ? {...shape, x, y} : shape)`. */
  function MoveShape(shapes: seq<Shape>, id: Id, x: int, y: int): (r: seq<Shape>)
    ensures |r| == |shapes|
    ensures forall i :: 0 <= i < |r| ==>
      r[i].id == shapes[i].id && r[i].kind == shapes[i].kind &&
      r[i].width == shapes[i].width && r[i].height == shapes[i].height &&
      r[i].color == shapes[i].color
    ensures forall i :: 0 <= i < |r| && shapes[i].id != id ==> r[i] == shapes[i]
    ensures forall i :: 0 <= i < |r| && shapes[i].id == id ==> r[i].x == x && r[i].y == y
  {
    if shapes == [] then []
    else [MoveOne(shapes[0], id, x, y)] + MoveShape(shapes[1..], id, x, y)
  }

  /** `prev.filter(shape => shape.id !== id)`. */
  function RemoveShape(shapes: seq<Shape>, id: Id): (r: seq<Shape>)
    ensures |r| <= |shapes|
    ensures forall s :: s in r <==> s in shapes && s.id != id
  {
    if shapes == [] then []
    else (if shapes[0].id == id then [] else [shapes[0]]) + RemoveShape(shapes[1..], id)
  }

  /** How many shapes of the list carry the given id. */
  function Occurrences(shapes: seq<Shape>, id: Id): nat {
    multiset(Ids(shapes))[id]
  }

  /** The id list of a non-empty list starts with its first shape's id. */
  lemma IdsCons(shapes: seq<Shape>)
    requires shapes != []
    ensures Ids(shapes) == [shapes[0].id] + Ids(shapes[1..])
  {
  }

  /** Appending a shape appends its id to the id list. */
  lemma IdsAppend(shapes: seq<Shape>, s: Shape)
    ensures Ids(shapes + [s]) == Ids(shapes) + [s.id]
  {
  }

  /** A move targeting an id that no shape carries changes nothing. */
  lemma {:induction false} MoveAbsentIsNoOp(shapes: seq<Shape>, id: Id, x: int, y: int)
    requires id !in Ids(shapes)
    ensures MoveShape(shapes, id, x, y) == shapes
  {
    if shapes != [] {
      IdsCons(shapes);
      MoveAbsentIsNoOp(shapes[1..], id, x, y);
    }
  }

  /** A move keeps the id list, so it keeps ids unique. */
  lemma MoveKeepsIds(shapes: seq<Shape>, id: Id, x: int, y: int)
    ensures Ids(MoveShape(shapes, id, x, y)) == Ids(shapes)
    ensures UniqueIds(shapes) ==> UniqueIds(MoveShape(shapes, id, x, y))
  {
  }

  /** Moving the pressed shape to its own position, in a list where its id
      is unique, leaves the whole list as it was. */
  lemma MoveToOwnPositionIsNoOp(shapes: seq<Shape>, s: Shape)
    requires s in shapes
    requires UniqueIds(shapes)
    ensures MoveShape(shapes, s.id, s.x, s.y) == shapes
  {
  }

  /** The grab point is preserved across a press and a move: pressing on a
      shape of the list and then moving with the same pointer over the same
      canvas rectangle leaves the list as it was. */
  lemma PressThenMoveIsNoOp(shapes: seq<Shape>, s: Shape, pointer: Point, rect: Rect)
    requires s in shapes
    requires UniqueIds(shapes)
    ensures var p := DragTarget(pointer, rect, GrabOffset(s, pointer, rect));
      MoveShape(shapes, s.id, p.x, p.y) == shapes
  {
  }

  /** Whatever the other ids, a press followed by a move with the same
      pointer over the same canvas rectangle leaves the pressed shape itself
      where it was; only other shapes sharing its id may jump. */
  lemma PressThenMoveKeepsPressed(shapes: seq<Shape>, i: nat, pointer: Point, rect: Rect)
    requires i < |shapes|
    ensures var p := DragTarget(pointer, rect, GrabOffset(shapes[i], pointer, rect));
      MoveShape(shapes, shapes[i].id, p.x, p.y)[i] == shapes[i]
  {
  }

  /** Moving the same id twice is the same as moving it once to the second
      position. */
  lemma MoveTwice(shapes: seq<Shape>, id: Id, x1: int, y1: int, x2: int, y2: int)
    ensures MoveShape(MoveShape(shapes, id, x1, y1), id, x2, y2) == MoveShape(shapes, id, x2, y2)
  {
  }

  /** A delete of an id that no shape carries is a no-op. */
  lemma {:induction false} RemoveAbsentIsNoOp(shapes: seq<Shape>, id: Id)
    requires id !in Ids(shapes)
    ensures RemoveShape(shapes, id) == shapes
  {
    if shapes != [] {
      IdsCons(shapes);
      RemoveAbsentIsNoOp(shapes[1..], id);
    }
  }

  /** After a delete no shape carries the id. */
  lemma RemoveLeavesNoneWithId(shapes: seq<Shape>, id: Id)
    ensures id !in Ids(RemoveShape(shapes, id))
  {
  }

  /** Deleting by id twice is the same as deleting it once. */
  lemma RemoveIdempotent(shapes: seq<Shape>, id: Id)
    ensures RemoveShape(RemoveShape(shapes, id), id) == RemoveShape(shapes, id)
  {
    RemoveLeavesNoneWithId(shapes, id);
    RemoveAbsentIsNoOp(RemoveShape(shapes, id), id);
  }

  /** The delete keeps the surviving shapes in their original order: it
      distributes over concatenation, one shape at a time. */
  lemma {:induction false} RemoveConcat(a: seq<Shape>, b: seq<Shape>, id: Id)
    ensures RemoveShape(a + b, id) == RemoveShape(a, id) + RemoveShape(b, id)
  {
    if a == [] {
      assert a + b == b;
    } else {
      assert (a + b)[1..] == a[1..] + b;
      RemoveConcat(a[1..], b, id);
    }
  }

  /** The delete shortens the list by exactly the number of shapes that
      carried the id. */
  lemma {:induction false} RemoveLength(shapes: seq<Shape>, id: Id)
    ensures |RemoveShape(shapes, id)| == |shapes| - Occurrences(shapes, id)
  {
    if shapes != [] {
      IdsCons(shapes);
      RemoveLength(shapes[1..], id);
    }
  }

  /** With unique ids an id occurs at most once, so a delete removes at
      most one shape. */
  lemma {:induction false} UniqueOccurrence(shapes: seq<Shape>, id: Id)
    requires UniqueIds(shapes)
    ensures Occurrences(shapes, id) <= 1
  {
    if shapes != [] {
      IdsCons(shapes);
      UniqueOccurrence(shapes[1..], id);
      if shapes[0].id == id {
        assert id !in Ids(shapes[1..]) by {
          forall j | 0 <= j < |shapes[1..]| ensures shapes[1..][j].id != id {
            assert shapes[1..][j] == shapes[j + 1];
          }
        }
      }
    }
  }

  /** A delete keeps ids unique. */
  lemma {:induction false} RemoveKeepsUnique(shapes: seq<Shape>, id: Id)
    requires UniqueIds(shapes)
    ensures UniqueIds(RemoveShape(shapes, id))
  {
    if shapes != [] {
      RemoveKeepsUnique(shapes[1..], id);
      var rest := RemoveShape(shapes[1..], id);
      if shapes[0].id != id {
        forall s | s in rest ensures s.id != shapes[0].id {
          var k :| 0 < k < |shapes| && shapes[k] == s;
        }
      }
    }
  }

  /** A drop appends one shape at the end and leaves the earlier shapes in
      place; with a fresh id, ids stay unique. */
  lemma AppendFresh(shapes: seq<Shape>, s: Shape)
    requires UniqueIds(shapes)
    requires s.id !in Ids(shapes)
    ensures UniqueIds(shapes + [s])
    ensures Occurrences(shapes + [s], s.id) == 1
  {
    IdsAppend(shapes, s);
    forall i | 0 <= i < |shapes| ensures shapes[i].id != s.id {
      assert Ids(shapes)[i] == shapes[i].id;
    }
  }
}
