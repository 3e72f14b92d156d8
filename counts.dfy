/** The per-kind shape counts shown in the footer: a `reduce` over the
    shape list into a dictionary keyed by each shape's `type`. */
module Counts {
  import opened Shapes
  import opened Scene

  /** The dictionary key a shape is counted under: its `type`, or the
      string "undefined" when the shape has none (JavaScript converts the
      property key to a string). */
  function TypeKey(s: Shape): string {
    match s.kind
    case Some(k) => k
    case None => "undefined"
  }

  /** The keys of a shape list, in order: the reference the counts are
      checked against. */
  function TypeKeys(shapes: seq<Shape>): seq<string> {
    seq(|shapes|, i requires 0 <= i < |shapes| => TypeKey(shapes[i]))
  }

  /** `acc[k] || 0`: a key that is absent reads as 0. */
  function CountOr0(counts: map<string, nat>, k: string): nat {
    if k in counts then counts[k] else 0
  }

  /** `shapes.reduce((acc, shape) => { acc[shape.type] = (acc[shape.type] || 0) + 1; ... }, {})`,
      folding from the left: the counts of all but the last shape, then one
      more for the last shape's key. */
  function ShapeCounts(shapes: seq<Shape>): (r: map<string, nat>)
    ensures forall k :: k in r ==> r[k] >= 1 && k in TypeKeys(shapes)
    decreases |shapes|
  {
    if shapes == [] then map[]
    else
      var acc := ShapeCounts(shapes[..|shapes| - 1]);
      var k := TypeKey(shapes[|shapes| - 1]);
      assert TypeKeys(shapes) == TypeKeys(shapes[..|shapes| - 1]) + [k];
      acc[k := CountOr0(acc, k) + 1]
  }

  /** The count of every kind equals the number of shapes of that kind, and
      only kinds that occur have an entry (absent kinds are read as 0). */
  lemma {:induction false} CountsAreOccurrences(shapes: seq<Shape>, k: string)
    ensures CountOr0(ShapeCounts(shapes), k) == multiset(TypeKeys(shapes))[k]
    ensures k in ShapeCounts(shapes) <==> k in TypeKeys(shapes)
    decreases |shapes|
  {
    if shapes != [] {
      var init := shapes[..|shapes| - 1];
      CountsAreOccurrences(init, k);
      assert TypeKeys(shapes) == TypeKeys(init) + [TypeKey(shapes[|shapes| - 1])];
    }
  }

  /** The sum of all the values of a counts dictionary. */
  ghost function Total(m: map<string, nat>): nat
    decreases |m|
  {
    if m == map[] then 0
    else
      var k :| k in m;
      m[k] + Total(m - {k})
  }

  /** The sum does not depend on which key is taken out first. */
  lemma {:induction false} TotalRemove(m: map<string, nat>, k: string)
    requires k in m
    ensures Total(m) == m[k] + Total(m - {k})
    decreases |m|
  {
    var j :| j in m && Total(m) == m[j] + Total(m - {j});
    if j != k {
      var mj, mk := m - {j}, m - {k};
      assert |mj| < |m| by { assert mj.Keys == m.Keys - {j}; }
      TotalRemove(mj, k);
      TotalRemove(mk, j);
      assert mj - {k} == mk - {j};
    }
  }

  /** Adding one to the count of a key adds one to the sum. */
  lemma TotalIncrement(m: map<string, nat>, k: string)
    ensures Total(m[k := CountOr0(m, k) + 1]) == Total(m) + 1
  {
    var m' := m[k := CountOr0(m, k) + 1];
    TotalRemove(m', k);
    if k in m {
      TotalRemove(m, k);
      assert m' - {k} == m - {k};
    } else {
      assert m' - {k} == m;
    }
  }

  /** The counts sum to the number of shapes. */
  lemma {:induction false} CountsSumToLength(shapes: seq<Shape>)
    ensures Total(ShapeCounts(shapes)) == |shapes|
    decreases |shapes|
  {
    if shapes != [] {
      var init := shapes[..|shapes| - 1];
      CountsSumToLength(init);
      TotalIncrement(ShapeCounts(init), TypeKey(shapes[|shapes| - 1]));
    }
  }

  /** Moving shapes never changes the counts. */
  lemma MoveKeepsCounts(shapes: seq<Shape>, id: Id, x: int, y: int)
    ensures ShapeCounts(MoveShape(shapes, id, x, y)) == ShapeCounts(shapes)
  {
    var moved := MoveShape(shapes, id, x, y);
    assert TypeKeys(moved) == TypeKeys(shapes);
    forall k ensures CountOr0(ShapeCounts(moved), k) == CountOr0(ShapeCounts(shapes), k)
      && (k in ShapeCounts(moved) <==> k in ShapeCounts(shapes)) {
      CountsAreOccurrences(moved, k);
      CountsAreOccurrences(shapes, k);
    }
  }

  /** Two circles and a triangle are reported as {circle: 2, triangle: 1},
      and the footer reads the absent square as 0. */
  lemma CountsExample(a: Shape, b: Shape, c: Shape)
    requires a.kind == Some("circle") && b.kind == Some("triangle") && c.kind == Some("circle")
    ensures ShapeCounts([a, b, c]) == map["circle" := 2, "triangle" := 1]
    ensures CountOr0(ShapeCounts([a, b, c]), "square") == 0
  {
    assert [a][..0] == [];
    assert ShapeCounts([a]) == map["circle" := 1];
    assert [a, b][..1] == [a];
    assert ShapeCounts([a, b]) == map["circle" := 1, "triangle" := 1];
    assert [a, b, c][..2] == [a, b];
  }
}
