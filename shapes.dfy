/** The data model of the painting canvas: the template catalog, placed
    shapes, the pointer/rectangle geometry and the single drag-state
    variable that drives both the palette-placement and the move gesture. */
module Shapes {

  /** A JavaScript value that may be `undefined` (None). */
  datatype Option<T> = None | Some(value: T)

  /** Shape ids are JavaScript numbers; only their equality and their
      truthiness (0 is falsy) matter to the engine. */
  type Id = int

  /** A point in viewport or canvas-local pixel coordinates. */
  datatype Point = Point(x: int, y: int)

  /** The canvas element's on-screen bounding box, as far as the engine
      reads it (the handlers only use its left and top edges). */
  datatype Rect = Rect(left: int, top: int)

  /** An entry of the `shapeTemplates` catalog. */
  datatype Template = Template(kind: string, width: int, height: int, color: string)

  /** A placed shape `{type, width, height, color, id, x, y}`. The four
      fields copied from a template are `undefined` when the shape was built
      from a missing template (see `Placed`) or imported without them. */
  datatype Shape = Shape(
    kind: Option<string>,
    width: Option<int>,
    height: Option<int>,
    color: Option<string>,
    id: Id,
    x: int,
    y: int)

  /** The state held in `draggedShape`: nothing (null), a palette kind being
      dragged in, or the id of a placed shape being moved. */
  datatype Drag = Idle | Placing(kind: string) | Moving(id: Id)

  /** The fixed offset subtracted from both axes at a drop, so that a 60x60
      shape is centred under the cursor. */
  const CenterOffset: int := 30

  /** The catalog keys that the palette offers. */
  const Kinds: seq<string> := ["square", "circle", "triangle"]

  /** Looking a key up in `shapeTemplates`: the three catalog entries, and
      `undefined` for every other key. */
  function TemplateFor(key: string): (t: Option<Template>)
    ensures t.Some? <==> key in Kinds
    ensures t.Some? ==> t.value.kind == key && t.value.width == 60 && t.value.height == 60
  {
    if key == "square" then Some(Template("square", 60, 60, "#007bff"))
    else if key == "circle" then Some(Template("circle", 60, 60, "#dc3545"))
    else if key == "triangle" then Some(Template("triangle", 60, 60, "#28a745"))
    else None
  }

  /** JavaScript truthiness of `draggedShape`: null, the empty string and
      the number 0 are falsy. */
  predicate Truthy(d: Drag)
    ensures Truthy(d) ==> !d.Idle?
    ensures d.Placing? && d.kind in Kinds ==> Truthy(d)
    ensures d.Placing? ==> (Truthy(d) <==> d.kind != "")
    ensures d.Moving? ==> (Truthy(d) <==> d.id != 0)
  {
    match d
    case Idle => false
    case Placing(k) => k != ""
    case Moving(id) => id != 0
  }

  /** `shapeTemplates[draggedShape]`: a numeric id is never a catalog key. */
  function TemplateOf(d: Drag): (t: Option<Template>)
    ensures t.Some? <==> d.Placing? && d.kind in Kinds
    ensures t.Some? ==> t.value.kind == d.kind
  {
    match d
    case Placing(k) => TemplateFor(k)
    case _ => None
  }

  /** Canvas-local coordinates of a pointer: viewport point minus the canvas
      origin. */
  function Local(pointer: Point, rect: Rect): (p: Point)
    ensures p.x + rect.left == pointer.x && p.y + rect.top == pointer.y
  {
    Point(pointer.x - rect.left, pointer.y - rect.top)
  }

  /** The shape a drop creates: the template's fields spread first (none
      at all when the lookup is `undefined`), then the fresh id and the drop
      point shifted up and left by `CenterOffset`. */
  function Placed(d: Drag, id: Id, pointer: Point, rect: Rect): (s: Shape)
    ensures s.id == id
    ensures s.x == Local(pointer, rect).x - CenterOffset
    ensures s.y == Local(pointer, rect).y - CenterOffset
    ensures TemplateOf(d).Some? ==>
      s.kind == Some(TemplateOf(d).value.kind) && s.width == Some(TemplateOf(d).value.width) &&
      s.height == Some(TemplateOf(d).value.height) && s.color == Some(TemplateOf(d).value.color)
    ensures TemplateOf(d).None? ==> s.kind.None? && s.width.None? && s.height.None? && s.color.None?
    // The last two clauses follow from the two above and the contracts of
    // TemplateOf and TemplateFor; they spell out the palette and move cases.
    ensures d.Placing? && d.kind in Kinds ==> s.kind == Some(d.kind) && s.width == Some(60) && s.height == Some(60)
    ensures d.Moving? ==> s.kind.None? && s.width.None? && s.height.None? && s.color.None?
  {
    var p := Local(pointer, rect);
    match TemplateOf(d)
    case Some(t) =>
      Shape(Some(t.kind), Some(t.width), Some(t.height), Some(t.color), id, p.x - CenterOffset, p.y - CenterOffset)
    case None =>
      Shape(None, None, None, None, id, p.x - CenterOffset, p.y - CenterOffset)
  }

  /** The offset recorded when a shape is pressed: pointer position in
      canvas coordinates minus the shape's top-left corner. */
  function GrabOffset(shape: Shape, pointer: Point, rect: Rect): (off: Point)
    ensures Local(pointer, rect).x - off.x == shape.x
    ensures Local(pointer, rect).y - off.y == shape.y
  {
    Point(pointer.x - rect.left - shape.x, pointer.y - rect.top - shape.y)
  }

  /** Where a move puts the dragged shape: pointer in canvas coordinates
      minus the grab offset. */
  function DragTarget(pointer: Point, rect: Rect, offset: Point): (p: Point)
    ensures p.x + offset.x == Local(pointer, rect).x && p.y + offset.y == Local(pointer, rect).y
  {
    Point(pointer.x - rect.left - offset.x, pointer.y - rect.top - offset.y)
  }

  /** The ids of a shape list, in order. */
  function Ids(shapes: seq<Shape>): seq<Id> {
    seq(|shapes|, i requires 0 <= i < |shapes| => shapes[i].id)
  }

  /** No two shapes of the list share an id. */
  predicate UniqueIds(shapes: seq<Shape>) {
    forall i, j :: 0 <= i < j < |shapes| ==> shapes[i].id != shapes[j].id
  }

  /** Every catalog template is 60x60, so the fixed offset puts a freshly
      placed shape's centre exactly under the pointer. */
  lemma PlacedCentredUnderPointer(kind: string, id: Id, pointer: Point, rect: Rect)
    requires kind in Kinds
    ensures var s := Placed(Placing(kind), id, pointer, rect);
      s.width.Some? && s.height.Some? &&
      s.x + s.width.value / 2 == pointer.x - rect.left &&
      s.y + s.height.value / 2 == pointer.y - rect.top
  {
  }

  /** A square dropped at viewport (130, 230) over a canvas whose origin is
      (100, 200) lands at canvas-local (0, 0). */
  lemma SquareDropExample()
    ensures Placed(Placing("square"), 7, Point(130, 230), Rect(100, 200)).x == 0
    ensures Placed(Placing("square"), 7, Point(130, 230), Rect(100, 200)).y == 0
  {
  }
}
