/** The painting component's state and its event handlers. Each handler
    is one atomic transition of the component's state; pointer positions,
    the canvas rectangle, fresh ids and parsed files are passed in. */
module App {
  import opened Shapes
  import opened Scene
  import opened Naming
  import opened Document

  class PaintingApp {
    /** The placed shapes, in insertion (and drawing) order. */
    var shapes: seq<Shape>
    /** `draggedShape`: what the current gesture drags, if anything. */
    var dragged: Drag
    /** `dragOffset`: the grab offset recorded when a shape is pressed. */
    var dragOffset: Point
    /** `paintingName`. */
    var name: string
    /** `isEditingName`: whether the title is shown as an input field. */
    var editingName: bool

    /** The component's initial state: an empty canvas, nothing dragged,
        a zero offset and the default name shown as a heading. */
    constructor ()
      ensures shapes == [] && dragged == Idle && dragOffset == Point(0, 0)
      ensures name == DefaultName && !editingName
    {
      shapes := [];
      dragged := Idle;
      dragOffset := Point(0, 0);
      name := DefaultName;
      editingName := false;
    }

    /** `handleDragStart`: a palette entry starts being dragged. */
    method DragStart(kind: string)
      modifies this
      ensures dragged == Placing(kind)
      ensures shapes == old(shapes) && dragOffset == old(dragOffset)
      ensures name == old(name) && editingName == old(editingName)
    {
      dragged := Placing(kind);
    }

    /** `handleCanvasDrop`. With a truthy `draggedShape` one shape is
        appended at the drop point and the drag ends; the offset is not
        reset. Only truthiness is checked, so a drop while a placed shape is
        being moved appends a shape with no type, size or colour. */
    method CanvasDrop(pointer: Point, rect: Rect, freshId: Id)
      modifies this
      ensures !Truthy(old(dragged)) ==> shapes == old(shapes) && dragged == old(dragged)
      ensures Truthy(old(dragged)) ==>
        shapes == old(shapes) + [Placed(old(dragged), freshId, pointer, rect)] && dragged == Idle
      ensures dragOffset == old(dragOffset) && name == old(name) && editingName == old(editingName)
      ensures UniqueIds(old(shapes)) && freshId !in Ids(old(shapes)) ==> UniqueIds(shapes)
    {
      if !Truthy(dragged) {
        return;
      }
      var s := Placed(dragged, freshId, pointer, rect);
      if UniqueIds(shapes) && freshId !in Ids(shapes) {
        AppendFresh(shapes, s);
      }
      shapes := shapes + [s];
      dragged := Idle;
    }

    /** `handleShapeMouseDown`: records where inside the shape it was
        grabbed and starts moving its id. */
    method ShapeMouseDown(shape: Shape, pointer: Point, rect: Rect)
      modifies this
      ensures dragOffset == GrabOffset(shape, pointer, rect) && dragged == Moving(shape.id)
      ensures shapes == old(shapes) && name == old(name) && editingName == old(editingName)
    {
      dragOffset := GrabOffset(shape, pointer, rect);
      dragged := Moving(shape.id);
    }

    /** `handleCanvasMouseMove`: while a (truthy) numeric id is dragged,
        every shape with that id is put at the pointer minus the grab
        offset; otherwise nothing changes. The position is not clamped. */
    method CanvasMouseMove(pointer: Point, rect: Rect)
      modifies this
      ensures Truthy(old(dragged)) && old(dragged).Moving? ==>
        var p := DragTarget(pointer, rect, old(dragOffset));
        shapes == MoveShape(old(shapes), old(dragged).id, p.x, p.y)
      ensures !(Truthy(old(dragged)) && old(dragged).Moving?) ==> shapes == old(shapes)
      ensures dragged == old(dragged) && dragOffset == old(dragOffset)
      ensures name == old(name) && editingName == old(editingName)
      ensures UniqueIds(old(shapes)) ==> UniqueIds(shapes)
    {
      if Truthy(dragged) && dragged.Moving? {
        var p := DragTarget(pointer, rect, dragOffset);
        MoveKeepsIds(shapes, dragged.id, p.x, p.y);
        shapes := MoveShape(shapes, dragged.id, p.x, p.y);
      }
    }

    /** `handleMouseUp`, also bound to the canvas's mouse-leave: the
        gesture ends where the shape is, and the offset is reset. */
    method MouseUp()
      modifies this
      ensures dragged == Idle && dragOffset == Point(0, 0)
      ensures shapes == old(shapes) && name == old(name) && editingName == old(editingName)
    {
      dragged := Idle;
      dragOffset := Point(0, 0);
    }

    /** `handleShapeDoubleClick`: every shape with the id is deleted. */
    method ShapeDoubleClick(id: Id)
      modifies this
      ensures shapes == RemoveShape(old(shapes), id)
      ensures |shapes| == |old(shapes)| - Occurrences(old(shapes), id)
      ensures UniqueIds(old(shapes)) ==> UniqueIds(shapes)
      ensures dragged == old(dragged) && dragOffset == old(dragOffset)
      ensures name == old(name) && editingName == old(editingName)
    {
      RemoveLength(shapes, id);
      if UniqueIds(shapes) {
        RemoveKeepsUnique(shapes, id);
      }
      shapes := RemoveShape(shapes, id);
    }

    /** `handleTitleSubmit`: a blank name is reset to the default, and the
        title leaves editing mode. */
    method TitleSubmit()
      modifies this
      ensures name == SubmittedTitle(old(name)) && !IsBlank(name) && !editingName
      ensures shapes == old(shapes) && dragged == old(dragged) && dragOffset == old(dragOffset)
    {
      TrimEmptyIffBlank(name);
      if Trim(name) == [] {
        name := DefaultName;
      }
      editingName := false;
    }

    /** The import of `handleFileChange`. `parsed` is None when no JSON file
        was chosen or its text did not parse; then, and when the document
        has no shape array, an alert is shown (`ok` is false) and nothing
        changes. */
    method FileLoaded(parsed: Option<Document>) returns (ok: bool)
      modifies this
      ensures ok <==> parsed.Some? && parsed.value.shapes.Some?
      ensures ok ==> LoadDocument(parsed.value, old(name)) == Ok(Loaded(name, shapes))
      ensures !ok ==> shapes == old(shapes) && name == old(name)
      ensures dragged == old(dragged) && dragOffset == old(dragOffset) && editingName == old(editingName)
    {
      if parsed.None? {
        return false;
      }
      var doc := parsed.value;
      if doc.shapes.Some? {
        shapes := doc.shapes.value;
        if NameIsTruthy(doc.name) {
          name := doc.name.value;
        }
        ok := true;
      } else {
        ok := false;
      }
    }

    /** `handleExport`: the document written out and the stem of its file
        name (the clock-based suffix is left out). */
    method Export() returns (doc: Document, stem: string)
      ensures doc == ExportDocument(name, shapes) && stem == Sanitize(name)
      ensures forall current :: LoadDocument(doc, current) == Ok(Loaded(if name == "" then current else name, shapes))
      ensures doc.version == Some(FormatVersion)
      ensures |stem| == |name| && forall i :: 0 <= i < |stem| ==> IsStemChar(stem[i])
    {
      doc := ExportDocument(name, shapes);
      forall current ensures LoadDocument(doc, current) == Ok(Loaded(if name == "" then current else name, shapes)) {
        ExportThenImport(name, shapes, current);
      }
      stem := Sanitize(name);
      SanitizeShape(name);
    }
  }

  /** A press on a shape followed by a move with the same pointer over the
      same canvas rectangle leaves every shape where it was. */
  method PressThenMove(app: PaintingApp, shape: Shape, pointer: Point, rect: Rect)
    requires shape in app.shapes && UniqueIds(app.shapes)
    modifies app
    ensures app.shapes == old(app.shapes) && app.dragged == Moving(shape.id)
  {
    app.ShapeMouseDown(shape, pointer, rect);
    app.CanvasMouseMove(pointer, rect);
    PressThenMoveIsNoOp(app.shapes, shape, pointer, rect);
  }

  /** Dragging a catalog entry onto the canvas adds one shape of that kind,
      centred under the pointer, after all existing ones. */
  method PlaceFromPalette(app: PaintingApp, kind: string, pointer: Point, rect: Rect, freshId: Id)
    requires kind in Kinds
    modifies app
    ensures |app.shapes| == |old(app.shapes)| + 1 && app.shapes[..|old(app.shapes)|] == old(app.shapes)
    ensures var s := app.shapes[|app.shapes| - 1];
      s.kind == Some(kind) && s.id == freshId &&
      s.x + CenterOffset == pointer.x - rect.left && s.y + CenterOffset == pointer.y - rect.top
    ensures app.dragged == Idle
  {
    app.DragStart(kind);
    app.CanvasDrop(pointer, rect, freshId);
  }
}
