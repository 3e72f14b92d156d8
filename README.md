# PaintJs canvas engine in Dafny

A model of the interaction engine inside the `PaintingApp` React component
(`src/App.js`): the user drags shapes (square, circle, triangle) from a
palette onto a canvas, moves placed shapes by pressing and dragging them,
deletes them by double-clicking, renames the painting, and exports or
imports the painting as a document.

- `shapes.dfy` (module `Shapes`): the template catalog `shapeTemplates`, the
  placed `Shape` record, pointer and canvas-rectangle geometry, and the drag
  state. The component's single `draggedShape` variable is made an explicit
  datatype `Idle | Placing(kind) | Moving(id)`. `Truthy` gives its
  JavaScript truthiness: `Placing("")` and `Moving(0)` are falsy.
- `scene.dfy` (module `Scene`): the list updates the handlers perform, that
  is, the `map` that repositions the dragged id and the `filter` that
  deletes by id. It also holds the lemmas about them and about the append
  done by a drop.
- `counts.dfy` (module `Counts`): the `shapeCounts` reduce and the footer's
  `|| 0` default. The lemmas relate the counts to the multiset of shape
  types and prove that they sum to the number of shapes.
- `naming.dfy` (module `Naming`): `trim`, the blank-title reset to
  `'My Painting'`, and the export file-name sanitiser.
- `document.dfy` (module `Document`): the exported document and the
  acceptance test applied to an imported one.
- `app.dfy` (module `App`): class `PaintingApp`. It holds the component's
  state fields, and each handler is a method with `modifies this`. Two
  client methods compose handlers into whole gestures.

Each handler is one atomic state transition. The host supplies these values
as parameters:

- pointer coordinates (`e.clientX/Y`);
- the canvas rectangle (`getBoundingClientRect`);
- the fresh id (`Date.now() + Math.random()`);
- the parsed import file.

A drop while a placed shape is being moved is modelled as the code does it.
The drop guard only tests truthiness, so the drop appends a shape that has
an id and a position but no type, size or colour (`Placed`, `CanvasDrop`).

Unique ids are not an invariant of the component, because an imported
file may repeat ids. Instead, each list operation is proved to preserve
uniqueness: a drop with a fresh id, a move, and a delete.

Behaviours of the code that the model keeps as they are:

- A move never clamps a shape to the canvas (src/App.js:59-60).
- A template lookup with a key outside the catalog yields `undefined`, and
  its spread adds no fields (src/App.js:33).
- The append of a dropped shape does not check ids (src/App.js:38).
- An exported empty name is not restored on import, because the import
  only takes a truthy name (src/App.js:136).

## Model

| member | source | states |
|---|---|---|
| `Shapes.TemplateFor` | src/App.js:15-19 | exactly the three catalog keys have a template; each carries its own key as type and is 60x60 |
| `Shapes.Truthy` | src/App.js:28 | JavaScript truthiness of the drag state: idle is falsy; a placed kind is truthy exactly when it is not empty, so every catalog kind is; a moved id is truthy exactly when it is not 0 |
| `Shapes.TemplateOf` | src/App.js:33 | the lookup `shapeTemplates[draggedShape]` yields a template exactly when a catalog kind is being placed, and that template carries the kind as its type |
| `Shapes.Local` | src/App.js:29-31 | canvas-local coordinates plus the canvas origin give back the viewport point |
| `Shapes.Placed` | src/App.js:28-37 | the dropped shape has the fresh id and sits at the local drop point minus 30 on both axes; when the dragged value names a template it carries that template's type, width, height and colour, otherwise (a drop while moving, or an unknown key) it has none of them |
| `Shapes.GrabOffset` | src/App.js:48-52 | the offset is the local pointer minus the shape's top-left corner, so local pointer minus offset is the shape's position |
| `Shapes.DragTarget` | src/App.js:59-60 | the move target plus the grab offset is the canvas-local pointer, on both axes |
| `Shapes.PlacedCentredUnderPointer` | src/App.js:30-31 | because every template is 60x60, the fixed offset of 30 centres a placed shape under the pointer |
| `Shapes.SquareDropExample` | src/App.js:29-31 | a square dropped at viewport (130, 230) over a canvas at (100, 200) lands at (0, 0) |
| `Scene.MoveOne` | src/App.js:63 | one element of the move: id, type, size and colour are kept; a shape with the dragged id gets the new x and y; any other shape is returned unchanged |
| `Scene.MoveShape` | src/App.js:61-65 | the move keeps length, order, ids, type, size and colour; shapes with another id are unchanged; shapes with the dragged id get the new x and y |
| `Scene.RemoveShape` | src/App.js:75 | a shape survives the delete if and only if it was in the list and has another id; the list never grows |
| `Scene.MoveAbsentIsNoOp` | src/App.js:61-65 | a move of an id no shape carries leaves the list unchanged |
| `Scene.MoveKeepsIds` | src/App.js:61-65 | a move keeps the id list, hence keeps ids unique |
| `Scene.MoveToOwnPositionIsNoOp` | src/App.js:61-65 | moving a shape with a unique id to its own position leaves the list unchanged |
| `Scene.PressThenMoveIsNoOp` | src/App.js:46-65 | when ids are unique: press on a shape, then move with the same pointer and rectangle, and the list is unchanged (the grab point is preserved) |
| `Scene.PressThenMoveKeepsPressed` | src/App.js:46-65 | for any ids: press on a shape, then move with the same pointer and rectangle, and the pressed shape itself is unchanged at its index (other shapes with the same id may jump to it) |
| `Scene.MoveTwice` | src/App.js:61-65 | two moves of the same id equal one move to the second position |
| `Scene.RemoveAbsentIsNoOp` | src/App.js:74-76 | deleting an id that no shape carries is a no-op |
| `Scene.RemoveLeavesNoneWithId` | src/App.js:75 | after a delete, no shape carries the id |
| `Scene.RemoveIdempotent` | src/App.js:74-76 | deleting the same id twice equals deleting it once |
| `Scene.RemoveConcat` | src/App.js:75 | the delete distributes over concatenation, so survivors keep their original order |
| `Scene.RemoveLength` | src/App.js:75 | the delete shortens the list by exactly the number of shapes with that id |
| `Scene.UniqueOccurrence` | src/App.js:74-76 | with unique ids an id occurs at most once, so a delete removes at most one shape |
| `Scene.RemoveKeepsUnique` | src/App.js:75 | a delete keeps ids unique |
| `Scene.AppendFresh` | src/App.js:32-38 | appending a shape with a fresh id keeps ids unique, and the new id occurs exactly once |
| `Counts.TypeKey` | src/App.js:101 | no contract; the key is the shape's type, or "undefined" when it has none; `CountsAreOccurrences` characterises the counts in terms of these keys |
| `Counts.CountOr0` | src/App.js:101 | no contract; an absent key reads as 0 (also the footer's reads at lines 333, 344, 357); `CountsAreOccurrences` and `CountsExample` state it through the counts |
| `Counts.ShapeCounts` | src/App.js:100-103 | every key present has a count of at least 1 and is the type key of some shape; `CountsAreOccurrences` and `CountsSumToLength` characterise it fully |
| `Counts.CountsAreOccurrences` | src/App.js:100-103 | the count read for a kind (0 when absent) equals the number of shapes of that type; a kind has an entry exactly when some shape has that type |
| `Counts.CountsSumToLength` | src/App.js:100-103 | the counts sum to the number of shapes |
| `Counts.MoveKeepsCounts` | src/App.js:100-103 | a move never changes the counts |
| `Counts.CountsExample` | src/App.js:100-103 | two circles and a triangle give {circle: 2, triangle: 1}, and the footer reads square as 0 |
| `Naming.TrimEmptyIffBlank` | src/App.js:88 | `trim()` is empty if and only if the name is all ECMAScript white space |
| `Naming.TrimStart` | src/App.js:88 | strips a blank prefix: the result is a suffix of the name, what was removed is all white space, and the result does not start with white space |
| `Naming.TrimEnd` | src/App.js:88 | strips a blank suffix: the result is a prefix of the name, what was removed is all white space, and the result does not end with white space |
| `Naming.Trim` | src/App.js:88 | `trim()` is never longer than the name, neither starts nor ends with white space, and is empty for a blank name |
| `Naming.SubmittedTitle` | src/App.js:87-92 | a blank name becomes 'My Painting', any other name is kept untrimmed, and the result is never blank |
| `Naming.ReplaceNonAlnum` | src/App.js:114 | every character that is not an ASCII letter or digit becomes '_', the others are kept, the length is the same |
| `Naming.LowerAscii` | src/App.js:114 | an upper-case ASCII letter becomes the same letter in lower case; every other character is kept |
| `Naming.ToLowerAscii` | src/App.js:114 | each character is lower-cased in place, the length is the same |
| `Naming.SanitizeShape` | src/App.js:114 | the stem has the name's length and only [a-z0-9_]; '_' appears exactly where the name had a non-alphanumeric character; letters are lower-cased in place |
| `Naming.Sanitize` | src/App.js:114 | the stem has the name's length and only lower-case ASCII letters, digits and '_' |
| `Naming.SanitizeIdempotent` | src/App.js:114 | sanitising twice equals sanitising once |
| `Document.NameIsTruthy` | src/App.js:136 | no contract; a missing or empty name is falsy; `ExportThenImport` and `LoadDocument` state its effect on import |
| `Document.ExportDocument` | src/App.js:106-111 | for every current name, the import accepts the exported document and gives back exactly the exported shapes, and the exported name unless it is empty (then the current name stays) |
| `Document.LoadDocument` | src/App.js:133-138 | the import succeeds if and only if the document has a shape array; then the shapes are that array, and the name is the document's when truthy, else the current one |
| `Document.ExportThenImport` | src/App.js:106-111 | importing an exported document restores the shape list exactly, and the name unless it was empty |
| `Document.MissingShapesRejected` | src/App.js:133-141 | a document without a shape array is rejected |
| `App.PaintingApp.constructor` | src/App.js:6-10 | the component starts with no shapes, nothing dragged, a zero offset, 'My Painting' as name, not editing |
| `App.PaintingApp.DragStart` | src/App.js:21-24 | the dragged kind is recorded as the drag state, nothing else changes |
| `App.PaintingApp.CanvasDrop` | src/App.js:26-40 | a falsy drag state changes nothing; otherwise exactly the placed shape is appended after the unchanged old list, the drag ends, and the offset is kept; a fresh id keeps ids unique |
| `App.PaintingApp.ShapeMouseDown` | src/App.js:46-54 | the grab offset and the moved id are recorded; the shapes are unchanged |
| `App.PaintingApp.CanvasMouseMove` | src/App.js:56-67 | only a truthy numeric drag state moves shapes (those with the dragged id, to pointer minus offset); otherwise nothing changes; the drag state and offset are kept |
| `App.PaintingApp.MouseUp` | src/App.js:69-72 | the drag state becomes idle and the offset (0, 0); the shapes are unchanged |
| `App.PaintingApp.ShapeDoubleClick` | src/App.js:74-76 | the list becomes the delete of the id, shorter by that id's occurrences; uniqueness is kept; the drag state is untouched |
| `App.PaintingApp.TitleSubmit` | src/App.js:87-92 | the name becomes the submitted title (never blank) and editing ends |
| `App.PaintingApp.FileLoaded` | src/App.js:126-151 | an import succeeds exactly when a parsed document has a shape array; then the shapes are replaced wholesale and the name is replaced if truthy; otherwise shapes and name are unchanged |
| `App.PaintingApp.Export` | src/App.js:105-115 | the document is the current name and shapes with version "1.0", and imports back to those shapes and that name (the current name stays when the exported one is empty); the file stem is the sanitised name, of the name's length in [a-z0-9_] |
| `App.PressThenMove` | src/App.js:46-65 | when ids are unique, a press followed by a move at the same pointer leaves every shape where it was |
| `App.PlaceFromPalette` | src/App.js:21-40 | dragging a catalog entry onto the canvas appends one shape of that kind with the fresh id, centred at the pointer, after the unchanged old shapes, and ends the drag |

## Left out

- Rendering, Bootstrap classes and hover styling (src/App.js:153-373) are
  UI only.
- `handleDragOver` only calls `preventDefault`. `handleImport` only clicks
  the hidden file input. Neither changes any state.
- Title editing: `handleTitleClick` with its focus timer,
  `handleTitleChange` and `handleTitleKeyPress` are not modelled. The name
  is modelled only as import and title submission change it.
- Browser APIs are parameters, not models. The canvas rectangle replaces
  `getBoundingClientRect`, and the pointer is passed in. `FileReader`,
  `Blob`, `URL.createObjectURL`, the download link and `alert` are left
  out; `FileLoaded` returns `false` where the code raises an alert.
- `JSON.parse` and `JSON.stringify` are foreign calls. Import receives an
  already-parsed document, where None stands for no JSON file or an
  unparsable file. The export's ISO timestamp and the `Date.now()` suffix
  of the file name are clock reads and are not modelled.
- Id generation (`Date.now() + Math.random()`) is nondeterministic, so the
  fresh id is a parameter. Uniqueness is proved only under the hypothesis
  that the id is fresh.
- Ids and coordinates are JavaScript numbers; the model uses `int`.
  Floating-point rounding is not modelled: the grab-point and centring
  results hold in exact arithmetic.
- Imported content is modelled only as far as `Shape` and `Document` can
  represent it. The model has no string ids, no non-string type or name
  values, and no array entries that are not objects.
- `Counts.ShapeCounts` treats the accumulator as a plain dictionary. In
  the code it is an object literal, so a type equal to an
  `Object.prototype` member such as "constructor" or "__proto__" behaves
  differently. That can only come from an imported file.
- `Naming.ReplaceNonAlnum` treats a character outside the Basic
  Multilingual Plane as one character. The code works on UTF-16 code
  units and turns such a character into two underscores.
- `Naming.ToLowerAscii` lower-cases ASCII only, whereas `toLowerCase`
  handles all of Unicode. After the replacement only ASCII remains, so the
  two agree on the strings the sanitiser lower-cases.
- React's batching and updater functions are not modelled. Each handler
  reads the state committed before it and is one atomic transition.
- Bounds clamping is not in the code, so no clamping property is stated.
