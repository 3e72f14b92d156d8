/** The painting document exchanged through export and import: the name,
    the literal shape list and the format version. */
module Document {
  import opened Shapes

  /** The format version written by the export. */
  const FormatVersion: string := "1.0"

  /** A parsed painting document, as far as import reads it. `shapes` is
      None when the field is missing or not an array; `name` is None when
      the field is missing. */
  datatype Document = Document(name: Option<string>, shapes: Option<seq<Shape>>, version: Option<string>)

  /** The scene an accepted document installs. */
  datatype Loaded = Loaded(name: string, shapes: seq<Shape>)

  /** The only way an import fails once the file has been parsed. */
  datatype ImportError = InvalidFormat

  datatype Result<T> = Ok(value: T) | Err(error: ImportError)

  /** `if (paintingData.name)`: a missing or empty name is falsy. */
  predicate NameIsTruthy(name: Option<string>) {
    name.Some? && name.value != ""
  }

  /** The document `handleExport` builds (its timestamp is left out). */
  function ExportDocument(name: string, shapes: seq<Shape>): (d: Document)
    ensures forall current :: LoadDocument(d, current) == Ok(Loaded(if name == "" then current else name, shapes))
  {
    Document(Some(name), Some(shapes), Some(FormatVersion))
  }

  /** The body of the reader's `onload`: a document whose `shapes` is an
      array replaces the shape list wholesale, and its name too when that is
      truthy; any other document is rejected. The version is not looked at. */
  function LoadDocument(doc: Document, currentName: string): (r: Result<Loaded>)
    ensures r.Ok? <==> doc.shapes.Some?
    ensures r.Ok? ==> r.value.shapes == doc.shapes.value
    ensures r.Ok? && NameIsTruthy(doc.name) ==> r.value.name == doc.name.value
    ensures r.Ok? && !NameIsTruthy(doc.name) ==> r.value.name == currentName
  {
    if doc.shapes.Some? then
      Ok(Loaded(if NameIsTruthy(doc.name) then doc.name.value else currentName, doc.shapes.value))
    else Err(InvalidFormat)
  }

  /** Importing an exported document gives back exactly the exported shape
      list, and the exported name unless it was empty (an empty name is
      falsy, so the current one stays). */
  lemma ExportThenImport(name: string, shapes: seq<Shape>, currentName: string)
    ensures LoadDocument(ExportDocument(name, shapes), currentName)
      == Ok(Loaded(if name == "" then currentName else name, shapes))
  {
  }

  /** A document without a shape array is rejected whatever its name and
      version, so nothing of it is installed. */
  lemma MissingShapesRejected(doc: Document, currentName: string)
    requires doc.shapes.None?
    ensures LoadDocument(doc, currentName) == Err(InvalidFormat)
  {
  }
}
