/** JSON-like values held in a Qdrant point payload, and the shapes of the
    payloads the document service writes. */
module Values {

  type Id = string

  /** A payload value. Numbers are reals (scores are floats); `Strs` is a list
      of strings (tags); `Obj` is a nested mapping (metadata). */
  datatype Value =
    | Null
    | Num(n: real)
    | Str(s: string)
    | Strs(items: seq<string>)
    | Obj(fields: map<string, Value>)

  /** A payload, or any of the dictionaries the service builds from one. */
  type Payload = map<string, Value>

  datatype Option<T> = None | Some(value: T)

  /** Python's `d.get(key, default)`. */
  function Get(p: Payload, key: string, default: Value): Value
  {
    if key in p then p[key] else default
  }

  predicate IsStr(p: Payload, key: string)
  {
    key in p && p[key].Str?
  }

  /** An optional string field: absent, `None` or a string. */
  predicate OptStr(p: Payload, key: string)
  {
    key in p ==> p[key].Str? || p[key].Null?
  }

  /** An optional list-of-strings field: absent, `None` or a list. */
  predicate OptStrs(p: Payload, key: string)
  {
    key in p ==> p[key].Strs? || p[key].Null?
  }

  /** What every stored payload looks like (title and content are strings,
      category and source_type are strings or None, tags a list or None). */
  predicate Schema(p: Payload)
  {
    && IsStr(p, "title") && IsStr(p, "content")
    && OptStr(p, "category") && OptStr(p, "source_type")
    && OptStrs(p, "tags")
  }

  /** A payload stored under `id` that names an "id" names that same id. */
  predicate OwnId(id: Id, p: Payload)
  {
    "id" in p ==> p["id"] == Str(id)
  }

  /** The document dictionary a caller hands to add_document: the fields of the
      create schema with their declared types, plus an optional string "id". */
  predicate CreateShape(doc: Payload)
  {
    && IsStr(doc, "title") && IsStr(doc, "content")
    && ("id" in doc ==> doc["id"].Str?)
    && OptStr(doc, "category") && OptStr(doc, "source_type")
    && OptStrs(doc, "tags")
  }

  /** The updates dictionary a caller hands to update_document: whichever of
      the update schema's fields are present carry their declared types. */
  predicate UpdateShape(u: Payload)
  {
    && ("title" in u ==> u["title"].Str?)
    && ("content" in u ==> u["content"].Str?)
    && OptStr(u, "category") && OptStr(u, "source_type")
    && OptStrs(u, "tags")
  }
}
