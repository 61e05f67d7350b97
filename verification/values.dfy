/** The values a Tabulator configuration can hold. */
module Values {
  import opened Dict

  /**
   The PHP values the builder stores: `null`, strings, integers, floats,
   booleans, lists, string-keyed arrays, and a caller-supplied callable,
   which the builder stores but never invokes and which is therefore kept
   as an opaque identifier.
   */
  datatype Value =
    | Null
    | Str(s: string)
    | Int(i: int)
    | Float(r: real)
    | Bool(b: bool)
    | List(items: seq<Value>)
    | Obj(fields: Dict<Value>)
    | Callback(id: nat)
}
