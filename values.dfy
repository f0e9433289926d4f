/** JavaScript values as the persistence layer sees them: reducer states,
    action payloads and the fields of database documents. */
module Values {

  datatype Option<+T> = None | Some(value: T)

  /** A JSON-like JavaScript value. Numbers are modelled as integers. */
  datatype Value =
    | Undefined
    | Null
    | Bool(b: bool)
    | Num(n: int)
    | Str(s: string)
    | Arr(items: seq<Value>)
    | Obj(fields: map<string, Value>)

  /** JavaScript truthiness: `undefined`, `null`, `false`, `0` and `""` are
      falsy; every array and object (even an empty one) is truthy. */
  predicate Truthy(v: Value)
  {
    match v
    case Undefined => false
    case Null => false
    case Bool(b) => b
    case Num(n) => n != 0
    case Str(s) => s != ""
    case Arr(_) => true
    case Obj(_) => true
  }

  /** A database document: an object from field names to values
      (`_id`, `_rev`, `localId`, `state`, and whatever else it holds). */
  type Doc = map<string, Value>

  /** Property access `doc.key`: an absent field reads as `undefined`. */
  function Field(doc: Doc, key: string): (v: Value)
    ensures key !in doc ==> v == Undefined
    ensures key in doc ==> v == doc[key]
  {
    if key in doc then doc[key] else Undefined
  }
}
