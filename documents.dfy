/** The values that flow between the library and the document store: the
    JSON/BSON subset the routes handle, with ObjectId as a value of its own. */
module Documents {
  import opened Base
  import opened ObjectIds

  datatype Value =
    | VNone
    | VBool(b: bool)
    | VInt(i: int)
    | VStr(s: string)
    | VOid(oid: ObjectId)
    | VList(items: seq<Value>)
    | VDoc(fields: map<string, Value>)

  /** A Python dict with string keys; key order is not modelled. */
  type Document = map<string, Value>

  /** Python truthiness of a value (`if pydict.get('_id'):`). An ObjectId
      defines no `__bool__`, so it is always true. */
  predicate Truthy(v: Value) {
    match v
    case VNone => false
    case VBool(b) => b
    case VInt(i) => i != 0
    case VStr(s) => s != ""
    case VOid(_) => true
    case VList(items) => items != []
    case VDoc(fields) => fields != map[]
  }

  /** `d.get(k)`: the value under `k`, or None. */
  function Get(d: Document, k: string): (v: Value)
    ensures k !in d ==> v == VNone
    ensures k in d ==> v == d[k]
  {
    if k in d then d[k] else VNone
  }

  /** The entries of `d` whose value is not None (`exclude_none=True`). */
  function ExcludeNone(d: Document): (e: Document)
    ensures forall k :: k in e <==> k in d && d[k] != VNone
    ensures forall k | k in e :: e[k] == d[k]
  {
    map k | k in d && d[k] != VNone :: d[k]
  }

  /** `ObjectId(v)`: a string is parsed, an ObjectId is kept, None makes a new
      ObjectId (`newId`, supplied by the caller since it is time- and
      random-based) and any other value is a TypeError. */
  function ObjectIdOf(v: Value, newId: ObjectId): Result<ObjectId>
  {
    match v
    case VStr(s) => Parse(s)
    case VOid(o) => Ok(o)
    case VNone => Ok(newId)
    case _ => Raise(TypeError)
  }
}
