/** The Python values the service handles: decoded JSON (from the Hatch API, the
    Redis cache and the sync-state file) plus objects JSON cannot encode, with the
    Python operations the source applies to them (truthiness, `dict.get`, `or`,
    `str()`, `json.dumps`/`json.loads`). */
module Json {
  import opened Wrappers
  import Decimal

  datatype Value =
    | Null                              // Python None / JSON null
    | Bool(b: bool)
    | Int(i: int)
    | Str(s: string)
    | List(items: seq<Value>)
    | Dict(fields: map<string, Value>)
    | Opaque(ref: nat)                  // a Python object with no JSON form (a datetime, a set, ...)

  /** A JSON object, i.e. a Python dict with string keys. */
  type Object = map<string, Value>

  /** Python truthiness (`if v:`, `not v`, `v or w`). */
  predicate Truthy(v: Value)
  {
    match v
    case Null => false
    case Bool(b) => b
    case Int(i) => i != 0
    case Str(s) => s != ""
    case List(items) => items != []
    case Dict(fields) => fields != map[]
    case Opaque(_) => true
  }

  /** `d.get(key)`: the stored value, or None when the key is absent. */
  function Get(d: Object, key: string): (v: Value)
    ensures key !in d ==> v == Null
  {
    if key in d then d[key] else Null
  }

  /** `d.get(key, default)`. */
  function GetOr(d: Object, key: string, default: Value): (v: Value)
    ensures key in d ==> v == d[key]
  {
    if key in d then d[key] else default
  }

  /** Python's `a or b`: the first operand if it is truthy, else the second. */
  function Or(a: Value, b: Value): (v: Value)
    ensures Truthy(v) <==> Truthy(a) || Truthy(b)
    ensures v == a || v == b
  {
    if Truthy(a) then a else b
  }

  /** Values usable as set elements and dict keys (Python raises TypeError
      "unhashable type" for lists and dicts). */
  predicate Hashable(v: Value) { !v.List? && !v.Dict? }

  /** `str(v)` for the scalar values that appear in event titles and keys. A list,
      dict or foreign object is rendered as a fixed placeholder, not as Python's repr. */
  function Show(v: Value): string
  {
    match v
    case Null => "None"
    case Bool(b) => if b then "True" else "False"
    case Int(i) => Decimal.IntToString(i)
    case Str(s) => s
    case _ => "<object>"
  }

  /** Whether `json.dumps` accepts the value: everything but foreign objects, at any depth. */
  predicate Encodable(v: Value)
  {
    match v
    case List(items) => forall i :: 0 <= i < |items| ==> Encodable(items[i])
    case Dict(fields) => forall k :: k in fields ==> Encodable(fields[k])
    case Opaque(_) => false
    case _ => true
  }

  /** A string as stored in Redis: either the JSON text of a value, or text that is
      not valid JSON. The encoder and decoder are characterised by their round trip. */
  datatype Text = Encoded(v: Value) | Malformed(raw: string)

  /** `json.dumps(v)`: fails (None) exactly on values it cannot encode. */
  function Dumps(v: Value): (t: Option<Text>)
    ensures t.Some? <==> Encodable(v)
  {
    if Encodable(v) then Some(Encoded(v)) else None
  }

  /** `json.loads(t)`: None stands for the decode error. */
  function Loads(t: Text): Option<Value>
  {
    match t
    case Encoded(v) => Some(v)
    case Malformed(_) => None
  }

  /** Decoding what `json.dumps` produced gives the value back. */
  lemma DumpsLoads(v: Value)
    requires Encodable(v)
    ensures Dumps(v).Some? && Loads(Dumps(v).value) == Some(v)
  {
  }
}
