/** JSON values as `json.loads` produces them, and the two ways the dispatchers read a decoded
    message: `dict.get(key)` and `dict.get(key, default)`. */
module Json {
  import opened Wrappers

  datatype Value =
    | Null
    | Bool(b: bool)
    | Int(i: int)
    | Float(x: real)
    | Str(s: string)
    | Arr(items: seq<Value>)
    | Obj(fields: map<string, Value>)

  /** A decoded request: a JSON object. */
  type Message = map<string, Value>

  /** `m.get(key, default)`: the value under `key`, or `default` when the key is absent. */
  function GetOr(m: Message, key: string, default: Value): (v: Value)
    ensures key in m ==> v == m[key]
    ensures key !in m ==> v == default
  {
    if key in m then m[key] else default
  }

  /** `m.get(key)`: Python's `None` both for an absent key and for a JSON `null`. */
  function Get(m: Message, key: string): (v: Value)
    ensures v == Null <==> key !in m || m[key] == Null
  {
    GetOr(m, key, Null)
  }

  /** Lists and dicts cannot be hashed: using one as a dictionary key raises TypeError. */
  predicate Hashable(v: Value)
  {
    !v.Arr? && !v.Obj?
  }

  /** The number a value stands for in Python arithmetic: booleans count as 0 and 1, integers and
      floats as themselves; anything else makes `*` raise TypeError. */
  function Number(v: Value): (n: Option<real>)
    ensures n.Some? <==> v.Bool? || v.Int? || v.Float?
    ensures v.Float? ==> n == Some(v.x)
    ensures v.Int? ==> n == Some(v.i as real)
    ensures v.Bool? ==> n == Some(if v.b then 1.0 else 0.0)
  {
    match v
    case Bool(b) => Some(if b then 1.0 else 0.0)
    case Int(i) => Some(i as real)
    case Float(x) => Some(x)
    case _ => None
  }

  /** A rate table as the JSON object `json.dumps` writes for it. */
  function TableValue(t: map<string, real>): (v: Value)
    ensures v.Obj? && v.fields.Keys == t.Keys
    ensures forall code :: code in t ==> v.fields[code] == Float(t[code])
  {
    Obj(map code | code in t :: Float(t[code]))
  }
}
