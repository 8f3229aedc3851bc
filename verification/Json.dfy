/** Parsed YAML and JSON values. */
module Json {
  import opened Basics

  datatype Json =
    | Null
    | Bool(b: bool)
    | Int(n: int)
    | Real(x: real)
    | NonFinite
    | Str(s: string)
    | Arr(items: seq<Json>)
    | Obj(fields: map<string, Json>)
    | Opaque

  /** json.dumps accepts the value: plain data without NaN or infinities. */
  predicate Serializable(j: Json) {
    match j
    case NonFinite => false
    case Opaque => false
    case Arr(items) => forall i :: 0 <= i < |items| ==> Serializable(items[i])
    case Obj(fields) => forall k :: k in fields ==> Serializable(fields[k])
    case _ => true
  }

  /** The value is the other one or has it somewhere inside. */
  ghost predicate Has(j: Json, x: Json)
    decreases j
  {
    || j == x
    || (j.Arr? && exists i :: 0 <= i < |j.items| && Has(j.items[i], x))
    || (j.Obj? && exists k :: k in j.fields && Has(j.fields[k], x))
  }

  /** What json.dumps refuses is somewhere inside. */
  lemma {:induction false} SerializableIff(j: Json)
    ensures Serializable(j) <==> !Has(j, NonFinite) && !Has(j, Opaque)
    decreases j
  {
    if j.Arr? {
      forall i | 0 <= i < |j.items|
        ensures Serializable(j.items[i]) <==> !Has(j.items[i], NonFinite) && !Has(j.items[i], Opaque)
      {
        SerializableIff(j.items[i]);
      }
    } else if j.Obj? {
      forall k | k in j.fields
        ensures Serializable(j.fields[k]) <==> !Has(j.fields[k], NonFinite) && !Has(j.fields[k], Opaque)
      {
        SerializableIff(j.fields[k]);
      }
    }
  }

  /** isinstance(value, (int, float)): booleans are numbers too. */
  function Number(j: Json): Option<real> {
    match j
    case Int(n) => Some(n as real)
    case Real(x) => Some(x)
    case Bool(b) => Some(if b then 1.0 else 0.0)
    case _ => None
  }

  /** bool(value) */
  predicate Truthy(j: Json) {
    match j
    case Null => false
    case Bool(b) => b
    case Int(n) => n != 0
    case Real(x) => x != 0.0
    case Str(s) => s != ""
    case Arr(items) => items != []
    case Obj(fields) => fields != map[]
    case _ => true
  }

  /** dict.get(key, default) */
  function Get(fields: map<string, Json>, key: string, default: Json): Json {
    if key in fields then fields[key] else default
  }

  /** str.isspace() of one character. */
  predicate IsSpace(c: char) {
    var n := c as int;
    || 9 <= n <= 13 || 28 <= n <= 32 || n == 0x85 || n == 0xA0 || n == 0x1680 || 0x2000 <= n <= 0x200A
    || n == 0x2028 || n == 0x2029 || n == 0x202F || n == 0x205F || n == 0x3000
  }

  function StripLeft(s: string): string {
    if s != "" && IsSpace(s[0]) then StripLeft(s[1..]) else s
  }

  function StripRight(s: string): string {
    if s != "" && IsSpace(s[|s| - 1]) then StripRight(s[..|s| - 1]) else s
  }

  /** str.strip() */
  function Strip(s: string): string { StripRight(StripLeft(s)) }
}
