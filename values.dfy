/** Dynamic values as the host program passes them around in Python dicts. */
module Values {

  datatype Option<+T> = None | Some(value: T)

  /** A Python value as it occurs in the payload dicts of the host program.
      Floats are kept as the decimal token they were parsed from. */
  datatype Val =
    | Null
    | Int(i: int)
    | Str(s: string)
    | Num(token: string)

  /** A Python dict with string keys. */
  type Payload = map<string, Val>

  /** True when every digit in a float token is '0' (the token denotes 0.0). */
  predicate ZeroToken(t: string)
  {
    forall k :: 0 <= k < |t| ==> t[k] !in "123456789"
  }

  /** Python truthiness of a value. */
  predicate Truthy(v: Val)
  {
    match v
    case Null => false
    case Int(i) => i != 0
    case Str(s) => s != ""
    case Num(t) => !ZeroToken(t)
  }

  /** Python truthiness of an optional dict argument: None and {} are false. */
  predicate TruthyPayload(d: Option<Payload>)
  {
    d.Some? && |d.value| > 0
  }

  /** `d.get(key)` on a dict argument. */
  function Get(d: Payload, key: string): Val
  {
    if key in d then d[key] else Null
  }

  /** Concatenation regroups freely. */
  lemma AppendAssoc<T>(a: seq<T>, b: seq<T>, c: seq<T>)
    ensures a + b + c == a + (b + c)
  {
  }

  /** Four single appends in a row are one block of four. */
  lemma Append4<T>(s: seq<T>, a: T, b: T, c: T, d: T)
    ensures s + [a] + [b] + [c] + [d] == s + [a, b, c, d]
  {
  }

  /** Five single appends in a row are one block of five. */
  lemma Append5<T>(s: seq<T>, a: T, b: T, c: T, d: T, e: T)
    ensures s + [a] + [b] + [c] + [d] + [e] == s + [a, b, c, d, e]
  {
  }
}
