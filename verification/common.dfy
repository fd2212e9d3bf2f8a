/**
 * Shared vocabulary: optional values, the outcome of a remote call, HTTP
 * responses, JSON values, and JavaScript's notion of a "truthy" string.
 */
module Common {

  /** A value that may be missing (`null` or `undefined` in the source). */
  datatype Option<+T> = None | Some(value: T)

  /** The outcome of a call into the remote platform: a value, or a thrown error. */
  datatype Remote<+T> = Ok(value: T) | Fail

  /** An HTTP response: a success body or an error message, each with its status code. */
  datatype Response<+T> = Success(code: nat, body: T) | Error(code: nat, message: string)

  /** A JSON value as seen by JavaScript code; `Absent` is a missing key (`undefined`). */
  datatype JsonValue =
    | Absent
    | Null
    | Bool(b: bool)
    | Number(n: real)
    | Str(s: string)
    | Composite  // an object or an array

  /** JavaScript truthiness of a JSON value (JSON has no NaN). */
  predicate JsonTruthy(v: JsonValue)
  {
    match v
    case Absent => false
    case Null => false
    case Bool(b) => b
    case Number(n) => n != 0.0
    case Str(s) => s != ""
    case Composite => true
  }

  /** `x || undefined` on a `string | null | undefined`: the empty string counts as missing. */
  function Truthy(x: Option<string>): (r: Option<string>)
    ensures r.Some? <==> x.Some? && x.value != ""
    ensures r.Some? ==> r == x
  {
    if x.Some? && x.value != "" then x else None
  }

  /** Lookup of a key in a header or query-parameter table (`get` returns null when absent). */
  function Lookup(m: map<string, string>, key: string): (r: Option<string>)
    ensures r.Some? <==> key in m
    ensures r.Some? ==> r.value == m[key]
  {
    if key in m then Some(m[key]) else None
  }

  /** The chain `a || b || ... || undefined`: the first truthy candidate, if any. */
  function FirstTruthy(xs: seq<Option<string>>): (r: Option<string>)
    ensures r.None? <==> forall i :: 0 <= i < |xs| ==> Truthy(xs[i]).None?
    ensures r.Some? ==>
      (r.value != "" && exists i :: 0 <= i < |xs| && xs[i] == r && forall j :: 0 <= j < i ==> Truthy(xs[j]).None?)
  {
    if |xs| == 0 then None
    else if Truthy(xs[0]).Some? then xs[0]
    else
      var rest := FirstTruthy(xs[1..]);
      assert forall i :: 1 <= i < |xs| ==> xs[i] == xs[1..][i - 1];
      rest
  }

  /** Index of the first element satisfying `p`, or `|s|` when none does. */
  function FirstIndex<T>(s: seq<T>, p: T -> bool): (k: nat)
    ensures k <= |s|
    ensures k < |s| ==> p(s[k])
    ensures forall j :: 0 <= j < k ==> !p(s[j])
  {
    if |s| == 0 then 0
    else if p(s[0]) then 0
    else 1 + FirstIndex(s[1..], p)
  }

  /** JavaScript's `s.startsWith(prefix)`. */
  predicate StartsWith(s: string, prefix: string)
  {
    |prefix| <= |s| && s[..|prefix|] == prefix
  }
}
