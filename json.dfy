/** Values as they appear in a notebook's shared document: JSON-like data held in
    maps and arrays, and the Python exceptions that reading them can raise. */
module Json {

  datatype Option<+T> = None | Some(value: T) {
    function GetOr(default: T): T {
      match this
      case Some(v) => v
      case None => default
    }
  }

  datatype Result<+T, +E> = Success(value: T) | Failure(error: E) {
    predicate IsFailure() { Failure? }
    function PropagateFailure<U>(): Result<U, E> requires Failure? { Failure(error) }
    function Extract(): T requires Success? { value }
  }

  /** A JSON value as stored in cell or notebook metadata (floating point numbers are not modelled). */
  datatype Json =
    | JNull
    | JBool(b: bool)
    | JInt(i: int)
    | JStr(s: string)
    | JArr(items: seq<Json>)
    | JObj(fields: map<string, Json>)

  type JsonMap = map<string, Json>

  const EmptyObj: Json := JObj(map[])

  /** The exceptions the modelled Python code can raise. */
  datatype PyError =
    | KeyError(key: string)      // subscript of a mapping that lacks the key
    | AttributeError             // `.get` or `.append` on a value without that method
    | TypeError                  // iterating, subscripting or hashing a value that does not support it
    | ValueError(message: string)

  /** Python's truth value of a JSON value. */
  predicate Truthy(v: Json) {
    match v
    case JNull => false
    case JBool(b) => b
    case JInt(i) => i != 0
    case JStr(s) => s != ""
    case JArr(items) => items != []
    case JObj(fields) => fields != map[]
  }

  /** Values Python accepts as set members: every scalar, no list and no dict. */
  predicate Hashable(v: Json) {
    !v.JArr? && !v.JObj?
  }

  /** The member a Python set holds for `v`, up to equality: `True == 1` and `False == 0`
      (with equal hashes), so a boolean and the integer it equals are one and the same member. */
  function SetMember(v: Json): Json {
    if v.JBool? then JInt(if v.b then 1 else 0) else v
  }

  /** The number a string of decimal digits denotes, most significant digit first. */
  function DecimalValue(s: string): nat
    requires forall i | 0 <= i < |s| :: '0' <= s[i] <= '9'
  {
    if s == [] then 0 else 10 * DecimalValue(s[..|s| - 1]) + (s[|s| - 1] - '0') as nat
  }

  /** The decimal digits of `n`, most significant first, without leading zeros. */
  function Digits(n: nat): (r: string)
    ensures |r| >= 1
    ensures forall i | 0 <= i < |r| :: '0' <= r[i] <= '9'
    ensures r[0] == '0' <==> n == 0
    ensures DecimalValue(r) == n
    decreases n
  {
    var d := ['0' + (n % 10) as char];
    if n < 10 then d
    else
      var r := Digits(n / 10) + d;
      assert r[..|r| - 1] == Digits(n / 10);
      r
  }

  /** `str(n)` for an integer. */
  function IntToString(n: int): string {
    if n < 0 then "-" + Digits(-n) else Digits(n)
  }

  /** `m.get(key, default)` */
  function Get(m: JsonMap, key: string, default: Json): Json {
    if key in m then m[key] else default
  }

  /** Whether `key` occurs in `s` as a contiguous substring. */
  predicate IsSubstring(key: string, s: string) {
    exists i | 0 <= i <= |s| :: OccursAt(key, s, i)
  }

  predicate OccursAt(key: string, s: string, i: nat) {
    i + |key| <= |s| && s[i..i + |key|] == key
  }

  /** Python's `key in container` for a string key: a mapping tests its keys, a string its
      substrings, a list its elements; any other value raises TypeError. */
  function Contains(container: Json, key: string): (r: Result<bool, PyError>)
    ensures container.JObj? ==> r == Success(key in container.fields)
    ensures r.Failure? <==> container.JNull? || container.JBool? || container.JInt?
  {
    match container
    case JObj(fields) => Success(key in fields)
    case JStr(s) => Success(IsSubstring(key, s))
    case JArr(items) => Success(JStr(key) in items)
    case _ => Failure(TypeError)
  }
}
