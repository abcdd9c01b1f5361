/**
 * Decoded JSON values as Python sees them after `response.json()`, with the few
 * Python operations the bot code applies to them: truthiness, `dict.get`,
 * subscripting, iteration, `len`, `in` and `str()`. An operation that would raise
 * (KeyError, IndexError, TypeError, AttributeError) yields `Raised`.
 */
module PyJson {
  import opened Common
  import opened Text

  /**
   * A JSON value. Floats are carried as the text Python prints for them, since the
   * code only ever formats or tests them for truthiness.
   */
  datatype Json =
    | JNull
    | JBool(b: bool)
    | JInt(i: int)
    | JFloat(shown: string)
    | JStr(s: string)
    | JList(items: seq<Json>)
    | JObj(fields: seq<(string, Json)>)

  /** A Python computation that either produces a value or raises. */
  datatype Py<+T> = Value(v: T) | Raised
  {
    predicate IsFailure() { Raised? }

    function PropagateFailure<U>(): Py<U>
      requires Raised?
    {
      Raised
    }

    function Extract(): T
      requires Value?
    {
      v
    }
  }

  /** `bool(j)`: None, False, zero and empty containers are false. */
  predicate Truthy(j: Json)
  {
    match j
    case JNull => false
    case JBool(b) => b
    case JInt(i) => i != 0
    case JFloat(t) => t != "0.0" && t != "-0.0"
    case JStr(s) => s != ""
    case JList(xs) => xs != []
    case JObj(kv) => kv != []
  }

  /** The value bound to `k` in a decoded object; a repeated key keeps its last value, as `json.loads` does. */
  function Lookup(kv: seq<(string, Json)>, k: string): (r: Option<Json>)
    ensures r.None? <==> (forall i :: 0 <= i < |kv| ==> kv[i].0 != k)
    ensures r.Some? ==> exists i :: 0 <= i < |kv| && kv[i] == (k, r.value)
  {
    if kv == [] then None
    else if kv[|kv| - 1].0 == k then Some(kv[|kv| - 1].1)
    else
      Lookup(kv[..|kv| - 1], k)
  }

  predicate HasKey(kv: seq<(string, Json)>, k: string)
  {
    exists i :: 0 <= i < |kv| && kv[i].0 == k
  }

  /** `j.get(k, default)`: only a dict has `.get`. */
  function GetOr(j: Json, k: string, default: Json): (r: Py<Json>)
    ensures r.Value? <==> j.JObj?
    ensures j.JObj? && !HasKey(j.fields, k) ==> r == Value(default)
  {
    match j
    case JObj(kv) =>
      var found := Lookup(kv, k);
      if found.Some? then Value(found.value) else Value(default)
    case _ => Raised
  }

  /** `j.get(k)`. */
  function Get(j: Json, k: string): Py<Json>
  {
    GetOr(j, k, JNull)
  }

  /** `j[k]` with a string key: a missing key or a non-dict raises. */
  function Sub(j: Json, k: string): (r: Py<Json>)
    ensures r.Value? <==> j.JObj? && HasKey(j.fields, k)
  {
    match j
    case JObj(kv) =>
      var found := Lookup(kv, k);
      if found.Some? then Value(found.value) else Raised
    case _ => Raised
  }

  /** `j[0]`: the first element of a list or character of a string; a dict from JSON has no key 0. */
  function Index0(j: Json): (r: Py<Json>)
    ensures j.JList? && j.items != [] ==> r == Value(j.items[0])
    ensures r.Value? ==> Truthy(j)
  {
    match j
    case JList(xs) => if xs == [] then Raised else Value(xs[0])
    case JStr(s) => if s == "" then Raised else Value(JStr([s[0]]))
    case _ => Raised
  }

  function Chars(s: string): (r: seq<Json>)
    ensures |r| == |s|
    ensures forall i :: 0 <= i < |s| ==> r[i] == JStr([s[i]])
  {
    if s == "" then [] else [JStr([s[0]])] + Chars(s[1..])
  }

  function Keys(kv: seq<(string, Json)>): (r: seq<Json>)
    ensures |r| == |kv|
    ensures forall i :: 0 <= i < |kv| ==> r[i] == JStr(kv[i].0)
  {
    if kv == [] then [] else [JStr(kv[0].0)] + Keys(kv[1..])
  }

  /** `for x in j`: a list yields its elements, a dict its keys, a string its characters. */
  function Iterate(j: Json): (r: Py<seq<Json>>)
    ensures j.JList? ==> r == Value(j.items)
    ensures r.Value? ==> (|r.v| == 0 <==> !Truthy(j))
  {
    match j
    case JList(xs) => Value(xs)
    case JObj(kv) => Value(Keys(kv))
    case JStr(s) => Value(Chars(s))
    case _ => Raised
  }

  /** `len(j)`. */
  function Len(j: Json): (r: Py<nat>)
    ensures r.Value? <==> (j.JList? || j.JObj? || j.JStr?)
    ensures r.Value? ==> (r.v == 0 <==> !Truthy(j))
  {
    match j
    case JList(xs) => Value(|xs|)
    case JObj(kv) => Value(|kv|)
    case JStr(s) => Value(|s|)
    case _ => Raised
  }

  predicate IsInfix(needle: string, hay: string)
    decreases |hay|
  {
    needle <= hay || (hay != [] && IsInfix(needle, hay[1..]))
  }

  /** `k in j`: key membership on a dict, element membership on a list, substring on a string. */
  function Contains(j: Json, k: string): (r: Py<bool>)
    ensures j.JObj? ==> r == Value(HasKey(j.fields, k))
  {
    match j
    case JObj(kv) => Value(HasKey(kv, k))
    case JList(xs) => Value(JStr(k) in xs)
    case JStr(s) => Value(IsInfix(k, s))
    case _ => Raised
  }

  /** `str(j)` as an f-string renders it. */
  function Str(j: Json): (r: string)
    ensures j.JStr? ==> r == j.s
    ensures j.JNull? ==> r == "None"
    decreases j, 1
  {
    match j
    case JNull => "None"
    case JBool(b) => if b then "True" else "False"
    case JInt(i) => IntToDecimal(i)
    case JFloat(t) => t
    case JStr(s) => s
    case JList(xs) => "[" + ReprItems(xs) + "]"
    case JObj(kv) => "{" + ReprFields(kv) + "}"
  }

  /** `repr(j)`: strings are quoted, everything else prints as `str`. */
  function Repr(j: Json): string
    decreases j, 2
  {
    if j.JStr? then "'" + j.s + "'" else Str(j)
  }

  function ReprItems(xs: seq<Json>): string
    decreases xs
  {
    if xs == [] then ""
    else Repr(xs[0]) + (if |xs| == 1 then "" else ", " + ReprItems(xs[1..]))
  }

  function ReprFields(kv: seq<(string, Json)>): string
    decreases kv
  {
    if kv == [] then ""
    else
      assert kv[0] in kv && kv[0].1 < kv[0];
      "'" + kv[0].0 + "': " + Repr(kv[0].1)
        + (if |kv| == 1 then "" else ", " + ReprFields(kv[1..]))
  }
}
