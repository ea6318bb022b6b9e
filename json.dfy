/**
 * Decoded API payloads. The platform's REST API returns loosely typed JSON,
 * and the Python code reads it with `dict.get`, truthiness tests and the `in`
 * operator. This module gives those operations their Python meaning, including
 * the cases where Python raises (an `AttributeError` from `.get` on a non-dict,
 * a `TypeError` from `in` on a number or from hashing a list). A raising
 * operation returns `None`.
 */
module Json {
  import opened Wrappers

  /** A JSON value. Python's `int` and `float` are both `Num`. */
  datatype Value =
    | Null
    | Bool(b: bool)
    | Num(n: real)
    | Str(s: string)
    | Arr(items: seq<Value>)
    | Obj(fields: map<string, Value>)

  /** A JSON object, i.e. a Python `dict` with string keys. */
  type Record = map<string, Value>

  /** Python truthiness (`if v:`). */
  predicate Truthy(v: Value) {
    match v
    case Null => false
    case Bool(b) => b
    case Num(n) => n != 0.0
    case Str(s) => s != ""
    case Arr(items) => items != []
    case Obj(f) => f != map[]
  }

  /** `r.get(key, default)` on a dict. */
  function Field(r: Record, key: string, default: Value): Value {
    if key in r then r[key] else default
  }

  /** Whether `v` may be used as a dict key: JSON arrays and objects are unhashable. */
  predicate Hashable(v: Value) {
    !v.Arr? && !v.Obj?
  }

  /** The elements of a list when every one of them is a dict; `None` as soon as one is not. */
  function Records(items: seq<Value>): (r: Option<seq<Record>>)
    ensures r.Some? <==> forall i :: 0 <= i < |items| ==> items[i].Obj?
    ensures r.Some? ==> |r.value| == |items|
    ensures r.Some? ==> forall i :: 0 <= i < |items| ==> r.value[i] == items[i].fields
  {
    if forall i :: 0 <= i < |items| ==> items[i].Obj? then
      Some(seq(|items|, i requires 0 <= i < |items| => items[i].fields))
    else
      None
  }

  /**
   * `for x in v: x.get(...)`: the dicts a loop visits, or `None` when the loop
   * raises. Iterating a string yields one-character strings and iterating a
   * dict yields its (string) keys, so only the empty ones get through; numbers,
   * booleans and `None` are not iterable.
   */
  function RecordList(v: Value): (r: Option<seq<Record>>)
    ensures v.Arr? ==> r == Records(v.items)
    ensures v.Null? || v.Bool? || v.Num? ==> r.None?
  {
    match v
    case Arr(items) => Records(items)
    case Str(s) => if s == "" then Some([]) else None
    case Obj(f) => if f == map[] then Some([]) else None
    case _ => None
  }

  /** `p in s` for strings: `p` occurs in `s` as a contiguous substring. */
  predicate IsSubstring(p: string, s: string) {
    exists i | 0 <= i <= |s| - |p| :: OccursAt(p, s, i)
  }

  predicate OccursAt(p: string, s: string, i: int)
    requires 0 <= i <= |s| - |p|
  {
    s[i..i + |p|] == p
  }

  /**
   * Python's `needle in v`: substring for a string, element equality for a
   * list, key membership for a dict; `None` (TypeError) for anything else.
   */
  function In(needle: string, v: Value): (r: Option<bool>)
    ensures r.Some? <==> v.Str? || v.Arr? || v.Obj?
  {
    match v
    case Str(s) => Some(IsSubstring(needle, s))
    case Arr(items) => Some(Str(needle) in items)
    case Obj(f) => Some(needle in f)
    case _ => None
  }

  /** `s.lower()` on ASCII letters. */
  function AsciiLower(s: string): (r: string)
    ensures |r| == |s|
  {
    seq(|s|, i requires 0 <= i < |s| => if 'A' <= s[i] <= 'Z' then (s[i] as int + 32) as char else s[i])
  }
}
