/**
 * The JavaScript values the two front ends compare and fall back on.
 * Missing properties are `undefined`, and `null` is distinct from it under `===`.
 */
module Js {
  import opened Wrappers

  /** An id as JavaScript sees it: a number, `null` or `undefined`. */
  datatype JsId = Undefined | Null | Num(n: int)

  /** `!!v` for an id: only a non-zero number is truthy. */
  predicate Truthy(v: JsId)
    ensures !Truthy(v) <==> v == Undefined || v == Null || v == Num(0)
  {
    v.Num? && v.n != 0
  }

  /** `a || b` on ids. */
  function Or(a: JsId, b: JsId): (r: JsId)
    ensures Truthy(a) ==> r == a
    ensures !Truthy(a) ==> r == b
  {
    if Truthy(a) then a else b
  }

  /** A string-valued property that may be missing; truthy iff present and non-empty. */
  type JsStr = Option<string>

  predicate StrTruthy(s: JsStr) {
    s.Some? && s.value != ""
  }

  /** `s || fallback` where the fallback is a string. */
  function StrOr(s: JsStr, fallback: string): string {
    if StrTruthy(s) then s.value else fallback
  }

  /** `a || b` where both may be missing. */
  function StrOrStr(a: JsStr, b: JsStr): JsStr {
    if StrTruthy(a) then a else b
  }

  /** A numeric property (a coordinate) that may be missing; 0 is falsy. */
  type JsNum = Option<real>

  predicate NumTruthy(x: JsNum) {
    x.Some? && x.value != 0.0
  }

  function NumOr(a: JsNum, b: JsNum): (r: JsNum)
    ensures NumTruthy(a) ==> r == a
    ensures !NumTruthy(a) ==> r == b
  {
    if NumTruthy(a) then a else b
  }

  /** White space and line terminators, as `String.prototype.trim` removes them. */
  predicate JsWhitespace(c: char) {
    c == ' ' || 9 <= c as int <= 13 || c as int == 0xA0 || c as int == 0x1680
    || 0x2000 <= c as int <= 0x200A || c as int == 0x2028 || c as int == 0x2029
    || c as int == 0x202F || c as int == 0x205F || c as int == 0x3000 || c as int == 0xFEFF
  }

  /** `!s.trim()`: the string is empty after trimming. */
  predicate TrimsToEmpty(s: string) {
    forall i :: 0 <= i < |s| ==> JsWhitespace(s[i])
  }
}
