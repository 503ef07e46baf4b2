/**
 * Small pieces of JavaScript semantics that the rest of the model relies on:
 * `undefined`-or-value, the falsy-defaulting `||` operator on strings and
 * numbers, `Boolean(x)` truthiness, an ASCII model of `toUpperCase` and
 * `Array.prototype.join`.
 */
module Js {

  /** A value that may be `undefined` (or `null`). */
  datatype Option<+T> = None | Some(value: T) {
    function GetOr(default: T): T {
      match this
      case Some(v) => v
      case None => default
    }
  }

  /** `x || d` for a string `x` that may be undefined: "" and undefined are falsy. */
  function OrString(x: Option<string>, default: string): (r: string)
    ensures x.Some? && x.value != "" ==> r == x.value
    ensures x.None? || x.value == "" ==> r == default
  {
    if x.Some? && x.value != "" then x.value else default
  }

  /** `x || d` for a number `x` that may be undefined: 0 and undefined are falsy (NaN is not modelled). */
  function OrNumber(x: Option<int>, default: int): (r: int)
    ensures x.Some? && x.value != 0 ==> r == x.value
    ensures x.None? || x.value == 0 ==> r == default
  {
    if x.Some? && x.value != 0 then x.value else default
  }

  /** A dynamically typed JavaScript value, as far as `Boolean(v)` needs it. */
  datatype JsValue = JsBool(b: bool) | JsString(s: string) | JsNumber(n: int) | JsNull | JsUndefined

  /** `Boolean(v)`: false, "", 0, null and undefined are falsy, everything else is truthy. */
  predicate Truthy(v: JsValue)
    ensures Truthy(v) <==> v !in {JsBool(false), JsString(""), JsNumber(0), JsNull, JsUndefined}
  {
    match v
    case JsBool(b) => b
    case JsString(s) => s != ""
    case JsNumber(n) => n != 0
    case JsNull => false
    case JsUndefined => false
  }

  /** `toUpperCase` on one character, restricted to ASCII letters. */
  function UpperChar(c: char): (u: char)
    ensures 'a' <= c <= 'z' ==> 'A' <= u <= 'Z' && u as int == c as int - 32
    ensures !('a' <= c <= 'z') ==> u == c
  {
    if 'a' <= c <= 'z' then (c as int - 32) as char else c
  }

  /** `s.toUpperCase()`, character by character. */
  function Upper(s: string): (u: string)
    ensures |u| == |s|
    ensures forall i :: 0 <= i < |s| ==> u[i] == UpperChar(s[i])
  {
    seq(|s|, i requires 0 <= i < |s| => UpperChar(s[i]))
  }

  /** Upper-casing twice is upper-casing once. */
  lemma UpperIdempotent(s: string)
    ensures Upper(Upper(s)) == Upper(s)
  {
    assert forall i :: 0 <= i < |s| ==> UpperChar(UpperChar(s[i])) == UpperChar(s[i]);
  }

  /** `Upper` commutes with taking a prefix. */
  lemma UpperPrefix(s: string, n: nat)
    requires n <= |s|
    ensures Upper(s[..n]) == Upper(s)[..n]
  {
  }

  /**
   * `xs.join(sep)`: empty for no items, the item itself for one, and
   * otherwise the first item, the separator and the join of the rest.
   */
  function Join(xs: seq<string>, sep: string): (r: string)
    ensures |xs| == 0 ==> r == ""
    ensures |xs| == 1 ==> r == xs[0]
    ensures |xs| == 2 ==> r == xs[0] + sep + xs[1]
    ensures |xs| > 0 ==> |xs[0]| <= |r| && r[..|xs[0]|] == xs[0]
  {
    if |xs| == 0 then ""
    else if |xs| == 1 then xs[0]
    else xs[0] + sep + Join(xs[1..], sep)
  }
}
