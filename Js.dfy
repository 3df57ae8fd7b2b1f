/** JavaScript values as the request handlers of the port application see them,
    the few string operations they apply, and the shape of an Express reply. */
module Js {

  datatype Option<+T> = None | Some(value: T)

  datatype Result<+T, +E> = Success(value: T) | Failure(error: E)

  /** A field of a parsed JSON body (or a header): missing (`undefined`),
      an explicit `null`, or a value. */
  datatype Js<+T> = Undefined | Null | Val(v: T)

  /** JavaScript truthiness of a string-valued field: `undefined`, `null`
      and the empty string are falsy, every other string is truthy. */
  predicate Truthy(f: Js<string>) {
    f.Val? && f.v != ""
  }

  /** `f == null` with JavaScript's loose equality: true of `undefined` and `null`. */
  predicate Nullish<T>(f: Js<T>) {
    !f.Val?
  }

  /** What a handler does with its response: `res.status(s).json(body)`,
      `res.status(s).json({ message })`, `res.status(204).end()`, or
      `next(err)`, after which the application's error handler answers 500. */
  datatype Reply<+T> =
    | Json(status: int, body: T)
    | Message(status: int, message: string)
    | NoContent
    | Crash

  /** The characters `String.prototype.trim` removes: white space and line
      terminators of the ECMAScript grammar. */
  predicate IsSpace(c: char) {
    c == ' ' || c == '\t' || c == '\n' || c == '\r' || c == '\U{000B}' || c == '\U{000C}'
    || c == '\U{00A0}' || c == '\U{1680}' || ('\U{2000}' <= c <= '\U{200A}')
    || c == '\U{2028}' || c == '\U{2029}' || c == '\U{202F}' || c == '\U{205F}'
    || c == '\U{3000}' || c == '\U{FEFF}'
  }

  /** The number of leading spaces of `s`. */
  function LeadingSpaces(s: string): (n: nat)
    ensures n <= |s|
    ensures forall k :: 0 <= k < n ==> IsSpace(s[k])
    ensures n < |s| ==> !IsSpace(s[n])
  {
    if s == [] || !IsSpace(s[0]) then 0 else 1 + LeadingSpaces(s[1..])
  }

  /** Where the content of `s` ends: every character from there on is a space. */
  function ContentEnd(s: string): (j: nat)
    ensures j <= |s|
    ensures forall k :: j <= k < |s| ==> IsSpace(s[k])
    ensures j > 0 ==> !IsSpace(s[j - 1])
  {
    if s == [] || !IsSpace(s[|s| - 1]) then |s| else ContentEnd(s[..|s| - 1])
  }

  /** `s.trim()`: `s` without its leading and trailing spaces. */
  function Trim(s: string): (r: string)
    ensures exists i, j :: IsTrimCut(s, i, j) && r == s[i..j]
    ensures r == [] || (!IsSpace(r[0]) && !IsSpace(r[|r| - 1]))
    ensures r == [] <==> forall k :: 0 <= k < |s| ==> IsSpace(s[k])
  {
    var i := LeadingSpaces(s);
    var t := s[i..];
    var j := ContentEnd(t);
    assert forall k :: i + j <= k < |s| ==> s[k] == t[k - i];
    assert IsTrimCut(s, i, i + j) && t[..j] == s[i..i + j];
    t[..j]
  }

  /** `s[i..j]` is what is left after removing only spaces from both ends of `s`. */
  ghost predicate IsTrimCut(s: string, i: int, j: int) {
    && 0 <= i <= j <= |s|
    && (forall k :: 0 <= k < i ==> IsSpace(s[k]))
    && (forall k :: j <= k < |s| ==> IsSpace(s[k]))
  }

  /** ASCII case folding of one character. */
  function LowerChar(c: char): char {
    if 'A' <= c <= 'Z' then (c as int + 32) as char else c
  }

  /** `s.toLowerCase()`, restricted to ASCII letters. */
  function ToLower(s: string): (r: string)
    ensures |r| == |s|
    ensures forall k :: 0 <= k < |s| ==> r[k] == LowerChar(s[k])
  {
    if s == [] then [] else [LowerChar(s[0])] + ToLower(s[1..])
  }

  /** `s.startsWith(p)`. */
  predicate StartsWith(s: string, p: string) {
    |p| <= |s| && s[..|p|] == p
  }

  /** Lower-casing twice is lower-casing once. */
  lemma {:induction false} ToLowerIdempotent(s: string)
    ensures ToLower(ToLower(s)) == ToLower(s)
  {
    if s != [] {
      ToLowerIdempotent(s[1..]);
    }
  }
}
