/**
 * The part of JavaScript's `String.prototype.toUpperCase` that the booking
 * classifier can observe.  The classifier only compares the upper-cased
 * status and type with ASCII upper-case constants, so what matters is which
 * characters upper-case INTO ASCII letters: the ASCII lower-case letters, and
 * the few non-ASCII characters whose full upper-case mapping is all ASCII
 * (sharp s, dotless i, long s and the Latin ligatures).  Every other
 * character is kept as it is, which decides every such comparison exactly as
 * the full mapping would.
 */
module Casing {

  predicate IsAsciiLower(c: char) { 'a' <= c <= 'z' }

  predicate IsAsciiUpper(c: char) { 'A' <= c <= 'Z' }

  predicate IsAscii(s: string) { forall i :: 0 <= i < |s| ==> s[i] < '\U{80}' }

  /** The ASCII upper-case letter of an ASCII lower-case one; other characters unchanged. */
  function AsciiUpper(c: char): (u: char)
    ensures IsAsciiLower(c) ==> IsAsciiUpper(u) && u as int == c as int - 32
    ensures !IsAsciiLower(c) ==> u == c
  {
    if IsAsciiLower(c) then (c as int - 32) as char else c
  }

  /** What `toUpperCase` turns one character into (one or more characters). */
  function UpperOf(c: char): (u: string)
    ensures |u| >= 1
    ensures forall i :: 0 <= i < |u| ==> !IsAsciiLower(u[i])
    ensures c < '\U{80}' ==> u == [AsciiUpper(c)]
  {
    if IsAsciiLower(c) then [AsciiUpper(c)]
    else if c == '\U{DF}' then "SS"       // sharp s
    else if c == '\U{131}' then "I"       // dotless i
    else if c == '\U{17F}' then "S"       // long s
    else if c == '\U{FB00}' then "FF"
    else if c == '\U{FB01}' then "FI"
    else if c == '\U{FB02}' then "FL"
    else if c == '\U{FB03}' then "FFI"
    else if c == '\U{FB04}' then "FFL"
    else if c == '\U{FB05}' || c == '\U{FB06}' then "ST"
    else [c]
  }

  /**
   * `s.toUpperCase()`.  The result never shorter, empty only for the empty
   * string, has no ASCII lower-case letter left, and on ASCII text is the
   * character-by-character ASCII upper-casing.
   */
  function ToUpper(s: string): (r: string)
    ensures |r| >= |s|
    ensures r == [] <==> s == []
    ensures forall i :: 0 <= i < |r| ==> !IsAsciiLower(r[i])
    ensures IsAscii(s) ==> |r| == |s| && forall i :: 0 <= i < |s| ==> r[i] == AsciiUpper(s[i])
  {
    if s == [] then [] else UpperOf(s[0]) + ToUpper(s[1..])
  }

  /** Upper-casing distributes over concatenation. */
  lemma {:induction false} ToUpperAppend(a: string, b: string)
    ensures ToUpper(a + b) == ToUpper(a) + ToUpper(b)
  {
    if a == [] {
      assert a + b == b;
    } else {
      assert (a + b)[0] == a[0];
      assert (a + b)[1..] == a[1..] + b;
      ToUpperAppend(a[1..], b);
    }
  }

  /** Upper-casing an upper-cased string changes nothing more. */
  lemma {:induction false} ToUpperIdempotent(s: string)
    ensures ToUpper(ToUpper(s)) == ToUpper(s)
  {
    if s != [] {
      var u := UpperOf(s[0]);
      ToUpperAppend(u, ToUpper(s[1..]));
      ToUpperIdempotent(s[1..]);
      UpperOfStable(s[0]);
    }
  }

  /** The upper-casing of one character is already upper case. */
  lemma UpperOfStable(c: char)
    ensures ToUpper(UpperOf(c)) == UpperOf(c)
  {
    var u := UpperOf(c);
    if forall i :: 0 <= i < |u| ==> u[i] < '\U{80}' {
      UpperOfFixed(u);
    } else {
      assert u == [c];
      assert ToUpper(u) == UpperOf(c) + ToUpper([]);
    }
  }

  /** A string with no lower-case ASCII letter and nothing non-ASCII is its own upper-casing. */
  lemma {:induction false} UpperOfFixed(u: string)
    requires forall i :: 0 <= i < |u| ==> u[i] < '\U{80}' && !IsAsciiLower(u[i])
    ensures ToUpper(u) == u
  {
    if u != [] {
      UpperOfFixed(u[1..]);
    }
  }
}
