/** The parts of JavaScript string semantics the handlers rely on: prefix tests,
    `indexOf`, `replace` with a string pattern, `split(sep)[0]`, `toUpperCase`
    (ASCII letters only) and the falsiness of optional strings and numbers. */
module Strings {
  import opened Wrappers

  predicate StartsWith(s: string, prefix: string) {
    |prefix| <= |s| && s[..|prefix|] == prefix
  }

  /** `sub` occurs in `s` at position `i`. */
  predicate OccursAt(s: string, sub: string, i: nat) {
    i + |sub| <= |s| && s[i..i + |sub|] == sub
  }

  /** JavaScript `s.includes(sub)`. */
  predicate Contains(s: string, sub: string) {
    exists i: nat :: i <= |s| && OccursAt(s, sub, i)
  }

  /** The first position at or after `from` where `sub` occurs, or -1. */
  function IndexFrom(s: string, sub: string, from: nat): (k: int)
    requires from <= |s|
    ensures k == -1 ==> forall j: nat :: from <= j ==> !OccursAt(s, sub, j)
    ensures k != -1 ==> from <= k && OccursAt(s, sub, k)
    ensures k != -1 ==> forall j: nat :: from <= j < k ==> !OccursAt(s, sub, j)
    decreases |s| - from
  {
    if from + |sub| > |s| then -1
    else if s[from..from + |sub|] == sub then from
    else IndexFrom(s, sub, from + 1)
  }

  /** JavaScript `s.indexOf(sub)`: the first occurrence, or -1 when there is none. */
  function IndexOf(s: string, sub: string): (k: int)
    ensures k == -1 <==> !Contains(s, sub)
    ensures k != -1 ==> 0 <= k && OccursAt(s, sub, k)
    ensures k != -1 ==> forall j: nat :: j < k ==> !OccursAt(s, sub, j)
  {
    IndexFrom(s, sub, 0)
  }

  /** JavaScript `s.replace(pattern, replacement)` with a string pattern: only the first
      occurrence is replaced (the replacement is taken literally; no `$` patterns). */
  function ReplaceFirst(s: string, pattern: string, replacement: string): (r: string)
    ensures !Contains(s, pattern) ==> r == s
    ensures StartsWith(s, pattern) ==> r == replacement + s[|pattern|..]
  {
    var k := IndexOf(s, pattern);
    if k == -1 then s
    else
      assert StartsWith(s, pattern) ==> OccursAt(s, pattern, 0) && k == 0;
      s[..k] + replacement + s[k + |pattern|..]
  }

  /** JavaScript `s.split(sep)[0]` for a one-character separator: everything before the
      first `sep`, or all of `s` when it holds none. */
  function BeforeFirst(s: string, sep: char): (r: string)
    ensures StartsWith(s, r)
    ensures sep !in r
    ensures |r| < |s| ==> s[|r|] == sep
  {
    if s == [] then []
    else if s[0] == sep then []
    else [s[0]] + BeforeFirst(s[1..], sep)
  }

  function UpperChar(c: char): char {
    if 'a' <= c <= 'z' then (c as int - 32) as char else c
  }

  /** `toUpperCase` restricted to ASCII: each lower-case letter becomes its capital,
      every other character is kept. */
  function ToUpper(s: string): (r: string)
    ensures |r| == |s|
    ensures forall i :: 0 <= i < |s| ==> r[i] == UpperChar(s[i])
  {
    if s == [] then [] else [UpperChar(s[0])] + ToUpper(s[1..])
  }

  predicate IsUpperCase(s: string) {
    ToUpper(s) == s
  }

  /** Upper-casing is idempotent, so a stored upper-case code is found again
      by the upper-cased form of any of its case variants. */
  lemma ToUpperIdempotent(s: string)
    ensures IsUpperCase(ToUpper(s))
  {
    var u := ToUpper(s);
    assert forall i :: 0 <= i < |u| ==> ToUpper(u)[i] == u[i];
  }

  /** A string is `b` preceded by anything contains `b`. */
  lemma ContainsSuffix(a: string, b: string)
    ensures Contains(a + b, b)
  {
    assert (a + b)[|a|..|a| + |b|] == b;
    assert OccursAt(a + b, b, |a|);
  }

  /** When one character of `sub` never appears in `s`, `sub` does not occur in `s`. */
  lemma MissingCharNotContained(s: string, sub: string, c: char)
    requires c in sub && c !in s
    ensures !Contains(s, sub)
  {
  }

  /** JavaScript truthiness of an optional string: `null`, `undefined` and "" are falsy. */
  predicate Truthy(o: Option<string>) {
    o.Some? && o.value != ""
  }

  /** `x || null` for an optional string. */
  function OrNull(o: Option<string>): (r: Option<string>)
    ensures Truthy(o) ==> r == o
    ensures !Truthy(o) ==> r == None
  {
    if Truthy(o) then o else None
  }

  /** JavaScript truthiness of an optional integer: `null`, `undefined` and 0 are falsy. */
  predicate NumberTruthy(o: Option<int>) {
    o.Some? && o.value != 0
  }

  /** `x || null` for an optional integer. */
  function NumberOrNull(o: Option<int>): (r: Option<int>)
    ensures NumberTruthy(o) ==> r == o
    ensures !NumberTruthy(o) ==> r == None
  {
    if NumberTruthy(o) then o else None
  }
}
