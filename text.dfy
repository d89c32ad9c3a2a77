/** The handful of Python string operations the research engine relies on:
    `str.strip`, `str.lower`/`str.upper`, `str.replace`, `"\n".join` and the
    slices `s[:n]` and `xs[-n:]`. Case mapping is modelled on ASCII letters. */
module Text {

  /** The characters Python's `str.isspace()` accepts; the regular-expression
      class `\s` and the argument-less `str.strip()` use the same set. */
  const Whitespace: set<char> := {
    '\t', '\n', '\U{0B}', '\U{0C}', '\r', '\U{1C}', '\U{1D}', '\U{1E}', '\U{1F}', ' ',
    '\U{85}', '\U{A0}', '\U{1680}',
    '\U{2000}', '\U{2001}', '\U{2002}', '\U{2003}', '\U{2004}', '\U{2005}',
    '\U{2006}', '\U{2007}', '\U{2008}', '\U{2009}', '\U{200A}',
    '\U{2028}', '\U{2029}', '\U{202F}', '\U{205F}', '\U{3000}'
  }

  predicate IsSpace(c: char) {
    c in Whitespace
  }

  predicate IsAsciiLower(c: char) {
    'a' <= c <= 'z'
  }

  predicate IsAsciiUpper(c: char) {
    'A' <= c <= 'Z'
  }

  function LowerChar(c: char): char {
    if IsAsciiUpper(c) then (c as int + 32) as char else c
  }

  function UpperChar(c: char): char {
    if IsAsciiLower(c) then (c as int - 32) as char else c
  }

  /** `s.lower()` */
  function Lower(s: string): string {
    seq(|s|, i requires 0 <= i < |s| => LowerChar(s[i]))
  }

  /** `s.upper()` */
  function Upper(s: string): string {
    seq(|s|, i requires 0 <= i < |s| => UpperChar(s[i]))
  }

  /** Upper-casing forgets the case of the input: two strings that agree
      after lower-casing agree after upper-casing too. */
  lemma UpperOfLower(s: string)
    ensures Upper(Lower(s)) == Upper(s)
  {
    assert forall i :: 0 <= i < |s| ==> UpperChar(LowerChar(s[i])) == UpperChar(s[i]);
  }

  /** An upper-cased string has no lower-case letter left, and lower-casing
      it gives back the lower-cased original. */
  lemma UpperIsUpper(s: string)
    ensures forall i :: 0 <= i < |Upper(s)| ==> !IsAsciiLower(Upper(s)[i])
    ensures Lower(Upper(s)) == Lower(s)
  {
    assert forall i :: 0 <= i < |s| ==> LowerChar(UpperChar(s[i])) == LowerChar(s[i]);
  }

  /** The number of leading characters of `s` that belong to `cs`. */
  function LeadingIn(s: string, cs: set<char>): (n: nat)
    ensures n <= |s|
    ensures forall k :: 0 <= k < n ==> s[k] in cs
    ensures n < |s| ==> s[n] !in cs
  {
    if s == [] || s[0] !in cs then 0 else 1 + LeadingIn(s[1..], cs)
  }

  /** The number of trailing characters of `s` that belong to `cs`. */
  function TrailingIn(s: string, cs: set<char>): (n: nat)
    ensures n <= |s|
    ensures forall k :: |s| - n <= k < |s| ==> s[k] in cs
    ensures n < |s| ==> s[|s| - 1 - n] !in cs
  {
    if s == [] || s[|s| - 1] !in cs then 0 else 1 + TrailingIn(s[..|s| - 1], cs)
  }

  /** `s.strip(chars)`: `s` without the longest prefix and the longest suffix
      made of characters in `cs`. */
  function StripChars(s: string, cs: set<char>): string {
    var i := LeadingIn(s, cs);
    if i == |s| then [] else s[i..|s| - TrailingIn(s, cs)]
  }

  /** What `strip` promises: the result is the infix of `s` that starts after
      the stripped prefix; every removed character is in `cs`; and what is
      left neither starts nor ends with one. */
  lemma {:induction false} StripCharsSpec(s: string, cs: set<char>)
    ensures var r := StripChars(s, cs);
            && LeadingIn(s, cs) + |r| <= |s|
            && r == s[LeadingIn(s, cs)..LeadingIn(s, cs) + |r|]
            && (forall k :: LeadingIn(s, cs) + |r| <= k < |s| ==> s[k] in cs)
            && (r != [] ==> r[0] !in cs && r[|r| - 1] !in cs)
  {
    var i, t := LeadingIn(s, cs), TrailingIn(s, cs);
    if i < |s| {
      assert s[i] !in cs;
      assert i < |s| - t;
      assert t < |s| && s[|s| - 1 - t] !in cs;
      var r := s[i..|s| - t];
      assert StripChars(s, cs) == r;
      assert r[0] == s[i] && r[|r| - 1] == s[|s| - 1 - t];
    }
  }

  /** `strip` leaves nothing exactly when every character is in `cs`. */
  lemma {:induction false} StripCharsEmpty(s: string, cs: set<char>)
    ensures StripChars(s, cs) == [] <==> forall k :: 0 <= k < |s| ==> s[k] in cs
  {
    var i := LeadingIn(s, cs);
    if i < |s| {
      assert s[i] !in cs;
      assert i < |s| - TrailingIn(s, cs);
    }
  }

  /** A string whose two ends are not in `cs` is left as it is. */
  lemma StripCharsKeepsClean(s: string, cs: set<char>)
    requires s != [] && s[0] !in cs && s[|s| - 1] !in cs
    ensures StripChars(s, cs) == s
  {
    assert LeadingIn(s, cs) == 0;
    assert TrailingIn(s, cs) == 0;
  }

  /** `s.strip()` */
  function Strip(s: string): string {
    StripChars(s, Whitespace)
  }

  /** `s[:n]` */
  function Take<T>(s: seq<T>, n: nat): seq<T> {
    if |s| <= n then s else s[..n]
  }

  /** `xs[-n:]`, which is all of `xs` when it has at most `n` elements, and
      also when `n` is 0, since `-0` is `0`. */
  function Last<T>(xs: seq<T>, n: nat): seq<T> {
    if n == 0 || |xs| <= n then xs else xs[|xs| - n..]
  }

  /** Taking the last `n` elements twice is taking them once; the result is
      empty only for an empty list, and never longer than `n` when `n` is
      positive. */
  lemma LastIdempotent<T>(xs: seq<T>, n: nat)
    ensures Last(Last(xs, n), n) == Last(xs, n)
    ensures Last(xs, n) == [] <==> xs == []
    ensures n > 0 ==> |Last(xs, n)| <= n && Last(xs, n) == xs[|xs| - |Last(xs, n)|..]
  {
  }

  /** The pieces of a concatenation are found again at their offsets. */
  lemma Parts<T>(a: seq<T>, b: seq<T>, c: seq<T>)
    ensures (a + b + c)[..|a|] == a
    ensures (a + b + c)[|a|..|a| + |b|] == b
  {
  }

  /** `s.replace(from, to)` for single characters. */
  function Replace(s: string, from: char, to: char): (r: string)
    ensures |r| == |s|
    ensures forall i :: 0 <= i < |s| ==> r[i] == if s[i] == from then to else s[i]
  {
    if s == [] then [] else [if s[0] == from then to else s[0]] + Replace(s[1..], from, to)
  }

  /** `sep.join(parts)` */
  function Join(sep: string, parts: seq<string>): string {
    if parts == [] then ""
    else if |parts| == 1 then parts[0]
    else parts[0] + sep + Join(sep, parts[1..])
  }
}
