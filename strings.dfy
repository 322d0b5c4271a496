/** The JavaScript string operations the scraper relies on: `trim`,
    `toUpperCase`, `toLowerCase` and `includes`, over strings of Unicode
    scalar values. */
module Strings {

  /** The WhiteSpace and LineTerminator code points of ECMAScript, which
      `String.prototype.trim` removes from both ends. */
  predicate IsWhitespace(c: char) {
    c == '\t' || c == '\n' || c == '\U{000B}' || c == '\U{000C}' || c == '\r'
    || c == ' ' || c == '\U{00A0}' || c == '\U{1680}'
    || ('\U{2000}' <= c <= '\U{200A}')
    || c == '\U{2028}' || c == '\U{2029}' || c == '\U{202F}' || c == '\U{205F}'
    || c == '\U{3000}' || c == '\U{FEFF}'
  }

  /** The number of whitespace characters at the start of `s`. */
  function LeadingSpace(s: string): (k: nat)
    ensures k <= |s|
    ensures forall i :: 0 <= i < k ==> IsWhitespace(s[i])
    ensures k < |s| ==> !IsWhitespace(s[k])
  {
    if s == [] || !IsWhitespace(s[0]) then 0 else 1 + LeadingSpace(s[1..])
  }

  /** The number of whitespace characters at the end of `s`. */
  function TrailingSpace(s: string): (k: nat)
    ensures k <= |s|
    ensures forall i :: |s| - k <= i < |s| ==> IsWhitespace(s[i])
    ensures k < |s| ==> !IsWhitespace(s[|s| - 1 - k])
  {
    if s == [] || !IsWhitespace(s[|s| - 1]) then 0 else 1 + TrailingSpace(s[..|s| - 1])
  }

  /** Neither end of `s` is whitespace. */
  predicate IsTrimmed(s: string) {
    s == [] || (!IsWhitespace(s[0]) && !IsWhitespace(s[|s| - 1]))
  }

  /** `r` is the slice of `s` that starts at `a`, and everything of `s`
      outside that slice is whitespace. */
  ghost predicate TrimmedAt(s: string, a: int, r: string) {
    && 0 <= a <= a + |r| <= |s|
    && r == s[a..a + |r|]
    && (forall i :: 0 <= i < a ==> IsWhitespace(s[i]))
    && (forall i :: a + |r| <= i < |s| ==> IsWhitespace(s[i]))
  }

  /** `String.prototype.trim`. */
  function Trim(s: string): (r: string)
    ensures IsTrimmed(r)
    ensures TrimmedAt(s, LeadingSpace(s), r)
    ensures r == [] <==> forall i :: 0 <= i < |s| ==> IsWhitespace(s[i])
  {
    var a := LeadingSpace(s);
    var rest := s[a..];
    rest[..|rest| - TrailingSpace(rest)]
  }

  lemma TrimOfTrimmed(s: string)
    requires IsTrimmed(s)
    ensures Trim(s) == s
  {
    assert LeadingSpace(s) == 0;
    assert TrailingSpace(s) == 0;
  }

  // ---------------------------------------------------------------------
  // Case mapping

  /** `toUpperCase` of one character. JavaScript uses the full Unicode case
      mapping; this one maps the ASCII letters and every character whose
      upper case consists of ASCII letters only (sharp s, dotless i, long s
      and the Latin ligatures), and leaves every other character as it is. */
  function UpperChar(c: char): string {
    if 'a' <= c <= 'z' then [(c as int - 32) as char]
    else if c == '\U{00DF}' then "SS"
    else if c == '\U{0131}' then "I"
    else if c == '\U{017F}' then "S"
    else if c == '\U{FB00}' then "FF"
    else if c == '\U{FB01}' then "FI"
    else if c == '\U{FB02}' then "FL"
    else if c == '\U{FB03}' then "FFI"
    else if c == '\U{FB04}' then "FFL"
    else if c == '\U{FB05}' || c == '\U{FB06}' then "ST"
    else [c]
  }

  /** `c` is its own upper case: none of the characters `UpperChar` changes. */
  predicate IsUpperFixed(c: char) {
    !('a' <= c <= 'z') && c != '\U{00DF}' && c != '\U{0131}' && c != '\U{017F}'
    && !('\U{FB00}' <= c <= '\U{FB06}')
  }

  lemma UpperCharProperties(c: char)
    ensures IsUpperFixed(c) <==> UpperChar(c) == [c]
    ensures |UpperChar(c)| >= 1
    ensures forall k :: 0 <= k < |UpperChar(c)| ==> IsUpperFixed(UpperChar(c)[k])
    ensures IsWhitespace(c) ==> UpperChar(c) == [c]
    ensures !IsWhitespace(c) ==> forall k :: 0 <= k < |UpperChar(c)| ==> !IsWhitespace(UpperChar(c)[k])
  {
  }

  /** `String.prototype.toUpperCase`: every character of the result is its
      own upper case, and the result is never shorter than the input. */
  function ToUpper(s: string): (r: string)
    ensures |r| >= |s|
    ensures forall i :: 0 <= i < |r| ==> IsUpperFixed(r[i])
  {
    if s == [] then []
    else
      UpperCharProperties(s[0]);
      UpperChar(s[0]) + ToUpper(s[1..])
  }

  lemma {:induction false} ToUpperAppend(a: string, b: string)
    ensures ToUpper(a + b) == ToUpper(a) + ToUpper(b)
  {
    if a == [] {
      assert a + b == b;
    } else {
      assert (a + b)[0] == a[0];
      assert (a + b)[1..] == a[1..] + b;
      ToUpperAppend(a[1..], b);
      assert ToUpper(a + b) == UpperChar(a[0]) + ToUpper(a[1..] + b);
    }
  }

  /** A string made of characters that are their own upper case is left
      alone by `ToUpper`. */
  lemma {:induction false} ToUpperOfUpper(s: string)
    requires forall i :: 0 <= i < |s| ==> IsUpperFixed(s[i])
    ensures ToUpper(s) == s
  {
    if s != [] {
      UpperCharProperties(s[0]);
      ToUpperOfUpper(s[1..]);
      assert s == [s[0]] + s[1..];
    }
  }

  lemma ToUpperIdempotent(s: string)
    ensures ToUpper(ToUpper(s)) == ToUpper(s)
  {
    ToUpperOfUpper(ToUpper(s));
  }

  /** Upper-casing a trimmed string leaves it trimmed. */
  lemma ToUpperKeepsTrimmed(s: string)
    requires IsTrimmed(s)
    ensures IsTrimmed(ToUpper(s))
  {
    if s != [] {
      var n := |s|;
      UpperCharProperties(s[0]);
      UpperCharProperties(s[n - 1]);
      assert s == s[..n - 1] + [s[n - 1]];
      ToUpperAppend(s[..n - 1], [s[n - 1]]);
      assert ToUpper([s[n - 1]]) == UpperChar(s[n - 1]) by {
        assert [s[n - 1]][1..] == [];
      }
      var u := ToUpper(s);
      assert u[0] == UpperChar(s[0])[0];
      assert u[|u| - 1] == UpperChar(s[n - 1])[|UpperChar(s[n - 1])| - 1];
    }
  }

  /** `toLowerCase` of one character, for the ASCII letters. */
  function LowerChar(c: char): char {
    if 'A' <= c <= 'Z' then (c as int + 32) as char else c
  }

  /** `String.prototype.toLowerCase`, character by character: the result
      has no ASCII capital left, and it agrees with the input at every
      position except where the input has one. */
  function ToLower(s: string): (r: string)
    ensures |r| == |s|
    ensures forall i :: 0 <= i < |r| ==> !('A' <= r[i] <= 'Z')
    ensures forall i :: 0 <= i < |s| && !('A' <= s[i] <= 'Z') ==> r[i] == s[i]
  {
    seq(|s|, i requires 0 <= i < |s| => LowerChar(s[i]))
  }

  /** Lower-casing twice is lower-casing once. */
  lemma ToLowerIdempotent(s: string)
    ensures ToLower(ToLower(s)) == ToLower(s)
  {
    var t := ToLower(s);
    assert forall i :: 0 <= i < |t| ==> ToLower(t)[i] == t[i];
  }

  // ---------------------------------------------------------------------
  // Substring search

  /** `sub` occurs in `s` starting at position `i`. */
  predicate OccursAt(s: string, sub: string, i: int) {
    0 <= i && i + |sub| <= |s| && s[i..i + |sub|] == sub
  }

  /** `String.prototype.includes`. */
  predicate Contains(s: string, sub: string) {
    exists i :: 0 <= i <= |s| - |sub| && OccursAt(s, sub, i)
  }

  lemma ContainsAt(s: string, sub: string, i: int)
    requires OccursAt(s, sub, i)
    ensures Contains(s, sub)
  {
  }

  /** A string that lacks one of the characters of `sub` does not contain it. */
  lemma MissingCharNotContained(s: string, sub: string, k: int)
    requires 0 <= k < |sub| && sub[k] !in s
    ensures !Contains(s, sub)
  {
  }

  /** Containment is transitive: `s` contains everything its substrings contain. */
  lemma ContainsTransitive(s: string, mid: string, sub: string)
    requires Contains(s, mid) && Contains(mid, sub)
    ensures Contains(s, sub)
  {
    var i :| 0 <= i <= |s| - |mid| && OccursAt(s, mid, i);
    var j :| 0 <= j <= |mid| - |sub| && OccursAt(mid, sub, j);
    forall t | 0 <= t < |sub|
      ensures s[i + j + t] == sub[t]
    {
      assert mid[j + t] == sub[t];
    }
    assert s[i + j..i + j + |sub|] == sub;
    ContainsAt(s, sub, i + j);
  }
}
