/** String helpers: ASCII character classes, trimming, substring search, clipping. */
module Text {

  /** Whitespace as Python's str.strip() and the `\s` of its re module see it, on ASCII. */
  predicate IsPySpace(c: char) {
    c == ' ' || '\t' <= c <= '\r' || '\U{1C}' <= c <= '\U{1F}'
  }

  /** Whitespace as JavaScript's String.prototype.trim and `\s` see it, on ASCII. */
  predicate IsJsSpace(c: char) {
    c == ' ' || '\t' <= c <= '\r'
  }

  /** ASCII whitespace in the sense of the DOM, which splits class attributes on it. */
  predicate IsDomSpace(c: char) {
    c == ' ' || c == '\t' || c == '\n' || c == '\U{0C}' || c == '\r'
  }

  /** The `\w` class on ASCII: letters, digits and underscore. */
  predicate IsWordChar(c: char) {
    'a' <= c <= 'z' || 'A' <= c <= 'Z' || '0' <= c <= '9' || c == '_'
  }

  /** The language whose trim is meant: each has its own whitespace class. */
  datatype Language = Python | JavaScript

  /** Whitespace as the trim of `lang` sees it. */
  predicate IsSpaceIn(lang: Language, c: char) {
    match lang
    case Python => IsPySpace(c)
    case JavaScript => IsJsSpace(c)
  }

  /** Drops the leading whitespace of `lang`. */
  function TrimStart(s: string, lang: Language): string {
    if s != [] && IsSpaceIn(lang, s[0]) then TrimStart(s[1..], lang) else s
  }

  /** Drops the trailing whitespace of `lang`. */
  function TrimEnd(s: string, lang: Language): string {
    if s != [] && IsSpaceIn(lang, s[|s| - 1]) then TrimEnd(s[..|s| - 1], lang) else s
  }

  /** Python's str.strip() and JavaScript's trim(). */
  function Trim(s: string, lang: Language): string {
    TrimEnd(TrimStart(s, lang), lang)
  }

  /** TrimStart keeps a suffix, drops only whitespace, and stops at a non-space. */
  lemma {:induction false} TrimStartShape(s: string, lang: Language)
    ensures var r := TrimStart(s, lang);
      |r| <= |s| && r == s[|s| - |r|..] && (r == [] || !IsSpaceIn(lang, r[0]))
      && forall i :: 0 <= i < |s| - |r| ==> IsSpaceIn(lang, s[i])
  {
    if s != [] && IsSpaceIn(lang, s[0]) {
      TrimStartShape(s[1..], lang);
    }
  }

  /** TrimEnd keeps a prefix, drops only whitespace, and stops at a non-space. */
  lemma {:induction false} TrimEndShape(s: string, lang: Language)
    ensures var r := TrimEnd(s, lang);
      |r| <= |s| && r == s[..|r|] && (r == [] || !IsSpaceIn(lang, r[|r| - 1]))
      && forall i :: |r| <= i < |s| ==> IsSpaceIn(lang, s[i])
  {
    if s != [] && IsSpaceIn(lang, s[|s| - 1]) {
      TrimEndShape(s[..|s| - 1], lang);
    }
  }

  /** A trimmed string is a slice of the original with no whitespace at either end. */
  lemma TrimShape(s: string, lang: Language)
    ensures var t, r := TrimStart(s, lang), Trim(s, lang);
      |r| <= |t| <= |s| && (r == [] || (!IsSpaceIn(lang, r[0]) && !IsSpaceIn(lang, r[|r| - 1])))
      && (forall i :: 0 <= i < |r| ==> r[i] == s[|s| - |t| + i])
      && (forall i :: 0 <= i < |s| - |t| ==> IsSpaceIn(lang, s[i]))
      && (forall i :: |s| - |t| + |r| <= i < |s| ==> IsSpaceIn(lang, s[i]))
  {
    var t := TrimStart(s, lang);
    TrimStartShape(s, lang);
    TrimEndShape(t, lang);
    var r := TrimEnd(t, lang);
    if r != [] {
      assert r[0] == t[0];
    }
    forall i | |s| - |t| + |r| <= i < |s|
      ensures IsSpaceIn(lang, s[i])
    {
      assert s[i] == t[i - (|s| - |t|)];
    }
  }

  /** Trimming keeps a class of characters: it only drops characters. */
  lemma TrimKeepsClass(s: string, lang: Language, p: char -> bool)
    requires forall i :: 0 <= i < |s| ==> p(s[i])
    ensures forall i :: 0 <= i < |Trim(s, lang)| ==> p(Trim(s, lang)[i])
  {
    TrimShape(s, lang);
  }

  /** A string with no whitespace of `lang` is its own trim. */
  lemma TrimNoSpace(s: string, lang: Language)
    requires forall i :: 0 <= i < |s| ==> !IsSpaceIn(lang, s[i])
    ensures Trim(s, lang) == s
  {
  }

  /** A string of whitespace only trims to the empty string. */
  lemma {:induction false} TrimAllSpace(s: string, lang: Language)
    requires forall i :: 0 <= i < |s| ==> IsSpaceIn(lang, s[i])
    ensures TrimStart(s, lang) == [] && Trim(s, lang) == []
  {
    if s != [] {
      TrimAllSpace(s[1..], lang);
    }
  }

  /** `sub` occurs in `s` starting at index i. */
  predicate OccursAt(s: string, sub: string, i: nat) {
    i + |sub| <= |s| && s[i..i + |sub|] == sub
  }

  /** Python's `sub in s` and JavaScript's s.includes(sub). */
  predicate Contains(s: string, sub: string) {
    exists i: nat | i <= |s| :: OccursAt(s, sub, i)
  }

  /** A substring of the middle part is a substring of the whole. */
  lemma ContainsWithin(a: string, m: string, b: string, sub: string)
    requires Contains(m, sub)
    ensures Contains(a + m + b, sub)
  {
    var i: nat :| i <= |m| && OccursAt(m, sub, i);
    assert (a + m + b)[|a| + i..|a| + i + |sub|] == m[i..i + |sub|];
    assert OccursAt(a + m + b, sub, |a| + i);
  }

  /** A substring of a string is a substring of any extension of it. */
  lemma ContainsExtend(s: string, t: string, sub: string)
    requires Contains(s, sub)
    ensures Contains(s + t, sub)
  {
    var i: nat :| i <= |s| && OccursAt(s, sub, i);
    assert (s + t)[i..i + |sub|] == s[i..i + |sub|];
    assert OccursAt(s + t, sub, i);
  }

  /** The last part of a concatenation is a substring of it. */
  lemma ContainsEnd(s: string, t: string)
    ensures Contains(s + t, t)
  {
    assert (s + t)[|s|..|s| + |t|] == t;
    assert OccursAt(s + t, t, |s|);
  }

  /** The middle part of a concatenation is a substring of it. */
  lemma ContainsMiddle(a: string, m: string, b: string)
    ensures Contains(a + m + b, m)
  {
    assert OccursAt(m, m, 0);
    ContainsWithin(a, m, b, m);
  }

  /**
   * Python's `s[:keep] + '...' if len(s) > limit else s`: a string longer than `limit`
   * keeps its first `keep` characters and gets three dots.
   */
  function Clip(s: string, limit: nat, keep: nat): (r: string)
    requires keep <= limit
    ensures |s| <= limit ==> r == s
    ensures |s| > limit ==> |r| == keep + 3 && r[..keep] == s[..keep] && r[keep..] == "..."
    ensures |r| <= limit + 3
  {
    if |s| > limit then s[..keep] + "..." else s
  }

  /** ASCII lower-casing of one character (Python's str.lower() on ASCII). */
  function LowerChar(c: char): char {
    if 'A' <= c <= 'Z' then (c as int + 32) as char else c
  }

  /** ASCII lower-casing of a string. */
  function Lower(s: string): (r: string)
    ensures |r| == |s|
  {
    seq(|s|, i requires 0 <= i < |s| => LowerChar(s[i]))
  }

  /** Decimal digits of a natural number, as str() and template literals print it. */
  function NatToString(n: nat): string {
    if n < 10 then [(48 + n) as char] else NatToString(n / 10) + [(48 + n % 10) as char]
  }
}
