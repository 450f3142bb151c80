/** The few `str` operations the modelled code relies on. Strings are sequences of
    Unicode scalar values, as Rust's `char` is. */
module Text {

  /** `char::is_whitespace`: the characters with Unicode property White_Space. */
  predicate IsWhitespace(c: char) {
    || '\t' <= c <= '\r' || c == ' ' || c == '\U{85}' || c == '\U{A0}' || c == '\U{1680}'
    || '\U{2000}' <= c <= '\U{200A}' || '\U{2028}' <= c <= '\U{2029}'
    || c == '\U{202F}' || c == '\U{205F}' || c == '\U{3000}'
  }

  function TrimStart(s: string): string {
    if s == "" || !IsWhitespace(s[0]) then s else TrimStart(s[1..])
  }

  function TrimEnd(s: string): string {
    if s == "" || !IsWhitespace(s[|s| - 1]) then s else TrimEnd(s[..|s| - 1])
  }

  function Trim(s: string): string {
    TrimEnd(TrimStart(s))
  }

  /** `s.trim().is_empty()`. */
  predicate IsBlank(s: string) {
    forall i | 0 <= i < |s| :: IsWhitespace(s[i])
  }

  lemma {:induction false} TrimStartMeans(s: string)
    ensures var r := TrimStart(s);
            && |r| <= |s| && r == s[|s| - |r|..] && IsBlank(s[..|s| - |r|])
            && (r != "" ==> !IsWhitespace(r[0]))
  {
    if s != "" && IsWhitespace(s[0]) { TrimStartMeans(s[1..]); }
  }

  lemma {:induction false} TrimEndMeans(s: string)
    ensures var r := TrimEnd(s);
            && r <= s && (forall i | |r| <= i < |s| :: IsWhitespace(s[i]))
            && (r != "" ==> !IsWhitespace(r[|r| - 1]))
  {
    if s != "" && IsWhitespace(s[|s| - 1]) { TrimEndMeans(s[..|s| - 1]); }
  }

  lemma {:induction false} BlankIffNothingAtStart(s: string)
    ensures IsBlank(s) <==> TrimStart(s) == ""
  {
    if s != "" && IsWhitespace(s[0]) {
      BlankIffNothingAtStart(s[1..]);
      assert s == [s[0]] + s[1..];
    }
  }

  lemma {:induction false} BlankIffNothingAtEnd(s: string)
    ensures IsBlank(s) <==> TrimEnd(s) == ""
  {
    if s != "" && IsWhitespace(s[|s| - 1]) {
      BlankIffNothingAtEnd(s[..|s| - 1]);
      assert s == s[..|s| - 1] + [s[|s| - 1]];
    }
  }

  lemma BlankIffTrimmedAway(s: string)
    ensures IsBlank(s) <==> Trim(s) == ""
  {
    BlankIffNothingAtStart(s);
    BlankIffNothingAtEnd(TrimStart(s));
    TrimStartMeans(s);
  }

  /** A text that neither begins nor ends with white space is its own trim. */
  lemma TrimmedStays(s: string)
    requires s != "" && !IsWhitespace(s[0]) && !IsWhitespace(s[|s| - 1])
    ensures Trim(s) == s
  {
  }

  lemma Regroup(a: string, b: string, c: string)
    ensures a + (b + c) == a + b + c
  {
  }

  predicate StartsWith(s: string, prefix: string) {
    prefix <= s
  }

  predicate EndsWith(s: string, suffix: string) {
    |suffix| <= |s| && s[|s| - |suffix|..] == suffix
  }

  predicate Contains(s: string, part: string) {
    exists i | 0 <= i <= |s| :: part <= s[i..]
  }
}
