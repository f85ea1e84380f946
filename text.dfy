/**
 * The string primitives the store relies on: `char.IsWhiteSpace`,
 * `string.IsNullOrWhiteSpace`, `StringComparison.OrdinalIgnoreCase`
 * and the shape of `Guid.NewGuid().ToString()`.
 */
module Text {
  import opened Wrappers

  /**
   * `char.IsWhiteSpace`: the control characters U+0009..U+000D, U+0085,
   * and the Unicode space, line and paragraph separators.
   */
  predicate IsWhiteSpace(c: char)
  {
    || ('\t' <= c <= '\r')
    || c == ' '
    || c == '\U{85}'
    || c == '\U{A0}'
    || c == '\U{1680}'
    || ('\U{2000}' <= c <= '\U{200A}')
    || c == '\U{2028}'
    || c == '\U{2029}'
    || c == '\U{202F}'
    || c == '\U{205F}'
    || c == '\U{3000}'
  }

  /** `string.IsNullOrWhiteSpace`: absent, empty, or white space only. */
  predicate IsBlank(s: Option<string>)
  {
    s.None? || forall i :: 0 <= i < |s.value| ==> IsWhiteSpace(s.value[i])
  }

  /** Upper-cases an ASCII letter; every other character is left alone. */
  function FoldChar(c: char): (r: char)
    ensures 'a' <= c <= 'z' ==> r as int == c as int - 32
    ensures !('a' <= c <= 'z') ==> r == c
  {
    if 'a' <= c <= 'z' then (c as int - 32) as char else c
  }

  /** The case-folded form of a string that OrdinalIgnoreCase compares. */
  function Fold(s: string): (r: string)
    ensures |r| == |s|
    ensures forall i :: 0 <= i < |s| ==> r[i] == FoldChar(s[i])
  {
    if s == [] then [] else [FoldChar(s[0])] + Fold(s[1..])
  }

  /** `string.Equals(a, b, StringComparison.OrdinalIgnoreCase)` on non-null strings. */
  predicate EqualsIgnoreCase(a: string, b: string)
  {
    Fold(a) == Fold(b)
  }

  /** Two strings are equal ignoring case exactly when they agree character by character after folding. */
  lemma EqualsIgnoreCaseCharwise(a: string, b: string)
    ensures EqualsIgnoreCase(a, b) <==> |a| == |b| && forall i :: 0 <= i < |a| ==> FoldChar(a[i]) == FoldChar(b[i])
  {
  }

  /** Two characters fold alike exactly when they are equal or are the same ASCII letter in its two cases. */
  lemma FoldCharAlike(c: char, d: char)
    ensures FoldChar(c) == FoldChar(d) <==>
      || c == d
      || ('a' <= c <= 'z' && d as int == c as int - 32)
      || ('a' <= d <= 'z' && c as int == d as int - 32)
  {
  }

  /** Case-insensitive equality is an equivalence: reflexive, symmetric and transitive. */
  lemma EqualsIgnoreCaseIsEquivalence(a: string, b: string, c: string)
    ensures EqualsIgnoreCase(a, a)
    ensures EqualsIgnoreCase(a, b) ==> EqualsIgnoreCase(b, a)
    ensures EqualsIgnoreCase(a, b) && EqualsIgnoreCase(b, c) ==> EqualsIgnoreCase(a, c)
  {
  }

  predicate IsLowerHexDigit(c: char)
  {
    ('0' <= c <= '9') || ('a' <= c <= 'f')
  }

  /** The "D" format of a GUID: 32 lower-case hex digits in groups 8-4-4-4-12 separated by hyphens. */
  predicate IsGuidString(s: string)
  {
    && |s| == 36
    && (forall i :: 0 <= i < 36 && i in {8, 13, 18, 23} ==> s[i] == '-')
    && (forall i :: 0 <= i < 36 && i !in {8, 13, 18, 23} ==> IsLowerHexDigit(s[i]))
  }

  /** A generated identifier is never blank, so it is a usable command id. */
  lemma GuidIsNotBlank(s: string)
    requires IsGuidString(s)
    ensures !IsBlank(Some(s))
  {
    assert IsLowerHexDigit(s[0]);
  }
}
