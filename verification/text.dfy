/**
 * The few operations of the Kotlin standard library on `Char` and `String`
 * that the authentication code relies on: blank checks, `trim()`,
 * `removeSurrounding`, `substringBefore` and `contains(…, ignoreCase)`.
 * Strings are sequences of characters.
 */
module Text {

  /** `Char.isWhitespace()` on the JVM: Java's `isWhitespace` or `isSpaceChar`. */
  predicate IsWhitespace(c: char) {
    c == '\t' || c == '\n' || c == '\U{B}' || c == '\U{C}' || c == '\r'
    || ('\U{1C}' <= c <= '\U{1F}')
    || c == ' ' || c == '\U{A0}' || c == '\U{1680}'
    || ('\U{2000}' <= c <= '\U{200A}')
    || c == '\U{2028}' || c == '\U{2029}' || c == '\U{202F}' || c == '\U{205F}' || c == '\U{3000}'
  }

  /** `CharSequence.isBlank()`: empty or whitespace only. */
  predicate IsBlank(s: string) {
    forall i | 0 <= i < |s| :: IsWhitespace(s[i])
  }

  /** `isNotBlank()`: at least one character that is not whitespace. */
  predicate IsNotBlank(s: string)
  {
    !IsBlank(s)
  }

  lemma NotBlankWitness(s: string, i: nat)
    requires i < |s| && !IsWhitespace(s[i])
    ensures IsNotBlank(s) && s != []
  {
  }

  /** Drops the leading whitespace. */
  function TrimStart(s: string): (r: string)
    ensures |r| <= |s| && r == s[|s| - |r|..]
    ensures IsBlank(s[..|s| - |r|])
    ensures r == [] || !IsWhitespace(r[0])
  {
    if s == [] || !IsWhitespace(s[0]) then s else TrimStart(s[1..])
  }

  /** Drops the trailing whitespace. */
  function TrimEnd(s: string): (r: string)
    ensures |r| <= |s| && r == s[..|r|]
    ensures IsBlank(s[|r|..])
    ensures r == [] || !IsWhitespace(r[|r| - 1])
  {
    if s == [] || !IsWhitespace(s[|s| - 1]) then s else TrimEnd(s[..|s| - 1])
  }

  /** `String.trim()`: drops whitespace at both ends and nothing else. */
  function Trim(s: string): (r: string)
    ensures r == [] || (!IsWhitespace(r[0]) && !IsWhitespace(r[|r| - 1]))
    ensures r == [] <==> IsBlank(s)
    ensures s == [] || (!IsWhitespace(s[0]) && !IsWhitespace(s[|s| - 1])) ==> r == s
  {
    TrimEnd(TrimStart(s))
  }

  /** The trimmed string is a slice of the original with only blanks around it. */
  lemma TrimIsInfix(s: string)
    ensures exists i | 0 <= i <= |s| - |Trim(s)| ::
      s[i..i + |Trim(s)|] == Trim(s) && IsBlank(s[..i]) && IsBlank(s[i + |Trim(s)|..])
  {
    var t := TrimStart(s);
    var r := TrimEnd(t);
    var i := |s| - |t|;
    assert s[i..] == t;
    assert s[i..i + |r|] == t[..|r|];
    assert s[i + |r|..] == t[|r|..];
  }

  /** Trimming twice is trimming once. */
  lemma TrimIdempotent(s: string)
    ensures Trim(Trim(s)) == Trim(s)
  {
  }

  /**
   * `removeSurrounding(d)` for a one-character delimiter: strips one `d`
   * from each end, only when both ends carry one and they are different
   * characters of the string.
   */
  function RemoveSurrounding(s: string, d: char): (r: string)
    ensures |s| >= 2 && s[0] == d && s[|s| - 1] == d ==> s == [d] + r + [d]
    ensures !(|s| >= 2 && s[0] == d && s[|s| - 1] == d) ==> r == s
  {
    if |s| >= 2 && s[0] == d && s[|s| - 1] == d then s[1..|s| - 1] else s
  }

  /** Wrapping in the delimiter and removing it again gives back the content. */
  lemma RemoveSurroundingOfWrapped(t: string, d: char)
    ensures RemoveSurrounding([d] + t + [d], d) == t
  {
    var s := [d] + t + [d];
    assert s[1..|s| - 1] == t;
  }

  /** `substringBefore(d)`: the text before the first `d`, or all of it when there is none. */
  function SubstringBefore(s: string, d: char): (r: string)
    ensures |r| <= |s| && r == s[..|r|]
    ensures d !in r
    ensures |r| < |s| ==> s[|r|] == d
  {
    if s == [] || s[0] == d then [] else [s[0]] + SubstringBefore(s[1..], d)
  }

  /** Cutting at the first delimiter gives back exactly the text before it. */
  lemma {:induction false} SubstringBeforeFirst(a: string, d: char, b: string)
    requires d !in a
    ensures SubstringBefore(a + [d] + b, d) == a
  {
    if a == [] {
      assert (a + [d] + b)[0] == d;
    } else {
      assert (a + [d] + b)[1..] == a[1..] + [d] + b;
      SubstringBeforeFirst(a[1..], d, b);
    }
  }

  /** Without the delimiter, the whole text is kept. */
  lemma {:induction false} SubstringBeforeAbsent(s: string, d: char)
    requires d !in s
    ensures SubstringBefore(s, d) == s
  {
    if s != [] {
      assert s[0] in s;
      assert forall c | c in s[1..] :: c in s;
      SubstringBeforeAbsent(s[1..], d);
    }
  }

  /**
   * Case folding used by `ignoreCase = true`, over Basic Latin and Latin-1:
   * an upper-case letter is mapped to its lower-case partner.
   */
  function Fold(c: char): char {
    if 'A' <= c <= 'Z' || ('\U{C0}' <= c <= '\U{DE}' && c != '\U{D7}') then (c as int + 32) as char else c
  }

  /** `Char.equals(other, ignoreCase)`. */
  predicate CharEquals(a: char, b: char, ignoreCase: bool) {
    a == b || (ignoreCase && Fold(a) == Fold(b))
  }

  /** `sub` occurs in `s` at offset `i`. */
  predicate RegionMatches(s: string, i: int, sub: string, ignoreCase: bool) {
    0 <= i && i + |sub| <= |s| &&
    forall k | 0 <= k < |sub| :: CharEquals(s[i + k], sub[k], ignoreCase)
  }

  /** `CharSequence.contains(other, ignoreCase)`. */
  predicate Contains(s: string, sub: string, ignoreCase: bool) {
    exists i | 0 <= i <= |s| - |sub| :: RegionMatches(s, i, sub, ignoreCase)
  }

  /** A string contains each of its pieces, in either mode. */
  lemma ContainsInfix(a: string, p: string, b: string, ignoreCase: bool)
    ensures Contains(a + p + b, p, ignoreCase)
  {
    assert RegionMatches(a + p + b, |a|, p, ignoreCase);
  }

  /** A case-sensitive occurrence is also a case-insensitive one. */
  lemma ContainsIgnoringCase(s: string, sub: string)
    requires Contains(s, sub, false)
    ensures Contains(s, sub, true)
  {
    var i :| 0 <= i <= |s| - |sub| && RegionMatches(s, i, sub, false);
    assert RegionMatches(s, i, sub, true);
  }

  /**
   * A non-empty pattern is absent, even ignoring case, when one of its
   * letters occurs in neither case: `lower` is the letter and `upper` its
   * upper-case partner.
   */
  lemma NotContainsWithoutLetter(s: string, sub: string, j: nat, lower: char, upper: char)
    requires j < |sub| && Fold(sub[j]) == lower
    requires Fold(lower) == lower && upper as int + 32 == lower as int
    requires lower !in s && upper !in s
    ensures !Contains(s, sub, true) && !Contains(s, sub, false)
  {
    forall i | 0 <= i <= |s| - |sub| ensures !RegionMatches(s, i, sub, true) {
      assert s[i + j] in s;
      assert Fold(s[i + j]) != lower;
    }
  }

  /**
   * A pattern absent from both halves is absent from their concatenation
   * when the last character of the first half is none of its characters:
   * an occurrence across the seam would have to cover that character.
   */
  lemma NotContainsAcross(a: string, b: string, sub: string)
    requires a != [] && forall k | 0 <= k < |sub| :: Fold(sub[k]) != Fold(a[|a| - 1])
    requires !Contains(a, sub, true) && !Contains(b, sub, true)
    ensures !Contains(a + b, sub, true)
  {
    forall i | 0 <= i <= |a + b| - |sub| ensures !RegionMatches(a + b, i, sub, true) {
      if i + |sub| <= |a| {
        assert !RegionMatches(a, i, sub, true);
        var k :| 0 <= k < |sub| && !CharEquals(a[i + k], sub[k], true);
        assert (a + b)[i + k] == a[i + k];
      } else if i >= |a| {
        assert !RegionMatches(b, i - |a|, sub, true);
        var k :| 0 <= k < |sub| && !CharEquals(b[i - |a| + k], sub[k], true);
        assert (a + b)[i + k] == b[i - |a| + k];
      } else {
        var k := |a| - 1 - i;
        assert (a + b)[i + k] == a[|a| - 1];
        assert Fold(sub[k]) != Fold(a[|a| - 1]);
      }
    }
  }
}
