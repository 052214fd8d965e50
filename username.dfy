/** The username derived from a display name at sign-up
    (src/helpers/auth/generate-username.ts). The random four-digit number is
    a parameter. */
module Username {
  import opened Text

  /** The name without whitespace, lowercased, followed by the number. */
  function GenerateUsername(name: string, suffix: nat): (r: string)
    requires 1000 <= suffix <= 9999
    ensures |r| == |RemoveWhitespace(name)| + 4
    ensures NoWhitespace(r)
    ensures r[..|r| - 4] == Lower(RemoveWhitespace(name))
    ensures AllDigits(r[|r| - 4..]) && DecimalValue(r[|r| - 4..]) == suffix
  {
    var base := Lower(RemoveWhitespace(name));
    var digits := Decimal(suffix);
    FourDigits(suffix);
    DecimalRoundTrip(suffix);
    LowerKeepsWhitespace(RemoveWhitespace(name));
    assert (base + digits)[..|base|] == base && (base + digits)[|base|..] == digits;
    assert forall k :: 0 <= k < |digits| ==> !IsWhitespace(digits[k]);
    base + digits
  }

  /** Names that differ only in whitespace and ASCII case give the same
      username for the same number. */
  lemma SameNormalisedNameSameUsername(a: string, b: string, suffix: nat)
    requires 1000 <= suffix <= 9999
    requires Lower(RemoveWhitespace(a)) == Lower(RemoveWhitespace(b))
    ensures GenerateUsername(a, suffix) == GenerateUsername(b, suffix)
  {
  }

  /** Two usernames made with different numbers differ. */
  lemma DifferentSuffixesDiffer(name: string, s1: nat, s2: nat)
    requires 1000 <= s1 <= 9999 && 1000 <= s2 <= 9999 && s1 != s2
    ensures GenerateUsername(name, s1) != GenerateUsername(name, s2)
  {
  }
}
