/** The shipped configuration file: the default charset, the table of named
    charsets, the default length and the retry multiplier. */
module Config {
  import opened PhpStrings

  /** The configuration values the generator reads when it is constructed
      (the cache and event settings are not part of this model). */
  datatype Settings = Settings(
    defaultCharset: string,
    defaultLength: int,
    maxAttemptsMultiplier: int,
    charsets: map<string, string>)

  const DefaultCharset := "abcdefghjkmnopqrstuvwxyzABCDEFGHJKLMNOPQRSTUVWXYZ0123456789"

  const Alphanumeric := "abcdefghijklmnopqrstuvwxyzABCDEFGHIJKLMNOPQRSTUVWXYZ0123456789"
  const AlphanumericSafe := "abcdefghjkmnpqrstuvwxyzABCDEFGHJKLMNPQRSTUVWXYZ123456789"
  const Alpha := "abcdefghijklmnopqrstuvwxyzABCDEFGHIJKLMNOPQRSTUVWXYZ"
  const AlphaSafe := "abcdefghjkmnpqrstuvwxyzABCDEFGHJKLMNPQRSTUVWXYZ"
  const Numeric := "0123456789"
  const Lowercase := "abcdefghijklmnopqrstuvwxyz"
  const Uppercase := "ABCDEFGHIJKLMNOPQRSTUVWXYZ"
  const Symbols := "!@#$%^&*()_+-=[]{}|;:,.<>?"

  /** The named charsets that `charset()` looks up. */
  const Charsets: map<string, string> := map[
    "alphanumeric" := Alphanumeric,
    "alphanumeric_safe" := AlphanumericSafe,
    "alpha" := Alpha,
    "alpha_safe" := AlphaSafe,
    "numeric" := Numeric,
    "lowercase" := Lowercase,
    "uppercase" := Uppercase,
    "symbols" := Symbols]

  const DefaultLength := 8
  const MaxAttemptsMultiplier := 5

  /** What a generator reads from the shipped configuration file. */
  const Shipped := Settings(DefaultCharset, DefaultLength, MaxAttemptsMultiplier, Charsets)

  /** The visually ambiguous characters the "safe" charsets leave out. */
  const Ambiguous := "ilIoO0"

  predicate IsLower(c: char) { 'a' <= c <= 'z' }
  predicate IsUpper(c: char) { 'A' <= c <= 'Z' }
  predicate IsDigit(c: char) { '0' <= c <= '9' }

  /** `lowercase`, `uppercase` and `numeric` are exactly the ASCII ranges
      `a`-`z`, `A`-`Z` and `0`-`9`, in order. */
  lemma RangesAreExact()
    ensures |Lowercase| == 26 && forall i :: 0 <= i < 26 ==> Lowercase[i] == ('a' as int + i) as char
    ensures |Uppercase| == 26 && forall i :: 0 <= i < 26 ==> Uppercase[i] == ('A' as int + i) as char
    ensures |Numeric| == 10 && forall i :: 0 <= i < 10 ==> Numeric[i] == ('0' as int + i) as char
  {
  }

  /** Every registered charset is non-empty, and none is PHP-falsy. */
  lemma RegisteredCharsetsNonEmpty()
    ensures forall name :: name in Charsets ==> |Charsets[name]| > 0 && !Empty(Charsets[name])
  {
  }

  /** Each named charset the sugar methods select draws only from its ASCII
      class. */
  lemma NamedCharsetClasses()
    ensures forall c :: c in Lowercase ==> IsLower(c)
    ensures forall c :: c in Uppercase ==> IsUpper(c)
    ensures forall c :: c in Numeric ==> IsDigit(c)
    ensures forall c :: c in AlphaSafe ==> IsLower(c) || IsUpper(c)
    ensures forall c :: c in AlphanumericSafe ==> IsLower(c) || IsUpper(c) || IsDigit(c)
  {
    RangesAreExact();
    SafePiecesInRange();
    AlphanumericSafeSplit();
    AlphaSafeSplit();
  }

  lemma SafePiecesInRange()
    ensures forall c :: c in "abcdefghjkmnpqrstuvwxyz" ==> IsLower(c)
    ensures forall c :: c in "ABCDEFGHJKLMNPQRSTUVWXYZ" ==> IsUpper(c)
    ensures forall c :: c in "123456789" ==> IsDigit(c)
  {
  }

  /** The default length and multiplier are positive, so every positive count
      gets a positive attempt budget. */
  lemma ShippedBudgetPositive(count: int)
    requires count > 0
    ensures Shipped.defaultLength > 0
    ensures count * Shipped.maxAttemptsMultiplier > 0
  {
  }

  // Removing the ambiguous characters, one ASCII range at a time.

  /** `s` loses exactly its character at `i`. */
  lemma WithoutOneDrop(s: string, chars: string, i: nat)
    requires i < |s| && s[i] in chars
    requires forall x :: 0 <= x < |s| && x != i ==> s[x] !in chars
    ensures Without(s, chars) == s[..i] + s[i + 1..]
  {
    WithoutFirstDrop(s, chars, i);
    WithoutNone(s[i + 1..], chars);
  }

  /** `s` loses exactly its characters at `i` and `j`. */
  lemma WithoutTwoDrops(s: string, chars: string, i: nat, j: nat)
    requires i < j < |s| && s[i] in chars && s[j] in chars
    requires forall x :: 0 <= x < |s| && x != i && x != j ==> s[x] !in chars
    ensures Without(s, chars) == s[..i] + s[i + 1..j] + s[j + 1..]
  {
    WithoutFirstDrop(s, chars, i);
    var t := s[i + 1..];
    forall x | 0 <= x < |t| && x != j - i - 1 ensures t[x] !in chars {
      assert t[x] == s[x + i + 1];
    }
    WithoutOneDrop(t, chars, j - i - 1);
    assert t[..j - i - 1] == s[i + 1..j];
    assert t[j - i..] == s[j + 1..];
  }

  /** `s` loses exactly its characters at `i`, `j` and `k`. */
  lemma WithoutThreeDrops(s: string, chars: string, i: nat, j: nat, k: nat)
    requires i < j < k < |s| && s[i] in chars && s[j] in chars && s[k] in chars
    requires forall x :: 0 <= x < |s| && x != i && x != j && x != k ==> s[x] !in chars
    ensures Without(s, chars) == s[..i] + s[i + 1..j] + s[j + 1..k] + s[k + 1..]
  {
    WithoutFirstDrop(s, chars, i);
    var t := s[i + 1..];
    forall x | 0 <= x < |t| && x != j - i - 1 && x != k - i - 1 ensures t[x] !in chars {
      assert t[x] == s[x + i + 1];
    }
    WithoutTwoDrops(t, chars, j - i - 1, k - i - 1);
    assert t[..j - i - 1] == s[i + 1..j];
    assert t[j - i..k - i - 1] == s[j + 1..k];
    assert t[k - i..] == s[k + 1..];
  }

  /** Where the ambiguous characters sit in `lowercase`. */
  lemma LowercaseLayout()
    ensures |Lowercase| == 26
    ensures Lowercase[8] in Ambiguous && Lowercase[11] in Ambiguous && Lowercase[14] in Ambiguous
    ensures forall x :: 0 <= x < 26 && x != 8 && x != 11 && x != 14 ==> Lowercase[x] !in Ambiguous
    ensures Lowercase[..8] + Lowercase[9..11] + Lowercase[12..14] + Lowercase[15..]
      == "abcdefghjkmnpqrstuvwxyz"
  {
    LowercaseKept();
  }

  lemma LowercaseKept()
    ensures Lowercase[..8] + Lowercase[9..11] + Lowercase[12..14] + Lowercase[15..]
      == "abcdefghjkmnpqrstuvwxyz"
  {
  }

  /** Where the ambiguous characters sit in `uppercase`. */
  lemma UppercaseLayout()
    ensures |Uppercase| == 26
    ensures Uppercase[8] in Ambiguous && Uppercase[14] in Ambiguous
    ensures forall x :: 0 <= x < 26 && x != 8 && x != 14 ==> Uppercase[x] !in Ambiguous
    ensures Uppercase[..8] + Uppercase[9..14] + Uppercase[15..] == "ABCDEFGHJKLMNPQRSTUVWXYZ"
  {
    UppercaseKept();
  }

  lemma UppercaseKept()
    ensures Uppercase[..8] + Uppercase[9..14] + Uppercase[15..] == "ABCDEFGHJKLMNPQRSTUVWXYZ"
  {
  }

  /** Where the ambiguous character sits in `numeric`. */
  lemma NumericLayout()
    ensures |Numeric| == 10 && Numeric[0] in Ambiguous
    ensures forall x :: 0 < x < 10 ==> Numeric[x] !in Ambiguous
    ensures Numeric[..0] + Numeric[1..] == "123456789"
  {
  }

  /** The composite charsets are the ASCII ranges placed side by side. */
  lemma RangesConcatenate()
    ensures Alphanumeric == Lowercase + Uppercase + Numeric
    ensures Alpha == Lowercase + Uppercase
    ensures AlphanumericSafe == "abcdefghjkmnpqrstuvwxyz" + "ABCDEFGHJKLMNPQRSTUVWXYZ" + "123456789"
    ensures AlphaSafe == "abcdefghjkmnpqrstuvwxyz" + "ABCDEFGHJKLMNPQRSTUVWXYZ"
  {
    AlphanumericSplit();
    AlphanumericSafeSplit();
    AlphaSplit();
    AlphaSafeSplit();
  }

  lemma AlphaSplit()
    ensures Alpha == Lowercase + Uppercase
  {
    AlphaLowerPart();
    AlphaUpperPart();
    assert Alpha == Alpha[..26] + Alpha[26..];
  }

  lemma AlphaLowerPart()
    ensures Alpha[..26] == Lowercase
  {
  }

  lemma AlphaUpperPart()
    ensures Alpha[26..] == Uppercase
  {
  }

  lemma AlphaSafeSplit()
    ensures AlphaSafe == "abcdefghjkmnpqrstuvwxyz" + "ABCDEFGHJKLMNPQRSTUVWXYZ"
  {
    AlphaSafeLowerPart();
    AlphaSafeUpperPart();
    assert AlphaSafe == AlphaSafe[..23] + AlphaSafe[23..];
  }

  lemma AlphaSafeLowerPart()
    ensures AlphaSafe[..23] == "abcdefghjkmnpqrstuvwxyz"
  {
  }

  lemma AlphaSafeUpperPart()
    ensures AlphaSafe[23..] == "ABCDEFGHJKLMNPQRSTUVWXYZ"
  {
  }

  lemma AlphanumericSplit()
    ensures Alphanumeric == Lowercase + Uppercase + Numeric
  {
    AlphanumericDigitsLast();
    AlphaSplit();
  }

  lemma AlphanumericDigitsLast()
    ensures Alphanumeric == Alpha + Numeric
  {
  }

  lemma AlphanumericSafeSplit()
    ensures AlphanumericSafe == "abcdefghjkmnpqrstuvwxyz" + "ABCDEFGHJKLMNPQRSTUVWXYZ" + "123456789"
  {
    AlphanumericSafeDigitsLast();
    AlphaSafeSplit();
  }

  lemma AlphanumericSafeDigitsLast()
    ensures AlphanumericSafe == AlphaSafe + "123456789"
  {
  }

  lemma LowercaseStripped()
    ensures Without(Lowercase, Ambiguous) == "abcdefghjkmnpqrstuvwxyz"
  {
    LowercaseLayout();
    WithoutThreeDrops(Lowercase, Ambiguous, 8, 11, 14);
  }

  lemma UppercaseStripped()
    ensures Without(Uppercase, Ambiguous) == "ABCDEFGHJKLMNPQRSTUVWXYZ"
  {
    UppercaseLayout();
    WithoutTwoDrops(Uppercase, Ambiguous, 8, 14);
  }

  lemma NumericStripped()
    ensures Without(Numeric, Ambiguous) == "123456789"
  {
    NumericLayout();
    WithoutOneDrop(Numeric, Ambiguous, 0);
  }

  /** `alphanumeric_safe` is `alphanumeric` with every one of `i l I o O 0`
      removed. */
  lemma AlphanumericSafeIsFiltered()
    ensures AlphanumericSafe == Without(Alphanumeric, Ambiguous)
  {
    RangesConcatenate();
    WithoutAppend(Lowercase + Uppercase, Numeric, Ambiguous);
    WithoutAppend(Lowercase, Uppercase, Ambiguous);
    LowercaseStripped();
    UppercaseStripped();
    NumericStripped();
  }

  /** `alpha_safe` is `alpha` with every one of `i l I o O` removed (`alpha`
      has no `0`). */
  lemma AlphaSafeIsFiltered()
    ensures AlphaSafe == Without(Alpha, Ambiguous)
  {
    RangesConcatenate();
    WithoutAppend(Lowercase, Uppercase, Ambiguous);
    LowercaseStripped();
    UppercaseStripped();
  }
}
