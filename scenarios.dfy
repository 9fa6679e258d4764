/** The behaviour the unit tests exercise, derived from the generator's
    contracts with the shipped configuration. */
module Scenarios {
  import opened Errors
  import opened Batches
  import opened Generator
  import Config

  /** Two characters give at most four distinct strings of length 2, so a
      batch of 100 fails whatever the draws are. */
  method TooManyUniqueStrings() returns (r: Result<seq<string>>)
    ensures r.Failure? && r.error.InsufficientUniqueStrings?
    ensures r.error.requested == 100 && 1 <= r.error.generated <= 4
  {
    var g := new StringGenerator(Config.Shipped);
    var _ := g.Charset("ab");
    assert Capacity("ab", 2) == 4;
    r := g.Collection(100, Some(2), None);
  }

  /** Excluding every character of the charset fails before any draw. */
  method ExcludeEverything() returns (r: Result<string>)
    ensures r == Failure(InvalidCharset(NoCharactersAvailable))
  {
    var g := new StringGenerator(Config.Shipped);
    var _ := g.Charset("abc");
    assert Pool("abc", Some("abc")).Failure? by {
      PhpStrings.WithoutNone([], "abc");
    }
    r := g.Single(Some(5), Some("abc"));
  }

  /** An empty charset name is refused. */
  method EmptyCharsetName() returns (r: Result<StringGenerator>)
    ensures r == Failure(InvalidCharset(""))
  {
    var g := new StringGenerator(Config.Shipped);
    r := g.Charset("");
  }

  /** A custom charset is used verbatim: every character drawn is `x`, `y`
      or `z`. */
  method CustomCharset() returns (r: Result<string>)
    ensures r.Success? && |r.value| == 10
    ensures forall i :: 0 <= i < 10 ==> r.value[i] in "xyz"
  {
    var g := new StringGenerator(Config.Shipped);
    var _ := g.Charset("xyz");
    r := g.Single(Some(10), None);
  }

  /** With the default charset, a batch of five holds five distinct
      six-character strings whenever it succeeds. */
  method DefaultCollection() returns (r: Result<seq<string>>)
    ensures r.Success? ==> |r.value| == 5 && Distinct(r.value)
    ensures r.Success? ==> forall i :: 0 <= i < |r.value| ==> |r.value[i]| == 6
  {
    var g := new StringGenerator(Config.Shipped);
    r := g.Collection(5, Some(6), None);
  }

  /** The `numeric` charset draws only digits. */
  method NumericSingle() returns (r: Result<string>)
    ensures r.Success? && |r.value| == 10
    ensures forall k :: 0 <= k < 10 ==> Config.IsDigit(r.value[k])
  {
    var g := new StringGenerator(Config.Shipped);
    var _ := g.Numeric();
    Config.NamedCharsetClasses();
    Config.RegisteredCharsetsNonEmpty();
    assert "numeric" in Config.Charsets;
    r := g.Single(Some(10), None);
  }

  /** Without a count, `generate` returns one string, not a batch of one. */
  method GenerateWithoutCount() returns (r: Result<Output>)
    ensures r.Success? && r.value.One? && |r.value.text| == 10
  {
    var g := new StringGenerator(Config.Shipped);
    r := g.Generate(Some(10), None, None);
  }

  /** With a count above 1, `generate` returns a batch; it can only fail for
      want of distinct draws. */
  method GenerateWithCount() returns (r: Result<Output>)
    ensures r.Success? ==> r.value.Many? && |r.value.strings| == 3 && Distinct(r.value.strings)
    ensures r.Failure? ==> r.error.InsufficientUniqueStrings? && r.error.requested == 3
  {
    var g := new StringGenerator(Config.Shipped);
    r := g.Generate(Some(8), Some(3), None);
  }

  /** Without a length, `single` uses the configured default of 8. */
  method SingleDefaultLength() returns (r: Result<string>)
    ensures r.Success? && |r.value| == 8
  {
    var g := new StringGenerator(Config.Shipped);
    r := g.Single(None, None);
  }

  /** With the default charset, the exclude `abc123` still leaves a pool
      (`9` survives), so `single(100, 'abc123')` succeeds with 100 characters
      none of which is excluded. */
  method ExcludedCharactersDefault() returns (r: Result<string>)
    ensures r.Success? && |r.value| == 100
    ensures forall i :: 0 <= i < 100 ==> r.value[i] !in "abc123"
  {
    var g := new StringGenerator(Config.Shipped);
    DefaultPoolSurvives();
    r := ExcludedCharacters(g);
  }

  /** The default charset keeps a usable pool under the exclude `abc123`. */
  lemma DefaultPoolSurvives()
    ensures Pool(Config.DefaultCharset, Some("abc123")).Success?
  {
    assert |Config.DefaultCharset| == 59 && Config.DefaultCharset[58] == '9';
    PoolSurvivesUnexcluded(Config.DefaultCharset, "abc123", 58);
  }

  /** Excluded characters never appear: whatever the active charset, the 100
      characters drawn with the exclude `abc123` avoid every excluded one, and
      the only possible failure is an empty pool. */
  method ExcludedCharacters(g: StringGenerator) returns (r: Result<string>)
    ensures r.Success? ==> |r.value| == 100 && forall i :: 0 <= i < 100 ==> r.value[i] !in "abc123"
    ensures r.Failure? ==> r.error == InvalidCharset(NoCharactersAvailable)
    ensures Pool(g.charset, Some("abc123")).Success? ==> r.Success?
  {
    if Pool(g.charset, Some("abc123")).Success? {
      PoolAvoidsExcluded(g.charset, "abc123");
    }
    r := g.Single(Some(100), Some("abc123"));
  }

  /** Non-positive lengths and counts are refused. */
  method InvalidArguments() returns (a: Result<string>, b: Result<string>, c: Result<seq<string>>, d: Result<seq<string>>)
    ensures a == Failure(InvalidArgument(Length))
    ensures b == Failure(InvalidArgument(Length))
    ensures c == Failure(InvalidArgument(Count))
    ensures d == Failure(InvalidArgument(Count))
  {
    var g := new StringGenerator(Config.Shipped);
    a := g.Single(Some(0), None);
    b := g.Single(Some(-1), None);
    c := g.Collection(0, None, None);
    d := g.Collection(-1, None, None);
  }

  /** `generate` checks the length before the count: a negative length is
      reported even when the count is invalid too, and a valid length with a
      zero count reports the count. */
  method GenerateInvalidArguments() returns (a: Result<Output>, b: Result<Output>)
    ensures a == Failure(InvalidArgument(Length))
    ensures b == Failure(InvalidArgument(Count))
  {
    var g := new StringGenerator(Config.Shipped);
    a := g.Generate(Some(-1), Some(0), None);
    b := g.Generate(Some(4), Some(0), None);
  }
}
