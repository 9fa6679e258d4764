/** The generation engine: charset resolution, the exclusion filter, the
    per-character draw, the bounded-retry unique batch and the public entry
    points `generate`, `single` and `collection`. */
module Generator {
  import opened Errors
  import opened PhpStrings
  import opened Batches
  import Config

  /** What `generate` returns: one string, or a collection of strings. */
  datatype Output = One(text: string) | Many(strings: seq<string>)

  /** The argument of the exception thrown when exclusion empties the pool. */
  const NoCharactersAvailable := "No characters available after exclusions"

  /** The charset `charset($name)` installs for a non-empty name: the table
      entry when `name` is registered, otherwise `name` itself. */
  function Resolve(charsets: map<string, string>, name: string): string {
    if name in charsets then charsets[name] else name
  }

  /** PHP's `if ($exclude)` for a `?string`: false for `null`, `""` and `"0"`. */
  predicate Excludes(exclude: Option<string>) {
    exclude.Some? && !Empty(exclude.value)
  }

  /** The characters a draw picks from: the charset after the exclusion filter,
      or the exception thrown when nothing (PHP-truthy) is left. */
  function Pool(charset: string, exclude: Option<string>): (r: Result<string>)
    ensures r.Success? ==> |r.value| > 0 && !Empty(r.value)
    ensures r.Success? ==> r.value == if Excludes(exclude) then Without(charset, exclude.value) else charset
    ensures r.Failure? <==> Empty(if Excludes(exclude) then Without(charset, exclude.value) else charset)
    ensures r.Failure? ==> r.error == InvalidCharset(NoCharactersAvailable)
  {
    var available := if Excludes(exclude) then StrReplaceChars(charset, exclude.value) else charset;
    assert Excludes(exclude) ==> available == Without(charset, exclude.value) by {
      if Excludes(exclude) {
        StrReplaceCharsIsWithout(charset, exclude.value);
      }
    }
    if Empty(available) then Failure(InvalidCharset(NoCharactersAvailable)) else Success(available)
  }

  /** An exclusion removes every occurrence of each excluded character and
      keeps every other character with its multiplicity. */
  lemma PoolFiltersExactly(charset: string, exclude: string, c: char)
    requires Excludes(Some(exclude)) && Pool(charset, Some(exclude)).Success?
    ensures var pool := Pool(charset, Some(exclude)).value;
      multiset(pool)[c] == if c in exclude then 0 else multiset(charset)[c]
  {
    WithoutCounts(charset, exclude, c);
  }

  /** No character of the pool is excluded, and each comes from the charset. */
  lemma PoolAvoidsExcluded(charset: string, exclude: string)
    requires Excludes(Some(exclude)) && Pool(charset, Some(exclude)).Success?
    ensures var pool := Pool(charset, Some(exclude)).value;
      forall i :: 0 <= i < |pool| ==> pool[i] !in exclude && pool[i] in charset
  {
    WithoutMembers(charset, exclude);
  }

  /** A charset keeps a usable pool as long as one of its characters other
      than `0` is not excluded. */
  lemma PoolSurvivesUnexcluded(charset: string, exclude: string, i: int)
    requires 0 <= i < |charset| && charset[i] != '0' && charset[i] !in exclude
    ensures Pool(charset, Some(exclude)).Success?
  {
    var c := charset[i];
    WithoutCounts(charset, exclude, c);
    assert c in multiset(charset);
    assert c in multiset(Without(charset, exclude));
  }

  /** PHP truthiness: an exclude of exactly `"0"` is ignored, so a `0` in the
      charset stays drawable. */
  lemma ExcludeZeroIsIgnored(charset: string)
    ensures Pool(charset, Some("0")) == Pool(charset, None)
  {
  }

  /** PHP truthiness: a pool of exactly `"0"` counts as empty. */
  lemma LoneZeroPoolIsRejected(charset: string, exclude: Option<string>)
    requires (if Excludes(exclude) then Without(charset, exclude.value) else charset) == "0"
    ensures Pool(charset, exclude) == Failure(InvalidCharset(NoCharactersAvailable))
  {
  }

  /** Stands for PHP's `random_int($min, $max)`: some integer in range, with
      no claim about its distribution. */
  method RandomInt(min: int, max: int) returns (r: int)
    requires min <= max
    ensures min <= r <= max
  {
    r :| min <= r <= max;
  }

  /** The outcomes a request for `count` distinct strings of `length`
      characters may have, given the attempt budget and the pool (or the
      pool's failure). */
  ghost predicate BatchResult(r: Result<seq<string>>, count: int, length: int, budget: int, pool: Result<string>) {
    if budget <= 0 then r == Failure(InsufficientUniqueStrings(count, 0))
    else match pool
      case Failure(e) => r == Failure(e)
      case Success(p) =>
        && (count > Capacity(p, length) ==> r.Failure?)
        && match r
          case Success(batch) =>
            && |batch| == count
            && Distinct(batch)
            && forall i :: 0 <= i < |batch| ==> IsDraw(batch[i], p, length)
          case Failure(e) =>
            && e.InsufficientUniqueStrings?
            && e.requested == count
            && 1 <= e.generated < count
            && e.generated <= Capacity(p, length)
  }

  /** How the batch loop ran: `draws` holds every draw in order. No draw is
      made without a budget or a pool; otherwise there is at least one draw,
      each taken while fewer than `count` strings were accepted, and the loop
      stops once `count` are accepted or the budget is spent. The batch is
      the first occurrences of the draws. */
  ghost predicate BatchRun(r: Result<seq<string>>, draws: seq<string>, count: int, length: int, budget: int, pool: Result<string>) {
    if budget <= 0 then draws == [] && r == Failure(InsufficientUniqueStrings(count, 0))
    else if pool.Failure? then draws == [] && r == Failure(pool.error)
    else
      && 1 <= |draws| <= budget
      && (forall k :: 0 <= k < |draws| ==> IsDraw(draws[k], pool.value, length))
      && (forall k :: 0 <= k < |draws| ==> |Dedup(draws[..k])| < count)
      && |Dedup(draws)| <= count
      && (|Dedup(draws)| == count || |draws| == budget)
      && r == if |Dedup(draws)| == count then Success(Dedup(draws))
              else Failure(InsufficientUniqueStrings(count, |Dedup(draws)|))
  }

  /** Every way the loop can run yields one of the promised outcomes. */
  lemma BatchRunOutcome(r: Result<seq<string>>, draws: seq<string>, count: int, length: int, budget: int, pool: Result<string>)
    requires count > 0 && BatchRun(r, draws, count, length, budget, pool)
    ensures BatchResult(r, count, length, budget, pool)
  {
    if budget > 0 && pool.Success? {
      AcceptedDraws(draws, pool.value, length);
    }
  }

  class StringGenerator {
    /** The active charset: a table name already replaced by its entry. */
    var charset: string
    const defaultLength: int
    const maxAttemptsMultiplier: int
    /** The named-charset table `charset()` consults. */
    const charsets: map<string, string>

    constructor (settings: Config.Settings)
      ensures charset == settings.defaultCharset
      ensures defaultLength == settings.defaultLength
      ensures maxAttemptsMultiplier == settings.maxAttemptsMultiplier
      ensures charsets == settings.charsets
    {
      charset := settings.defaultCharset;
      defaultLength := settings.defaultLength;
      maxAttemptsMultiplier := settings.maxAttemptsMultiplier;
      charsets := settings.charsets;
    }

    /** The possible outcomes of one draw of `length` characters with the
        active charset. */
    ghost predicate SingleOutcome(r: Result<string>, length: int, exclude: Option<string>)
      reads this
    {
      match Pool(charset, exclude)
      case Failure(e) => r == Failure(e)
      case Success(pool) => r.Success? && IsDraw(r.value, pool, length)
    }

    /** The possible outcomes of asking for `count` distinct strings of
        `length` characters with the active charset. */
    ghost predicate BatchOutcome(r: Result<seq<string>>, count: int, length: int, exclude: Option<string>)
      reads this
    {
      BatchResult(r, count, length, count * maxAttemptsMultiplier, Pool(charset, exclude))
    }

    /** `charset($name)`: rejects a PHP-empty name and leaves the charset
        alone; otherwise installs the resolved charset and returns `this`. */
    method Charset(name: string) returns (r: Result<StringGenerator>)
      modifies this
      ensures Empty(name) ==> r == Failure(InvalidCharset(name)) && charset == old(charset)
      ensures !Empty(name) ==> r == Success(this) && charset == Resolve(charsets, name)
    {
      if Empty(name) {
        return Failure(InvalidCharset(name));
      }
      if name in charsets {
        charset := charsets[name];
      } else {
        charset := name;
      }
      return Success(this);
    }

    /** `using($charsetName)`: the same as `charset($charsetName)`. */
    method Using(name: string) returns (r: Result<StringGenerator>)
      modifies this
      ensures Empty(name) ==> r == Failure(InvalidCharset(name)) && charset == old(charset)
      ensures !Empty(name) ==> r == Success(this) && charset == Resolve(charsets, name)
    {
      r := Charset(name);
    }

    /** `alphanumeric()`: selects the `alphanumeric_safe` charset. */
    method Alphanumeric() returns (r: Result<StringGenerator>)
      modifies this
      ensures r == Success(this) && charset == Resolve(charsets, "alphanumeric_safe")
      ensures charsets == Config.Charsets ==> charset == Config.AlphanumericSafe
    {
      r := Charset("alphanumeric_safe");
    }

    /** `alpha()`: selects the `alpha_safe` charset. */
    method Alpha() returns (r: Result<StringGenerator>)
      modifies this
      ensures r == Success(this) && charset == Resolve(charsets, "alpha_safe")
      ensures charsets == Config.Charsets ==> charset == Config.AlphaSafe
    {
      r := Charset("alpha_safe");
    }

    /** `numeric()`: selects the `numeric` charset. */
    method Numeric() returns (r: Result<StringGenerator>)
      modifies this
      ensures r == Success(this) && charset == Resolve(charsets, "numeric")
      ensures charsets == Config.Charsets ==> charset == Config.Numeric
    {
      r := Charset("numeric");
    }

    /** `lowercase()`: selects the `lowercase` charset. */
    method Lowercase() returns (r: Result<StringGenerator>)
      modifies this
      ensures r == Success(this) && charset == Resolve(charsets, "lowercase")
      ensures charsets == Config.Charsets ==> charset == Config.Lowercase
    {
      r := Charset("lowercase");
    }

    /** `uppercase()`: selects the `uppercase` charset. */
    method Uppercase() returns (r: Result<StringGenerator>)
      modifies this
      ensures r == Success(this) && charset == Resolve(charsets, "uppercase")
      ensures charsets == Config.Charsets ==> charset == Config.Uppercase
    {
      r := Charset("uppercase");
    }

    /** `generateSingle`: builds the pool, fails before any draw when it is
        empty, then appends `length` characters picked by index. */
    method GenerateSingle(length: int, exclude: Option<string>) returns (r: Result<string>)
      ensures SingleOutcome(r, length, exclude)
    {
      var pool := Pool(charset, exclude);
      if pool.Failure? {
        return pool;
      }
      var available := pool.value;
      var s := "";
      var i := 0;
      while i < length
        invariant 0 <= i <= DrawLength(length) && |s| == i
        invariant forall k :: 0 <= k < |s| ==> s[k] in available
      {
        var index := RandomInt(0, |available| - 1);
        s := s + [available[index]];
        i := i + 1;
      }
      return Success(s);
    }

    /** `generateUniqueCollection`: draws until `count` distinct strings are
        accepted or `count * maxAttemptsMultiplier` attempts are spent. A
        repeated draw costs an attempt and is not kept. `draws` records every
        draw in order; the batch is their first occurrences. */
    method GenerateUniqueCollection(length: int, count: int, exclude: Option<string>)
      returns (r: Result<seq<string>>, ghost draws: seq<string>)
      requires count > 0
      ensures BatchRun(r, draws, count, length, count * maxAttemptsMultiplier, Pool(charset, exclude))
      ensures BatchOutcome(r, count, length, exclude)
    {
      var strings: seq<string> := [];
      var attempts := 0;
      var maxAttempts := count * maxAttemptsMultiplier;
      ghost var pool := Pool(charset, exclude);
      draws := [];
      while |strings| < count && attempts < maxAttempts
        invariant attempts == |draws| <= if maxAttempts > 0 then maxAttempts else 0
        invariant strings == Dedup(draws) && |strings| <= count
        invariant attempts > 0 ==> pool.Success?
        invariant pool.Success? ==> forall k :: 0 <= k < |draws| ==> IsDraw(draws[k], pool.value, length)
        invariant forall k :: 0 <= k < |draws| ==> |Dedup(draws[..k])| < count
        decreases maxAttempts - attempts
      {
        var single := GenerateSingle(length, exclude);
        if single.Failure? {
          return Failure(single.error), draws;
        }
        var s := single.value;
        DrawStep(draws, s, count);
        if s !in strings {
          strings := strings + [s];
        }
        draws := draws + [s];
        attempts := attempts + 1;
      }
      if |strings| < count {
        r := Failure(InsufficientUniqueStrings(count, |strings|));
      } else {
        r := Success(strings);
      }
      BatchRunOutcome(r, draws, count, length, maxAttempts, pool);
    }

    /** `single($length, $exclude)`: defaults a null length, rejects a
        non-positive one, then draws one string. */
    method Single(length: Option<int>, exclude: Option<string>) returns (r: Result<string>)
      ensures length.GetOr(defaultLength) <= 0 ==> r == Failure(InvalidArgument(Length))
      ensures length.GetOr(defaultLength) > 0 ==> SingleOutcome(r, length.GetOr(defaultLength), exclude)
    {
      var n := length.GetOr(defaultLength);
      if n <= 0 {
        return Failure(InvalidArgument(Length));
      }
      r := GenerateSingle(n, exclude);
    }

    /** `collection($count, $length, $exclude)`: rejects a non-positive count
        before any draw, defaults a null length (a non-positive length is not
        rejected) and builds a unique batch. */
    method Collection(count: int, length: Option<int>, exclude: Option<string>) returns (r: Result<seq<string>>)
      ensures count <= 0 ==> r == Failure(InvalidArgument(Count))
      ensures count > 0 ==> BatchOutcome(r, count, length.GetOr(defaultLength), exclude)
    {
      if count <= 0 {
        return Failure(InvalidArgument(Count));
      }
      ghost var draws;
      r, draws := GenerateUniqueCollection(length.GetOr(defaultLength), count, exclude);
    }

    /** `generate($length, $count, $exclude)`: the length check comes first,
        then the count check; a null count or a count of 1 yields one string,
        a larger count a batch. */
    method Generate(length: Option<int>, count: Option<int>, exclude: Option<string>) returns (r: Result<Output>)
      ensures length.GetOr(defaultLength) <= 0 ==> r == Failure(InvalidArgument(Length))
      ensures length.GetOr(defaultLength) > 0 && count.Some? && count.value <= 0 ==>
        r == Failure(InvalidArgument(Count))
      ensures length.GetOr(defaultLength) > 0 && (count.None? || count.value == 1) ==>
        && (r.Success? ==> r.value.One? && SingleOutcome(Success(r.value.text), length.GetOr(defaultLength), exclude))
        && (r.Failure? ==> SingleOutcome(Failure(r.error), length.GetOr(defaultLength), exclude))
      ensures length.GetOr(defaultLength) > 0 && count.Some? && count.value > 1 ==>
        && (r.Success? ==> r.value.Many? && BatchOutcome(Success(r.value.strings), count.value, length.GetOr(defaultLength), exclude))
        && (r.Failure? ==> BatchOutcome(Failure(r.error), count.value, length.GetOr(defaultLength), exclude))
    {
      var n := length.GetOr(defaultLength);
      if n <= 0 {
        return Failure(InvalidArgument(Length));
      }
      if count.Some? && count.value <= 0 {
        return Failure(InvalidArgument(Count));
      }
      if count.None? || count.value == 1 {
        var single := GenerateSingle(n, exclude);
        match single
        case Success(s) => return Success(One(s));
        case Failure(e) => return Failure(e);
      }
      ghost var draws;
      var batch;
      batch, draws := GenerateUniqueCollection(n, count.value, exclude);
      match batch
      case Success(strings) => return Success(Many(strings));
      case Failure(e) => return Failure(e);
    }
  }
}
