# Laravel string generator — a Dafny model of the generation engine

This project models the `StringGenerator` class of the `kodooy/laravel-string-generator`
package and its shipped configuration file, and proves what the class promises:

- **Charset resolution.** `charset($name)` refuses a PHP-empty name (`""` or `"0"`) and leaves
  the active charset as it was. A registered name is replaced by its table entry. Any other
  name is installed verbatim. The sugar methods (`using`, `alphanumeric`, `alpha`, `numeric`,
  `lowercase`, `uppercase`) call it with fixed names.
- **The pool.** `str_replace(str_split($exclude), '', $charset)` is modelled as PHP runs it:
  one byte at a time, left to right (`PhpStrings.StrReplaceChars`). It is proved equal to a
  one-pass filter (`PhpStrings.Without`) that keeps the order and multiplicity of every
  character that is not excluded. A PHP-falsy pool throws `InvalidCharset` before any draw.
- **One draw.** A loop appends `length` characters, each picked by an index in range from the
  pool. `random_int` is a method that returns some integer in range.
- **The unique batch.** The loop keeps drawing until it has `count` accepted strings or has
  spent `count * maxAttemptsMultiplier` attempts. Every draw costs one attempt and a repeat is
  not kept. The proof records every draw in a ghost sequence and shows that the batch is the
  sequence of first occurrences of the draws. The batch is pairwise distinct and never longer
  than `|pool|^length`, so a request above that capacity always fails with
  `InsufficientUniqueStrings(count, achieved)`.
- **The entry points.** `generate`, `single` and `collection` apply the default length and
  validate their arguments in the source's order.

The model follows the code, including PHP's truthiness, where a language-neutral reading of
the library would expect otherwise:

- an exclude of exactly `"0"` is ignored, so a `0` in the charset can still be drawn;
- a pool of exactly `"0"` is refused as empty;
- `collection` does not check the length, and a length of 0 or less draws `""` every time;
- with a multiplier of 0 or less the batch loop never runs, so the result is
  `InsufficientUniqueStrings(count, 0)` even when the pool is empty.

Files: `errors.dfy` (nullable parameters and exceptions as values), `php_strings.dfy` (PHP's
`empty` and `str_replace` on bytes), `config.dfy` (the shipped configuration and its
properties), `batches.dfy` (what a draw and a unique batch may be, and the capacity bound),
`generator.dfy` (the `StringGenerator` class), `scenarios.dfy` (the unit tests' situations,
derived from the contracts).

## Model

| member | source | states |
|---|---|---|
| `PhpStrings.StrReplaceCharsIsWithout` | src/StringGenerator.php:189-191 | removing the bytes of `$exclude` one after another with `str_replace` removes exactly the excluded characters, whatever their order or repetitions |
| `PhpStrings.WithoutCounts` | src/StringGenerator.php:190 | after the filter an excluded character occurs 0 times, and every other character occurs as often as in the charset |
| `PhpStrings.WithoutAppend` | src/StringGenerator.php:190 | the filter distributes over concatenation, so the characters that remain keep their relative order |
| `PhpStrings.WithoutMembers` | src/StringGenerator.php:190 | no character left by the filter is excluded, and each one comes from the charset |
| `Config.AlphanumericSafeIsFiltered` | src/config/string-generator.php:24-25 | `alphanumeric_safe` is exactly `alphanumeric` with every `i l I o O 0` removed |
| `Config.AlphaSafeIsFiltered` | src/config/string-generator.php:26-27 | `alpha_safe` is exactly `alpha` with every `i l I o O` removed |
| `Config.RangesAreExact` | src/config/string-generator.php:28-30 | `lowercase`, `uppercase` and `numeric` are exactly the ASCII ranges `a`-`z`, `A`-`Z` and `0`-`9`, in order |
| `Config.NamedCharsetClasses` | src/config/string-generator.php:24-30 | every character of the charsets that the sugar methods select lies in its ASCII class, as the unit tests check with regular expressions |
| `Config.RegisteredCharsetsNonEmpty` | src/config/string-generator.php:23-32 | every table entry is non-empty and not PHP-falsy, so resolving a registered name never yields an unusable charset |
| `Config.ShippedBudgetPositive` | src/config/string-generator.php:42-53 | the default length is positive, and any positive count gets a positive attempt budget |
| `Batches.DedupDistinct` | src/StringGenerator.php:150-152 | keeping only draws not already accepted yields a pairwise distinct sequence no longer than the draws |
| `Batches.DedupMembers` | src/StringGenerator.php:150-152 | a value is accepted exactly when it was drawn at least once |
| `Batches.DrawStep` | src/StringGenerator.php:147-155 | a draw taken while fewer than `count` strings are accepted keeps every earlier state below `count`; the accepted strings grow by that draw exactly when it is new, and are unchanged otherwise |
| `Batches.AcceptedDraws` | src/StringGenerator.php:147-158 | a non-empty run of draws leaves at least one accepted string, all pairwise distinct, each a draw from the pool, and no more than the pool can form |
| `Batches.BatchCapacity` | src/StringGenerator.php:147-158 | a pairwise-distinct batch of draws of `length` characters from a pool holds at most `|pool|^length` strings |
| `Generator.Pool` | src/StringGenerator.php:187-195 | the pool is the charset filtered by a truthy exclude (unfiltered otherwise); it fails with `InvalidCharset` exactly when that result is PHP-empty, and a successful pool is non-empty |
| `Generator.PoolFiltersExactly` | src/StringGenerator.php:189-191 | a truthy exclude removes every occurrence of each excluded character and keeps every other character with its multiplicity |
| `Generator.PoolAvoidsExcluded` | src/StringGenerator.php:189-191 | no pool character occurs in a truthy exclude, and every pool character comes from the charset |
| `Generator.PoolSurvivesUnexcluded` | src/StringGenerator.php:189-195 | a truthy exclude leaves a usable pool whenever some character of the charset other than `0` is not excluded |
| `Generator.ExcludeZeroIsIgnored` | src/StringGenerator.php:189 | an exclude of exactly `"0"` is falsy and leaves the pool as if nothing were excluded |
| `Generator.LoneZeroPoolIsRejected` | src/StringGenerator.php:193-195 | a pool of exactly `"0"` is PHP-empty and throws `InvalidCharset` |
| `Generator.RandomInt` | src/StringGenerator.php:201 | the index drawn for each character lies in `[0, charCount - 1]` |
| `Generator.StringGenerator.constructor` | src/StringGenerator.php:23-32 | the active charset starts as the configured default charset, and the default length and multiplier are the configured ones; the charset table, which `charset()` reads from the configuration on each call (src/StringGenerator.php:48), is fixed here as well |
| `Generator.StringGenerator.Charset` | src/StringGenerator.php:41-56 | a PHP-empty name throws `InvalidCharset` and leaves the charset unchanged; otherwise the charset becomes the table entry for a registered name or the name itself, and the same instance is returned |
| `Generator.StringGenerator.Using` | src/StringGenerator.php:222-225 | behaves exactly as `charset` with the given name |
| `Generator.StringGenerator.Alphanumeric` | src/StringGenerator.php:232-235 | selects the `alphanumeric_safe` entry, which with the shipped table is the safe alphanumeric charset |
| `Generator.StringGenerator.Alpha` | src/StringGenerator.php:242-245 | selects the `alpha_safe` entry |
| `Generator.StringGenerator.Numeric` | src/StringGenerator.php:252-255 | selects the `numeric` entry |
| `Generator.StringGenerator.Lowercase` | src/StringGenerator.php:262-265 | selects the `lowercase` entry |
| `Generator.StringGenerator.Uppercase` | src/StringGenerator.php:272-275 | selects the `uppercase` entry |
| `Generator.StringGenerator.GenerateSingle` | src/StringGenerator.php:180-213 | an empty pool throws `InvalidCharset`; otherwise the result has exactly `max(length, 0)` characters, each a member of the pool |
| `Generator.StringGenerator.GenerateUniqueCollection` | src/StringGenerator.php:132-170 | the loop runs as `BatchRun` describes: no draw without a budget or a pool; otherwise at most `count * maxAttemptsMultiplier` draws, each taken while fewer than `count` strings were accepted, stopping with `count` accepted or the budget spent; the batch is the first occurrences of the draws, returned when it reaches `count` and otherwise reported as `InsufficientUniqueStrings(count, achieved)`; and the result is one of the outcomes `BatchResult` allows |
| `Generator.BatchRunOutcome` | src/StringGenerator.php:143-159 | any run of the loop ends in a promised outcome: a successful batch has exactly `count` pairwise distinct strings, each a draw from the pool; a failure reports the requested `count` and an achieved number between 1 and `count - 1`; a request above `|pool|^length` always fails |
| `Generator.StringGenerator.Single` | src/StringGenerator.php:94-103 | a null length becomes the default; a length of 0 or less throws `InvalidArgument`; otherwise one draw as `generateSingle` |
| `Generator.StringGenerator.Collection` | src/StringGenerator.php:114-121 | a count of 0 or less throws `InvalidArgument` before any draw; otherwise the batch outcome with the defaulted length, which is not checked |
| `Generator.StringGenerator.Generate` | src/StringGenerator.php:68-85 | the length is defaulted and checked first, then a non-null count of 0 or less is refused; a null count or a count of 1 yields one string, a larger count a batch |
| `Scenarios.TooManyUniqueStrings` | tests/Unit/StringGeneratorTest.php:54-60 | with charset `ab`, a batch of 100 strings of length 2 fails with `InsufficientUniqueStrings(100, n)` where `1 <= n <= 4` |
| `Scenarios.ExcludeEverything` | tests/Unit/StringGeneratorTest.php:80-83 | charset `abc` with exclude `abc` throws `InvalidCharset` |
| `Scenarios.EmptyCharsetName` | tests/Unit/StringGeneratorTest.php:75-78 | `charset('')` throws `InvalidCharset` |
| `Scenarios.CustomCharset` | tests/Unit/StringGeneratorTest.php:68-73 | charset `xyz` yields a 10-character string of `x`, `y` and `z` |
| `Scenarios.DefaultCollection` | tests/Unit/StringGeneratorTest.php:40-52 | `collection(5, 6)` with the default charset, when it succeeds, holds 5 pairwise distinct strings of 6 characters each |
| `Scenarios.NumericSingle` | tests/Unit/StringGeneratorTest.php:62-66 | `numeric()->single(10)` succeeds with 10 characters, every one a digit |
| `Scenarios.GenerateWithoutCount` | tests/Unit/StringGeneratorTest.php:125-130 | `generate(10)` returns one string of length 10, not a batch |
| `Scenarios.GenerateWithCount` | tests/Unit/StringGeneratorTest.php:132-137 | `generate(8, 3)` returns a batch of 3 distinct strings when it succeeds, and can fail only with `InsufficientUniqueStrings(3, n)` |
| `Scenarios.SingleDefaultLength` | tests/Unit/StringGeneratorTest.php:16-21 | `single()` with the shipped configuration returns a string of the default length 8 |
| `Scenarios.ExcludedCharacters` | tests/Unit/StringGeneratorTest.php:31-38 | whatever the active charset, `single(100, 'abc123')` returns 100 characters none of which is in `abc123`; it fails only for an empty pool, and succeeds whenever the pool survives the exclusion |
| `Scenarios.ExcludedCharactersDefault` | tests/Unit/StringGeneratorTest.php:31-38 | on a fresh generator with the default charset, `single(100, 'abc123')` succeeds with 100 characters, none of them in `abc123` |
| `Scenarios.InvalidArguments` | tests/Unit/StringGeneratorTest.php:109-123 | `single(0)` and `single(-1)` are refused for the length; `collection(0)` and `collection(-1)` are refused for the count |
| `Scenarios.GenerateInvalidArguments` | src/StringGenerator.php:72-78 | `generate` checks the length before the count: `generate(-1, 0)` reports the length, `generate(4, 0)` the count |

## Left out

- The cache (`Cache::get`/`Cache::put`, the `md5(serialize(...))` keys and the
  `microtime()`-salted key of single strings): an external store and a hash. The model
  assumes the cache is disabled, which is the shipped setting.
- Event dispatch (`StringGenerated`, `StringCollectionGenerated`) and the `$fireEvent`
  parameter of `generateSingle`: notification plumbing with no effect on the result.
- Reading the configuration with `config()`: the constructor takes the values as a
  `Config.Settings` value instead. This includes the charset table, which the PHP `charset()` re-reads
  on every call. A change to the configuration made after the generator is built is therefore not
  seen by the model. The cache and event settings are not part of `Config.Settings`.
- The exception classes and their message texts: errors are the constructors of
  `Errors.Error`.
- The distribution of `random_int`: a draw is any index in range, and no uniformity is claimed.
- Multibyte text: PHP's `strlen`, `str_split` and string indexing work on bytes. Here a `char`
  stands for a byte, which matches every shipped charset (all ASCII).
- Generator.StringGenerator.GenerateUniqueCollection: a repeat is detected with strict
  equality. Laravel's `Collection::contains` compares loosely (`==`), so in PHP two different
  numeric-looking strings such as `010` and `1e1` also count as a repeat. The Laravel
  collection class is not part of this model.
- Generator.StringGenerator.GenerateUniqueCollection: `count * maxAttemptsMultiplier` is an
  unbounded integer. PHP would turn a product beyond 64 bits into a float.
- Generator.StringGenerator.GenerateUniqueCollection: requires `count > 0`. This private
  method has only two callers, and both establish it.
- Generator.Resolve: the table lookup compares names as strings. PHP casts integer-like array
  keys to integers; no shipped name is integer-like.
- The facade, the service provider and the test bootstrap: framework wiring.
