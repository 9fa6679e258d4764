/** The PHP string primitives the generator relies on, with the byte-based
    semantics of the PHP runtime (one `char` stands for one byte). */
module PhpStrings {

  /** PHP's `empty($s)` for a string: true for `""` and also for `"0"`. */
  predicate Empty(s: string) {
    s == "" || s == "0"
  }

  /** `str_replace($c, '', $s)` for a one-byte search string: every occurrence
      of `c` is deleted. */
  function RemoveChar(s: string, c: char): string {
    if s == [] then [] else (if s[0] == c then [] else [s[0]]) + RemoveChar(s[1..], c)
  }

  /** `str_replace(str_split($search), '', $subject)`: PHP applies the
      one-byte searches left to right, each to the result of the previous. */
  function StrReplaceChars(subject: string, search: string): string
    decreases search
  {
    if search == [] then subject
    else StrReplaceChars(RemoveChar(subject, search[0]), search[1..])
  }

  /** Reference definition: `s` with every character that occurs in `chars`
      removed, in one pass. */
  function Without(s: string, chars: string): string {
    if s == [] then [] else (if s[0] in chars then [] else [s[0]]) + Without(s[1..], chars)
  }

  /** Removal distributes over concatenation, so the relative order of the
      characters that survive is that of `a + b`. */
  lemma {:induction false} WithoutAppend(a: string, b: string, chars: string)
    ensures Without(a + b, chars) == Without(a, chars) + Without(b, chars)
  {
    if a == [] {
      assert a + b == b;
    } else {
      assert (a + b)[1..] == a[1..] + b;
      WithoutAppend(a[1..], b, chars);
    }
  }

  /** Every occurrence of an excluded character is removed and every other
      character keeps its multiplicity. */
  lemma {:induction false} WithoutCounts(s: string, chars: string, c: char)
    ensures multiset(Without(s, chars))[c] == if c in chars then 0 else multiset(s)[c]
  {
    if s != [] {
      WithoutCounts(s[1..], chars, c);
      assert s == [s[0]] + s[1..];
    }
  }

  /** No character of the result is excluded, and each comes from `s`. */
  lemma WithoutMembers(s: string, chars: string)
    ensures forall i :: 0 <= i < |Without(s, chars)| ==>
      Without(s, chars)[i] !in chars && Without(s, chars)[i] in s
  {
    forall i | 0 <= i < |Without(s, chars)|
      ensures Without(s, chars)[i] !in chars && Without(s, chars)[i] in s
    {
      var c := Without(s, chars)[i];
      assert c in multiset(Without(s, chars));
      WithoutCounts(s, chars, c);
    }
  }

  /** Removing no characters leaves the string unchanged. */
  lemma {:induction false} WithoutNothing(s: string)
    ensures Without(s, []) == s
  {
    if s != [] {
      WithoutNothing(s[1..]);
    }
  }

  /** Removing one set of characters and then another is removing both. */
  lemma {:induction false} WithoutTwice(s: string, a: string, b: string)
    ensures Without(Without(s, a), b) == Without(s, a + b)
  {
    if s != [] {
      WithoutTwice(s[1..], a, b);
      var head := if s[0] in a then [] else [s[0]];
      WithoutAppend(head, Without(s[1..], a), b);
    }
  }

  /** Deleting one byte with `str_replace` is the reference removal of `[c]`. */
  lemma {:induction false} RemoveCharIsWithout(s: string, c: char)
    ensures RemoveChar(s, c) == Without(s, [c])
  {
    if s != [] {
      RemoveCharIsWithout(s[1..], c);
    }
  }

  /** The sequential `str_replace` over `str_split($exclude)` removes exactly
      the characters of `exclude`, whatever their order or repetitions. */
  lemma {:induction false} StrReplaceCharsIsWithout(s: string, exclude: string)
    ensures StrReplaceChars(s, exclude) == Without(s, exclude)
    decreases exclude
  {
    if exclude == [] {
      WithoutNothing(s);
    } else {
      var c := exclude[0];
      calc {
        StrReplaceChars(s, exclude);
        StrReplaceChars(RemoveChar(s, c), exclude[1..]);
        { StrReplaceCharsIsWithout(RemoveChar(s, c), exclude[1..]); }
        Without(RemoveChar(s, c), exclude[1..]);
        { RemoveCharIsWithout(s, c); }
        Without(Without(s, [c]), exclude[1..]);
        { WithoutTwice(s, [c], exclude[1..]); assert [c] + exclude[1..] == exclude; }
        Without(s, exclude);
      }
    }
  }

  /** A string none of whose characters is excluded is left as it is. */
  lemma {:induction false} WithoutNone(s: string, chars: string)
    requires forall i :: 0 <= i < |s| ==> s[i] !in chars
    ensures Without(s, chars) == s
  {
    if s != [] {
      WithoutNone(s[1..], chars);
    }
  }

  /** Everything before the first excluded character survives; the character
      itself is removed. */
  lemma {:induction false} WithoutFirstDrop(s: string, chars: string, k: nat)
    requires k < |s| && s[k] in chars
    requires forall i :: 0 <= i < k ==> s[i] !in chars
    ensures Without(s, chars) == s[..k] + Without(s[k + 1..], chars)
  {
    if k > 0 {
      WithoutFirstDrop(s[1..], chars, k - 1);
      assert s[1..][k..] == s[k + 1..];
      assert s[..k] == [s[0]] + s[1..][..k - 1];
    }
  }
}
