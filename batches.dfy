/** What one draw and one unique batch may be, independent of any random
    source: the specification the generator's loops are proved against. */
module Batches {

  /** The number of characters a draw of `length` produces: PHP's
      `for ($i = 0; $i < $length; $i++)` runs no iteration when `length <= 0`. */
  function DrawLength(length: int): nat {
    if length > 0 then length else 0
  }

  /** `s` is a possible outcome of drawing `length` characters by index from
      `pool`. */
  predicate IsDraw(s: string, pool: string, length: int) {
    |s| == DrawLength(length) && forall i :: 0 <= i < |s| ==> s[i] in pool
  }

  /** No two positions of `s` hold equal values. */
  predicate Distinct<T(==)>(s: seq<T>) {
    forall i, j :: 0 <= i < j < |s| ==> s[i] != s[j]
  }

  /** The first occurrences of the values of `s`, in order: what is left of a
      sequence of draws once every draw already seen is rejected. */
  function Dedup<T(==)>(s: seq<T>): seq<T> {
    if s == [] then []
    else
      var d := Dedup(s[..|s| - 1]);
      if s[|s| - 1] in d then d else d + [s[|s| - 1]]
  }

  /** Deduplication keeps exactly the values of its input. */
  lemma {:induction false} DedupMembers<T>(s: seq<T>, x: T)
    ensures x in Dedup(s) <==> x in s
  {
    if s != [] {
      DedupMembers(s[..|s| - 1], x);
      assert s == s[..|s| - 1] + [s[|s| - 1]];
    }
  }

  /** The result of deduplication is pairwise distinct and no longer than its
      input. */
  lemma {:induction false} DedupDistinct<T>(s: seq<T>)
    ensures Distinct(Dedup(s)) && |Dedup(s)| <= |s|
  {
    if s != [] {
      DedupDistinct(s[..|s| - 1]);
    }
  }

  /** Appending a draw extends the deduplicated sequence exactly when the draw
      is new. */
  lemma DedupSnoc<T>(s: seq<T>, x: T)
    ensures Dedup(s + [x]) == if x in Dedup(s) then Dedup(s) else Dedup(s) + [x]
  {
    assert (s + [x])[..|s|] == s;
  }

  function Pow(base: nat, exp: nat): nat {
    if exp == 0 then 1 else base * Pow(base, exp - 1)
  }

  /** Every string of length `n` over `alphabet`, one per choice of indices. */
  function Words(alphabet: string, n: nat): seq<string> {
    if n == 0 then [""] else Prefixed(alphabet, Words(alphabet, n - 1))
  }

  /** Each word of `ws` prefixed by each character of `alphabet`. */
  function Prefixed(alphabet: string, ws: seq<string>): seq<string> {
    if alphabet == [] then []
    else seq(|ws|, i requires 0 <= i < |ws| => [alphabet[0]] + ws[i]) + Prefixed(alphabet[1..], ws)
  }

  lemma {:induction false} PrefixedLength(alphabet: string, ws: seq<string>)
    ensures |Prefixed(alphabet, ws)| == |alphabet| * |ws|
  {
    if alphabet != [] {
      PrefixedLength(alphabet[1..], ws);
      assert |alphabet| * |ws| == |ws| + (|alphabet| - 1) * |ws|;
    }
  }

  lemma {:induction false} PrefixedHas(alphabet: string, ws: seq<string>, c: char, w: string)
    requires c in alphabet && w in ws
    ensures [c] + w in Prefixed(alphabet, ws)
  {
    var head := seq(|ws|, i requires 0 <= i < |ws| => [alphabet[0]] + ws[i]);
    if c == alphabet[0] {
      var i :| 0 <= i < |ws| && ws[i] == w;
      assert head[i] == [c] + w;
    } else {
      PrefixedHas(alphabet[1..], ws, c, w);
    }
  }

  /** There are `|alphabet|^n` words of length `n` (counting repeated
      alphabet characters separately). */
  lemma {:induction false} WordsLength(alphabet: string, n: nat)
    ensures |Words(alphabet, n)| == Pow(|alphabet|, n)
  {
    if n > 0 {
      WordsLength(alphabet, n - 1);
      PrefixedLength(alphabet, Words(alphabet, n - 1));
    }
  }

  /** Every string of length `n` over `alphabet` is one of the words. */
  lemma {:induction false} WordsComplete(alphabet: string, w: string)
    requires forall i :: 0 <= i < |w| ==> w[i] in alphabet
    ensures w in Words(alphabet, |w|)
  {
    if w != [] {
      WordsComplete(alphabet, w[1..]);
      PrefixedHas(alphabet, Words(alphabet, |w| - 1), w[0], w[1..]);
      assert [w[0]] + w[1..] == w;
    }
  }

  /** A pairwise-distinct sequence whose values all occur in `ws` is no longer
      than `ws`. */
  lemma {:induction false} DistinctWithin<T>(s: seq<T>, ws: seq<T>)
    requires Distinct(s)
    requires forall i :: 0 <= i < |s| ==> s[i] in ws
    ensures |s| <= |ws|
  {
    if s != [] {
      var k :| 0 <= k < |ws| && ws[k] == s[0];
      var rest := ws[..k] + ws[k + 1..];
      forall i | 0 <= i < |s[1..]| ensures s[1..][i] in rest {
        assert s[1..][i] == s[i + 1] != s[0];
        var j :| 0 <= j < |ws| && ws[j] == s[i + 1];
        if j < k {
          assert rest[j] == ws[j];
        } else {
          assert rest[j - 1] == ws[j];
        }
      }
      DistinctWithin(s[1..], rest);
    }
  }

  /** How many distinct strings drawing `length` characters from `pool` can
      produce at most: `|pool|^length`. */
  function Capacity(pool: string, length: int): nat {
    Pow(|pool|, DrawLength(length))
  }

  /** A batch of pairwise-distinct draws never holds more than
      `|pool|^length` strings. */
  lemma BatchCapacity(batch: seq<string>, pool: string, length: int)
    requires Distinct(batch)
    requires forall i :: 0 <= i < |batch| ==> IsDraw(batch[i], pool, length)
    ensures |batch| <= Capacity(pool, length)
  {
    var ws := Words(pool, DrawLength(length));
    forall i | 0 <= i < |batch| ensures batch[i] in ws {
      WordsComplete(pool, batch[i]);
    }
    DistinctWithin(batch, ws);
    WordsLength(pool, DrawLength(length));
  }

  /** What a non-empty run of draws leaves once repeats are rejected: at least
      one string, all distinct, each a draw from the pool, and no more of them
      than the pool can form. */
  lemma AcceptedDraws(draws: seq<string>, pool: string, length: int)
    requires |draws| > 0
    requires forall k :: 0 <= k < |draws| ==> IsDraw(draws[k], pool, length)
    ensures var batch := Dedup(draws);
      && 1 <= |batch| <= |draws|
      && Distinct(batch)
      && (forall i :: 0 <= i < |batch| ==> IsDraw(batch[i], pool, length))
      && |batch| <= Capacity(pool, length)
  {
    var batch := Dedup(draws);
    DedupDistinct(draws);
    DedupMembers(draws, draws[0]);
    forall i | 0 <= i < |batch| ensures IsDraw(batch[i], pool, length) {
      DedupMembers(draws, batch[i]);
    }
    BatchCapacity(batch, pool, length);
  }

  /** One more draw, taken while fewer than `count` strings are accepted,
      keeps every prefix of the draws below `count` and extends the accepted
      strings exactly when it is new. */
  lemma DrawStep(draws: seq<string>, s: string, count: int)
    requires forall k :: 0 <= k < |draws| ==> |Dedup(draws[..k])| < count
    requires |Dedup(draws)| < count
    ensures forall k :: 0 <= k <= |draws| ==> |Dedup((draws + [s])[..k])| < count
    ensures Dedup(draws + [s]) == if s in Dedup(draws) then Dedup(draws) else Dedup(draws) + [s]
  {
    DedupSnoc(draws, s);
    forall k | 0 <= k <= |draws| ensures |Dedup((draws + [s])[..k])| < count {
      assert (draws + [s])[..k] == draws[..k];
    }
  }
}
