/** Per-key accumulation as the source writes it in several places: a `Map`
    (or an array searched with `find`) that gains an entry the first time a key
    is seen and has that entry's total increased afterwards. Entries keep the
    order in which their keys first occur, as a JavaScript `Map` does. */
module Tally {
  import opened Seqs

  datatype Entry<K> = Entry(key: K, total: int)

  /** The keys of a sequence of (key, weight) pairs, in order. */
  function Firsts<K>(pairs: seq<(K, int)>): (r: seq<K>)
    ensures |r| == |pairs|
    ensures forall i :: 0 <= i < |pairs| ==> r[i] == pairs[i].0
  {
    seq(|pairs|, i requires 0 <= i < |pairs| => pairs[i].0)
  }

  function Keys<K>(acc: seq<Entry<K>>): (r: seq<K>)
    ensures |r| == |acc|
    ensures forall i :: 0 <= i < |acc| ==> r[i] == acc[i].key
  {
    seq(|acc|, i requires 0 <= i < |acc| => acc[i].key)
  }

  function Totals<K>(acc: seq<Entry<K>>): (r: seq<int>)
    ensures |r| == |acc|
    ensures forall i :: 0 <= i < |acc| ==> r[i] == acc[i].total
  {
    seq(|acc|, i requires 0 <= i < |acc| => acc[i].total)
  }

  /** `s` with every element after its first occurrence removed. */
  function Dedup<K(==)>(s: seq<K>): (r: seq<K>)
    ensures forall i :: 0 <= i < |r| ==> r[i] in s
    ensures forall i :: 0 <= i < |s| ==> s[i] in r
    ensures Distinct(r)
  {
    if s == [] then []
    else
      var front := Dedup(s[..|s| - 1]);
      assert s == s[..|s| - 1] + [s[|s| - 1]];
      if s[|s| - 1] in s[..|s| - 1] then front else front + [s[|s| - 1]]
  }

  /** Sum of the weights the pairs with key `k` carry. */
  function SumFor<K(==)>(pairs: seq<(K, int)>, k: K): int
  {
    if pairs == [] then 0
    else SumFor(pairs[..|pairs| - 1], k) + (if pairs[|pairs| - 1].0 == k then pairs[|pairs| - 1].1 else 0)
  }

  /** Position of the entry for `k`, or -1 (`acc.find(e => e.key === k)`). */
  function IndexOf<K(==)>(acc: seq<Entry<K>>, k: K): (r: int)
    ensures -1 <= r < |acc|
    ensures r == -1 <==> k !in Keys(acc)
    ensures r >= 0 ==> acc[r].key == k
  {
    if acc == [] then -1
    else if acc[|acc| - 1].key == k then |acc| - 1
    else
      assert Keys(acc) == Keys(acc[..|acc| - 1]) + [acc[|acc| - 1].key];
      IndexOf(acc[..|acc| - 1], k)
  }

  /** One step: add weight `w` to the entry for `k`, creating it at the end. */
  function Bump<K(==)>(acc: seq<Entry<K>>, k: K, w: int): seq<Entry<K>>
  {
    var i := IndexOf(acc, k);
    if i >= 0 then acc[i := Entry(k, acc[i].total + w)] else acc + [Entry(k, w)]
  }

  /** The accumulator after feeding it `pairs` from left to right. */
  function Accumulate<K(==)>(pairs: seq<(K, int)>): seq<Entry<K>>
  {
    if pairs == [] then []
    else
      var last := pairs[|pairs| - 1];
      Bump(Accumulate(pairs[..|pairs| - 1]), last.0, last.1)
  }

  /** The loop the source runs: look the key up, then update or append. */
  method Tally<K(==)>(pairs: seq<(K, int)>) returns (acc: seq<Entry<K>>)
    ensures acc == Accumulate(pairs)
  {
    acc := [];
    var n := 0;
    while n < |pairs|
      invariant 0 <= n <= |pairs|
      invariant acc == Accumulate(pairs[..n])
    {
      var (k, w) := pairs[n];
      AccumulateDistinct(pairs[..n]);
      var found := Lookup(acc, k);
      acc := Add(acc, found, k, w);
      AccumulateStep(pairs, n);
      n := n + 1;
    }
    assert pairs[..n] == pairs;
  }

  /** Increase the entry found at `found`, or append a new one when there is none. */
  method Add<K(==)>(acc: seq<Entry<K>>, found: int, k: K, w: int) returns (r: seq<Entry<K>>)
    requires found == IndexOf(acc, k)
    ensures r == Bump(acc, k, w)
  {
    if found >= 0 {
      r := acc[found := Entry(k, acc[found].total + w)];
    } else {
      r := acc + [Entry(k, w)];
    }
  }

  /** Front-to-back search for the entry of `k`. */
  method Lookup<K(==)>(acc: seq<Entry<K>>, k: K) returns (found: int)
    requires Distinct(Keys(acc))
    ensures found == IndexOf(acc, k)
  {
    var j := 0;
    found := -1;
    while j < |acc| && found < 0
      invariant 0 <= j <= |acc|
      invariant found == -1 || found == IndexOf(acc, k) >= 0
      invariant found == -1 ==> forall m :: 0 <= m < j ==> acc[m].key != k
    {
      if acc[j].key == k {
        IndexOfUnique(acc, k, j);
        found := j;
      }
      j := j + 1;
    }
    if found == -1 {
      assert k !in Keys(acc);
    }
  }

  /** One step of a loop that feeds pairs one at a time. */
  method Increment<K(==)>(acc: seq<Entry<K>>, k: K, w: int) returns (r: seq<Entry<K>>)
    requires Distinct(Keys(acc))
    ensures r == Bump(acc, k, w)
  {
    var found := Lookup(acc, k);
    r := Add(acc, found, k, w);
  }

  /** Feeding one more pair is one more `Bump`. */
  lemma AccumulateSnoc<K>(pairs: seq<(K, int)>, x: (K, int))
    ensures Accumulate(pairs + [x]) == Bump(Accumulate(pairs), x.0, x.1)
  {
    assert (pairs + [x])[..|pairs|] == pairs;
  }

  lemma AccumulateStep<K>(pairs: seq<(K, int)>, n: int)
    requires 0 <= n < |pairs|
    ensures Accumulate(pairs[..n + 1]) == Bump(Accumulate(pairs[..n]), pairs[n].0, pairs[n].1)
  {
    assert pairs[..n + 1][..n] == pairs[..n];
  }

  lemma {:induction false} IndexOfUnique<K>(acc: seq<Entry<K>>, k: K, j: int)
    requires 0 <= j < |acc| && acc[j].key == k
    requires forall m :: 0 <= m < j ==> acc[m].key != k
    requires Distinct(Keys(acc))
    ensures IndexOf(acc, k) == j
    decreases |acc|
  {
    var n := |acc| - 1;
    if j < n {
      assert acc[n].key != k by { assert Keys(acc)[j] != Keys(acc)[n]; }
      assert Keys(acc[..n]) == Keys(acc)[..n];
      IndexOfUnique(acc[..n], k, j);
    }
  }

  /** The entries' keys are the pairs' keys in order of first occurrence. */
  lemma {:induction false} AccumulateKeys<K>(pairs: seq<(K, int)>)
    ensures Keys(Accumulate(pairs)) == Dedup(Firsts(pairs))
    decreases |pairs|
  {
    if pairs != [] {
      var front := pairs[..|pairs| - 1];
      var last := pairs[|pairs| - 1];
      AccumulateKeys(front);
      assert Firsts(pairs) == Firsts(front) + [last.0];
      BumpKeys(Accumulate(front), last.0, last.1);
      DedupSnoc(Firsts(front), last.0);
      DedupMembers(Firsts(front), last.0);
    }
  }

  /** A bump keeps the keys, or appends a key not seen before. */
  lemma BumpKeys<K>(acc: seq<Entry<K>>, k: K, w: int)
    ensures Keys(Bump(acc, k, w)) == if k in Keys(acc) then Keys(acc) else Keys(acc) + [k]
  {
    var i := IndexOf(acc, k);
    if i >= 0 {
      assert Keys(acc[i := Entry(k, acc[i].total + w)]) == Keys(acc);
    } else {
      assert Keys(acc + [Entry(k, w)]) == Keys(acc) + [k];
    }
  }

  /** Deduplicating one more element keeps the result, or appends it. */
  lemma {:induction false} DedupSnoc<K>(xs: seq<K>, x: K)
    ensures Dedup(xs + [x]) == if x in xs then Dedup(xs) else Dedup(xs) + [x]
  {
    assert (xs + [x])[..|xs|] == xs;
  }

  /** Deduplicating keeps exactly the elements. */
  lemma DedupMembers<K>(xs: seq<K>, x: K)
    ensures x in Dedup(xs) <==> x in xs
  {
    if x in xs {
      var i :| 0 <= i < |xs| && xs[i] == x;
    }
    if x in Dedup(xs) {
      var i :| 0 <= i < |Dedup(xs)| && Dedup(xs)[i] == x;
    }
  }

  /** The key of any pair has an entry, whose total is the sum of that
      key's weights. */
  lemma EntryOf<K>(pairs: seq<(K, int)>, j: int) returns (k: int)
    requires 0 <= j < |pairs|
    ensures 0 <= k < |Accumulate(pairs)|
    ensures Accumulate(pairs)[k].key == pairs[j].0
    ensures Accumulate(pairs)[k].total == SumFor(pairs, pairs[j].0)
  {
    var acc := Accumulate(pairs);
    AccumulateKeys(pairs);
    AccumulateTotals(pairs);
    assert Firsts(pairs)[j] == pairs[j].0;
    assert pairs[j].0 in Keys(acc);
    k :| 0 <= k < |acc| && Keys(acc)[k] == pairs[j].0;
  }

  /** Every entry's key is the key of some pair. */
  lemma PairOf<K>(pairs: seq<(K, int)>, k: int) returns (j: int)
    requires 0 <= k < |Accumulate(pairs)|
    ensures 0 <= j < |pairs| && pairs[j].0 == Accumulate(pairs)[k].key
    ensures Accumulate(pairs)[k].total == SumFor(pairs, pairs[j].0)
  {
    var acc := Accumulate(pairs);
    AccumulateKeys(pairs);
    AccumulateTotals(pairs);
    assert Keys(acc)[k] == acc[k].key;
    assert acc[k].key in Dedup(Firsts(pairs));
    j :| 0 <= j < |pairs| && Firsts(pairs)[j] == acc[k].key;
  }

  /** No key has two entries. */
  lemma AccumulateDistinct<K>(pairs: seq<(K, int)>)
    ensures Distinct(Keys(Accumulate(pairs)))
  {
    AccumulateKeys(pairs);
  }

  /** Each entry's total is the sum of the weights its key carried. */
  lemma {:induction false} AccumulateTotals<K>(pairs: seq<(K, int)>)
    ensures forall i :: 0 <= i < |Accumulate(pairs)| ==>
      Accumulate(pairs)[i].total == SumFor(pairs, Accumulate(pairs)[i].key)
    decreases |pairs|
  {
    if pairs != [] {
      var front := pairs[..|pairs| - 1];
      var last := pairs[|pairs| - 1];
      AccumulateTotals(front);
      AccumulateDistinct(front);
      var acc := Accumulate(front);
      var i := IndexOf(acc, last.0);
      if i < 0 {
        assert last.0 !in Keys(acc);
        assert SumFor(front, last.0) == 0 by { AccumulateKeys(front); SumForAbsent(front, last.0); }
      }
    }
  }

  lemma {:induction false} SumForAbsent<K>(pairs: seq<(K, int)>, k: K)
    requires k !in Dedup(Firsts(pairs))
    ensures SumFor(pairs, k) == 0
    decreases |pairs|
  {
    if pairs != [] {
      var front := pairs[..|pairs| - 1];
      assert Firsts(pairs) == Firsts(front) + [pairs[|pairs| - 1].0];
      SumForAbsent(front, k);
    }
  }

  /** Nothing is lost or invented: the totals add up to the sum of all weights. */
  lemma {:induction false} AccumulateSum<K>(pairs: seq<(K, int)>)
    ensures Sum(Totals(Accumulate(pairs))) == Sum(Weights(pairs))
    decreases |pairs|
  {
    if pairs != [] {
      var front := pairs[..|pairs| - 1];
      var last := pairs[|pairs| - 1];
      AccumulateSum(front);
      assert Weights(pairs)[..|pairs| - 1] == Weights(front);
      BumpSum(Accumulate(front), last.0, last.1);
    }
  }

  lemma BumpSum<K>(acc: seq<Entry<K>>, k: K, w: int)
    ensures Sum(Totals(Bump(acc, k, w))) == Sum(Totals(acc)) + w
  {
    var i := IndexOf(acc, k);
    if i >= 0 {
      SumUpdate(Totals(acc), i, w);
      assert Totals(acc[i := Entry(k, acc[i].total + w)]) == Totals(acc)[i := acc[i].total + w];
    } else {
      assert Totals(acc + [Entry(k, w)])[..|acc|] == Totals(acc);
    }
  }

  /** The weights of a sequence of pairs, in order. */
  function Weights<K>(pairs: seq<(K, int)>): (r: seq<int>)
    ensures |r| == |pairs|
    ensures forall i :: 0 <= i < |pairs| ==> r[i] == pairs[i].1
  {
    seq(|pairs|, i requires 0 <= i < |pairs| => pairs[i].1)
  }

  lemma {:induction false} SumUpdate(s: seq<int>, i: int, w: int)
    requires 0 <= i < |s|
    ensures Sum(s[i := s[i] + w]) == Sum(s) + w
    decreases |s|
  {
    var n := |s| - 1;
    if i < n {
      assert s[i := s[i] + w][..n] == s[..n][i := s[i] + w];
      SumUpdate(s[..n], i, w);
    } else {
      assert s[i := s[i] + w][..n] == s[..n];
    }
  }
}
