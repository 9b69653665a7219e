/** `Array.prototype.sort` with a numeric comparator `(a, b) => key(a) - key(b)`:
    a stable sort by an integer key, here an insertion sort over sequences. */
module Sorting {

  ghost predicate SortedBy<T>(s: seq<T>, key: T -> int)
  {
    forall i, j :: 0 <= i < j < |s| ==> key(s[i]) <= key(s[j])
  }

  /** Places `x` after every element of `s` whose key is at most its own. */
  function Insert<T>(s: seq<T>, x: T, key: T -> int): (r: seq<T>)
    requires SortedBy(s, key)
    ensures SortedBy(r, key)
    ensures multiset(r) == multiset(s) + multiset{x}
    ensures |r| == |s| + 1
    ensures r[|r| - 1] == x || (s != [] && r[|r| - 1] == s[|s| - 1])
  {
    if s == [] then [x]
    else if key(s[|s| - 1]) <= key(x) then s + [x]
    else
      var last := s[|s| - 1];
      var front := Insert(s[..|s| - 1], x, key);
      assert s == s[..|s| - 1] + [last];
      assert key(front[|front| - 1]) <= key(last);
      front + [last]
  }

  /** `[...s].sort((a, b) => key(a) - key(b))`. */
  function SortBy<T>(s: seq<T>, key: T -> int): (r: seq<T>)
    ensures SortedBy(r, key)
    ensures multiset(r) == multiset(s)
    ensures |r| == |s|
  {
    if s == [] then []
    else
      assert s == s[..|s| - 1] + [s[|s| - 1]];
      Insert(SortBy(s[..|s| - 1], key), s[|s| - 1], key)
  }

  /** The first `n` elements after sorting: each comes from `s`, and their
      keys do not decrease. */
  lemma TopOfSorted<T>(s: seq<T>, key: T -> int, n: nat)
    ensures var r := SortBy(s, key)[..if |s| <= n then |s| else n];
      && (forall i :: 0 <= i < |r| ==> r[i] in s)
      && (forall i, j :: 0 <= i < j < |r| ==> key(r[i]) <= key(r[j]))
  {
    var t := SortBy(s, key);
    var r := t[..if |s| <= n then |s| else n];
    forall i | 0 <= i < |r|
      ensures r[i] in s
    {
      assert r[i] == t[i];
      SortByHas(s, key, t[i]);
    }
  }

  /** Sorting neither adds nor drops an element. */
  lemma SortByHas<T>(s: seq<T>, key: T -> int, x: T)
    ensures x in SortBy(s, key) <==> x in s
  {
    assert x in SortBy(s, key) <==> x in multiset(SortBy(s, key));
  }
}
