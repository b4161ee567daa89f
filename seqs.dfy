/** Generic sequence helpers: an order-preserving filter by key, a map, and sums. */
module Seqs {

  /** The elements of `s` whose key is `k`, in their order in `s` (JavaScript's `filter`). */
  function FilterBy<T, K(==)>(s: seq<T>, key: T -> K, k: K): (r: seq<T>)
    ensures |r| <= |s|
    ensures forall i :: 0 <= i < |r| ==> key(r[i]) == k && r[i] in s
    ensures forall i :: 0 <= i < |s| && key(s[i]) == k ==> s[i] in r
    decreases |s|
  {
    if |s| == 0 then []
    else
      var front := FilterBy(s[..|s| - 1], key, k);
      assert forall i :: 0 <= i < |s| - 1 ==> s[i] == s[..|s| - 1][i];
      if key(s[|s| - 1]) == k then front + [s[|s| - 1]] else front
  }

  /** Filtering an extended sequence extends the filtered sequence by the new element
      exactly when that element has the key. */
  lemma FilterByAppend<T, K>(s: seq<T>, x: T, key: T -> K, k: K)
    ensures FilterBy(s + [x], key, k) == FilterBy(s, key, k) + (if key(x) == k then [x] else [])
  {
    assert (s + [x])[..|s|] == s;
  }

  /** `s` is strictly increasing with respect to `rank`. */
  predicate StrictlyIncreasing<T>(s: seq<T>, rank: T -> int)
  {
    forall i, j :: 0 <= i < j < |s| ==> rank(s[i]) < rank(s[j])
  }

  /** Filtering keeps the order of the elements: a strictly increasing sequence stays so. */
  lemma {:induction false} FilterByIncreasing<T, K>(s: seq<T>, key: T -> K, k: K, rank: T -> int)
    requires StrictlyIncreasing(s, rank)
    ensures StrictlyIncreasing(FilterBy(s, key, k), rank)
    decreases |s|
  {
    if |s| > 0 {
      var front := s[..|s| - 1];
      var last := s[|s| - 1];
      FilterByIncreasing(front, key, k, rank);
      var f := FilterBy(front, key, k);
      if key(last) == k {
        var r := f + [last];
        forall i, j | 0 <= i < j < |r| ensures rank(r[i]) < rank(r[j]) {
          if j == |r| - 1 {
            assert r[i] in front;
            var m :| 0 <= m < |front| && front[m] == r[i];
            assert s[m] == r[i];
          }
        }
      }
    }
  }

  /** In a strictly increasing sequence the first element is ranked below every member. */
  lemma FirstIsEarliest<T>(s: seq<T>, rank: T -> int)
    requires |s| > 0 && StrictlyIncreasing(s, rank)
    ensures forall x :: x in s ==> rank(s[0]) <= rank(x)
  {
    forall x | x in s ensures rank(s[0]) <= rank(x) {
      var i :| 0 <= i < |s| && s[i] == x;
      if i > 0 { assert rank(s[0]) < rank(s[i]); }
    }
  }

  /** JavaScript's `map`: apply `f` to each element, keeping length and order. */
  function MapSeq<A, B>(s: seq<A>, f: A -> B): (r: seq<B>)
    ensures |r| == |s|
    ensures forall i :: 0 <= i < |s| ==> r[i] == f(s[i])
    decreases |s|
  {
    if |s| == 0 then [] else MapSeq(s[..|s| - 1], f) + [f(s[|s| - 1])]
  }

  lemma MapSeqAppend<A, B>(s: seq<A>, t: seq<A>, f: A -> B)
    ensures MapSeq(s + t, f) == MapSeq(s, f) + MapSeq(t, f)
  {
  }

  /** The sum of `f` over the elements of `ks`. */
  function SumOver<K>(ks: seq<K>, f: K -> nat): nat
    decreases |ks|
  {
    if |ks| == 0 then 0 else f(ks[0]) + SumOver(ks[1..], f)
  }

  /** `ks` has no element twice. */
  predicate Distinct<K(==)>(ks: seq<K>)
  {
    forall i, j :: 0 <= i < j < |ks| ==> ks[i] != ks[j]
  }

  /** The number of elements of `s` whose key is `k`. */
  function CountKey<T, K(==)>(s: seq<T>, key: T -> K, k: K): nat
  {
    |FilterBy(s, key, k)|
  }

  /** Summing, over a duplicate-free list of keys, the number of elements with each key
      counts every element of `s` whose key is listed exactly once. */
  lemma {:induction false} SumOfCounts<T, K>(s: seq<T>, key: T -> K, ks: seq<K>)
    requires Distinct(ks)
    requires forall i :: 0 <= i < |s| ==> key(s[i]) in ks
    ensures SumOver(ks, k => CountKey(s, key, k)) == |s|
    decreases |s|
  {
    if |s| == 0 {
      SumOfZero(ks, k => CountKey(s, key, k));
    } else {
      var front := s[..|s| - 1];
      var last := s[|s| - 1];
      assert s == front + [last];
      assert forall i :: 0 <= i < |front| ==> front[i] == s[i];
      SumOfCounts(front, key, ks);
      forall k ensures CountKey(s, key, k) == CountKey(front, key, k) + (if key(last) == k then 1 else 0) {
        FilterByAppend(front, last, key, k);
      }
      assert last in s;
      SumOfIndicator(ks, k => CountKey(front, key, k), k => CountKey(s, key, k), key(last));
    }
  }

  lemma {:induction false} SumOfZero<K>(ks: seq<K>, f: K -> nat)
    requires forall k :: f(k) == 0
    ensures SumOver(ks, f) == 0
    decreases |ks|
  {
    if |ks| > 0 { SumOfZero(ks[1..], f); }
  }

  /** If `g` exceeds `f` by one at `x` and agrees elsewhere, the sums over a duplicate-free
      list holding `x` differ by one. */
  lemma {:induction false} SumOfIndicator<K>(ks: seq<K>, f: K -> nat, g: K -> nat, x: K)
    requires Distinct(ks)
    requires forall k :: g(k) == f(k) + (if k == x then 1 else 0)
    ensures SumOver(ks, g) == SumOver(ks, f) + (if x in ks then 1 else 0)
    decreases |ks|
  {
    if |ks| > 0 {
      assert Distinct(ks[1..]) by {
        forall i, j | 0 <= i < j < |ks[1..]| ensures ks[1..][i] != ks[1..][j] {
          assert ks[1..][i] == ks[i + 1] && ks[1..][j] == ks[j + 1];
        }
      }
      SumOfIndicator(ks[1..], f, g, x);
      assert x in ks <==> x == ks[0] || x in ks[1..];
      if x == ks[0] {
        assert x !in ks[1..] by {
          forall i | 0 <= i < |ks[1..]| ensures ks[1..][i] != x { assert ks[1..][i] == ks[i + 1]; }
        }
      }
    }
  }

  /** Two key tests that agree on every element of `s` select the same elements. */
  lemma {:induction false} FilterByCongruent<T, K, L>(s: seq<T>, key: T -> K, k: K, key': T -> L, k': L)
    requires forall i :: 0 <= i < |s| ==> (key(s[i]) == k <==> key'(s[i]) == k')
    ensures FilterBy(s, key, k) == FilterBy(s, key', k')
    decreases |s|
  {
    if |s| > 0 {
      var front := s[..|s| - 1];
      assert forall i :: 0 <= i < |front| ==> front[i] == s[i];
      FilterByCongruent(front, key, k, key', k');
    }
  }

  /** A key that no element carries selects nothing. */
  lemma FilterByAbsent<T, K>(s: seq<T>, key: T -> K, k: K)
    requires forall i :: 0 <= i < |s| ==> key(s[i]) != k
    ensures FilterBy(s, key, k) == []
  {
  }

  /** Sums of pointwise sums are sums of sums. */
  lemma {:induction false} SumOverAdd<K>(ks: seq<K>, f: K -> nat, g: K -> nat, h: K -> nat)
    requires forall k :: k in ks ==> h(k) == f(k) + g(k)
    ensures SumOver(ks, h) == SumOver(ks, f) + SumOver(ks, g)
    decreases |ks|
  {
    if |ks| > 0 {
      assert forall k :: k in ks[1..] ==> k in ks;
      SumOverAdd(ks[1..], f, g, h);
    }
  }
}
