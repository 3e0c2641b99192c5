/**
  A bounded least-recently-used cache as a value: entries from most to least
  recently used. Both the rate limiter and the verify cache sit on one of these.
*/
module Lru {
  import opened Prelude

  /** Position of key `k`, or the length when absent. */
  function Index<K(==), V>(c: seq<(K, V)>, k: K): (i: nat)
    ensures i <= |c|
    ensures i < |c| ==> c[i].0 == k
    ensures forall j | 0 <= j < i :: c[j].0 != k
  {
    if c == [] then 0 else if c[0].0 == k then 0 else 1 + Index(c[1..], k)
  }

  predicate Has<K(==), V>(c: seq<(K, V)>, k: K) {
    Index(c, k) < |c|
  }

  function Find<K(==), V>(c: seq<(K, V)>, k: K): Option<V> {
    if Has(c, k) then Some(c[Index(c, k)].1) else None
  }

  function Remove<K(==), V>(c: seq<(K, V)>, k: K): seq<(K, V)> {
    var i := Index(c, k);
    if i < |c| then c[..i] + c[i + 1..] else c
  }

  /** Insert or replace at the front; a new key that overflows evicts the oldest entry. */
  function Add<K(==), V>(c: seq<(K, V)>, k: K, v: V, capacity: nat): seq<(K, V)> {
    var d := [(k, v)] + Remove(c, k);
    if |d| > capacity then d[..|d| - 1] else d
  }

  /** Move an existing entry to the front. */
  function Touch<K(==), V>(c: seq<(K, V)>, k: K): seq<(K, V)> {
    if Has(c, k) then [c[Index(c, k)]] + Remove(c, k) else c
  }

  /** Where each entry of `Touch(c, k)` comes from. */
  function TouchedFrom(i: nat, j: nat): nat {
    if j == 0 then i else if j <= i then j - 1 else j
  }

  lemma RemoveAt<K, V>(c: seq<(K, V)>, k: K)
    requires Has(c, k)
    ensures |Remove(c, k)| == |c| - 1
    ensures forall j | 0 <= j < |c| - 1 :: Remove(c, k)[j] == c[if j < Index(c, k) then j else j + 1]
  {
    DropAt(c, Index(c, k));
  }

  lemma DropAt<T>(c: seq<T>, i: nat)
    requires i < |c|
    ensures var d := c[..i] + c[i + 1..];
            |d| == |c| - 1 && forall j | 0 <= j < |d| :: d[j] == c[if j < i then j else j + 1]
  {
  }

  /** `d` is `c` with entry `p` moved to the front. */
  ghost predicate Moved<K, V>(c: seq<(K, V)>, d: seq<(K, V)>, p: nat) {
    p < |c| == |d| && forall j | 0 <= j < |c| :: d[j] == c[TouchedFrom(p, j)]
  }

  lemma TouchMoves<K, V>(c: seq<(K, V)>, k: K)
    requires Has(c, k)
    ensures Moved(c, Touch(c, k), Index(c, k))
  {
    RemoveAt(c, k);
    var i, r, d := Index(c, k), Remove(c, k), Touch(c, k);
    assert d == [c[i]] + r;
    forall j | 0 <= j < |c| ensures d[j] == c[TouchedFrom(i, j)] {
      assert j > 0 ==> d[j] == r[j - 1];
    }
  }

  /** Keys and values are pairwise different. */
  ghost predicate Distinct<K, V>(c: seq<(K, V)>) {
    forall i, j | 0 <= i < j < |c| :: c[i].0 != c[j].0 && c[i].1 != c[j].1
  }

  lemma MovedDistinct<K, V>(c: seq<(K, V)>, d: seq<(K, V)>, p: nat)
    requires Moved(c, d, p) && Distinct(c)
    ensures Distinct(d)
  {
    forall i, j | 0 <= i < j < |c| ensures d[i].0 != d[j].0 && d[i].1 != d[j].1 {
      var a, b := TouchedFrom(p, i), TouchedFrom(p, j);
      assert a != b && d[i] == c[a] && d[j] == c[b];
    }
  }

  lemma AddNewAt<K, V>(c: seq<(K, V)>, k: K, v: V, capacity: nat)
    requires !Has(c, k) && |c| <= capacity && capacity > 0
    ensures var d := Add(c, k, v, capacity);
            && |d| == (if |c| == capacity then |c| else |c| + 1)
            && d[0] == (k, v)
            && forall j | 1 <= j < |d| :: d[j] == c[j - 1]
  {
  }

  lemma AddDistinct<K, V>(c: seq<(K, V)>, k: K, v: V, capacity: nat)
    requires !Has(c, k) && |c| <= capacity && capacity > 0 && Distinct(c) && forall i | 0 <= i < |c| :: c[i].1 != v
    ensures Distinct(Add(c, k, v, capacity))
  {
    AddNewAt(c, k, v, capacity);
    var d := Add(c, k, v, capacity);
    forall i, j | 0 <= i < j < |d| ensures d[i].0 != d[j].0 && d[i].1 != d[j].1 {
      assert d[j] == c[j - 1];
      if i > 0 {
        assert d[i] == c[i - 1];
      }
    }
  }
}
