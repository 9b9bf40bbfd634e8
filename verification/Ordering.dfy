/** The stable sort behind every comparator in the allocator: each one compares a number and breaks ties on an id. */
module Ordering {
  type Key = (real, int)

  predicate Before(a: Key, b: Key) {
    a.0 < b.0 || (a.0 == b.0 && a.1 <= b.1)
  }

  ghost predicate InRange(keys: seq<Key>, xs: seq<nat>) {
    forall i :: 0 <= i < |xs| ==> xs[i] < |keys|
  }

  ghost predicate Sorted(keys: seq<Key>, xs: seq<nat>)
    requires InRange(keys, xs)
  {
    forall i, j :: 0 <= i < j < |xs| ==> Before(keys[xs[i]], keys[xs[j]])
  }

  function Insert(keys: seq<Key>, xs: seq<nat>, v: nat): (r: seq<nat>)
    requires InRange(keys, xs) && v < |keys|
    ensures InRange(keys, r)
  {
    if xs == [] then [v]
    else if Before(keys[xs[|xs| - 1]], keys[v]) then xs + [v]
    else Insert(keys, xs[..|xs| - 1], v) + [xs[|xs| - 1]]
  }

  lemma {:induction false} InsertContents(keys: seq<Key>, xs: seq<nat>, v: nat)
    requires InRange(keys, xs) && v < |keys|
    ensures multiset(Insert(keys, xs, v)) == multiset(xs) + multiset{v}
  {
    if xs != [] && !Before(keys[xs[|xs| - 1]], keys[v]) {
      assert xs == xs[..|xs| - 1] + [xs[|xs| - 1]];
      InsertContents(keys, xs[..|xs| - 1], v);
    }
  }

  lemma {:induction false} InsertSorted(keys: seq<Key>, xs: seq<nat>, v: nat)
    requires InRange(keys, xs) && v < |keys| && Sorted(keys, xs)
    ensures Sorted(keys, Insert(keys, xs, v))
  {
    if xs != [] && !Before(keys[xs[|xs| - 1]], keys[v]) {
      var k := |xs| - 1;
      var low := Insert(keys, xs[..k], v);
      InsertSorted(keys, xs[..k], v);
      InsertContents(keys, xs[..k], v);
      forall i | 0 <= i < |low| ensures Before(keys[low[i]], keys[xs[k]]) {
        assert low[i] in multiset(low);
        if low[i] != v {
          assert low[i] in xs[..k];
          var j :| 0 <= j < k && xs[j] == low[i];
        }
      }
    }
  }

  /** Array.prototype.sort with a (number, id) comparator. */
  function SortBy(keys: seq<Key>, xs: seq<nat>): (r: seq<nat>)
    requires InRange(keys, xs)
    ensures InRange(keys, r)
  {
    if xs == [] then [] else Insert(keys, SortBy(keys, xs[..|xs| - 1]), xs[|xs| - 1])
  }

  /** The sort returns the same elements, in order. */
  lemma {:induction false} SortBySorts(keys: seq<Key>, xs: seq<nat>)
    requires InRange(keys, xs)
    ensures Sorted(keys, SortBy(keys, xs))
    ensures multiset(SortBy(keys, xs)) == multiset(xs)
  {
    if xs != [] {
      assert xs == xs[..|xs| - 1] + [xs[|xs| - 1]];
      SortBySorts(keys, xs[..|xs| - 1]);
      InsertSorted(keys, SortBy(keys, xs[..|xs| - 1]), xs[|xs| - 1]);
      InsertContents(keys, SortBy(keys, xs[..|xs| - 1]), xs[|xs| - 1]);
    }
  }

  /** What does not come before another element comes after it. */
  lemma SortedAfter(keys: seq<Key>, xs: seq<nat>, j: nat, k: nat)
    requires InRange(keys, xs) && Sorted(keys, xs) && j < |xs| && k < |xs| && j != k
    requires !Before(keys[xs[j]], keys[xs[k]])
    ensures k < j
  {
  }

  lemma SortByMembers(keys: seq<Key>, xs: seq<nat>)
    requires InRange(keys, xs)
    ensures forall k :: 0 <= k < |SortBy(keys, xs)| ==> SortBy(keys, xs)[k] in xs
  {
    SortBySorts(keys, xs);
    var r := SortBy(keys, xs);
    forall k | 0 <= k < |r| ensures r[k] in xs {
      assert r[k] in multiset(r);
    }
  }

  /** A list already in order is left alone by the sort. */
  lemma {:induction false} SortedStays(keys: seq<Key>, xs: seq<nat>)
    requires InRange(keys, xs) && Sorted(keys, xs)
    ensures SortBy(keys, xs) == xs
  {
    if xs != [] {
      SortedStays(keys, xs[..|xs| - 1]);
      assert xs == xs[..|xs| - 1] + [xs[|xs| - 1]];
    }
  }

  function Upto(n: nat): (r: seq<nat>)
    ensures |r| == n && forall i :: 0 <= i < n ==> r[i] == i
  {
    seq(n, i => i)
  }

  ghost predicate Distinct(xs: seq<nat>) {
    forall i, j :: 0 <= i < j < |xs| ==> xs[i] != xs[j]
  }

  /** Sorting 0..n-1 visits every index exactly once. */
  lemma SortIsPermutation(keys: seq<Key>, n: nat)
    requires |keys| == n
    ensures var r := SortBy(keys, Upto(n));
            |r| == n && Distinct(r) && forall v: nat :: v < n ==> v in r
  {
    var u := Upto(n);
    var r := SortBy(keys, u);
    SortBySorts(keys, u);
    assert |multiset(r)| == |multiset(u)|;
    forall v: nat | v < n ensures v in r {
      assert u[v] in multiset(u);
      assert v in multiset(r);
    }
    UptoOnce(n);
    MultisetDistinct(r);
  }

  lemma {:induction false} UptoOnce(n: nat)
    ensures forall v :: multiset(Upto(n))[v] <= 1
    ensures forall v :: v in multiset(Upto(n)) ==> v < n
  {
    if n > 0 {
      UptoOnce(n - 1);
      assert Upto(n) == Upto(n - 1) + [n - 1];
    }
  }

  lemma RepeatCounts(xs: seq<nat>, i: nat, j: nat)
    requires i < j < |xs| && xs[i] == xs[j]
    ensures multiset(xs)[xs[i]] >= 2
  {
    assert xs == xs[..i] + [xs[i]] + xs[i + 1..j] + [xs[j]] + xs[j + 1..];
  }

  lemma MultisetDistinct(xs: seq<nat>)
    requires forall v :: multiset(xs)[v] <= 1
    ensures Distinct(xs)
  {
    if i, j :| 0 <= i < j < |xs| && xs[i] == xs[j] {
      RepeatCounts(xs, i, j);
    }
  }

  /** The positions, ascending, at which `wanted` holds among the first n. */
  ghost predicate Picks(pos: seq<nat>, wanted: seq<bool>, n: nat)
    requires n <= |wanted|
  {
    && (forall a, b :: 0 <= a < b < |pos| ==> pos[a] < pos[b])
    && (forall a :: 0 <= a < |pos| ==> pos[a] < n)
    && (forall i: nat :: i < n ==> (i in pos <==> wanted[i]))
  }

  lemma PicksNext(pos: seq<nat>, wanted: seq<bool>, n: nat)
    requires n < |wanted| && Picks(pos, wanted, n)
    ensures Picks(if wanted[n] then pos + [n] else pos, wanted, n + 1)
  {
    var r := pos + [n];
    forall i: nat | i < n ensures i in r <==> i in pos {
      assert i in pos ==> i in r;
    }
    assert n !in pos && r[|pos|] == n;
  }

  /** The insertion compares with the last element first. */
  lemma InsertStep(keys: seq<Key>, xs: seq<nat>, y: nat, v: nat)
    requires InRange(keys, xs) && y < |keys| && v < |keys|
    ensures Insert(keys, xs + [y], v) == if Before(keys[y], keys[v]) then xs + [y] + [v] else Insert(keys, xs, v) + [y]
  {
    assert (xs + [y])[..|xs|] == xs;
  }

  lemma InsertOne(keys: seq<Key>, y: nat, v: nat)
    requires y < |keys| && v < |keys|
    ensures Insert(keys, [y], v) == if Before(keys[y], keys[v]) then [y, v] else [v, y]
  {
    InsertStep(keys, [], y, v);
    assert [] + [y] == [y];
  }

  lemma SortStep(keys: seq<Key>, xs: seq<nat>, v: nat)
    requires InRange(keys, xs) && v < |keys|
    ensures SortBy(keys, xs + [v]) == Insert(keys, SortBy(keys, xs), v)
  {
    assert (xs + [v])[..|xs|] == xs;
  }

  /** Two elements in order. */
  lemma PairOrder(keys: seq<Key>)
    requires |keys| == 2 && Before(keys[0], keys[1])
    ensures SortBy(keys, Upto(2)) == [0, 1]
  {
    assert Upto(2) == [0, 1];
    SortedStays(keys, Upto(2));
  }
}
