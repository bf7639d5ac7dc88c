/** The order in which a stable sort by time visits rows. */
module Ordering {

  ghost predicate Indexes(order: seq<nat>, n: nat) {
    forall j :: 0 <= j < |order| ==> order[j] < n
  }

  /** Inserts index `i` behind every listed index whose time is not later. */
  function Place(order: seq<nat>, times: seq<int>, i: nat): (r: seq<nat>)
    requires i < |times| && Indexes(order, |times|)
    ensures |r| == |order| + 1 && Indexes(r, |times|)
    ensures forall k :: k in r <==> k == i || k in order
  {
    if order == [] || times[order[|order| - 1]] <= times[i] then order + [i]
    else
      var init, last := order[..|order| - 1], order[|order| - 1];
      assert order == init + [last];
      Place(init, times, i) + [last]
  }

  function StableOrder(times: seq<int>): (r: seq<nat>)
    ensures |r| == |times| && Indexes(r, |times|)
    ensures forall k: nat :: k in r <==> k < |times|
  {
    if times == [] then [] else Place(StableOrder(times[..|times| - 1]), times, |times| - 1)
  }

  /** Index `a` comes before index `b`: it is earlier, or as early and listed first. */
  predicate Precedes(times: seq<int>, a: nat, b: nat) {
    a < |times| && b < |times| && (times[a] < times[b] || (times[a] == times[b] && a < b))
  }

  ghost predicate Ordered(order: seq<nat>, times: seq<int>) {
    forall j, k :: 0 <= j < k < |order| ==> Precedes(times, order[j], order[k])
  }

  lemma {:induction false} PlaceKeepsOrder(order: seq<nat>, times: seq<int>, i: nat)
    requires i < |times| && Indexes(order, i) && Indexes(order, |times|) && Ordered(order, times)
    ensures Ordered(Place(order, times, i), times)
  {
    if order == [] {
    } else {
      var init, last := order[..|order| - 1], order[|order| - 1];
      if times[last] <= times[i] {
        forall j | 0 <= j < |order| ensures Precedes(times, order[j], i) {
          if j < |init| { assert Precedes(times, order[j], last); }
        }
      } else {
        PlaceKeepsOrder(init, times, i);
        PlacedBefore(init, times, i, last);
      }
    }
  }

  lemma PlacedBefore(init: seq<nat>, times: seq<int>, i: nat, last: nat)
    requires i < |times| && Indexes(init, |times|) && Precedes(times, i, last)
    requires forall j :: 0 <= j < |init| ==> Precedes(times, init[j], last)
    ensures forall j :: 0 <= j <= |init| ==> Precedes(times, Place(init, times, i)[j], last)
  {
    var r := Place(init, times, i);
    forall j | 0 <= j < |r| ensures Precedes(times, r[j], last) {
      assert r[j] in r;
      if r[j] != i {
        var k :| 0 <= k < |init| && init[k] == r[j];
      }
    }
  }

  /** The stable order lists every index once, by time, and equal times by position. */
  lemma {:induction false} StableOrderIsOrdered(times: seq<int>)
    ensures Ordered(StableOrder(times), times)
  {
    if times == [] {
    } else {
      var n := |times| - 1;
      var before := StableOrder(times[..n]);
      StableOrderIsOrdered(times[..n]);
      assert Ordered(before, times) by {
        forall j, k | 0 <= j < k < |before| ensures Precedes(times, before[j], before[k]) {
          assert Precedes(times[..n], before[j], before[k]);
        }
      }
      PlaceKeepsOrder(before, times, n);
    }
  }

  lemma NeverTwice(times: seq<int>)
    ensures Distinct(StableOrder(times))
  {
    var order := StableOrder(times);
    StableOrderIsOrdered(times);
    forall j, k | 0 <= j < k < |order| ensures order[j] != order[k] {
      assert Precedes(times, order[j], order[k]);
    }
  }

  // Rows are visited in order and rewritten where they stand.

  ghost predicate Distinct(order: seq<nat>) {
    forall j, k :: 0 <= j < k < |order| ==> order[j] != order[k]
  }

  ghost function Scatter<T>(was: seq<T>, order: seq<nat>, out: seq<T>, k: nat): (r: seq<T>)
    requires k <= |order| == |out| && Indexes(order, |was|)
    ensures |r| == |was|
  {
    if k == 0 then was else Scatter(was, order, out, k - 1)[order[k - 1] := out[k - 1]]
  }

  lemma ScatterStep<T>(was: seq<T>, order: seq<nat>, out: seq<T>, k: nat)
    requires k < |order| == |out| && Indexes(order, |was|)
    ensures Scatter(was, order, out, k + 1) == Scatter(was, order, out, k)[order[k] := out[k]]
  {
  }

  lemma {:induction false} ScatterAt<T>(was: seq<T>, order: seq<nat>, out: seq<T>, k: nat)
    requires k <= |order| == |out| && Indexes(order, |was|) && Distinct(order)
    ensures forall j :: 0 <= j < k ==> Scatter(was, order, out, k)[order[j]] == out[j]
    ensures forall j :: k <= j < |order| ==> Scatter(was, order, out, k)[order[j]] == was[order[j]]
  {
    if k > 0 { ScatterAt(was, order, out, k - 1); }
  }

  // A block of rows is visited in its own order, whatever stands around it.

  /** The listed indexes from `lo` up to `hi`. */
  ghost function Within(order: seq<nat>, lo: nat, hi: nat): (r: seq<nat>)
    ensures forall j :: j in r <==> j in order && lo <= j < hi
  {
    if order == [] then []
    else
      var n := |order| - 1;
      Within(order[..n], lo, hi) + if lo <= order[n] < hi then [order[n]] else []
  }

  ghost function Shifted(order: seq<nat>, lo: nat): (r: seq<nat>)
    ensures |r| == |order| && forall i :: 0 <= i < |r| ==> r[i] == lo + order[i]
  {
    seq(|order|, i requires 0 <= i < |order| => lo + order[i])
  }

  lemma {:induction false} WithinIsOrdered(order: seq<nat>, times: seq<int>, lo: nat, hi: nat)
    requires Ordered(order, times)
    ensures Ordered(Within(order, lo, hi), times)
  {
    if order != [] {
      var n := |order| - 1;
      WithinIsOrdered(order[..n], times, lo, hi);
      var r := Within(order[..n], lo, hi);
      forall j | 0 <= j < |r| ensures Precedes(times, r[j], order[n]) {
        assert r[j] in order[..n];
        var k :| 0 <= k < n && order[k] == r[j];
        assert Precedes(times, order[k], order[n]);
      }
    }
  }

  lemma LastComesLast(order: seq<nat>, times: seq<int>)
    requires order != [] && Ordered(order, times)
    ensures var n := |order| - 1; forall k :: k in order[..n] <==> k in order && k != order[n]
    ensures forall k :: k in order ==> k == order[|order| - 1] || Precedes(times, k, order[|order| - 1])
  {
    var n := |order| - 1;
    forall j | 0 <= j < n ensures Precedes(times, order[j], order[n]) && order[j] != order[n] { }
    assert order == order[..n] + [order[n]];
  }

  /** Members decide an ordered list. */
  lemma {:induction false} OrderIsUnique(a: seq<nat>, b: seq<nat>, times: seq<int>)
    requires Ordered(a, times) && Ordered(b, times) && forall k :: k in a <==> k in b
    ensures a == b
  {
    assert |a| > 0 ==> a[0] in a;
    assert |b| > 0 ==> b[0] in b;
    if a != [] {
      var m, n := |a| - 1, |b| - 1;
      LastComesLast(a, times);
      LastComesLast(b, times);
      assert a[m] in a && b[n] in b;
      assert a[m] == b[n];
      OrderIsUnique(a[..m], b[..n], times);
      assert a == a[..m] + [a[m]] && b == b[..n] + [b[n]];
    }
  }

  /** What is visited before the `p`-th visit. */
  lemma VisitedBefore(times: seq<int>, p: nat, j: nat)
    requires p < |times|
    ensures j in StableOrder(times)[..p] <==> Precedes(times, j, StableOrder(times)[p])
  {
    hide StableOrder;
    var order := StableOrder(times);
    StableOrderIsOrdered(times);
    if j < |times| {
      assert j in order;
      var i :| 0 <= i < |order| && order[i] == j;
      if i < p {
        assert order[..p][i] == j;
      } else {
        forall k | 0 <= k < p ensures order[k] != j {
          assert Precedes(times, order[k], order[i]);
        }
        assert i > p ==> Precedes(times, order[p], order[i]);
      }
    } else {
      assert forall k :: 0 <= k < p ==> order[k] < |times|;
    }
  }

  lemma ShiftedHas(order: seq<nat>, lo: nat, k: nat)
    ensures k in Shifted(order, lo) <==> k >= lo && k - lo in order
  {
    var r := Shifted(order, lo);
    if k >= lo && k - lo in order {
      var j :| 0 <= j < |order| && order[j] == k - lo;
      assert r[j] == k;
    }
  }

  lemma ShiftedIsOrdered(order: seq<nat>, times: seq<int>, lo: nat, n: nat)
    requires lo + n <= |times| && Ordered(order, times[lo..lo + n])
    ensures Ordered(Shifted(order, lo), times)
  {
    var r := Shifted(order, lo);
    forall j, k | 0 <= j < k < |r| ensures Precedes(times, r[j], r[k]) {
      assert Precedes(times[lo..lo + n], order[j], order[k]);
    }
  }

  /** What is visited before a row of the block, as far as it is of the block. */
  lemma SameVisits(times: seq<int>, lo: nat, n: nat, i: nat, p: nat, k: nat)
    requires lo + n <= |times| && i < n && p < |times|
    requires StableOrder(times)[p] == lo + StableOrder(times[lo..lo + n])[i]
    ensures k in Within(StableOrder(times)[..p], lo, lo + n)
       <==> k in Shifted(StableOrder(times[lo..lo + n])[..i], lo)
  {
    hide StableOrder, Within, Shifted;
    var own := StableOrder(times[lo..lo + n]);
    VisitedBefore(times, p, k);
    ShiftedHas(own[..i], lo, k);
    if k >= lo { VisitedBefore(times[lo..lo + n], i, k - lo); }
  }

  /** The `i`-th visit of a block is a visit of the whole, and those of the block before it are the
      block's own earlier visits. */
  lemma BlockKeepsOrder(times: seq<int>, lo: nat, n: nat, i: nat) returns (p: nat)
    requires lo + n <= |times| && i < n
    ensures var order, own := StableOrder(times), StableOrder(times[lo..lo + n]);
      && p < |times| && order[p] == lo + own[i]
      && Within(order[..p], lo, lo + n) == Shifted(own[..i], lo)
  {
    hide StableOrder, Within, Shifted, Ordered, Precedes;
    var order, own := StableOrder(times), StableOrder(times[lo..lo + n]);
    assert lo + own[i] in order;
    p :| 0 <= p < |order| && order[p] == lo + own[i];
    PrefixIsOrdered(times, p);
    PrefixIsOrdered(times[lo..lo + n], i);
    WithinIsOrdered(order[..p], times, lo, lo + n);
    ShiftedIsOrdered(own[..i], times, lo, n);
    forall k ensures k in Within(order[..p], lo, lo + n) <==> k in Shifted(own[..i], lo) {
      SameVisits(times, lo, n, i, p, k);
    }
    OrderIsUnique(Within(order[..p], lo, lo + n), Shifted(own[..i], lo), times);
  }

  lemma PrefixIsOrdered(times: seq<int>, p: nat)
    requires p <= |times|
    ensures Ordered(StableOrder(times)[..p], times)
  {
    StableOrderIsOrdered(times);
  }
}
