/** The two building blocks shared by the section optimizer
    (ml/section_optimizer.py) and the portfolio handler (ml/api.py):
    Python's stable descending sort by a key, described by the order in
    which it visits the indices, and the budgeted greedy scan that takes an
    item whenever it still fits. */
module Greedy {
  import opened Util

  // ---------------------------------------------------------------------
  // sorted(..., key=k, reverse=True): a stable descending order of indices

  /** The indices lo, lo + 1, ..., hi - 1. */
  function Range(lo: nat, hi: nat): (r: seq<nat>)
    ensures |r| == if lo <= hi then hi - lo else 0
    ensures forall k :: 0 <= k < |r| ==> r[k] == lo + k
    decreases hi - lo
  {
    if lo >= hi then [] else [lo] + Range(lo + 1, hi)
  }

  /** Visiting order sorted by descending key. */
  predicate SortedDesc(order: seq<nat>, keys: seq<real>)
  {
    forall a, b :: 0 <= a < b < |order| && order[a] < |keys| && order[b] < |keys| ==> keys[order[a]] >= keys[order[b]]
  }

  /** Equal keys keep their input order: the sort is stable. */
  predicate StableOrder(order: seq<nat>, keys: seq<real>)
  {
    forall a, b :: 0 <= a < b < |order| && order[a] < |keys| && order[b] < |keys| && keys[order[a]] == keys[order[b]] ==>
      order[a] < order[b]
  }

  /** Inserts index j in front of the first index whose key is not larger,
      so that j precedes every later index with an equal key. */
  function InsertDesc(j: nat, t: seq<nat>, keys: seq<real>): (r: seq<nat>)
    requires j < |keys| && forall k :: 0 <= k < |t| ==> t[k] < |keys|
    ensures |r| == |t| + 1 && multiset(r) == multiset(t) + multiset{j}
    ensures forall k :: 0 <= k < |r| ==> r[k] < |keys|
  {
    if |t| == 0 then [j]
    else if keys[t[0]] <= keys[j] then [j] + t
    else
      assert t == [t[0]] + t[1..];
      [t[0]] + InsertDesc(j, t[1..], keys)
  }

  /** The visiting order of the indices from, ..., |keys| - 1. */
  function OrderFrom(keys: seq<real>, from: nat): (r: seq<nat>)
    ensures |r| == if from <= |keys| then |keys| - from else 0
    ensures multiset(r) == multiset(Range(from, |keys|))
    ensures forall k :: 0 <= k < |r| ==> from <= r[k] < |keys|
    decreases |keys| - from
  {
    if from >= |keys| then []
    else
      var t := OrderFrom(keys, from + 1);
      InsertFront(from, t, keys);
      InsertDesc(from, t, keys)
  }

  /** Inserting index from into an order of from + 1, ..., |keys| - 1
      gives an order of from, ..., |keys| - 1. */
  lemma InsertFront(from: nat, t: seq<nat>, keys: seq<real>)
    requires from < |keys|
    requires multiset(t) == multiset(Range(from + 1, |keys|))
    requires forall k :: 0 <= k < |t| ==> from + 1 <= t[k] < |keys|
    ensures multiset(InsertDesc(from, t, keys)) == multiset(Range(from, |keys|))
    ensures forall k :: 0 <= k < |InsertDesc(from, t, keys)| ==> from <= InsertDesc(from, t, keys)[k] < |keys|
  {
    var r := InsertDesc(from, t, keys);
    RangeFront(from, |keys|);
    forall k | 0 <= k < |r|
      ensures from <= r[k] < |keys|
    {
      assert r[k] in multiset(r);
      if r[k] != from {
        MemberBounds(t, r[k], from + 1, |keys|);
      }
    }
  }

  lemma RangeFront(lo: nat, hi: nat)
    requires lo < hi
    ensures multiset(Range(lo, hi)) == multiset{lo} + multiset(Range(lo + 1, hi))
  {
    assert Range(lo, hi) == [lo] + Range(lo + 1, hi);
  }

  /** A member of a sequence bounded elementwise is bounded. */
  lemma MemberBounds(t: seq<nat>, x: nat, lo: nat, hi: nat)
    requires forall k :: 0 <= k < |t| ==> lo <= t[k] < hi
    requires x in multiset(t)
    ensures lo <= x < hi
  {
    var i :| 0 <= i < |t| && t[i] == x;
  }

  /** The order in which sorted(range(n), key=keys, reverse=True) lists
      the indices. */
  function SortOrder(keys: seq<real>): (r: seq<nat>)
    ensures |r| == |keys| && forall k :: 0 <= k < |r| ==> r[k] < |keys|
  {
    OrderFrom(keys, 0)
  }

  /** Putting in front an index whose key dominates the rest, and which
      precedes every index of equal key, keeps the order sorted and stable. */
  lemma ConsSorted(x: nat, rest: seq<nat>, keys: seq<real>)
    requires x < |keys| && forall k :: 0 <= k < |rest| ==> rest[k] < |keys|
    requires SortedDesc(rest, keys) && StableOrder(rest, keys)
    requires forall k :: 0 <= k < |rest| ==> keys[x] >= keys[rest[k]] && (keys[x] == keys[rest[k]] ==> x < rest[k])
    ensures SortedDesc([x] + rest, keys) && StableOrder([x] + rest, keys)
  {
    var r := [x] + rest;
    forall a, b | 0 <= a < b < |r|
      ensures keys[r[a]] >= keys[r[b]]
      ensures keys[r[a]] == keys[r[b]] ==> r[a] < r[b]
    {
      assert r[b] == rest[b - 1];
      if a > 0 {
        assert r[a] == rest[a - 1];
      }
    }
  }

  lemma SortedTail(t: seq<nat>, keys: seq<real>)
    requires |t| > 0 && SortedDesc(t, keys) && StableOrder(t, keys)
    ensures SortedDesc(t[1..], keys) && StableOrder(t[1..], keys)
  {
    var tail := t[1..];
    forall a, b | 0 <= a < b < |tail|
      ensures tail[a] == t[a + 1] && tail[b] == t[b + 1]
    {
    }
  }

  lemma {:induction false} InsertDescSorted(j: nat, t: seq<nat>, keys: seq<real>)
    requires j < |keys| && forall k :: 0 <= k < |t| ==> j < t[k] < |keys|
    requires SortedDesc(t, keys) && StableOrder(t, keys)
    ensures SortedDesc(InsertDesc(j, t, keys), keys) && StableOrder(InsertDesc(j, t, keys), keys)
    decreases |t|
  {
    if |t| == 0 {
      assert InsertDesc(j, t, keys) == [j];
    } else if keys[t[0]] <= keys[j] {
      forall k | 0 <= k < |t| ensures keys[j] >= keys[t[k]] {
        if k > 0 {
          assert keys[t[0]] >= keys[t[k]];
        }
      }
      ConsSorted(j, t, keys);
    } else {
      var tail := t[1..];
      SortedTail(t, keys);
      InsertDescSorted(j, tail, keys);
      var rest := InsertDesc(j, tail, keys);
      forall k | 0 <= k < |rest|
        ensures keys[t[0]] >= keys[rest[k]] && (keys[t[0]] == keys[rest[k]] ==> t[0] < rest[k])
      {
        var x := rest[k];
        assert x in multiset(rest);
        if x != j {
          assert x in multiset(tail);
          var i :| 0 <= i < |tail| && tail[i] == x;
          assert t[i + 1] == x;
          assert keys[t[0]] >= keys[t[i + 1]];
        }
      }
      ConsSorted(t[0], rest, keys);
    }
  }

  lemma {:induction false} OrderFromSorted(keys: seq<real>, from: nat)
    ensures SortedDesc(OrderFrom(keys, from), keys) && StableOrder(OrderFrom(keys, from), keys)
    decreases |keys| - from
  {
    if from < |keys| {
      OrderFromSorted(keys, from + 1);
      InsertDescSorted(from, OrderFrom(keys, from + 1), keys);
    }
  }

  /** The sort order visits every index exactly once, in descending key
      order, and keeps indices with equal keys in input order. */
  lemma SortOrderCorrect(keys: seq<real>)
    ensures multiset(SortOrder(keys)) == multiset(Range(0, |keys|))
    ensures SortedDesc(SortOrder(keys), keys)
    ensures StableOrder(SortOrder(keys), keys)
  {
    OrderFromSorted(keys, 0);
  }

  /** The items listed at the given positions (the keys in visiting order). */
  function Permuted<T>(items: seq<T>, order: seq<nat>): (r: seq<T>)
    requires forall k :: 0 <= k < |order| ==> order[k] < |items|
    ensures |r| == |order| && forall k :: 0 <= k < |order| ==> r[k] == items[order[k]]
  {
    seq(|order|, k requires 0 <= k < |order| => items[order[k]])
  }

  // ---------------------------------------------------------------------
  // The budgeted greedy scan: take an item iff used + need <= budget

  /** The water used after scanning the first n items. */
  function UsedAfter(needs: seq<real>, budget: real, n: nat): real
    requires n <= |needs|
  {
    if n == 0 then 0.0
    else
      var used := UsedAfter(needs, budget, n - 1);
      if used + needs[n - 1] <= budget then used + needs[n - 1] else used
  }

  /** Item i is taken: it fits into what is left after the items before it. */
  predicate Taken(needs: seq<real>, budget: real, i: nat)
    requires i < |needs|
  {
    UsedAfter(needs, budget, i) + needs[i] <= budget
  }

  /** The positions taken among the first n items, in scan order. */
  function Selection(needs: seq<real>, budget: real, n: nat): (r: seq<nat>)
    requires n <= |needs|
    ensures forall k :: 0 <= k < |r| ==> r[k] < n
  {
    if n == 0 then []
    else Selection(needs, budget, n - 1) + (if Taken(needs, budget, n - 1) then [n - 1] else [])
  }

  /** The sum of vals at the given positions. */
  function SumAt(vals: seq<real>, positions: seq<nat>): real
    requires forall k :: 0 <= k < |positions| ==> positions[k] < |vals|
  {
    if |positions| == 0 then 0.0
    else SumAt(vals, positions[..|positions| - 1]) + vals[positions[|positions| - 1]]
  }

  lemma SumAtSnoc(vals: seq<real>, positions: seq<nat>, p: nat)
    requires forall k :: 0 <= k < |positions| ==> positions[k] < |vals|
    requires p < |vals|
    ensures SumAt(vals, positions + [p]) == SumAt(vals, positions) + vals[p]
  {
    assert (positions + [p])[..|positions|] == positions;
  }

  /** The selection lists exactly the taken positions, in increasing order. */
  lemma {:induction false} SelectionIsTaken(needs: seq<real>, budget: real, n: nat)
    requires n <= |needs|
    ensures forall i :: 0 <= i < n ==> (i in Selection(needs, budget, n) <==> Taken(needs, budget, i))
    ensures forall a, b :: 0 <= a < b < |Selection(needs, budget, n)| ==>
              Selection(needs, budget, n)[a] < Selection(needs, budget, n)[b]
  {
    if n > 0 {
      SelectionIsTaken(needs, budget, n - 1);
    }
  }

  /** The water used is the sum of the needs of the selected items. */
  lemma {:induction false} UsedIsSumOfSelected(needs: seq<real>, budget: real, n: nat)
    requires n <= |needs|
    ensures UsedAfter(needs, budget, n) == SumAt(needs, Selection(needs, budget, n))
  {
    if n > 0 {
      UsedIsSumOfSelected(needs, budget, n - 1);
      if Taken(needs, budget, n - 1) {
        SumAtSnoc(needs, Selection(needs, budget, n - 1), n - 1);
      } else {
        assert Selection(needs, budget, n) == Selection(needs, budget, n - 1);
      }
    }
  }

  /** With a non-negative budget the scan never overspends. */
  lemma {:induction false} UsedWithinBudget(needs: seq<real>, budget: real, n: nat)
    requires n <= |needs| && budget >= 0.0
    ensures UsedAfter(needs, budget, n) <= budget
  {
    if n > 0 {
      UsedWithinBudget(needs, budget, n - 1);
    }
  }

  /** With a non-negative budget, an item that needs nothing is always taken. */
  lemma ZeroNeedAlwaysTaken(needs: seq<real>, budget: real, i: nat)
    requires i < |needs| && budget >= 0.0 && needs[i] <= 0.0
    ensures Taken(needs, budget, i)
  {
    UsedWithinBudget(needs, budget, i);
  }

  /** A skipped item does not stop the scan: a large first item that does
      not fit is passed over and a smaller later one is still taken. */
  lemma SkippedItemDoesNotStopScan()
    ensures Selection([20.0, 5.0], 10.0, 2) == [1]
  {
    assert !Taken([20.0, 5.0], 10.0, 0);
    assert UsedAfter([20.0, 5.0], 10.0, 1) == 0.0;
    assert Taken([20.0, 5.0], 10.0, 1);
  }

  /** A larger budget does not select a superset: with needs 10 and 5 in
      scan order, budget 9 takes only the second item and budget 10 only the
      first. */
  lemma SelectionNotMonotoneInBudget()
    ensures Selection([10.0, 5.0], 9.0, 2) == [1]
    ensures Selection([10.0, 5.0], 10.0, 2) == [0]
  {
    assert !Taken([10.0, 5.0], 9.0, 0);
    assert UsedAfter([10.0, 5.0], 9.0, 1) == 0.0;
    assert Taken([10.0, 5.0], 9.0, 1);
    assert Taken([10.0, 5.0], 10.0, 0);
    assert UsedAfter([10.0, 5.0], 10.0, 1) == 10.0;
    assert !Taken([10.0, 5.0], 10.0, 1);
  }
}
