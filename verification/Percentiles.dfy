/** Sorting and the nearest-rank percentile of the stress test. */
module Percentiles {
  import opened Rounding

  function Insert(x: real, s: seq<real>): (r: seq<real>)
    ensures |r| == |s| + 1
  {
    if s == [] then [x]
    else if x <= s[0] then [x] + s
    else [s[0]] + Insert(x, s[1..])
  }

  function Sort(s: seq<real>): (r: seq<real>)
    ensures |r| == |s|
  {
    if s == [] then [] else Insert(s[0], Sort(s[1..]))
  }

  ghost predicate Ascending(s: seq<real>) {
    forall i, j :: 0 <= i < j < |s| ==> s[i] <= s[j]
  }

  lemma Prepend(x: real, s: seq<real>)
    requires Ascending(s) && forall i :: 0 <= i < |s| ==> x <= s[i]
    ensures Ascending([x] + s)
  {
  }

  lemma {:induction false} InsertSorts(x: real, s: seq<real>)
    requires Ascending(s)
    ensures Ascending(Insert(x, s)) && multiset(Insert(x, s)) == multiset([x]) + multiset(s)
  {
    if s != [] {
      assert s == [s[0]] + s[1..];
      if s[0] < x {
        var rest := Insert(x, s[1..]);
        InsertSorts(x, s[1..]);
        forall i | 0 <= i < |rest| ensures s[0] <= rest[i] {
          assert rest[i] in multiset(rest);
          assert rest[i] == x || rest[i] in s[1..];
        }
        Prepend(s[0], rest);
      }
    }
  }

  lemma {:induction false} SortSorts(s: seq<real>)
    ensures Ascending(Sort(s)) && multiset(Sort(s)) == multiset(s)
  {
    if s != [] {
      SortSorts(s[1..]);
      InsertSorts(s[0], Sort(s[1..]));
      assert s == [s[0]] + s[1..];
    }
  }

  lemma RoundWithin(x: real, n: nat)
    requires 1 <= n && 0.0 <= x <= (n - 1) as real
    ensures 0 <= RoundHalfEven(x) < n
  {
    RoundMonotone(0.0, x);
    RoundMonotone(x, (n - 1) as real);
  }

  /** The unrounded index (n - 1) * q. */
  function Position(n: nat, q: real): real { (n - 1) as real * q }

  lemma PositionWithin(n: nat, q: real)
    requires 1 <= n && 0.0 <= q <= 1.0
    ensures 0.0 <= Position(n, q) <= (n - 1) as real
  {
    PartOf((n - 1) as real, q, Position(n, q));
  }

  lemma PartOf(a: real, q: real, x: real)
    requires 0.0 <= a && 0.0 <= q <= 1.0 && x == a * q
    ensures 0.0 <= x <= a
  {
    assert 0.0 <= a * (1.0 - q);
  }

  lemma PositionMonotone(n: nat, p: real, q: real)
    requires 1 <= n && p <= q
    ensures Position(n, p) <= Position(n, q)
  {
    assert 0.0 <= (n - 1) as real * (q - p);
  }

  function RankOf(n: nat, q: real): int {
    RoundHalfEven(Position(n, q))
  }

  lemma RankWithin(n: nat, q: real)
    requires 1 <= n && 0.0 <= q <= 1.0
    ensures 0 <= RankOf(n, q) < n
  {
    hide Position, RoundHalfEven;
    PositionWithin(n, q);
    RoundWithin(Position(n, q), n);
  }

  lemma RankMonotone(n: nat, p: real, q: real)
    requires 1 <= n && 0.0 <= p <= q <= 1.0
    ensures RankOf(n, p) <= RankOf(n, q)
  {
    hide Position, RoundHalfEven;
    PositionMonotone(n, p, q);
    RoundMonotone(Position(n, p), Position(n, q));
  }

  /** _percentile. */
  function Percentile(values: seq<real>, q: real): real
    requires 0.0 <= q <= 1.0
  {
    if values == [] then 0.0
    else
      RankWithin(|values|, q);
      Sort(values)[RankOf(|values|, q)]
  }

  /** A percentile of a non-empty list is one of its values. */
  lemma PercentileIsValue(values: seq<real>, q: real)
    requires values != [] && 0.0 <= q <= 1.0
    ensures Percentile(values, q) in values
  {
    hide RankOf;
    RankWithin(|values|, q);
    SortSorts(values);
    assert Percentile(values, q) in multiset(Sort(values));
  }

  /** Percentiles do not decrease in the rank. */
  lemma {:induction false} PercentileMonotone(values: seq<real>, p: real, q: real)
    requires 0.0 <= p <= q <= 1.0
    ensures Percentile(values, p) <= Percentile(values, q)
  {
    hide RankOf;
    if values != [] {
      SortSorts(values);
      RankWithin(|values|, p);
      RankWithin(|values|, q);
      RankMonotone(|values|, p, q);
    }
  }

  // ---------------------------------------------------------------------------
  // Counting below zero
  // ---------------------------------------------------------------------------

  function CountBelow(values: seq<real>, bound: real): (n: nat)
    ensures n <= |values|
  {
    if values == [] then 0
    else CountBelow(values[..|values| - 1], bound) + (if values[|values| - 1] < bound then 1 else 0)
  }

  lemma {:induction false} CountBelowFront(x: real, s: seq<real>, bound: real)
    ensures CountBelow([x] + s, bound) == (if x < bound then 1 else 0) + CountBelow(s, bound)
  {
    if s == [] {
      assert [x] + s == [x] && [x][..0] == [];
    } else {
      var all := [x] + s;
      assert all[..|all| - 1] == [x] + s[..|s| - 1];
      CountBelowFront(x, s[..|s| - 1], bound);
    }
  }

  lemma {:induction false} CountBelowInsert(x: real, s: seq<real>, bound: real)
    ensures CountBelow(Insert(x, s), bound) == (if x < bound then 1 else 0) + CountBelow(s, bound)
  {
    CountBelowFront(x, s, bound);
    if s == [] {
      assert [x] + s == [x];
    } else if s[0] < x {
      CountBelowInsert(x, s[1..], bound);
      CountBelowFront(s[0], s[1..], bound);
      CountBelowFront(s[0], Insert(x, s[1..]), bound);
      assert s == [s[0]] + s[1..];
    }
  }

  lemma {:induction false} CountBelowSort(s: seq<real>, bound: real)
    ensures CountBelow(Sort(s), bound) == CountBelow(s, bound)
  {
    if s != [] {
      CountBelowSort(s[1..], bound);
      CountBelowInsert(s[0], Sort(s[1..]), bound);
      CountBelowFront(s[0], s[1..], bound);
      assert s == [s[0]] + s[1..];
    }
  }

  lemma {:induction false} CountBelowPrefix(s: seq<real>, k: nat, bound: real)
    requires Ascending(s) && k < |s|
    ensures bound <= s[k] ==> CountBelow(s, bound) <= k
    ensures s[k] < bound ==> k < CountBelow(s, bound)
  {
    var last := |s| - 1;
    if k < last {
      CountBelowPrefix(s[..last], k, bound);
    } else if s[k] < bound {
      AllBelow(s, bound);
    }
  }

  lemma {:induction false} AllBelow(s: seq<real>, bound: real)
    requires forall i :: 0 <= i < |s| ==> s[i] < bound
    ensures CountBelow(s, bound) == |s|
  {
    if s != [] {
      AllBelow(s[..|s| - 1], bound);
    }
  }

  /** A percentile clears a bound exactly when at most its rank of the values fall short of it. */
  lemma {:induction false} PercentileCounts(values: seq<real>, q: real, bound: real)
    requires values != [] && 0.0 <= q <= 1.0
    ensures bound <= Percentile(values, q) <==> CountBelow(values, bound) <= RankOf(|values|, q)
  {
    hide RankOf;
    RankWithin(|values|, q);
    SortSorts(values);
    CountBelowSort(values, bound);
    CountBelowPrefix(Sort(values), RankOf(|values|, q), bound);
  }
}
