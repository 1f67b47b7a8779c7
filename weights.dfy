/** The cumulative-weight table a weighted system precomputes, and the
    first-bucket search that selects a map from it. */
module Weights {
  import opened Wrappers

  /** Index of the weight `p` in a row `a b c d e f p`. */
  const WeightOffset := 6

  /** Length of a weighted row. */
  const MapWidth := WeightOffset + 1

  /** Every row of `system` has exactly seven entries, the last one a weight. */
  predicate AllWeighted(system: seq<seq<real>>)
  {
    forall i :: 0 <= i < |system| ==> |system[i]| == MapWidth
  }

  /** `i` is the first row of `system` that is not a weighted row. */
  predicate IsFirstMalformed(system: seq<seq<real>>, i: nat)
  {
    i < |system| && |system[i]| != MapWidth &&
    forall j :: 0 <= j < i ==> |system[j]| == MapWidth
  }

  /** No weight is negative. */
  predicate NonNegativeWeights(system: seq<seq<real>>)
    requires AllWeighted(system)
  {
    forall i :: 0 <= i < |system| ==> Weight(system[i]) >= 0.0
  }

  /** The weight of a weighted row. */
  function Weight(row: seq<real>): real
    requires |row| == MapWidth
  {
    row[WeightOffset]
  }

  /** The sum of all weights of a weighted system. */
  function TotalWeight(system: seq<seq<real>>): real
    requires AllWeighted(system)
  {
    if |system| == 0 then 0.0
    else TotalWeight(system[..|system| - 1]) + Weight(system[|system| - 1])
  }

  /** `c` is a cumulative-weight table of `system`: it starts at 0 and each
      entry adds the weight of the corresponding map to the one before. */
  ghost predicate IsCumulative(system: seq<seq<real>>, c: seq<real>)
    requires AllWeighted(system)
  {
    |c| == |system| + 1 && c[0] == 0.0 &&
    forall i :: 0 <= i < |system| ==> c[i + 1] == c[i] + Weight(system[i])
  }

  /** The cumulative-weight table of `system`, built one map at a time. */
  function CumulativeTable(system: seq<seq<real>>): (c: seq<real>)
    requires AllWeighted(system)
    ensures IsCumulative(system, c)
  {
    if |system| == 0 then [0.0]
    else
      var t := CumulativeTable(system[..|system| - 1]);
      t + [t[|t| - 1] + Weight(system[|system| - 1])]
  }

  /** The precomputation of a weighted engine: one left-to-right pass that
      rejects the first row that does not have seven entries and otherwise extends the table
      by `sums[i + 1] := sums[i] + weight(i)`. */
  method CumulativeSums(system: seq<seq<real>>) returns (r: Result<seq<real>, nat>)
    ensures r.Success? <==> AllWeighted(system)
    ensures r.Success? ==> r.value == CumulativeTable(system)
    ensures r.Failure? ==> IsFirstMalformed(system, r.error)
  {
    var sums := [0.0];
    var i := 0;
    while i < |system|
      invariant 0 <= i <= |system|
      invariant AllWeighted(system[..i])
      invariant forall j :: 0 <= j < i ==> |system[j]| == MapWidth
      invariant sums == CumulativeTable(system[..i])
    {
      if |system[i]| != MapWidth {
        return Failure(i);
      }
      ghost var prefix := system[..i + 1];
      assert prefix[..i] == system[..i];
      assert prefix[i] == system[i];
      sums := sums + [sums[i] + Weight(system[i])];
      i := i + 1;
    }
    assert system[..|system|] == system;
    return Success(sums);
  }

  /** The last entry of the table is the total weight. */
  lemma {:induction false} CumulativeTotal(system: seq<seq<real>>)
    requires AllWeighted(system)
    ensures CumulativeTable(system)[|system|] == TotalWeight(system)
  {
    if |system| > 0 {
      CumulativeTotal(system[..|system| - 1]);
    }
  }

  /** With no negative weight the table is non-decreasing. */
  lemma {:induction false} CumulativeMonotone(system: seq<seq<real>>, i: nat, j: nat)
    requires AllWeighted(system) && NonNegativeWeights(system)
    requires i <= j <= |system|
    ensures CumulativeTable(system)[i] <= CumulativeTable(system)[j]
  {
    if i < j {
      CumulativeMonotone(system, i, j - 1);
      assert Weight(system[j - 1]) >= 0.0;
    }
  }

  /** Two cumulative tables of one system agree up to index `k`. */
  lemma {:induction false} CumulativeAgree(system: seq<seq<real>>, c: seq<real>, d: seq<real>, k: nat)
    requires AllWeighted(system) && IsCumulative(system, c) && IsCumulative(system, d)
    requires k <= |system|
    ensures c[k] == d[k]
  {
    if k > 0 {
      CumulativeAgree(system, c, d, k - 1);
      assert c[k] == c[k - 1] + Weight(system[k - 1]);
      assert d[k] == d[k - 1] + Weight(system[k - 1]);
    }
  }

  /** The table is determined by the system: building it twice from the same
      rows gives the same table. */
  lemma CumulativeUnique(system: seq<seq<real>>, c: seq<real>)
    requires AllWeighted(system) && IsCumulative(system, c)
    ensures c == CumulativeTable(system)
  {
    var t := CumulativeTable(system);
    forall k | 0 <= k < |c|
      ensures c[k] == t[k]
    {
      CumulativeAgree(system, c, t, k);
    }
  }

  /** When every weight is zero, so is every entry of the table. */
  lemma {:induction false} ZeroWeightsTable(system: seq<seq<real>>, k: nat)
    requires AllWeighted(system)
    requires forall i :: 0 <= i < |system| ==> Weight(system[i]) == 0.0
    requires k <= |system|
    ensures CumulativeTable(system)[k] == 0.0
  {
    if k > 0 {
      ZeroWeightsTable(system, k - 1);
      assert Weight(system[k - 1]) == 0.0;
    }
  }

  /** `k` is the first map whose upper cumulative bound `c[k + 1]` meets or
      exceeds the draw `r`. */
  ghost predicate IsFirstBucket(c: seq<real>, r: real, k: nat)
  {
    k + 1 < |c| && r <= c[k + 1] &&
    forall j :: 1 <= j <= k ==> c[j] < r
  }

  /** Some upper bound `c[1..]` of the table meets the draw, so the scan stops
      inside the table. */
  predicate Admissible(c: seq<real>, r: real)
  {
    exists j :: 1 <= j < |c| && r <= c[j]
  }

  /** The first bucket whose upper bound meets the draw; one exists exactly
      when the draw is admissible. */
  function FirstBucket(c: seq<real>, r: real): (k: nat)
    requires Admissible(c, r)
    ensures IsFirstBucket(c, r, k)
    decreases |c|
  {
    if r <= c[1] then 0
    else
      var j :| 1 <= j < |c| && r <= c[j];
      assert 2 <= j && c[1..][j - 1] == c[j];
      var k := FirstBucket(c[1..], r);
      assert forall j :: 2 <= j <= k + 1 ==> c[j] == c[1..][j - 1];
      1 + k
  }

  /** A draw is admissible exactly when some bucket meets it. */
  lemma AdmissibleIffBucket(c: seq<real>, r: real)
    ensures Admissible(c, r) <==> exists k: nat :: IsFirstBucket(c, r, k)
  {
    if Admissible(c, r) {
      var k := FirstBucket(c, r);
      assert IsFirstBucket(c, r, k);
    }
    if exists k: nat :: IsFirstBucket(c, r, k) {
      var k: nat :| IsFirstBucket(c, r, k);
      assert 1 <= k + 1 < |c| && r <= c[k + 1];
    }
  }

  /** With no negative weight a draw is admissible exactly when it does not
      exceed the total weight. A negative weight can make a draw above the
      total admissible: the weights 0.8 and -0.5 give the table [0, 0.8, 0.3],
      and the draw 0.5 stops at map 0. */
  lemma AdmissibleIffWithinTotal(system: seq<seq<real>>, r: real)
    requires AllWeighted(system) && NonNegativeWeights(system) && |system| > 0
    ensures var c := CumulativeTable(system);
      Admissible(c, r) <==> r <= c[|system|]
  {
    var c := CumulativeTable(system);
    if Admissible(c, r) {
      var j :| 1 <= j < |c| && r <= c[j];
      CumulativeMonotone(system, j, |system|);
    }
  }

  /** There is at most one first bucket. */
  lemma BucketUnique(c: seq<real>, r: real, k: nat, l: nat)
    requires IsFirstBucket(c, r, k) && IsFirstBucket(c, r, l)
    ensures k == l
  {
  }

  /** With no negative weight and a positive draw, map `k` is chosen exactly
      when the draw falls in `(c[k], c[k + 1]]`, an interval whose width is the
      weight of map `k`. */
  lemma BucketIsInterval(system: seq<seq<real>>, r: real, k: nat)
    requires AllWeighted(system) && NonNegativeWeights(system)
    requires 0.0 < r && k < |system|
    ensures var c := CumulativeTable(system);
      IsFirstBucket(c, r, k) <==> c[k] < r <= c[k + 1]
  {
    var c := CumulativeTable(system);
    if c[k] < r <= c[k + 1] {
      forall j | 1 <= j <= k
        ensures c[j] < r
      {
        CumulativeMonotone(system, j, k);
      }
    }
  }

  /** With all weights zero only the draw 0 is admissible, and it selects
      map 0; for every positive draw the scan runs past the table. */
  lemma ZeroWeightsSelectFirst(system: seq<seq<real>>, r: real)
    requires AllWeighted(system) && |system| > 0
    requires forall i :: 0 <= i < |system| ==> Weight(system[i]) == 0.0
    requires 0.0 <= r
    ensures Admissible(CumulativeTable(system), r) <==> r == 0.0
    ensures r == 0.0 ==> FirstBucket(CumulativeTable(system), r) == 0
  {
    var c := CumulativeTable(system);
    forall j | 1 <= j < |c|
      ensures c[j] == 0.0
    {
      ZeroWeightsTable(system, j);
    }
    ZeroWeightsTable(system, 1);
  }
}
