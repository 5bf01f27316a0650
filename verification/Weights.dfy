/** What a unit weighs in a plan, in terms of the recorded weights alone (ci_shards.py). */
module Weights {
  import opened Sequences
  import opened Shards
  import opened ShardBounds

  // ------------------------------------------------------------------- counting

  function Below(v: real): real -> bool { x => x < v }
  function UpTo(v: real): real -> bool { x => x <= v }
  function Above(v: real): real -> bool { x => x > v }
  function From(v: real): real -> bool { x => x >= v }
  function Any(): real -> bool { x => true }

  function Hits(weights: map<string, real>, p: real -> bool): string -> bool { f => f in weights && p(weights[f]) }

  /** How many of the collected files, each as often as collected, have a recorded weight
      with property p. */
  function HowMany(files: seq<string>, weights: map<string, real>, p: real -> bool): nat {
    |Filter(Hits(weights, p), files)|
  }

  lemma {:induction false} KnownCounts(files: seq<string>, weights: map<string, real>, p: real -> bool)
    ensures |Filter(p, Known(files, weights))| == HowMany(files, weights, p)
  {
    if files != [] {
      KnownCounts(files[1..], weights, p);
      var f, rest := files[0], Known(files[1..], weights);
      if f in weights {
        assert Known(files, weights) == [weights[f]] + rest;
      } else {
        assert Known(files, weights) == rest;
      }
    }
  }

  lemma {:induction false} FilterBounds<T>(keep: T -> bool, s: seq<T>)
    ensures |Filter(keep, s)| <= |s|
    ensures (forall x :: x in s ==> keep(x)) ==> |Filter(keep, s)| == |s|
    ensures (forall x :: x in s ==> !keep(x)) ==> |Filter(keep, s)| == 0
  {
    if s != [] {
      FilterBounds(keep, s[1..]);
      assert forall x :: x in s[1..] ==> x in s;
    }
  }

  /** Only the positions from `low` up to `high` can be kept. */
  lemma {:induction false} KeptAtMost<T>(keep: T -> bool, s: seq<T>, low: nat, high: nat)
    requires low <= high <= |s|
    requires forall i :: 0 <= i < low || high <= i < |s| ==> !keep(s[i])
    ensures |Filter(keep, s)| <= high - low
  {
    if s != [] {
      KeptAtMost(keep, s[1..], if low > 0 then low - 1 else 0, if high > 0 then high - 1 else 0);
    }
  }

  /** Every position from `low` up to `high` is kept. */
  lemma {:induction false} KeptAtLeast<T>(keep: T -> bool, s: seq<T>, low: nat, high: nat)
    requires low <= high <= |s|
    requires forall i :: low <= i < high ==> keep(s[i])
    ensures |Filter(keep, s)| >= high - low
  {
    if s != [] {
      KeptAtLeast(keep, s[1..], if low > 0 then low - 1 else 0, if high > 0 then high - 1 else 0);
    }
  }

  /** Where the values up to position k of an ordered list end, counted on both sides. */
  lemma CountsAt(d: seq<real>, k: nat)
    requires Nondecreasing(d) && k < |d|
    ensures |Filter(Below(d[k]), d)| <= k && |Filter(UpTo(d[k]), d)| >= k + 1
    ensures |Filter(Above(d[k]), d)| <= |d| - 1 - k && |Filter(From(d[k]), d)| >= |d| - k
  {
    KeptAtMost(Below(d[k]), d, 0, k);
    KeptAtLeast(UpTo(d[k]), d, 0, k + 1);
    KeptAtMost(Above(d[k]), d, k + 1, |d|);
    KeptAtLeast(From(d[k]), d, k, |d|);
  }

  lemma SameCount(s: seq<real>, p: real -> bool)
    ensures |Filter(p, SortReals(s))| == |Filter(p, s)|
  {
    FilterPermutation(p, SortReals(s), s);
    PermutationFacts(Filter(p, SortReals(s)), Filter(p, s));
  }

  /** The median is halfway between the least value at least half of the list does not exceed
      and the greatest value at least half of the list does not fall below. */
  lemma MedianSplits(s: seq<real>) returns (lo: real, hi: real)
    requires s != []
    ensures Median(s) == (lo + hi) / 2.0
    ensures 2 * |Filter(Below(lo), s)| < |s| <= 2 * |Filter(UpTo(lo), s)|
    ensures 2 * |Filter(Above(hi), s)| < |s| <= 2 * |Filter(From(hi), s)|
  {
    var low, high := Middle(|s|);
    lo, hi := MedianOf(s, low, high);
    Ranked(s, low);
    Ranked(s, high);
  }

  /** The middle position of n, or the two of them. */
  lemma Middle(n: nat) returns (low: nat, high: nat)
    requires n > 0
    ensures low < n && 2 * low < n <= 2 * (low + 1)
    ensures high < n && 2 * (n - 1 - high) < n <= 2 * (n - high)
    ensures high == n / 2 && low == if n % 2 == 1 then n / 2 else n / 2 - 1
  {
    low, high := if n % 2 == 1 then n / 2 else n / 2 - 1, n / 2;
  }

  lemma MedianOf(s: seq<real>, low: nat, high: nat) returns (lo: real, hi: real)
    requires s != [] && high == |s| / 2 && low == if |s| % 2 == 1 then |s| / 2 else |s| / 2 - 1
    ensures low < |s| && high < |s| && lo == SortReals(s)[low] && hi == SortReals(s)[high]
    ensures Median(s) == (lo + hi) / 2.0
  {
    lo, hi := SortReals(s)[low], SortReals(s)[high];
  }

  lemma Ranked(s: seq<real>, k: nat)
    requires k < |s|
    ensures var v := SortReals(s)[k];
            && |Filter(Below(v), s)| <= k && |Filter(UpTo(v), s)| >= k + 1
            && |Filter(Above(v), s)| <= |s| - 1 - k && |Filter(From(v), s)| >= |s| - k
  {
    var d, v := SortReals(s), SortReals(s)[k];
    CountsAt(d, k);
    SameCount(s, Below(v));
    SameCount(s, UpTo(v));
    SameCount(s, Above(v));
    SameCount(s, From(v));
  }

  // ------------------------------------------------------------ a unit's weight

  /** A recorded weight counts as it is, but never as less than 0.05; with nothing recorded
      for any file every unit weighs one. */
  lemma WeightExactly(files: seq<string>, weights: map<string, real>, u: string)
    requires u in files
    ensures u in TableOf(files, weights)
    ensures u in weights ==> At(TableOf(files, weights), u) == if weights[u] >= 0.05 then weights[u] else 0.05
    ensures u !in weights && (forall f :: f in files ==> f !in weights) ==> At(TableOf(files, weights), u) == 1.0
  {
    if forall f :: f in files ==> f !in weights {
      FilterBounds(Recorded(weights), files);
    }
  }

  /** An unrecorded unit weighs the median of the recorded weights of the collected files,
      again never less than 0.05. */
  lemma UnrecordedWeight(files: seq<string>, weights: map<string, real>, u: string) returns (lo: real, hi: real)
    requires u in files && u !in weights && exists f :: f in files && f in weights
    ensures At(TableOf(files, weights), u) == if (lo + hi) / 2.0 >= 0.05 then (lo + hi) / 2.0 else 0.05
    ensures var n := HowMany(files, weights, Any());
            && 2 * HowMany(files, weights, Below(lo)) < n <= 2 * HowMany(files, weights, UpTo(lo))
            && 2 * HowMany(files, weights, Above(hi)) < n <= 2 * HowMany(files, weights, From(hi))
  {
    var known := Known(files, weights);
    var f :| f in files && f in weights;
    FilterMembers(Recorded(weights), files, f);
    KnownCounts(files, weights, Any());
    FilterBounds(Any(), known);
    lo, hi := MedianSplits(known);
    KnownCounts(files, weights, Below(lo));
    KnownCounts(files, weights, UpTo(lo));
    KnownCounts(files, weights, Above(hi));
    KnownCounts(files, weights, From(hi));
  }

  /** Of any two units in the plan's order the earlier one is heavier, or equally heavy with
      the name that comes first. */
  lemma HeaviestFirst(t: Table, files: seq<string>, i: nat, j: nat)
    requires i < j < |Sorted(t, files)|
    ensures var a, b := Sorted(t, files)[i], Sorted(t, files)[j];
            && At(t, a) >= At(t, b)
            && (At(t, a) == At(t, b) ==> exists k: nat :: DiffersAt(a, b, k))
  {
    StrLessExactly(Sorted(t, files)[i], Sorted(t, files)[j]);
  }

  // ------------------------------------------------ Graham's bound on recorded weights

  lemma {:induction false} SumsAgree(a: map<string, real>, b: map<string, real>, s: seq<string>)
    requires forall u :: u in s ==> At(a, u) == At(b, u)
    ensures Sum(a, s) == Sum(b, s)
  {
    if s != [] {
      var n := |s| - 1;
      assert s[n] in s && forall u :: u in s[..n] ==> u in s;
      SumsAgree(a, b, s[..n]);
    }
  }

  /** Every file has a recorded weight of at least 0.05. */
  predicate AllRecorded(files: seq<string>, weights: map<string, real>) {
    forall f :: f in files ==> f in weights && weights[f] >= 0.05
  }

  lemma RecordedSums(files: seq<string>, weights: map<string, real>, shards: seq<seq<string>>, k: nat)
    requires AllRecorded(files, weights) && IsPartition(shards, Units(files)) && k < |shards|
    ensures Sum(TableOf(files, weights), shards[k]) == Sum(weights, shards[k])
  {
    forall u | u in shards[k] ensures At(TableOf(files, weights), u) == At(weights, u) {
      ConcatMembers(shards, k);
      assert u in multiset(Concat(shards));
      WeightExactly(files, weights, u);
    }
    SumsAgree(TableOf(files, weights), weights, shards[k]);
  }

  /** Graham's bound on the recorded times themselves: for a fully recorded suite and any other
      split of it into `count` shards, none of them longer than T, every shard of the plan
      takes at most (4/3 - 1/(3 count)) T. */
  lemma RecordedBound(files: seq<string>, weights: map<string, real>, count: nat, other: seq<seq<string>>,
                      makespan: real)
    requires 0 < count == |other| && AllRecorded(files, weights) && IsPartition(other, Units(files))
    requires forall k :: 0 <= k < count ==> Sum(weights, other[k]) <= makespan
    ensures forall k :: 0 <= k < count ==> Ratio(count, Sum(weights, PlanOf(files, weights, count)[k]), makespan)
  {
    var t, plan := TableOf(files, weights), PlanOf(files, weights, count);
    PlanPartitions(files, weights, count);
    forall k | 0 <= k < count
      ensures Sum(t, other[k]) == Sum(weights, other[k]) && Sum(t, plan[k]) == Sum(weights, plan[k])
    {
      RecordedSums(files, weights, other, k);
      RecordedSums(files, weights, plan, k);
    }
    LptBound(files, weights, count, other, makespan);
    forall k | 0 <= k < count ensures Ratio(count, Sum(weights, plan[k]), makespan) {
      assert Ratio(count, Sum(t, plan[k]), makespan);
    }
  }
}
