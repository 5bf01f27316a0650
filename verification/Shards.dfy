/** Splitting a test suite into duration-balanced shards: longest unit first onto the
    least-loaded shard (ci_shards.py), and each runner keeping its own shard (conftest.py).

    A weight table maps every unit to its positive weight; loads are exact reals. */
module Shards {
  import opened Sequences

  const MIN_WEIGHT: real := 0.05

  type Table = t: map<string, real> | forall u :: u in t ==> t[u] > 0.0

  datatype PlanError = ShardCountNotPositive

  /** The weight of a unit; every unit a plan handles is in its table. */
  function At(f: map<string, real>, u: string): real {
    if u in f then f[u] else 0.0
  }

  // ------------------------------------------------------------------ ordering

  /** Code-point order on names. */
  predicate StrLess(a: string, b: string) {
    b != [] && (a == [] || a[0] < b[0] || (a[0] == b[0] && StrLess(a[1..], b[1..])))
  }

  lemma StrTotal(a: string, b: string)
    ensures a == b || StrLess(a, b) || StrLess(b, a)
  {
    if a != [] && b != [] && a[0] == b[0] {
      StrTotal(a[1..], b[1..]);
      assert a == [a[0]] + a[1..] && b == [b[0]] + b[1..];
    }
  }

  lemma StrTransitive(a: string, b: string, c: string)
    requires StrLess(a, b) && StrLess(b, c)
    ensures StrLess(a, c)
  {}

  lemma StrIrreflexive(a: string)
    ensures !StrLess(a, a)
  {}

  /** Of two names one is a prefix of the other, or they first differ at some position. */
  predicate DiffersAt(a: string, b: string, k: nat) {
    && k <= |a| && k < |b| && a[..k] == b[..k]
    && (k == |a| || a[k] < b[k])
  }

  /** `a` comes first exactly when, after a common start, it ends or has the smaller character. */
  lemma {:induction false} StrLessExactly(a: string, b: string)
    ensures StrLess(a, b) <==> exists k: nat :: DiffersAt(a, b, k)
  {
    if StrLess(a, b) {
      if a == [] || a[0] < b[0] {
        assert DiffersAt(a, b, 0);
      } else {
        StrLessExactly(a[1..], b[1..]);
        var k: nat :| DiffersAt(a[1..], b[1..], k);
        assert a == [a[0]] + a[1..] && b == [b[0]] + b[1..];
        assert a[..k + 1] == [a[0]] + a[1..][..k] && b[..k + 1] == [b[0]] + b[1..][..k];
        assert DiffersAt(a, b, k + 1);
      }
    }
    if k: nat :| DiffersAt(a, b, k) && k > 0 {
      assert a[0] == a[..k][0] == b[..k][0] == b[0];
      assert a[1..][..k - 1] == a[..k][1..] && b[1..][..k - 1] == b[..k][1..];
      assert DiffersAt(a[1..], b[1..], k - 1);
      StrLessExactly(a[1..], b[1..]);
    }
  }

  /** The sort key (-weight, name). */
  predicate Before(t: Table, a: string, b: string) {
    At(t, a) > At(t, b) || (At(t, a) == At(t, b) && StrLess(a, b))
  }

  predicate Ordered(t: Table, s: seq<string>) {
    forall i, j :: 0 <= i < j < |s| ==> Before(t, s[i], s[j])
  }

  /** Put `u` at its place in an ordered list, once. */
  function Insert(t: Table, u: string, s: seq<string>): (r: seq<string>)
    requires Ordered(t, s)
    ensures Ordered(t, r)
    ensures forall x :: x in r <==> x == u || x in s
  {
    if s == [] then [u]
    else if u == s[0] then s
    else if Before(t, u, s[0]) then
      assert forall j :: 0 <= j < |s| ==> Before(t, u, s[j]) by {
        forall j | 0 <= j < |s| ensures Before(t, u, s[j]) {
          if j > 0 && At(t, u) == At(t, s[0]) == At(t, s[j]) { StrTransitive(u, s[0], s[j]); }
        }
      }
      [u] + s
    else
      StrTotal(u, s[0]);
      assert Before(t, s[0], u);
      assert Ordered(t, s[1..]);
      assert forall x :: x in s <==> x == s[0] || x in s[1..];
      var tail := Insert(t, u, s[1..]);
      assert forall x :: x in tail ==> Before(t, s[0], x) by {
        forall x | x in tail ensures Before(t, s[0], x) {
          if x != u {
            var j :| 0 <= j < |s[1..]| && s[1..][j] == x;
            assert s[j + 1] == x;
          }
        }
      }
      [s[0]] + tail
  }

  /** sorted(set(files), key=(-weight, name)). */
  function Sorted(t: Table, files: seq<string>): (r: seq<string>)
    ensures Ordered(t, r)
    ensures forall x :: x in r <==> x in files
  {
    if files == [] then [] else Insert(t, files[0], Sorted(t, files[1..]))
  }

  lemma OrderedDistinct(t: Table, s: seq<string>)
    requires Ordered(t, s)
    ensures forall i, j :: 0 <= i < j < |s| ==> s[i] != s[j]
  {
    forall i, j | 0 <= i < j < |s| ensures s[i] != s[j] {
      assert Before(t, s[i], s[j]);
      StrIrreflexive(s[i]);
    }
  }

  /** Only one list is ordered and holds a given set of names. */
  lemma {:induction false} OrderedUnique(t: Table, a: seq<string>, b: seq<string>)
    requires Ordered(t, a) && Ordered(t, b)
    requires forall x :: x in a <==> x in b
    ensures a == b
  {
    OrderedDistinct(t, a);
    OrderedDistinct(t, b);
    assert a != [] ==> a[0] in a;
    assert b != [] ==> b[0] in b;
    if a != [] && b != [] {
      assert a[0] in b;
      assert b[0] in a;
      if a[0] != b[0] {
        var i :| 0 <= i < |a| && a[i] == b[0];
        var j :| 0 <= j < |b| && b[j] == a[0];
        assert Before(t, a[0], b[0]) && Before(t, b[0], a[0]);
        StrTransitive(a[0], b[0], a[0]);
        StrIrreflexive(a[0]);
        assert false;
      }
      forall x ensures x in a[1..] <==> x in b[1..] {
        assert x in a <==> x == a[0] || x in a[1..];
        assert x in b <==> x == b[0] || x in b[1..];
      }
      OrderedUnique(t, a[1..], b[1..]);
      assert a == [a[0]] + a[1..] && b == [b[0]] + b[1..];
    }
  }

  // ------------------------------------------------------------- default weight

  predicate Nondecreasing(s: seq<real>) {
    forall i, j :: 0 <= i < j < |s| ==> s[i] <= s[j]
  }

  predicate AtLeast(low: real, s: seq<real>) {
    forall i :: 0 <= i < |s| ==> low <= s[i]
  }

  function InsertReal(x: real, s: seq<real>): (r: seq<real>)
    requires Nondecreasing(s)
    ensures Nondecreasing(r) && |r| == |s| + 1
    ensures forall low :: low <= x && AtLeast(low, s) ==> AtLeast(low, r)
  {
    if s == [] then [x]
    else if x <= s[0] then [x] + s
    else
      var tail := InsertReal(x, s[1..]);
      assert AtLeast(s[0], s[1..]);
      assert AtLeast(s[0], tail);
      [s[0]] + tail
  }

  lemma {:induction false} InsertRealKeeps(x: real, s: seq<real>)
    requires Nondecreasing(s)
    ensures multiset(InsertReal(x, s)) == multiset(s) + multiset{x}
  {
    if s != [] {
      assert s == [s[0]] + s[1..];
      if x > s[0] {
        InsertRealKeeps(x, s[1..]);
        assert InsertReal(x, s) == [s[0]] + InsertReal(x, s[1..]);
      }
    }
  }

  function SortReals(s: seq<real>): (r: seq<real>)
    ensures Nondecreasing(r) && multiset(r) == multiset(s) && |r| == |s|
  {
    if s == [] then []
    else
      assert s == [s[0]] + s[1..];
      InsertRealKeeps(s[0], SortReals(s[1..]));
      InsertReal(s[0], SortReals(s[1..]))
  }

  /** statistics.median. */
  function Median(s: seq<real>): real
    requires s != []
  {
    var d := SortReals(s);
    var n := |d|;
    if n % 2 == 1 then d[n / 2] else (d[n / 2 - 1] + d[n / 2]) / 2.0
  }

  lemma {:induction false} NondecreasingUnique(a: seq<real>, b: seq<real>)
    requires Nondecreasing(a) && Nondecreasing(b) && multiset(a) == multiset(b)
    ensures a == b
  {
    PermutationFacts(a, b);
    if a != [] {
      assert a[0] in b && b[0] in a;
      assert a[0] == b[0];
      SameTails(a, b);
      NondecreasingUnique(a[1..], b[1..]);
      assert a == [a[0]] + a[1..] && b == [b[0]] + b[1..];
    }
  }

  lemma MedianPermutation(a: seq<real>, b: seq<real>)
    requires a != [] && b != [] && multiset(a) == multiset(b)
    ensures Median(a) == Median(b)
  {
    NondecreasingUnique(SortReals(a), SortReals(b));
  }

  function Recorded(weights: map<string, real>): string -> bool { f => f in weights }

  function RecordedWeight(weights: map<string, real>): string -> real { f => At(weights, f) }

  /** The recorded weights of the files that have one, one per occurrence. */
  function Known(files: seq<string>, weights: map<string, real>): seq<real> {
    Map(RecordedWeight(weights), Filter(Recorded(weights), files))
  }

  lemma KnownPermutation(a: seq<string>, b: seq<string>, weights: map<string, real>)
    requires multiset(a) == multiset(b)
    ensures multiset(Known(a, weights)) == multiset(Known(b, weights))
  {
    FilterPermutation(Recorded(weights), a, b);
    MapPermutation(RecordedWeight(weights), Filter(Recorded(weights), a), Filter(Recorded(weights), b));
  }

  function Max(a: real, b: real): real { if a >= b then a else b }

  function DefaultWeight(files: seq<string>, weights: map<string, real>): real {
    var known := Known(files, weights);
    if known != [] then Max(Median(known), MIN_WEIGHT) else 1.0
  }

  function TableOf(files: seq<string>, weights: map<string, real>): Table {
    var default := DefaultWeight(files, weights);
    map f | f in files :: Max(if f in weights then weights[f] else default, MIN_WEIGHT)
  }

  lemma DefaultPermutation(a: seq<string>, b: seq<string>, weights: map<string, real>)
    requires multiset(a) == multiset(b)
    ensures DefaultWeight(a, weights) == DefaultWeight(b, weights)
  {
    KnownPermutation(a, b, weights);
    var ka, kb := Known(a, weights), Known(b, weights);
    PermutationFacts(ka, kb);
    if ka != [] { MedianPermutation(ka, kb); }
  }

  lemma TablePermutation(a: seq<string>, b: seq<string>, weights: map<string, real>)
    requires multiset(a) == multiset(b)
    ensures TableOf(a, weights) == TableOf(b, weights)
  {
    PermutationFacts(a, b);
    DefaultPermutation(a, b, weights);
  }

  // ----------------------------------------------------------------- placement

  /** Total of a table over a list. */
  function Sum(f: map<string, real>, s: seq<string>): real {
    if s == [] then 0.0 else Sum(f, s[..|s| - 1]) + At(f, s[|s| - 1])
  }

  /** The order in which `min` prefers shards: load, then number of units, then index. */
  predicate NotWorse(loads: seq<real>, shards: seq<seq<string>>, a: nat, b: nat)
    requires |loads| == |shards| && a < |loads| && b < |loads|
  {
    || loads[a] < loads[b]
    || (loads[a] == loads[b] && |shards[a]| < |shards[b]|)
    || (loads[a] == loads[b] && |shards[a]| == |shards[b]| && a <= b)
  }

  /** The least of the first `n` shards. */
  function TargetAmong(loads: seq<real>, shards: seq<seq<string>>, n: nat): (r: nat)
    requires |loads| == |shards| && 0 < n <= |shards|
    ensures r < n && forall k :: 0 <= k < n ==> NotWorse(loads, shards, r, k)
  {
    if n == 1 then 0
    else
      var best := TargetAmong(loads, shards, n - 1);
      var last := n - 1;
      if NotWorse(loads, shards, best, last) then best
      else
        assert forall k :: 0 <= k < last ==> NotWorse(loads, shards, last, k) by {
          forall k | 0 <= k < last ensures NotWorse(loads, shards, last, k) {
            assert NotWorse(loads, shards, best, k);
          }
        }
        last
  }

  function Loads(t: Table, shards: seq<seq<string>>): (r: seq<real>)
    ensures |r| == |shards| && forall k :: 0 <= k < |r| ==> r[k] == Sum(t, shards[k])
  {
    seq(|shards|, k requires 0 <= k < |shards| => Sum(t, shards[k]))
  }

  function Target(t: Table, shards: seq<seq<string>>): (r: nat)
    requires shards != []
    ensures r < |shards|
  {
    TargetAmong(Loads(t, shards), shards, |shards|)
  }

  /** The preferred shard is strictly ahead of every other one: a smaller load, or the same load
      and fewer units, or the same of both and a smaller index. */
  lemma TargetLeast(t: Table, shards: seq<seq<string>>, k: nat)
    requires k < |shards|
    ensures var r := Target(t, shards);
            var mine, its := Sum(t, shards[r]), Sum(t, shards[k]);
            && mine <= its
            && (k != r && mine == its ==> |shards[r]| < |shards[k]| || (|shards[r]| == |shards[k]| && r < k))
  {
    assert NotWorse(Loads(t, shards), shards, Target(t, shards), k);
  }

  /** One unit goes onto the preferred shard. */
  function Place(t: Table, shards: seq<seq<string>>, u: string): (r: seq<seq<string>>)
    requires shards != []
    ensures |r| == |shards|
  {
    var k := Target(t, shards);
    shards[k := shards[k] + [u]]
  }

  /** The shards after placing the units of `order` one by one. */
  function Placed(t: Table, order: seq<string>, count: nat): (r: seq<seq<string>>)
    requires 0 < count
    ensures |r| == count
  {
    if order == [] then seq(count, _ => [])
    else Place(t, Placed(t, order[..|order| - 1], count), order[|order| - 1])
  }

  /** What `plan` computes. */
  function PlanOf(files: seq<string>, weights: map<string, real>, count: nat): (r: seq<seq<string>>)
    requires 0 < count
    ensures |r| == count
  {
    var t := TableOf(files, weights);
    Placed(t, Sorted(t, files), count)
  }

  lemma PlacedStep(t: Table, order: seq<string>, i: nat, count: nat)
    requires 0 < count && i < |order|
    ensures Placed(t, order[..i + 1], count) == Place(t, Placed(t, order[..i], count), order[i])
  {
    assert order[..i + 1][..i] == order[..i];
  }

  /** Placing one unit, in terms of the loads kept beside the shards. */
  lemma PlaceStep(t: Table, shards: seq<seq<string>>, loads: seq<real>, u: string)
    requires shards != [] && loads == Loads(t, shards)
    ensures var k := TargetAmong(loads, shards, |shards|);
            && Place(t, shards, u) == shards[k := shards[k] + [u]]
            && Loads(t, Place(t, shards, u)) == loads[k := loads[k] + At(t, u)]
  {
    SumAppend(t, shards[Target(t, shards)], u);
  }

  /** The shards after placing the first `i` units of `order`. */
  function PlacedTo(t: Table, order: seq<string>, i: nat, count: nat): (r: seq<seq<string>>)
    requires 0 < count && i <= |order|
    ensures |r| == count
  {
    if i == 0 then seq(count, _ => []) else Place(t, PlacedTo(t, order, i - 1, count), order[i - 1])
  }

  lemma {:induction false} PlacedToIsPlaced(t: Table, order: seq<string>, i: nat, count: nat)
    requires 0 < count && i <= |order|
    ensures PlacedTo(t, order, i, count) == Placed(t, order[..i], count)
  {
    if i > 0 {
      PlacedToIsPlaced(t, order, i - 1, count);
      PlacedStep(t, order, i - 1, count);
    }
  }

  lemma PlacedAll(t: Table, order: seq<string>, count: nat)
    requires 0 < count
    ensures PlacedTo(t, order, |order|, count) == Placed(t, order, count)
  {
    PlacedToIsPlaced(t, order, |order|, count);
    assert order[..|order|] == order;
  }

  /** Nothing placed, nothing loaded. */
  method Start(t: Table, ghost order: seq<string>, count: nat) returns (shards: seq<seq<string>>, loads: seq<real>)
    requires 0 < count
    ensures |shards| == count && shards == PlacedTo(t, order, 0, count) && loads == Loads(t, shards)
  {
    shards, loads := seq(count, _ => []), seq(count, _ => 0.0);
  }

  lemma NextPlaced(t: Table, order: seq<string>, i: nat, shards: seq<seq<string>>, loads: seq<real>)
    requires i < |order| && shards != []
    requires shards == PlacedTo(t, order, i, |shards|) && loads == Loads(t, shards)
    ensures var k := TargetAmong(loads, shards, |shards|);
            var next := shards[k := shards[k] + [order[i]]];
            && next == PlacedTo(t, order, i + 1, |shards|)
            && loads[k := loads[k] + At(t, order[i])] == Loads(t, next)
  {
    PlaceStep(t, shards, loads, order[i]);
  }

  /** The placement loop, over the lists and loads the source keeps side by side. */
  method PlaceAll(t: Table, order: seq<string>, count: nat) returns (shards: seq<seq<string>>)
    requires 0 < count
    ensures shards == Placed(t, order, count)
  {
    var loads;
    shards, loads := Start(t, order, count);
    for i := 0 to |order|
      invariant |shards| == count
      invariant shards == PlacedTo(t, order, i, count) && loads == Loads(t, shards)
    {
      var target := TargetAmong(loads, shards, count);
      NextPlaced(t, order, i, shards, loads);
      shards := shards[target := shards[target] + [order[i]]];
      loads := loads[target := loads[target] + At(t, order[i])];
    }
    PlacedAll(t, order, count);
  }

  method Plan(files: seq<string>, weights: map<string, real>, count: int)
    returns (r: Result<seq<seq<string>>, PlanError>)
    ensures r.Err? <==> count < 1
    ensures r.Ok? ==> r.value == PlanOf(files, weights, count)
  {
    if count < 1 {
      return Err(ShardCountNotPositive);
    }
    var t := TableOf(files, weights);
    var shards := PlaceAll(t, Sorted(t, files), count);
    return Ok(shards);
  }

  // ------------------------------------------------------------ sums over shards

  lemma SumAppend(f: map<string, real>, s: seq<string>, u: string)
    ensures Sum(f, s + [u]) == Sum(f, s) + At(f, u)
  {
    assert (s + [u])[..|s|] == s;
  }

  lemma {:induction false} SumConcat(f: map<string, real>, a: seq<string>, b: seq<string>)
    ensures Sum(f, a + b) == Sum(f, a) + Sum(f, b)
  {
    if b == [] {
      assert a + b == a;
    } else {
      var n := |b| - 1;
      SumConcat(f, a, b[..n]);
      assert (a + b)[..|a + b| - 1] == a + b[..n];
    }
  }

  lemma SumTakenOut(f: map<string, real>, b: seq<string>, i: nat)
    requires i < |b|
    ensures Sum(f, b) == At(f, b[i]) + Sum(f, b[..i] + b[i + 1..])
  {
    assert b == (b[..i] + [b[i]]) + b[i + 1..];
    SumConcat(f, b[..i], b[i + 1..]);
    SumConcat(f, b[..i] + [b[i]], b[i + 1..]);
    SumAppend(f, b[..i], b[i]);
  }

  lemma SumHead(f: map<string, real>, a: seq<string>)
    requires a != []
    ensures Sum(f, a) == At(f, a[0]) + Sum(f, a[1..])
  {
    SumTakenOut(f, a, 0);
    assert a[..0] + a[1..] == a[1..];
  }

  /** A sum does not depend on the order of its terms. */
  lemma {:induction false} SumPermutation(f: map<string, real>, a: seq<string>, b: seq<string>)
    requires multiset(a) == multiset(b)
    ensures Sum(f, a) == Sum(f, b)
  {
    if a == [] {
      PermutationFacts(a, b);
    } else {
      var i := TakeHead(a, b);
      var rest := b[..i] + b[i + 1..];
      SumTakenOut(f, b, i);
      SumHead(f, a);
      SumPermutation(f, a[1..], rest);
    }
  }

  lemma ConcatMembers(shards: seq<seq<string>>, k: nat)
    requires k < |shards|
    ensures forall u :: u in shards[k] ==> u in Concat(shards)
  {
    if k > 0 { ConcatMembers(shards[1..], k - 1); }
  }

  /** Appending one unit to one shard adds exactly that unit to the whole. */
  lemma ConcatAppend(shards: seq<seq<string>>, k: nat, u: string)
    requires k < |shards|
    ensures multiset(Concat(shards[k := shards[k] + [u]])) == multiset(Concat(shards)) + multiset{u}
  {
    var next := shards[k := shards[k] + [u]];
    if k == 0 {
      assert next[1..] == shards[1..];
    } else {
      assert next[1..] == shards[1..][k - 1 := shards[1..][k - 1] + [u]];
      ConcatAppend(shards[1..], k - 1, u);
    }
  }

  lemma ConcatEmpty(n: nat)
    ensures Concat(seq<seq<string>>(n, _ => [])) == []
  {
    if n > 0 {
      ConcatEmpty(n - 1);
      assert seq<seq<string>>(n, _ => [])[1..] == seq<seq<string>>(n - 1, _ => []);
    }
  }

  /** The total over all shards, shard by shard. */
  function Total(f: map<string, real>, shards: seq<seq<string>>): real
  {
    if shards == [] then 0.0
    else Sum(f, shards[0]) + Total(f, shards[1..])
  }

  lemma {:induction false} TotalIsSum(f: map<string, real>, shards: seq<seq<string>>)
    ensures Total(f, shards) == Sum(f, Concat(shards))
  {
    if shards != [] {
      TotalIsSum(f, shards[1..]);
      SumConcat(f, shards[0], Concat(shards[1..]));
    }
  }

  /** `x`, `n` times over. */
  function Times(n: nat, x: real): real {
    if n == 0 then 0.0 else Times(n - 1, x) + x
  }

  lemma {:induction false} TotalAtMost(f: map<string, real>, shards: seq<seq<string>>, high: real)
    requires forall k :: 0 <= k < |shards| ==> Sum(f, shards[k]) <= high
    ensures Total(f, shards) <= Times(|shards|, high)
  {
    if shards != [] {
      TotalAtMost(f, shards[1..], high);
    }
  }

  lemma {:induction false} TotalAtLeast(f: map<string, real>, shards: seq<seq<string>>, low: real)
    requires forall k :: 0 <= k < |shards| ==> low <= Sum(f, shards[k])
    ensures Times(|shards|, low) <= Total(f, shards)
  {
    if shards != [] {
      TotalAtLeast(f, shards[1..], low);
    }
  }

  // ------------------------------------------------------------------ partition

  /** Every unit appears once, in one shard, and nothing else appears. */
  ghost predicate IsPartition(shards: seq<seq<string>>, units: set<string>) {
    multiset(Concat(shards)) == multiset(units)
  }

  function Units(files: seq<string>): set<string> { set f | f in files }

  lemma PlacePermutes(t: Table, shards: seq<seq<string>>, u: string)
    requires shards != []
    ensures multiset(Concat(Place(t, shards, u))) == multiset(Concat(shards)) + multiset{u}
  {
    ConcatAppend(shards, Target(t, shards), u);
  }

  lemma LastTakenOff(order: seq<string>)
    requires order != []
    ensures multiset(order) == multiset(order[..|order| - 1]) + multiset{order[|order| - 1]}
  {
    assert order == order[..|order| - 1] + [order[|order| - 1]];
  }

  lemma {:induction false} PlacedIsPermutation(t: Table, order: seq<string>, count: nat)
    requires 0 < count
    ensures multiset(Concat(Placed(t, order, count))) == multiset(order)
  {
    if order == [] {
      ConcatEmpty(count);
    } else {
      var n := |order| - 1;
      PlacedIsPermutation(t, order[..n], count);
      PlacePermutes(t, Placed(t, order[..n], count), order[n]);
      LastTakenOff(order);
    }
  }

  lemma {:induction false} DistinctMultiset(s: seq<string>)
    requires forall i, j :: 0 <= i < j < |s| ==> s[i] != s[j]
    ensures multiset(s) == multiset(Units(s))
  {
    if s != [] {
      DistinctMultiset(s[1..]);
      assert s == [s[0]] + s[1..];
      assert Units(s) == {s[0]} + Units(s[1..]);
      assert s[0] !in Units(s[1..]);
    }
  }

  /** The plan loses no unit, invents none and repeats none. */
  lemma PlanPartitions(files: seq<string>, weights: map<string, real>, count: nat)
    requires 0 < count
    ensures IsPartition(PlanOf(files, weights, count), Units(files))
  {
    var t := TableOf(files, weights);
    SortedIsUnits(t, files);
    PlacedIsPermutation(t, Sorted(t, files), count);
  }

  lemma SortedIsUnits(t: Table, files: seq<string>)
    ensures multiset(Sorted(t, files)) == multiset(Units(files))
  {
    var order := Sorted(t, files);
    OrderedDistinct(t, order);
    DistinctMultiset(order);
    assert Units(order) == Units(files);
  }

  /** Every runner computes the same plan, in whatever order it collected the files. */
  lemma PlanPermutation(a: seq<string>, b: seq<string>, weights: map<string, real>, count: nat)
    requires 0 < count && multiset(a) == multiset(b)
    ensures PlanOf(a, weights, count) == PlanOf(b, weights, count)
  {
    TablePermutation(a, b, weights);
    PermutationFacts(a, b);
    var t := TableOf(a, weights);
    OrderedUnique(t, Sorted(t, a), Sorted(t, b));
  }
}
