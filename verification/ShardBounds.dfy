/** How good the plan is: Graham's bound for longest-processing-time-first scheduling,
    and how the independent runners' shares add up to the suite. */
module ShardBounds {
  import opened Sequences
  import opened Shards

  // ------------------------------------------------------------- weighted sums

  ghost predicate Nonnegative(f: map<string, real>) {
    forall u :: At(f, u) >= 0.0
  }

  lemma {:induction false} SumNonnegative(f: map<string, real>, s: seq<string>)
    requires Nonnegative(f)
    ensures Sum(f, s) >= 0.0
  {
    if s != [] { SumNonnegative(f, s[..|s| - 1]); }
  }

  lemma SumPrefix(f: map<string, real>, s: seq<string>, n: nat)
    requires n <= |s| && Nonnegative(f)
    ensures Sum(f, s[..n]) <= Sum(f, s)
  {
    assert s == s[..n] + s[n..];
    SumConcat(f, s[..n], s[n..]);
    SumNonnegative(f, s[n..]);
  }

  lemma SumHasMember(f: map<string, real>, s: seq<string>, u: string)
    requires u in s && Nonnegative(f)
    ensures At(f, u) <= Sum(f, s)
  {
    var i :| 0 <= i < |s| && s[i] == u;
    SumTakenOut(f, s, i);
    SumNonnegative(f, s[..i] + s[i + 1..]);
  }

  lemma InSomeShard(shards: seq<seq<string>>, u: string)
    requires u in Concat(shards)
    ensures exists k :: 0 <= k < |shards| && u in shards[k]
  {
    if u !in shards[0] {
      InSomeShard(shards[1..], u);
      var k :| 0 <= k < |shards[1..]| && u in shards[1..][k];
      assert u in shards[k + 1];
    }
  }

  // ------------------------------------------------------- the rival schedule

  /** Some other way to split `order` over `count` shards, none above `makespan`. */
  ghost predicate Schedule(t: Table, order: seq<string>, count: nat, other: seq<seq<string>>, makespan: real) {
    && 0 < count == |other|
    && Ordered(t, order)
    && multiset(Concat(other)) == multiset(order)
    && forall k :: 0 <= k < count ==> Sum(t, other[k]) <= makespan
  }

  /** For any weighing of the units, the rival's total is the total of the list. */
  lemma RivalTotal(f: map<string, real>, order: seq<string>, other: seq<seq<string>>)
    requires multiset(Concat(other)) == multiset(order)
    ensures Total(f, other) == Sum(f, order)
  {
    TotalIsSum(f, other);
    SumPermutation(f, Concat(other), order);
  }

  /** For any weighing of the units, so is the total of the placed shards. */
  lemma PlacedTotal(t: Table, f: map<string, real>, order: seq<string>, count: nat)
    requires 0 < count
    ensures Total(f, Placed(t, order, count)) == Sum(f, order)
  {
    PlacedIsPermutation(t, order, count);
    RivalTotal(f, order, Placed(t, order, count));
  }

  // ------------------------------------------------------------- a small unit

  /** The least load, times the shards, plus the next unit, fits in the rival's total. */
  lemma RoomForNext(t: Table, order: seq<string>, i: nat, count: nat, other: seq<seq<string>>, makespan: real)
    requires Schedule(t, order, count, other, makespan) && i < |order|
    ensures var before := Placed(t, order[..i], count);
            Times(count, Sum(t, before[Target(t, before)])) + At(t, order[i]) <= Times(count, makespan)
  {
    var before := Placed(t, order[..i], count);
    LeastTimesCount(t, before);
    PlacedTotal(t, t, order[..i], count);
    PrefixWithNext(t, order, i);
    RivalWithin(t, order, count, other, makespan);
  }

  lemma LeastTimesCount(t: Table, shards: seq<seq<string>>)
    requires shards != []
    ensures Times(|shards|, Sum(t, shards[Target(t, shards)])) <= Total(t, shards)
  {
    var low := Sum(t, shards[Target(t, shards)]);
    forall k | 0 <= k < |shards| ensures low <= Sum(t, shards[k]) { TargetLeast(t, shards, k); }
    TotalAtLeast(t, shards, low);
  }

  lemma RivalWithin(t: Table, order: seq<string>, count: nat, other: seq<seq<string>>, makespan: real)
    requires Schedule(t, order, count, other, makespan)
    ensures Sum(t, order) <= Times(count, makespan)
  {
    RivalTotal(t, order, other);
    TotalAtMost(t, other, makespan);
  }

  lemma PrefixWithNext(f: map<string, real>, order: seq<string>, i: nat)
    requires i < |order| && Nonnegative(f)
    ensures Sum(f, order[..i]) + At(f, order[i]) <= Sum(f, order)
  {
    SumAppend(f, order[..i], order[i]);
    assert order[..i + 1] == order[..i] + [order[i]];
    SumPrefix(f, order, i + 1);
  }

  lemma {:induction false} TimesIsProduct(n: nat, x: real)
    ensures Times(n, x) == n as real * x
  {
    if n > 0 {
      TimesIsProduct(n - 1, x);
      assert n as real * x == (n - 1) as real * x + x;
    }
  }

  lemma {:induction false} TimesAdd(n: nat, x: real, y: real)
    ensures Times(n, x + y) == Times(n, x) + Times(n, y)
  {
    if n > 0 { TimesAdd(n - 1, x, y); }
  }

  lemma {:induction false} TimesMonotone(n: nat, x: real, y: real)
    requires x <= y
    ensures Times(n, x) <= Times(n, y)
  {
    if n > 0 { TimesMonotone(n - 1, x, y); }
  }

  /** A unit no longer than a third of the makespan lifts the least load by at most
      (4/3 - 1/(3m)) of the makespan in all. */
  lemma SmallUnitArithmetic(m: nat, low: real, p: real, makespan: real)
    requires m >= 1 && 3.0 * p <= makespan && Times(m, low) + p <= Times(m, makespan)
    ensures 3.0 * Times(m, low + p) <= 4.0 * Times(m, makespan) - makespan
  {
    TimesAdd(m, low, p);
    TimesAdd(m - 1, p, p);
    TimesAdd(m - 1, p + p, p);
    TimesMonotone(m - 1, p + p + p, makespan);
  }

  // ------------------------------------------------------------- a large unit

  /** What a unit uses of a shard that holds at most two units above a third of the
      makespan: nothing if it is not yet placed, all of it if no placed unit fits beside it. */
  ghost function Credit(t: Table, placed: seq<string>, p: real, makespan: real, u: string): real {
    if u !in placed then 0.0 else if At(t, u) + p > makespan then 2.0 else 1.0
  }

  ghost predicate Credits(t: Table, placed: seq<string>, p: real, makespan: real, c: map<string, real>) {
    && (forall u :: At(c, u) == Credit(t, placed, p, makespan, u))
    && (forall u :: u in placed ==> At(t, u) >= p)
    && makespan < 3.0 * p
  }

  /** A shard within the makespan has used at most two credits. */
  lemma {:induction false} CreditCap(t: Table, placed: seq<string>, p: real, makespan: real, c: map<string, real>,
                                     s: seq<string>)
    requires Credits(t, placed, p, makespan, c) && p > 0.0
    ensures var used, load := Sum(c, s), Sum(t, s);
            || (used == 0.0 && load >= 0.0)
            || (used == 1.0 && load >= p)
            || (used == 2.0 && (load >= 2.0 * p || (load > makespan - p && load >= p)))
            || (used >= 3.0 && load > makespan)
  {
    if s != [] {
      var u := s[|s| - 1];
      CreditCap(t, placed, p, makespan, c, s[..|s| - 1]);
      assert At(c, u) == Credit(t, placed, p, makespan, u);
      assert At(t, u) >= 0.0;
    }
  }

  /** A shard of placed units too full for `p` has used at least two credits. */
  lemma CreditFloor(t: Table, placed: seq<string>, p: real, makespan: real, c: map<string, real>, s: seq<string>)
    requires Credits(t, placed, p, makespan, c) && p <= makespan
    requires forall u :: u in s ==> u in placed
    requires Sum(t, s) + p > makespan
    ensures Sum(c, s) >= 2.0
  {
    var n := |s|;
    if n == 1 {
      assert s[..0] == [];
      assert Sum(t, s) == Sum(t, s[..0]) + At(t, s[0]);
      assert At(c, s[0]) == Credit(t, placed, p, makespan, s[0]);
    } else if n > 1 {
      assert At(c, s[n - 1]) == Credit(t, placed, p, makespan, s[n - 1]);
      assert At(c, s[n - 2]) == Credit(t, placed, p, makespan, s[n - 2]);
      assert s[..n - 1][..n - 2] == s[..n - 2];
      assert s[..n - 1][n - 2] == s[n - 2];
      SumNonnegative(c, s[..n - 2]);
    }
  }

  /** The rival cannot have used more than two credits a shard. */
  lemma RivalCredits(t: Table, order: seq<string>, placed: seq<string>, p: real, count: nat, other: seq<seq<string>>,
                     makespan: real, c: map<string, real>)
    requires Schedule(t, order, count, other, makespan) && p > 0.0
    requires Credits(t, placed, p, makespan, c)
    ensures Sum(c, order) <= Times(count, 2.0)
  {
    RivalTotal(c, order, other);
    forall k | 0 <= k < |other| ensures Sum(c, other[k]) <= 2.0 {
      CreditsWithin(t, placed, p, makespan, c, other[k]);
    }
    TotalAtMost(c, other, 2.0);
  }

  lemma CreditsWithin(t: Table, placed: seq<string>, p: real, makespan: real, c: map<string, real>, s: seq<string>)
    requires Credits(t, placed, p, makespan, c) && p > 0.0
    requires Sum(t, s) <= makespan
    ensures Sum(c, s) <= 2.0
  {
    CreditCap(t, placed, p, makespan, c, s);
  }

  /** So before the unit at `i` was placed, less than two credits a shard were used. */
  lemma CreditsLeft(t: Table, order: seq<string>, i: nat, p: real, makespan: real, c: map<string, real>)
    requires i < |order| && p == At(t, order[i])
    requires Credits(t, order[..i + 1], p, makespan, c)
    ensures Sum(c, order[..i]) + 1.0 <= Sum(c, order)
  {
    PrefixWithNext(c, order, i);
    assert order[i] in order[..i + 1];
    assert At(c, order[i]) == Credit(t, order[..i + 1], p, makespan, order[i]);
  }

  /** If fewer than two credits a shard are used, some shard still has room for `p`. */
  lemma SomeShardHasRoom(t: Table, before: seq<seq<string>>, placed: seq<string>, p: real, makespan: real,
                         c: map<string, real>)
    requires p <= makespan
    requires forall k, u :: 0 <= k < |before| && u in before[k] ==> u in placed
    requires Credits(t, placed, p, makespan, c)
    requires Total(c, before) < Times(|before|, 2.0)
    ensures exists k :: 0 <= k < |before| && Sum(t, before[k]) + p <= makespan
  {
    if forall k :: 0 <= k < |before| ==> Sum(t, before[k]) + p > makespan {
      forall k | 0 <= k < |before| ensures 2.0 <= Sum(c, before[k]) {
        CreditFloor(t, placed, p, makespan, c, before[k]);
      }
      TotalAtLeast(c, before, 2.0);
    }
  }

  lemma CreditTable(t: Table, order: seq<string>, i: nat, makespan: real) returns (c: map<string, real>)
    requires Ordered(t, order) && i < |order| && makespan < 3.0 * At(t, order[i])
    ensures Credits(t, order[..i + 1], At(t, order[i]), makespan, c)
  {
    EarlierUnitsLarger(t, order, i);
    c := map u | u in order :: Credit(t, order[..i + 1], At(t, order[i]), makespan, u);
  }

  lemma CreditsBefore(t: Table, order: seq<string>, i: nat, count: nat, other: seq<seq<string>>, makespan: real)
    returns (c: map<string, real>)
    requires Schedule(t, order, count, other, makespan) && i < |order|
    requires makespan < 3.0 * At(t, order[i])
    ensures Credits(t, order[..i + 1], At(t, order[i]), makespan, c)
    ensures Total(c, Placed(t, order[..i], count)) < Times(count, 2.0)
  {
    c := CreditTable(t, order, i, makespan);
    UnitFits(t, order, i, count, other, makespan);
    RivalCredits(t, order, order[..i + 1], At(t, order[i]), count, other, makespan, c);
    CreditsLeft(t, order, i, At(t, order[i]), makespan, c);
    PlacedTotal(t, c, order[..i], count);
  }

  /** A unit above a third of the makespan always still fits somewhere. */
  lemma LargeUnitFits(t: Table, order: seq<string>, i: nat, count: nat, other: seq<seq<string>>, makespan: real)
    requires Schedule(t, order, count, other, makespan) && i < |order|
    requires makespan < 3.0 * At(t, order[i])
    ensures var before := Placed(t, order[..i], count);
            Sum(t, before[Target(t, before)]) + At(t, order[i]) <= makespan
  {
    var before := Placed(t, order[..i], count);
    var k := RoomSomewhere(t, order, i, count, other, makespan);
    TargetLeast(t, before, k);
  }

  lemma RoomSomewhere(t: Table, order: seq<string>, i: nat, count: nat, other: seq<seq<string>>, makespan: real)
    returns (k: nat)
    requires Schedule(t, order, count, other, makespan) && i < |order|
    requires makespan < 3.0 * At(t, order[i])
    ensures k < count && Sum(t, Placed(t, order[..i], count)[k]) + At(t, order[i]) <= makespan
  {
    var before, placed, p := Placed(t, order[..i], count), order[..i + 1], At(t, order[i]);
    var c := CreditsBefore(t, order, i, count, other, makespan);
    PlacedWithin(t, order, i, count);
    UnitFits(t, order, i, count, other, makespan);
    SomeShardHasRoom(t, before, placed, p, makespan, c);
    k :| 0 <= k < |before| && Sum(t, before[k]) + p <= makespan;
  }

  lemma PlacedWithin(t: Table, order: seq<string>, i: nat, count: nat)
    requires 0 < count && i < |order|
    ensures forall k, u :: 0 <= k < count && u in Placed(t, order[..i], count)[k] ==> u in order[..i + 1]
  {
    PlacedMembers(t, order[..i], count);
    assert order[..i + 1] == order[..i] + [order[i]];
  }

  lemma {:induction false} PlacedMembers(t: Table, order: seq<string>, count: nat)
    requires 0 < count
    ensures forall k, u :: 0 <= k < count && u in Placed(t, order, count)[k] ==> u in order
  {
    if order != [] {
      var n := |order| - 1;
      PlacedMembers(t, order[..n], count);
      assert forall x :: x in order[..n] ==> x in order;
      assert order[n] in order;
    }
  }

  lemma EarlierUnitsLarger(t: Table, order: seq<string>, i: nat)
    requires Ordered(t, order) && i < |order|
    ensures forall u :: u in order[..i + 1] ==> At(t, u) >= At(t, order[i])
  {
    var placed := order[..i + 1];
    forall u | u in placed ensures At(t, u) >= At(t, order[i]) {
      var j :| 0 <= j < |placed| && placed[j] == u;
      assert j < i ==> Before(t, order[j], order[i]);
    }
  }

  lemma UnitFits(t: Table, order: seq<string>, i: nat, count: nat, other: seq<seq<string>>, makespan: real)
    requires Schedule(t, order, count, other, makespan) && i < |order|
    ensures At(t, order[i]) <= makespan
  {
    PermutationFacts(Concat(other), order);
    assert order[i] in order;
    InSomeShard(other, order[i]);
    var k :| 0 <= k < |other| && order[i] in other[k];
    SumHasMember(t, other[k], order[i]);
  }

  // ------------------------------------------------------------ Graham's bound

  ghost predicate WithinGraham(t: Table, shards: seq<seq<string>>, makespan: real)
  {
    var m := |shards|;
    forall k :: 0 <= k < m ==> 3.0 * Times(m, Sum(t, shards[k])) <= 4.0 * Times(m, makespan) - makespan
  }

  ghost predicate WithinMakespan(t: Table, shards: seq<seq<string>>, makespan: real)
  {
    forall k :: 0 <= k < |shards| ==> Sum(t, shards[k]) <= makespan
  }

  lemma LargeUnitArithmetic(m: nat, load: real, makespan: real)
    requires m >= 1 && load <= makespan && 0.0 <= makespan
    ensures 3.0 * Times(m, load) <= 4.0 * Times(m, makespan) - makespan
  {
    TimesMonotone(m, load, makespan);
    TimesMonotone(m - 1, 0.0, makespan);
    TimesAdd(m - 1, 0.0, 0.0);
  }

  lemma EmptyPlan(t: Table, count: nat, makespan: real)
    requires 0 < count && 0.0 <= makespan
    ensures WithinGraham(t, Placed(t, [], count), makespan)
  {
    forall k | 0 <= k < count
      ensures 3.0 * Times(count, Sum(t, Placed(t, [], count)[k])) <= 4.0 * Times(count, makespan) - makespan
    {
      LargeUnitArithmetic(count, 0.0, makespan);
    }
  }

  /** Room on the preferred shard: below the makespan for a large unit, below the
      average for a small one. */
  ghost predicate HasRoom(t: Table, shards: seq<seq<string>>, u: string, makespan: real)
    requires shards != []
  {
    var low, m := Sum(t, shards[Target(t, shards)]), |shards|;
    if makespan < 3.0 * At(t, u) then low + At(t, u) <= makespan else Times(m, low) + At(t, u) <= Times(m, makespan)
  }

  /** One placement keeps the bound, and keeps the makespan while units are large. */
  lemma GrahamStep(t: Table, before: seq<seq<string>>, u: string, makespan: real)
    requires before != [] && 0.0 <= makespan
    requires WithinGraham(t, before, makespan)
    requires HasRoom(t, before, u, makespan)
    ensures WithinGraham(t, Place(t, before, u), makespan)
    ensures makespan < 3.0 * At(t, u) && WithinMakespan(t, before, makespan)
        ==> WithinMakespan(t, Place(t, before, u), makespan)
  {
    var m, target := |before|, Target(t, before);
    SumAppend(t, before[target], u);
    LiftedLoad(m, Sum(t, before[target]), At(t, u), makespan);
  }

  lemma LiftedLoad(m: nat, low: real, p: real, makespan: real)
    requires m >= 1 && 0.0 <= makespan
    requires if makespan < 3.0 * p then low + p <= makespan else Times(m, low) + p <= Times(m, makespan)
    ensures 3.0 * Times(m, low + p) <= 4.0 * Times(m, makespan) - makespan
  {
    if makespan < 3.0 * p {
      LargeUnitArithmetic(m, low + p, makespan);
    } else {
      SmallUnitArithmetic(m, low, p, makespan);
    }
  }

  lemma NextUnitRoom(t: Table, order: seq<string>, i: nat, count: nat, other: seq<seq<string>>, makespan: real)
    requires Schedule(t, order, count, other, makespan) && i < |order|
    ensures HasRoom(t, Placed(t, order[..i], count), order[i], makespan)
  {
    if makespan < 3.0 * At(t, order[i]) {
      LargeUnitFits(t, order, i, count, other, makespan);
    } else {
      RoomForNext(t, order, i, count, other, makespan);
    }
  }

  /** The bound after `i` units; the makespan itself while the last unit is large. */
  ghost predicate Bounded(t: Table, order: seq<string>, i: nat, shards: seq<seq<string>>, makespan: real)
    requires i <= |order| && Ordered(t, order)
  {
    && WithinGraham(t, shards, makespan)
    && (i == 0 || makespan < 3.0 * At(t, order[i - 1]) ==> WithinMakespan(t, shards, makespan))
  }

  lemma {:induction false} GrahamSteps(t: Table, order: seq<string>, i: nat, count: nat, other: seq<seq<string>>,
                                       makespan: real)
    requires Schedule(t, order, count, other, makespan) && i <= |order| && 0.0 <= makespan
    ensures Bounded(t, order, i, Placed(t, order[..i], count), makespan)
  {
    if i == 0 {
      assert order[..0] == [];
      EmptyPlan(t, count, makespan);
    } else {
      var n := i - 1;
      GrahamSteps(t, order, n, count, other, makespan);
      NextUnitRoom(t, order, n, count, other, makespan);
      PlacedStep(t, order, n, count);
      if n > 0 { assert Before(t, order[n - 1], order[n]); }
      var before := Placed(t, order[..n], count);
      GrahamStep(t, before, order[n], makespan);
    }
  }

  lemma RivalIsSchedule(files: seq<string>, weights: map<string, real>, count: nat, other: seq<seq<string>>,
                        makespan: real)
    requires 0 < count == |other| && IsPartition(other, Units(files))
    requires WithinMakespan(TableOf(files, weights), other, makespan)
    ensures Schedule(TableOf(files, weights), Sorted(TableOf(files, weights), files), count, other, makespan)
    ensures 0.0 <= makespan
  {
    var t := TableOf(files, weights);
    SortedIsUnits(t, files);
    SumNonnegative(t, other[0]);
  }

  /** The load is at most (4/3 - 1/(3m)) times the makespan. */
  predicate Ratio(m: nat, load: real, makespan: real) {
    3.0 * (m as real * load) <= 4.0 * (m as real * makespan) - makespan
  }

  /** Every load is, for m shards. */
  ghost predicate WithinRatio(t: Table, shards: seq<seq<string>>, makespan: real)
  {
    forall k :: 0 <= k < |shards| ==> Ratio(|shards|, Sum(t, shards[k]), makespan)
  }

  lemma GrahamProduct(t: Table, shards: seq<seq<string>>, makespan: real)
    requires WithinGraham(t, shards, makespan)
    ensures WithinRatio(t, shards, makespan)
  {
    forall k | 0 <= k < |shards| ensures Ratio(|shards|, Sum(t, shards[k]), makespan) {
      RatioOfTimes(|shards|, Sum(t, shards[k]), makespan);
    }
  }

  lemma RatioOfTimes(m: nat, load: real, makespan: real)
    requires 3.0 * Times(m, load) <= 4.0 * Times(m, makespan) - makespan
    ensures Ratio(m, load, makespan)
  {
    TimesIsProduct(m, load);
    TimesIsProduct(m, makespan);
  }

  /** Graham's bound: whatever makespan T some other split into `count` shards reaches,
      3 * count * load <= (4 * count - 1) * T for every shard of the plan. */
  lemma LptBound(files: seq<string>, weights: map<string, real>, count: nat, other: seq<seq<string>>, makespan: real)
    requires 0 < count == |other| && IsPartition(other, Units(files))
    requires WithinMakespan(TableOf(files, weights), other, makespan)
    ensures WithinRatio(TableOf(files, weights), PlanOf(files, weights, count), makespan)
  {
    var t := TableOf(files, weights);
    var order := Sorted(t, files);
    RivalIsSchedule(files, weights, count, other, makespan);
    GrahamSteps(t, order, |order|, count, other, makespan);
    assert order[..|order|] == order;
    GrahamProduct(t, PlanOf(files, weights, count), makespan);
  }

  /** Every load is at most (3/2 - 1/(2m)) times the makespan, for m shards. */
  ghost predicate WithinSimplerRatio(m: nat, load: real, makespan: real) {
    2.0 * (m as real * load) <= 3.0 * (m as real * makespan) - makespan
  }

  lemma RatioArithmetic(m: nat, load: real, makespan: real)
    requires 0 < m && 0.0 <= makespan && Ratio(m, load, makespan)
    ensures WithinSimplerRatio(m, load, makespan)
  {
    var x, y, rest := m as real * makespan, m as real * load, (m - 1) as real;
    assert m as real == rest + 1.0;
    Fits(rest, makespan);
    assert x == rest * makespan + makespan;
    assert 3.0 * y <= 4.0 * x - makespan;
  }

  lemma Fits(a: real, b: real)
    requires 0.0 <= a && 0.0 <= b
    ensures 0.0 <= a * b
  {}

  lemma SimplerRatio(t: Table, shards: seq<seq<string>>, makespan: real)
    requires shards != [] && 0.0 <= makespan && WithinRatio(t, shards, makespan)
    ensures forall k :: 0 <= k < |shards| ==> WithinSimplerRatio(|shards|, Sum(t, shards[k]), makespan)
  {
    forall k | 0 <= k < |shards| ensures WithinSimplerRatio(|shards|, Sum(t, shards[k]), makespan) {
      RatioArithmetic(|shards|, Sum(t, shards[k]), makespan);
    }
  }

  /** The weaker textbook bound (3/2 - 1/(2m)) follows. */
  lemma SimplerBound(files: seq<string>, weights: map<string, real>, count: nat, other: seq<seq<string>>,
                     makespan: real)
    requires 0 < count == |other| && IsPartition(other, Units(files))
    requires WithinMakespan(TableOf(files, weights), other, makespan)
    ensures forall k :: 0 <= k < count ==>
              WithinSimplerRatio(count, Sum(TableOf(files, weights), PlanOf(files, weights, count)[k]), makespan)
  {
    LptBound(files, weights, count, other, makespan);
    RivalIsSchedule(files, weights, count, other, makespan);
    SimplerRatio(TableOf(files, weights), PlanOf(files, weights, count), makespan);
  }

  /** Take the last unit off any shard and it is no longer than any other shard. */
  ghost predicate LastUnitBalanced(t: Table, shards: seq<seq<string>>)
  {
    forall k, j :: 0 <= k < |shards| && 0 <= j < |shards| && shards[k] != [] ==>
      Sum(t, shards[k]) - At(t, shards[k][|shards[k]| - 1]) <= Sum(t, shards[j])
  }

  lemma BalanceStep(t: Table, before: seq<seq<string>>, u: string)
    requires before != [] && LastUnitBalanced(t, before)
    ensures LastUnitBalanced(t, Place(t, before, u))
  {
    var target := Target(t, before);
    forall k | 0 <= k < |before| ensures Sum(t, before[target]) <= Sum(t, before[k]) {
      TargetLeast(t, before, k);
    }
    SumAppend(t, before[target], u);
  }

  lemma {:induction false} LastUnitBalance(t: Table, order: seq<string>, count: nat)
    requires 0 < count
    ensures LastUnitBalanced(t, Placed(t, order, count))
  {
    if order != [] {
      var n := |order| - 1;
      var before := Placed(t, order[..n], count);
      LastUnitBalance(t, order[..n], count);
      BalanceStep(t, before, order[n]);
    }
  }

  // ------------------------------------------------------------------- runners

  /** Which collected items runner `index` of `count` keeps (conftest.py). */
  function Kept(items: seq<string>, unitOf: string -> string, weights: map<string, real>, index: nat,
                count: nat): seq<string>
    requires 1 <= index <= count
  {
    var keep := PlanOf(Map(unitOf, items), weights, count)[index - 1];
    Filter(item => unitOf(item) in keep, items)
  }

  /** A unit stands on exactly one shard of a partition. */
  lemma OnOneShard(shards: seq<seq<string>>, units: set<string>, u: string, k: nat, j: nat)
    requires IsPartition(shards, units) && k < j < |shards|
    ensures !(u in shards[k] && u in shards[j])
  {
    if u in shards[k] && u in shards[j] {
      TwiceInConcat(shards, u, k, j);
    }
  }

  lemma {:induction false} OnceInConcat(shards: seq<seq<string>>, u: string, k: nat)
    requires k < |shards| && u in shards[k]
    ensures multiset(Concat(shards))[u] >= 1
  {
    ConcatMembers(shards, k);
  }

  lemma {:induction false} TwiceInConcat(shards: seq<seq<string>>, u: string, k: nat, j: nat)
    requires k < j < |shards| && u in shards[k] && u in shards[j]
    ensures multiset(Concat(shards))[u] >= 2
  {
    if k == 0 {
      assert multiset(shards[0])[u] >= 1;
      assert shards[1..][j - 1] == shards[j];
      OnceInConcat(shards[1..], u, j - 1);
    } else {
      TwiceInConcat(shards[1..], u, k - 1, j - 1);
    }
  }

  /** Each runner collected the suite in its own order; every item is then kept by exactly
      one of them, as often as it was collected. */
  lemma RunnersCoverSuite(collected: seq<seq<string>>, unitOf: string -> string, weights: map<string, real>,
                          item: string)
    requires collected != [] && item in collected[0]
    requires forall k :: 0 <= k < |collected| ==> multiset(collected[k]) == multiset(collected[0])
    ensures exists k :: 0 <= k < |collected| && KeptOnlyBy(collected, unitOf, weights, item, k)
  {
    var n := |collected|;
    var names := Map(unitOf, collected[0]);
    var shards := PlanOf(names, weights, n);
    PlanPartitions(names, weights, n);
    var u := unitOf(item);
    assert u in names by {
      var i :| 0 <= i < |collected[0]| && collected[0][i] == item;
      assert names[i] == u;
    }
    assert u in Concat(shards) by { assert u in multiset(Units(names)); assert u in multiset(Concat(shards)); }
    InSomeShard(shards, u);
    var k :| 0 <= k < n && u in shards[k];
    forall j | 0 <= j < n
      ensures multiset(Kept(collected[j], unitOf, weights, j + 1, n))[item]
           == if j == k then multiset(collected[0])[item] else 0
    {
      MapPermutation(unitOf, collected[j], collected[0]);
      PlanPermutation(Map(unitOf, collected[j]), names, weights, n);
      FilterCount(x => unitOf(x) in shards[j], collected[j], item);
      if j < k { OnOneShard(shards, Units(names), u, j, k); }
      if k < j { OnOneShard(shards, Units(names), u, k, j); }
    }
    assert KeptOnlyBy(collected, unitOf, weights, item, k);
  }

  ghost predicate KeptOnlyBy(collected: seq<seq<string>>, unitOf: string -> string, weights: map<string, real>,
                             item: string, k: nat)
    requires k < |collected|
  {
    forall j :: 0 <= j < |collected| ==>
      multiset(Kept(collected[j], unitOf, weights, j + 1, |collected|))[item]
        == if j == k then multiset(collected[0])[item] else 0
  }
}
