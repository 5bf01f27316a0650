/** Was one still-running endpoint behind a whole session of requests? (endpoint_harness.py)

    An observed break is a boundary, an unobservable fact is missing evidence, and neither is
    reported as reuse. */
module Continuity {
  import opened Sequences

  /** What one probe of the endpoint saw; None is what could not be observed. */
  datatype Snapshot = Snapshot(ready: bool, modelIds: Option<seq<string>>, instance: Option<string>)

  datatype ProcessState = NotOwned | Alive | LauncherExited | ExitedWithError

  datatype Fact = Readiness | ModelSet | Instance | OwnedProcess

  /** `pair` counts the compared pair within one judgement. */
  datatype Note = Note(pair: nat, fact: Fact)

  datatype Evidence = HarnessOwnedProcessAlive | InstanceUnchanged

  datatype Classification = SameEndpointWarm | ContinuityUnproven | NewSequence

  datatype Judgement = Judgement(
    classification: Classification, reused: Option<bool>, evidence: Option<Evidence>,
    boundary: seq<Note>, missing: seq<Note>)

  // ------------------------------------------------------------- what it means

  /** The later snapshot shows the same endpoint as the earlier one, fully observed. */
  predicate Continues(model: string, before: Snapshot, after: Snapshot) {
    && after.ready
    && after.modelIds.Some? && model in after.modelIds.value && before.modelIds == after.modelIds
    && before.instance == after.instance
  }

  /** The later snapshot shows something else. */
  predicate Breaks(model: string, before: Snapshot, after: Snapshot) {
    || !after.ready
    || (before.modelIds.Some? && after.modelIds.Some?
        && (before.modelIds != after.modelIds || model !in after.modelIds.value))
    || (before.instance.Some? && after.instance.Some? && before.instance != after.instance)
  }

  // ------------------------------------------------------------------ one pair

  method CompareSnapshots(pair: nat, before: Snapshot, after: Snapshot, model: string)
      returns (boundary: seq<Note>, missing: seq<Note>)
    ensures boundary != [] <==> Breaks(model, before, after)
    ensures boundary == [] && missing == [] <==> Continues(model, before, after)
    ensures Note(pair, Readiness) in boundary <==> !after.ready
    ensures Note(pair, ModelSet) in missing <==> before.modelIds == None || after.modelIds == None
    ensures Note(pair, ModelSet) in boundary <==>
              (before.modelIds.Some? && after.modelIds.Some?
               && (before.modelIds != after.modelIds || model !in after.modelIds.value))
    ensures Note(pair, Instance) in missing <==> before.instance.Some? != after.instance.Some?
    ensures Note(pair, Instance) in boundary <==>
              before.instance.Some? && after.instance.Some? && before.instance != after.instance
    ensures forall n :: n in boundary + missing ==> n.pair == pair
  {
    boundary, missing := [], [];
    if !after.ready { boundary := boundary + [Note(pair, Readiness)]; }
    if before.modelIds == None || after.modelIds == None {
      missing := missing + [Note(pair, ModelSet)];
    } else if before.modelIds != after.modelIds || model !in after.modelIds.value {
      boundary := boundary + [Note(pair, ModelSet)];
    }
    if before.instance.Some? && after.instance.Some? {
      if before.instance != after.instance { boundary := boundary + [Note(pair, Instance)]; }
    } else if before.instance.Some? || after.instance.Some? {
      missing := missing + [Note(pair, Instance)];
    }
  }

  // ----------------------------------------------------------------- one judgement

  /** Every neighbouring pair of `s` continues. */
  predicate AllContinue(model: string, s: seq<Snapshot>) {
    forall i :: 0 < i < |s| ==> Continues(model, s[i - 1], s[i])
  }

  predicate SomeBreak(model: string, s: seq<Snapshot>) {
    exists i :: 0 < i < |s| && Breaks(model, s[i - 1], s[i])
  }

  predicate OneInstance(s: seq<Snapshot>) {
    && (forall x :: x in s ==> x.instance.Some?)
    && forall x, y :: x in s && y in s ==> x.instance == y.instance
  }

  /** judge_continuity over the snapshots around one request and the one before it. */
  method JudgeContinuity(s: seq<Snapshot>, model: string, state: ProcessState) returns (j: Judgement)
    requires |s| == 3
    ensures j.reused == Some(false) <==> SomeBreak(model, s) || state == ExitedWithError
    ensures j.reused == Some(true) <==>
              (AllContinue(model, s) && state != ExitedWithError && (state == Alive || s[0].instance.Some?))
    ensures j.reused == Some(false) <==> j.boundary != []
    ensures j.reused == Some(true) ==>
              (j.missing == []
               && j.evidence == Some(if state == Alive then HarnessOwnedProcessAlive else InstanceUnchanged))
    ensures j.reused != Some(true) ==> j.evidence == None
    ensures Note(2, OwnedProcess) in j.boundary <==> state == ExitedWithError
    ensures j.classification == (match j.reused
                                 case None => ContinuityUnproven
                                 case Some(r) => if r then SameEndpointWarm else NewSequence)
  {
    var boundary: seq<Note>, missing: seq<Note> := [], [];
    for i := 1 to |s|
      invariant boundary != [] <==> SomeBreak(model, s[..i])
      invariant boundary == [] && missing == [] <==> AllContinue(model, s[..i])
      invariant forall n: Note :: n in boundary ==> n.pair < 2
    {
      var b, m := CompareSnapshots(i - 1, s[i - 1], s[i], model);
      boundary, missing := boundary + b, missing + m;
      PrefixBreaks(model, s, i);
    }
    assert s[..|s|] == s;
    if AllContinue(model, s) { SharedInstance(model, s); }
    if state == ExitedWithError { boundary := boundary + [Note(2, OwnedProcess)]; }
    var source := if state == Alive then Some(HarnessOwnedProcessAlive)
                  else if OneInstance(s) then Some(InstanceUnchanged)
                  else None;
    if boundary != [] {
      j := Judgement(NewSequence, Some(false), None, boundary, missing);
    } else if source.Some? && missing == [] {
      j := Judgement(SameEndpointWarm, Some(true), source, boundary, missing);
    } else {
      j := Judgement(ContinuityUnproven, None, None, boundary, missing);
    }
  }

  lemma SharedInstance(model: string, s: seq<Snapshot>)
    requires |s| == 3 && AllContinue(model, s)
    ensures OneInstance(s) <==> s[0].instance.Some?
  {
    assert Continues(model, s[0], s[1]) && Continues(model, s[1], s[2]);
    assert s[0] in s;
    assert forall x :: x in s ==> x.instance == s[0].instance;
  }

  lemma PrefixBreaks(model: string, s: seq<Snapshot>, i: nat)
    requires 0 < i < |s|
    ensures SomeBreak(model, s[..i + 1]) <==> SomeBreak(model, s[..i]) || Breaks(model, s[i - 1], s[i])
    ensures AllContinue(model, s[..i + 1]) <==> AllContinue(model, s[..i]) && Continues(model, s[i - 1], s[i])
  {
    var long, short := s[..i + 1], s[..i];
    assert forall k :: 0 <= k < i ==> long[k] == short[k];
    assert long[i - 1] == s[i - 1] && long[i] == s[i];
    if SomeBreak(model, short) {
      var k :| 0 < k < |short| && Breaks(model, short[k - 1], short[k]);
      assert Breaks(model, long[k - 1], long[k]);
    }
    if AllContinue(model, long) {
      assert Continues(model, long[i - 1], long[i]);
    }
  }

  // --------------------------------------------------------------- a whole session

  /** One character per request: the third request of a lifetime is the first turn. */
  const SEQUENCE_PREFIXES := "123456789abcdefghijklmnopqrstuvwxyzABCDEFGHIJKLMNOPQRSTUVWXYZ"

  /** Beyond this many turns the harness runs out of distinct prompt prefixes. */
  const MAX_TURNS: nat := |SEQUENCE_PREFIXES| - 2

  datatype Failure = OutOfPrefixes

  datatype Report = NotRequested | Report(rows: seq<Judgement>, reused: Option<bool>)

  /** The snapshots one turn is judged by: the end of the turn before, and its own two. */
  function Window(shots: nat -> Snapshot, turn: nat): (s: seq<Snapshot>)
    requires turn > 0
    ensures |s| == 3
  {
    [shots(2 * turn - 2), shots(2 * turn - 1), shots(2 * turn)]
  }

  /** Throughout 2n + 1 snapshots one endpoint served: the same models, the configured one
      among them, the same instance, ready whenever looked at after the first time; and each
      turn has something that identifies the server. */
  ghost predicate OneEndpoint(model: string, shots: nat -> Snapshot, states: nat -> ProcessState, n: nat) {
    && (forall i :: 0 <= i <= 2 * n ==> SameServer(model, shots(0), shots(i)))
    && (forall i :: 0 < i <= 2 * n ==> shots(i).ready)
    && forall t :: 0 < t <= n ==> states(t) == Alive || (states(t) != ExitedWithError && shots(0).instance.Some?)
  }

  predicate SameServer(model: string, first: Snapshot, s: Snapshot) {
    && s.modelIds.Some? && model in s.modelIds.value
    && s.modelIds == first.modelIds && s.instance == first.instance
  }

  /** A turn observed a boundary: two neighbouring snapshots disagree, or the owned process
      failed. */
  predicate TurnBreaks(model: string, shots: nat -> Snapshot, states: nat -> ProcessState, turn: nat)
    requires turn > 0
  {
    SomeBreak(model, Window(shots, turn)) || states(turn) == ExitedWithError
  }

  predicate TurnReuses(model: string, shots: nat -> Snapshot, states: nat -> ProcessState, turn: nat)
    requires turn > 0
  {
    && AllContinue(model, Window(shots, turn)) && states(turn) != ExitedWithError
    && (states(turn) == Alive || shots(2 * turn - 2).instance.Some?)
  }

  /** What a turn's row reports is what the turn observed. */
  ghost predicate Tells(rows: seq<Judgement>, model: string, shots: nat -> Snapshot, states: nat -> ProcessState,
                        turn: nat)
    requires 0 < turn <= |rows|
  {
    && (rows[turn - 1].reused == Some(true) <==> TurnReuses(model, shots, states, turn))
    && (rows[turn - 1].reused == Some(false) <==> TurnBreaks(model, shots, states, turn))
  }

  /** benchmark_persistent_session. `shots(i)` is what the i-th probe sees, `states(t)` what
      polling the owned process says in turn t. */
  method PersistentSession(model: string, turns: nat, shots: nat -> Snapshot, states: nat -> ProcessState)
      returns (r: Result<Report, Failure>)
    ensures r.Err? <==> turns > MAX_TURNS
    ensures turns == 0 ==> r == Ok(NotRequested)
    ensures 0 < turns <= MAX_TURNS ==>
              (r.value.Report? && |r.value.rows| == turns
               && (r.value.reused == Some(true) <==> OneEndpoint(model, shots, states, turns))
               && (r.value.reused == Some(false) <==>
                     exists t :: 0 < t <= turns && TurnBreaks(model, shots, states, t)))
  {
    if turns == 0 { return Ok(NotRequested); }
    var rows: seq<Judgement> := [];
    var anchor := shots(0);
    for turn := 1 to turns + 1
      invariant |rows| == turn - 1 <= MAX_TURNS && anchor == shots(2 * turn - 2)
      invariant forall t :: 0 < t < turn ==> Tells(rows, model, shots, states, t)
    {
      var before := shots(2 * turn - 1);
      if turn + 1 >= |SEQUENCE_PREFIXES| { return Err(OutOfPrefixes); }
      var after := shots(2 * turn);
      var row := JudgeContinuity([anchor, before, after], model, states(turn));
      assert Window(shots, turn) == [anchor, before, after];
      ghost var was := rows;
      rows := rows + [row];
      assert Tells(rows, model, shots, states, turn);
      assert forall t :: 0 < t < turn ==> Tells(was, model, shots, states, t) ==> Tells(rows, model, shots, states, t);
      anchor := after;
    }
    VerdictTells(rows, model, shots, states);
    TurnsChain(model, shots, states, turns);
    r := Ok(Report(rows, Verdict(rows)));
  }

  /** False as soon as one row is False, True only if all are, otherwise unknown. */
  function Verdict(rows: seq<Judgement>): Option<bool> {
    if exists row :: row in rows && row.reused == Some(false) then Some(false)
    else if forall row :: row in rows ==> row.reused == Some(true) then Some(true)
    else None
  }

  lemma VerdictTells(rows: seq<Judgement>, model: string, shots: nat -> Snapshot, states: nat -> ProcessState)
    requires rows != [] && forall t :: 0 < t <= |rows| ==> Tells(rows, model, shots, states, t)
    ensures Verdict(rows) == Some(true) <==> forall t :: 0 < t <= |rows| ==> TurnReuses(model, shots, states, t)
    ensures Verdict(rows) == Some(false) <==> exists t :: 0 < t <= |rows| && TurnBreaks(model, shots, states, t)
  {
    forall t | 0 < t <= |rows| && TurnBreaks(model, shots, states, t) ensures Verdict(rows) == Some(false) {
      assert Tells(rows, model, shots, states, t) && rows[t - 1] in rows;
    }
    if Verdict(rows) == Some(false) {
      var k :| 0 <= k < |rows| && rows[k].reused == Some(false);
      var t := k + 1;
      assert Tells(rows, model, shots, states, t) && TurnBreaks(model, shots, states, t);
    }
    if Verdict(rows) == Some(true) {
      forall t | 0 < t <= |rows| ensures TurnReuses(model, shots, states, t) {
        assert rows[t - 1] in rows && Tells(rows, model, shots, states, t);
      }
    }
    if forall t :: 0 < t <= |rows| ==> TurnReuses(model, shots, states, t) {
      forall k | 0 <= k < |rows| ensures rows[k].reused == Some(true) {
        var t := k + 1;
        assert Tells(rows, model, shots, states, t) && TurnReuses(model, shots, states, t);
      }
    }
  }

  /** Turns that each reuse, chained end to start, are one endpoint; and one endpoint makes
      every turn reuse. */
  lemma TurnsChain(model: string, shots: nat -> Snapshot, states: nat -> ProcessState, n: nat)
    requires n > 0
    ensures (forall t :: 0 < t <= n ==> TurnReuses(model, shots, states, t)) <==> OneEndpoint(model, shots, states, n)
  {
    if OneEndpoint(model, shots, states, n) {
      forall t | 0 < t <= n ensures TurnReuses(model, shots, states, t) {
        OneTurn(model, shots, states, n, t);
      }
    }
    if forall t :: 0 < t <= n ==> TurnReuses(model, shots, states, t) {
      Chained(model, shots, states, n);
    }
  }

  lemma OneTurn(model: string, shots: nat -> Snapshot, states: nat -> ProcessState, n: nat, t: nat)
    requires OneEndpoint(model, shots, states, n) && 0 < t <= n
    ensures TurnReuses(model, shots, states, t)
  {
    assert SameServer(model, shots(0), shots(2 * t - 2)) && SameServer(model, shots(0), shots(2 * t - 1));
    assert SameServer(model, shots(0), shots(2 * t));
  }

  lemma {:induction false} Chained(model: string, shots: nat -> Snapshot, states: nat -> ProcessState, n: nat)
    requires n > 0 && forall t :: 0 < t <= n ==> TurnReuses(model, shots, states, t)
    ensures OneEndpoint(model, shots, states, n)
  {
    assert TurnReuses(model, shots, states, n);
    var w := Window(shots, n);
    assert Continues(model, w[0], w[1]) && Continues(model, w[1], w[2]);
    if n > 1 { Chained(model, shots, states, n - 1); }
    forall i | 0 <= i <= 2 * n ensures SameServer(model, shots(0), shots(i)) {
      if i >= 2 * n - 2 && n > 1 { assert SameServer(model, shots(0), shots(2 * n - 2)); }
    }
  }
}
