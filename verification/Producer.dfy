/** The suite loop (run_evaluation.py, run_all): run, checkpoint, decide whether to go on. */
module Producer {
  import opened Draws
  import opened Endpoints
  import opened Json
  import opened Sequences

  const MAX_CONSECUTIVE_HARNESS_ERRORS := 2

  /** Identity fields stamped on every row, when the run has them. */
  const ENVELOPE_KEYS := [
    "condition", "generation", "source_sha256", "base_prompt_sha256",
    "outcome_contract_sha256", "model", "model_identity", "rehearsal"]

  /** What running one case once hands back: its row, and the identity fields it already
      carries. */
  datatype Draw = Draw(row: Row, identity: Fields)

  /** The run's identity fields that go onto every row. */
  function Envelope(identity: Fields): Fields {
    map key | key in identity && key in ENVELOPE_KEYS :: identity[key]
  }

  /** Some identity field of the row contradicts the run's. */
  predicate Mismatch(envelope: Fields, d: Draw) {
    exists key :: key in envelope && key in d.identity && d.identity[key] != envelope[key]
  }

  /** The row as recorded: the run's condition, and its attempt number. */
  function Stamped(condition: Option<Json>, d: Draw, attempt: nat): Row {
    d.row.(condition := if condition.Some? then condition.value else d.row.condition, attempt := Int(attempt))
  }

  function ConditionOf(identity: Fields): Option<Json> {
    if "condition" in identity then Some(identity["condition"]) else None
  }

  /** Every row carries the run's condition. */
  ghost predicate UnderCondition(rows: seq<Row>, condition: Option<Json>) {
    condition.Some? ==> forall row :: row in rows ==> row.condition == condition.value
  }

  predicate HarnessError(row: Row) { row.errorLocus in {Str("harness"), Str("precondition")} }

  /** What every checkpoint writes. */
  datatype Manifest = Manifest(rows: seq<Row>, declared: map<string, nat>)

  datatype Ending = Finished(stoppedEarly: bool) | RepeatTooSmall | MaxAttemptsBelowRepeat | IdentityMismatch

  function Of(rows: seq<Row>, name: string): seq<Row> { Filter((r: Row) => r.caseName == Str(name), rows) }

  // ---------------------------------------------------------------- what cells satisfy

  /** A case's rows as the analysis asks for them: attempts 0, 1, 2, … in order, nothing
      collected after the third counted draw. */
  ghost predicate Acceptable(cell: seq<Row>) {
    && Numbered(cell)
    && (|CountedRows(cell)| >= 3 ==> cell != [] && CountedRows(cell)[2] == cell[|cell| - 1])
  }

  /** An acceptable cell within the analysis's bound passes its checks, and its first three
      counted rows are the ones that decide. */
  lemma ConsumerAccepts(cell: seq<Row>)
    requires Acceptable(cell) && |cell| <= 5
    ensures var s := SelectDecisionRows(cell, Int(|cell|));
            s.reasons == [] && s.selected == FirstOf(CountedRows(cell), 3)
  {
    SelectsFirstThree(cell, cell);
  }

  /** A cell that stops as soon as it has three counted draws is acceptable. */
  lemma StoppedInTime(cell: seq<Row>, row: Row)
    requires Numbered(cell) && row.attempt == Int(|cell|) && |CountedRows(cell)| < 3
    ensures Acceptable(cell + [row])
    ensures CountedRows(cell + [row]) == CountedRows(cell) + if Counted(row) then [row] else []
  {
    FilterConcat(Counted, cell, [row]);
    assert CountedRows([row]) == if Counted(row) then [row] else [];
  }

  /** Rows of another case do not touch a cell. */
  lemma OtherCase(rows: seq<Row>, row: Row, name: string)
    ensures Of(rows + [row], name) == Of(rows, name) + if row.caseName == Str(name) then [row] else []
  {
    var of := (r: Row) => r.caseName == Str(name);
    FilterConcat(of, rows, [row]);
    assert Filter(of, [row]) == if row.caseName == Str(name) then [row] else [];
  }

  // --------------------------------------------------------------- what a run computes

  function LimitOf(repeat: nat, maxAttempts: Option<nat>): nat {
    if maxAttempts == None then repeat else maxAttempts.value
  }

  /** A run's parameters. `runOne` answers for a case, an attempt, and the number of rows
      recorded so far. */
  datatype Run = Run(repeat: nat, maxAttempts: Option<nat>, envelope: Fields, condition: Option<Json>,
                     runOne: (string, nat, nat) -> Draw) {
    function Limit(): nat { LimitOf(repeat, maxAttempts) }

    predicate Enough(draws: nat) { maxAttempts.Some? && draws >= repeat }

    ghost predicate Valid() {
      && 1 <= repeat <= Limit()
      && forall name, a, n :: runOne(name, a, n).row.caseName == Str(name)
    }
  }

  /** Where the loops stand: the manifest on disk, the counted draws of the current case, the
      harness errors in a row, and why the run ended, if it did. */
  datatype Taken = Taken(m: Manifest, draws: nat, errors: nat, ended: Option<Ending>)

  function Append(m: Manifest, name: string, row: Row, attempt: nat): Manifest {
    Manifest(m.rows + [row], m.declared[name := attempt + 1])
  }

  function NextDraw(run: Run, name: string, attempt: nat, m: Manifest): Draw { run.runOne(name, attempt, |m.rows|) }

  /** One attempt: check its identity, stamp and record its row, count. */
  function TakeAttempt(run: Run, name: string, attempt: nat, t: Taken): Taken {
    var draw := NextDraw(run, name, attempt, t.m);
    if Mismatch(run.envelope, draw) then t.(ended := Some(IdentityMismatch))
    else
      var row := Stamped(run.condition, draw, attempt);
      var errors := if HarnessError(row) then t.errors + 1 else 0;
      Taken(Append(t.m, name, row, attempt), t.draws + if Counted(row) then 1 else 0, errors,
            if errors >= MAX_CONSECUTIVE_HARNESS_ERRORS then Some(Finished(true)) else None)
  }

  /** The attempts of a case from `attempt` on. */
  function AttemptsFrom(run: Run, name: string, attempt: nat, t: Taken): Taken
    decreases run.Limit() - attempt
  {
    if attempt >= run.Limit() || t.ended.Some? || run.Enough(t.draws) then t
    else AttemptsFrom(run, name, attempt + 1, TakeAttempt(run, name, attempt, t))
  }

  function CaseOf(run: Run, name: string, t: Taken): Taken { AttemptsFrom(run, name, 0, t.(draws := 0)) }

  /** The cases from the i-th on. */
  function CasesFrom(run: Run, cases: seq<string>, i: nat, t: Taken): Taken
    decreases |cases| - i
  {
    if i >= |cases| || t.ended.Some? then t else CasesFrom(run, cases, i + 1, CaseOf(run, cases[i], t))
  }

  const NOTHING_YET := Taken(Manifest([], map[]), 0, 0, None)

  function OutcomeOf(run: Run, cases: seq<string>): Taken { CasesFrom(run, cases, 0, NOTHING_YET) }

  function EndingOf(t: Taken): Ending { if t.ended.Some? then t.ended.value else Finished(false) }

  // ----------------------------------------------------------------- one more row

  /** Rows of the other cases stay as they were, this case has `attempt` numbered ones. */
  ghost predicate InCase(before: Manifest, m: Manifest, name: string, attempt: nat) {
    && (forall other :: other != name ==> Of(m.rows, other) == Of(before.rows, other))
    && m.declared == (if attempt == 0 then before.declared else before.declared[name := attempt])
    && |Of(m.rows, name)| == attempt && Numbered(Of(m.rows, name))
  }

  /** What went wrong at the k-th row was the harness or the case's precondition. */
  predicate NotTheModel(rows: seq<Row>, k: nat)
    requires k < |rows|
  {
    rows[k].errorLocus == Str("harness") || rows[k].errorLocus == Str("precondition")
  }

  /** No two such rows stand next to each other. */
  predicate NeverTwice(rows: seq<Row>) {
    forall k :: 0 < k < |rows| ==> !(NotTheModel(rows, k - 1) && NotTheModel(rows, k))
  }

  /** Not so far; `errors` counts the one that may be last. */
  predicate Streak(rows: seq<Row>, errors: nat) {
    NeverTwice(rows) && errors == if rows != [] && NotTheModel(rows, |rows| - 1) then 1 else 0
  }

  /** The last two rows are such rows, and no two before. */
  predicate TwoErrors(rows: seq<Row>) {
    && |rows| >= 2 && NotTheModel(rows, |rows| - 1) && NotTheModel(rows, |rows| - 2)
    && NeverTwice(rows[..|rows| - 1])
  }

  /** A case that ran its course: out of attempts, or with the counted draws it wanted. */
  ghost predicate Completed(cell: seq<Row>, repeat: nat, limit: nat) {
    |cell| == limit || |CountedRows(cell)| >= repeat
  }

  /** The k-th row is what running its case, at its attempt, with k rows recorded, handed
      back: its identity agreed with the run's, and it was stamped. */
  predicate Drawn(run: Run, row: Row, k: nat) {
    && row.caseName.Str? && row.attempt.Int? && row.attempt.n >= 0
    && var draw := run.runOne(row.caseName.s, row.attempt.n, k);
       !Mismatch(run.envelope, draw) && row == Stamped(run.condition, draw, row.attempt.n)
  }

  ghost predicate AllDrawn(run: Run, rows: seq<Row>) {
    forall k :: 0 <= k < |rows| ==> Drawn(run, rows[k], k)
  }

  /** The identity a row brings along contradicts none of the run's eight identity fields. */
  predicate Agrees(identity: Fields, own: Fields) {
    forall key :: key in identity && key in own
                  && key in ["condition", "generation", "source_sha256", "base_prompt_sha256",
                             "outcome_contract_sha256", "model", "model_identity", "rehearsal"]
                  ==> own[key] == identity[key]
  }

  lemma AgreesExactly(identity: Fields, d: Draw)
    ensures Agrees(identity, d.identity) <==> !Mismatch(Envelope(identity), d)
  {
    if Agrees(identity, d.identity) {
      forall key | key in Envelope(identity) && key in d.identity ensures d.identity[key] == Envelope(identity)[key] {}
    } else {
      var key :| key in identity && key in d.identity && key in ENVELOPE_KEYS && d.identity[key] != identity[key];
      assert key in Envelope(identity);
    }
  }

  /** The k-th row is what running its case, at its attempt, with k rows recorded, handed back,
      under the run's condition if it has one. */
  predicate HandedBack(identity: Fields, runOne: (string, nat, nat) -> Draw, row: Row, k: nat) {
    && row.caseName.Str? && row.attempt.Int? && row.attempt.n >= 0
    && var d := runOne(row.caseName.s, row.attempt.n, k);
       && Agrees(identity, d.identity)
       && row.(condition := d.row.condition, attempt := d.row.attempt) == d.row
       && row.condition == if "condition" in identity then identity["condition"] else d.row.condition
  }

  predicate AllHandedBack(identity: Fields, runOne: (string, nat, nat) -> Draw, rows: seq<Row>) {
    forall k :: 0 <= k < |rows| ==> HandedBack(identity, runOne, rows[k], k)
  }

  lemma DrawnMeans(run: Run, identity: Fields, rows: seq<Row>)
    requires run.envelope == Envelope(identity) && run.condition == ConditionOf(identity) && AllDrawn(run, rows)
    ensures AllHandedBack(identity, run.runOne, rows)
    ensures forall d :: Mismatch(run.envelope, d) <==> !Agrees(identity, d.identity)
  {
    forall d: Draw ensures Mismatch(run.envelope, d) <==> !Agrees(identity, d.identity) {
      AgreesExactly(identity, d);
    }
    forall k | 0 <= k < |rows| ensures HandedBack(identity, run.runOne, rows[k], k) {
      assert Drawn(run, rows[k], k);
      AgreesExactly(identity, run.runOne(rows[k].caseName.s, rows[k].attempt.n, k));
    }
  }

  lemma AppendKeeps(before: Manifest, m: Manifest, name: string, row: Row, attempt: nat)
    requires InCase(before, m, name, attempt) && row.caseName == Str(name) && row.attempt == Int(attempt)
    ensures InCase(before, Append(m, name, row, attempt), name, attempt + 1)
    ensures Of(Append(m, name, row, attempt).rows, name) == Of(m.rows, name) + [row]
  {
    var after := Append(m, name, row, attempt);
    forall other ensures Of(after.rows, other) == Of(m.rows, other) + if other == name then [row] else [] {
      OtherCase(m.rows, row, other);
    }
  }

  lemma CountedNext(cell: seq<Row>, row: Row)
    ensures |CountedRows(cell + [row])| == |CountedRows(cell)| + if Counted(row) then 1 else 0
  {
    FilterConcat(Counted, cell, [row]);
    assert CountedRows([row]) == if Counted(row) then [row] else [];
  }

  lemma RowAdded(before: Manifest, m: Manifest, name: string, row: Row, attempt: nat)
    requires InCase(before, m, name, attempt) && row.caseName == Str(name) && row.attempt == Int(attempt)
    ensures var cell, after := Of(m.rows, name), Append(m, name, row, attempt);
            && InCase(before, after, name, attempt + 1)
            && |CountedRows(Of(after.rows, name))| == |CountedRows(cell)| + (if Counted(row) then 1 else 0)
            && (|CountedRows(cell)| < 3 ==> Acceptable(Of(after.rows, name)))
  {
    AppendKeeps(before, m, name, row, attempt);
    CountedNext(Of(m.rows, name), row);
    if |CountedRows(Of(m.rows, name))| < 3 { StoppedInTime(Of(m.rows, name), row); }
  }

  lemma StreakGoesOn(rows: seq<Row>, row: Row, errors: nat)
    requires Streak(rows, errors)
    ensures !HarnessError(row) ==> Streak(rows + [row], 0)
    ensures HarnessError(row) && errors == 0 ==> Streak(rows + [row], 1)
    ensures HarnessError(row) && errors != 0 ==> TwoErrors(rows + [row])
  {
    var all := rows + [row];
    assert all[..|all| - 1] == rows;
    assert NotTheModel(all, |rows|) <==> HarnessError(row);
    forall k | 0 <= k < |rows| ensures NotTheModel(all, k) == NotTheModel(rows, k) {}
  }

  // ------------------------------------------------------------------- one case

  /** What holds after any number of attempts of a case, however the last one went. */
  ghost predicate CaseSoFar(run: Run, before: Manifest, m: Manifest, name: string) {
    && InCase(before, m, name, |Of(m.rows, name)|) && (Of(m.rows, name) == [] ==> m == before)
    && (run.repeat <= 3 ==> Acceptable(Of(m.rows, name)))
    && AllDrawn(run, m.rows)
  }

  /** How a run ends inside a case: after two harness errors in a row, or because the next draw
      of the case contradicts the run's identity. */
  ghost predicate EndedRightly(run: Run, t: Taken, name: string) {
    match t.ended
    case None => Streak(t.m.rows, t.errors)
    case Some(Finished(early)) => early && TwoErrors(t.m.rows)
    case Some(IdentityMismatch) => Mismatch(run.envelope, NextDraw(run, name, |Of(t.m.rows, name)|, t.m))
    case _ => false
  }

  ghost predicate AfterAttempts(run: Run, before: Manifest, t: Taken, name: string) {
    && CaseSoFar(run, before, t.m, name) && EndedRightly(run, t, name)
    && t.draws == |CountedRows(Of(t.m.rows, name))| <= |Of(t.m.rows, name)|
  }

  lemma StampedIsDrawn(run: Run, rows: seq<Row>, name: string, attempt: nat)
    requires run.Valid() && AllDrawn(run, rows) && !Mismatch(run.envelope, run.runOne(name, attempt, |rows|))
    ensures AllDrawn(run, rows + [Stamped(run.condition, run.runOne(name, attempt, |rows|), attempt)])
  {
    var all := rows + [Stamped(run.condition, run.runOne(name, attempt, |rows|), attempt)];
    assert Drawn(run, all[|rows|], |rows|);
    forall k | 0 <= k < |all| ensures Drawn(run, all[k], k) {
      if k < |rows| { assert Drawn(run, rows[k], k); }
    }
  }

  /** A recorded attempt keeps what holds of the case. */
  lemma RowKeepsCase(run: Run, before: Manifest, m: Manifest, name: string)
    requires run.Valid() && CaseSoFar(run, before, m, name)
    requires |CountedRows(Of(m.rows, name))| < run.repeat
    requires !Mismatch(run.envelope, NextDraw(run, name, |Of(m.rows, name)|, m))
    ensures var attempt := |Of(m.rows, name)|;
            var row := Stamped(run.condition, NextDraw(run, name, attempt, m), attempt);
            var after := Append(m, name, row, attempt);
            && CaseSoFar(run, before, after, name) && |Of(after.rows, name)| == attempt + 1
            && |CountedRows(Of(after.rows, name))| == |CountedRows(Of(m.rows, name))| + (if Counted(row) then 1 else 0)
  {
    var attempt := |Of(m.rows, name)|;
    RowAdded(before, m, name, Stamped(run.condition, NextDraw(run, name, attempt, m), attempt), attempt);
    StampedIsDrawn(run, m.rows, name, attempt);
  }

  lemma AttemptHolds(run: Run, before: Manifest, t: Taken, name: string)
    requires run.Valid() && AfterAttempts(run, before, t, name) && t.ended == None && t.draws < run.repeat
    ensures var attempt := |Of(t.m.rows, name)|;
            var after := TakeAttempt(run, name, attempt, t);
            && AfterAttempts(run, before, after, name)
            && |Of(after.m.rows, name)| == if after.ended == Some(IdentityMismatch) then attempt else attempt + 1
  {
    var attempt := |Of(t.m.rows, name)|;
    var draw := NextDraw(run, name, attempt, t.m);
    if !Mismatch(run.envelope, draw) {
      RowKeepsCase(run, before, t.m, name);
      StreakGoesOn(t.m.rows, Stamped(run.condition, draw, attempt), t.errors);
    }
  }

  ghost predicate CaseDone(run: Run, before: Manifest, end: Taken, name: string) {
    && |Of(end.m.rows, name)| <= run.Limit() && AfterAttempts(run, before, end, name)
    && (end.ended == None ==> Completed(Of(end.m.rows, name), run.repeat, run.Limit()))
  }

  lemma {:induction false} AttemptsHold(run: Run, before: Manifest, t: Taken, name: string, attempt: nat)
    requires run.Valid() && AfterAttempts(run, before, t, name) && t.ended == None
    requires attempt == |Of(t.m.rows, name)| <= run.Limit()
    requires run.maxAttempts == None || t.draws <= run.repeat
    ensures CaseDone(run, before, AttemptsFrom(run, name, attempt, t), name)
    decreases run.Limit() - attempt
  {
    if attempt >= run.Limit() || run.Enough(t.draws) {
      assert AttemptsFrom(run, name, attempt, t) == t;
    } else {
      var next := TakeAttempt(run, name, attempt, t);
      AttemptHolds(run, before, t, name);
      OneAttempt(run, name, attempt, t);
      if next.ended == None {
        AttemptsHold(run, before, next, name, attempt + 1);
      } else {
        StoppedAttempts(run, before, next, name, attempt + 1);
      }
    }
  }

  lemma OneAttempt(run: Run, name: string, attempt: nat, t: Taken)
    requires attempt < run.Limit() && t.ended == None && !run.Enough(t.draws)
    ensures AttemptsFrom(run, name, attempt, t)
         == AttemptsFrom(run, name, attempt + 1, TakeAttempt(run, name, attempt, t))
  {}

  lemma StoppedAttempts(run: Run, before: Manifest, t: Taken, name: string, attempt: nat)
    requires AfterAttempts(run, before, t, name) && t.ended.Some? && |Of(t.m.rows, name)| <= attempt <= run.Limit()
    ensures CaseDone(run, before, AttemptsFrom(run, name, attempt, t), name)
  {
    assert AttemptsFrom(run, name, attempt, t) == t;
  }

  /** The attempts of one case: its rows are numbered, within the limit and stopped in time;
      every row comes from its draw; the other cases are untouched. */
  lemma CaseHolds(run: Run, t: Taken, name: string)
    requires run.Valid() && t.ended == None && Streak(t.m.rows, t.errors) && AllDrawn(run, t.m.rows)
    requires name !in t.m.declared && Of(t.m.rows, name) == []
    ensures var end := CaseOf(run, name, t);
            CaseDone(run, t.m, end, name)
  {
    AttemptsHold(run, t.m, t.(draws := 0), name, 0);
  }

  /** The attempt loop of run_all. */
  method RunCase(run: Run, name: string, before: Manifest, errors0: nat) returns (t: Taken)
    requires run.Valid()
    ensures t == CaseOf(run, name, Taken(before, 0, errors0, None))
  {
    var m, validDraws: nat, errors: nat, ended := before, 0, errors0, None;
    for attempt := 0 to run.Limit()
      invariant ended == None && !run.Enough(validDraws)
      invariant AttemptsFrom(run, name, attempt, Taken(m, validDraws, errors, None))
             == AttemptsFrom(run, name, 0, Taken(before, 0, errors0, None))
    {
      var draw := run.runOne(name, attempt, |m.rows|);
      if Mismatch(run.envelope, draw) {
        ended := Some(IdentityMismatch);
        break;
      }
      var row := Stamped(run.condition, draw, attempt);
      m := Manifest(m.rows + [row], m.declared[name := attempt + 1]);
      if Counted(row) { validDraws := validDraws + 1; }
      if HarnessError(row) {
        errors := errors + 1;
        if errors >= MAX_CONSECUTIVE_HARNESS_ERRORS {
          ended := Some(Finished(true));
          break;
        }
      } else {
        errors := 0;
      }
      if run.Enough(validDraws) { break; }
    }
    t := Taken(m, validDraws, errors, ended);
  }

  // ------------------------------------------------------------------ whole runs

  /** What the manifest holds about every case begun; of cases never begun it holds nothing. */
  ghost predicate Sound(m: Manifest, repeat: nat, limit: nat) {
    && (forall name :: name !in m.declared ==> Of(m.rows, name) == [])
    && forall name :: name in m.declared ==>
         && |Of(m.rows, name)| == m.declared[name] <= limit && Numbered(Of(m.rows, name))
         && (repeat <= 3 ==> Acceptable(Of(m.rows, name)))
  }

  lemma CaseKeepsSound(run: Run, before: Manifest, m: Manifest, name: string)
    requires Sound(before, run.repeat, run.Limit()) && name !in before.declared
    requires CaseSoFar(run, before, m, name) && |Of(m.rows, name)| <= run.Limit()
    ensures Sound(m, run.repeat, run.Limit())
    ensures m.declared.Keys == before.declared.Keys + if Of(m.rows, name) == [] then {} else {name}
  {
    forall other | other != name ensures Of(m.rows, other) == Of(before.rows, other) {}
  }

  predicate Distinct(cases: seq<string>) { forall i, j :: 0 <= i < j < |cases| ==> cases[i] != cases[j] }

  /** After the first i cases. */
  ghost predicate AfterCases(run: Run, cases: seq<string>, i: nat, t: Taken)
    requires i <= |cases|
  {
    && Sound(t.m, run.repeat, run.Limit()) && AllDrawn(run, t.m.rows)
    && (forall name :: name in t.m.declared ==> name in cases[..i])
    && (t.ended == None ==>
          && Streak(t.m.rows, t.errors)
          && forall name :: name in cases[..i] ==>
               name in t.m.declared && Completed(Of(t.m.rows, name), run.repeat, run.Limit()))
    && (t.ended.Some? ==> exists name :: name in cases[..i] && EndedRightly(run, t, name))
  }

  lemma OneMoreCase(cases: seq<string>, i: nat)
    requires i < |cases|
    ensures forall name :: name in cases[..i + 1] <==> name in cases[..i] || name == cases[i]
  {
    assert cases[..i + 1] == cases[..i] + [cases[i]];
  }

  lemma NextCaseHolds(run: Run, cases: seq<string>, i: nat, t: Taken)
    requires run.Valid() && Distinct(cases) && i < |cases| && AfterCases(run, cases, i, t) && t.ended == None
    ensures AfterCases(run, cases, i + 1, CaseOf(run, cases[i], t))
  {
    var name, end := cases[i], CaseOf(run, cases[i], t);
    assert name !in cases[..i];
    CaseHolds(run, t, name);
    CaseKeepsSound(run, t.m, end.m, name);
    OneMoreCase(cases, i);
    forall other | other in cases[..i] ensures Of(end.m.rows, other) == Of(t.m.rows, other) {}
  }

  lemma {:induction false} CasesHold(run: Run, cases: seq<string>, i: nat, t: Taken)
    requires run.Valid() && Distinct(cases) && i <= |cases| && AfterCases(run, cases, i, t)
    ensures AfterCases(run, cases, |cases|, CasesFrom(run, cases, i, t))
    decreases |cases| - i
  {
    if t.ended.Some? {
      assert forall name :: name in cases[..i] ==> name in cases[..|cases|];
    } else if i < |cases| {
      NextCaseHolds(run, cases, i, t);
      CasesHold(run, cases, i + 1, CaseOf(run, cases[i], t));
    }
  }

  /** Whatever running a case yields, and however the run ends: the manifest is sound, every
      row is its draw, stamped, and the ending has its reason. */
  lemma OutcomeHolds(run: Run, cases: seq<string>)
    requires run.Valid() && Distinct(cases)
    ensures AfterCases(run, cases, |cases|, OutcomeOf(run, cases))
  {
    CasesHold(run, cases, 0, NOTHING_YET);
  }

  /** run_all. The loops compute `OutcomeOf`. Whatever running a case yields, and however the run
      ends, the manifest on disk is sound and every row is its draw, stamped with the run's
      condition and its attempt; a run that finished went through every case; one that stopped
      early saw two harness errors in a row; one that raised had drawn a contradicting
      identity for the next attempt of some case. */
  method RunAll(cases: seq<string>, repeat: int, maxAttempts: Option<int>, identity: Fields,
                runOne: (string, nat, nat) -> Draw)
      returns (m: Manifest, end: Ending)
    requires Distinct(cases)
    requires forall name, a, n :: runOne(name, a, n).row.caseName == Str(name)
    ensures end == RepeatTooSmall <==> repeat < 1
    ensures end == MaxAttemptsBelowRepeat <==> repeat >= 1 && maxAttempts.Some? && maxAttempts.value < repeat
    ensures end in {RepeatTooSmall, MaxAttemptsBelowRepeat} ==> m == Manifest([], map[])
    ensures Accepted(repeat, maxAttempts) ==>
              var run := Run(repeat, Attempts(maxAttempts), Envelope(identity), ConditionOf(identity), runOne);
              && m == OutcomeOf(run, cases).m && end == EndingOf(OutcomeOf(run, cases))
              && Sound(m, repeat, run.Limit()) && AllHandedBack(identity, runOne, m.rows)
              && (end == Finished(false) ==> NeverTwice(m.rows))
              && (end == Finished(false) ==>
                    forall name :: name in cases ==>
                      name in m.declared && Completed(Of(m.rows, name), repeat, run.Limit()))
              && (end == IdentityMismatch ==>
                    exists name :: name in cases
                      && !Agrees(identity, runOne(name, |Of(m.rows, name)|, |m.rows|).identity))
    ensures forall name :: name in m.declared ==> name in cases
    ensures UnderCondition(m.rows, ConditionOf(identity))
    ensures end == Finished(true) ==> TwoErrors(m.rows)
  {
    m := Manifest([], map[]);
    if repeat < 1 { return m, RepeatTooSmall; }
    if maxAttempts.Some? && maxAttempts.value < repeat { return m, MaxAttemptsBelowRepeat; }
    var run := Run(repeat, Attempts(maxAttempts), Envelope(identity), ConditionOf(identity), runOne);
    var t := RunCases(run, cases);
    m, end := t.m, EndingOf(t);
    OutcomeHolds(run, cases);
    DrawnMeans(run, identity, m.rows);
    assert cases[..|cases|] == cases;
  }

  /** The parameters run_all takes. */
  predicate Accepted(repeat: int, maxAttempts: Option<int>) {
    repeat >= 1 && (maxAttempts.Some? ==> maxAttempts.value >= repeat)
  }

  function Attempts(maxAttempts: Option<int>): Option<nat> {
    if maxAttempts.Some? && maxAttempts.value >= 0 then Some(maxAttempts.value) else None
  }

  /** The case loop of run_all. */
  method RunCases(run: Run, cases: seq<string>) returns (t: Taken)
    requires run.Valid()
    ensures t == OutcomeOf(run, cases)
  {
    t := NOTHING_YET;
    for i := 0 to |cases|
      invariant t.ended == None && CasesFrom(run, cases, i, t) == OutcomeOf(run, cases)
    {
      t := RunCase(run, cases[i], t.m, t.errors);
      if t.ended.Some? { break; }
    }
  }

  // ----------------------------------------------------------- producer and consumer

  /** Producer meets consumer: with at most three counted draws wanted and at most five
      attempts, every cell of the manifest passes the analysis's protocol checks as declared,
      and its first three counted rows are the ones selected. */
  lemma ProducerMeetsConsumer(m: Manifest, repeat: nat, limit: nat, name: string)
    requires Sound(m, repeat, limit) && name in m.declared
    requires repeat <= 3 && limit <= 5
    ensures var s := SelectDecisionRows(Of(m.rows, name), Int(m.declared[name]));
            && s.reasons == []
            && s.selected == FirstOf(CountedRows(Of(m.rows, name)), 3)
  {
    ConsumerAccepts(Of(m.rows, name));
  }

  /** The first n attempts of a case that always draws the same row. */
  function Copies(row: Row, n: nat): (c: seq<Row>)
    ensures |c| == n && forall i :: 0 <= i < n ==> c[i] == row.(attempt := Int(i))
  {
    if n == 0 then [] else Copies(row, n - 1) + [row.(attempt := Int(n - 1))]
  }

  lemma {:induction false} CopiesOf(row: Row, name: string, n: nat)
    requires row.caseName == Str(name)
    ensures Of(Copies(row, n), name) == Copies(row, n)
    ensures CountedRows(Copies(row, n)) == if Counted(row) then Copies(row, n) else []
  {
    if n > 0 {
      var last := row.(attempt := Int(n - 1));
      CopiesOf(row, name, n - 1);
      OtherCase(Copies(row, n - 1), last, name);
      FilterConcat(Counted, Copies(row, n - 1), [last]);
      assert CountedRows([last]) == if Counted(row) then [last] else [];
    }
  }

  /** Such a cell is refused exactly when it is longer than five attempts, or goes on past
      three counted ones. */
  lemma CopiesAccepted(row: Row, name: string, n: nat)
    requires row.caseName == Str(name)
    ensures SelectDecisionRows(Copies(row, n), Int(n)).reasons == [] <==>
            n <= 5 && (Counted(row) ==> n <= 3)
  {
    var cell := Copies(row, n);
    if n > 5 {
      CompleteRecord(cell, Int(n));
    } else {
      SelectsFirstThree(cell, cell);
      CopiesOf(row, name, n);
    }
  }

  /** The same row for every case and attempt. */
  function Always(row: Row): (string, nat, nat) -> Draw {
    (name: string, attempt: nat, n: nat) => Draw(row.(caseName := Str(name)), map[])
  }

  function Constant(repeat: nat, maxAttempts: Option<nat>, row: Row): Run {
    Run(repeat, maxAttempts, map[], None, Always(row))
  }

  lemma ConstantValid(repeat: nat, maxAttempts: Option<nat>, row: Row)
    requires 1 <= repeat <= LimitOf(repeat, maxAttempts)
    ensures Constant(repeat, maxAttempts, row).Valid()
  {}

  /** A run of one case that always draws the same healthy row collects copies of it until
      the loop has enough. */
  lemma {:induction false} ConstantAttempts(run: Run, row: Row, name: string, attempt: nat, t: Taken)
    requires run == Constant(run.repeat, run.maxAttempts, row) && 1 <= run.repeat <= run.Limit()
    requires row.caseName == Str(name) && !HarnessError(row)
    requires t == Taken(CopiesManifest(row, name, attempt), if Counted(row) then attempt else 0, 0, None)
    requires attempt <= if Counted(row) then run.repeat else run.Limit()
    ensures AttemptsFrom(run, name, attempt, t).m
         == CopiesManifest(row, name, if Counted(row) then run.repeat else run.Limit())
    decreases run.Limit() - attempt
  {
    if attempt < run.Limit() && !run.Enough(t.draws) {
      var draw := NextDraw(run, name, attempt, t.m);
      assert draw == Draw(row, map[]) && !Mismatch(run.envelope, draw);
      assert Stamped(run.condition, draw, attempt) == row.(attempt := Int(attempt));
      ConstantAttempts(run, row, name, attempt + 1, TakeAttempt(run, name, attempt, t));
    }
  }

  function CopiesManifest(row: Row, name: string, n: nat): Manifest {
    Manifest(Copies(row, n), if n == 0 then map[] else map[name := n])
  }

  lemma ConstantRun(run: Run, row: Row, name: string)
    requires run == Constant(run.repeat, run.maxAttempts, row) && 1 <= run.repeat <= run.Limit()
    requires row.caseName == Str(name) && !HarnessError(row)
    ensures OutcomeOf(run, [name]).m == CopiesManifest(row, name, if Counted(row) then run.repeat else run.Limit())
  {
    ConstantAttempts(run, row, name, 0, NOTHING_YET);
    var t := CaseOf(run, name, NOTHING_YET);
    assert CasesFrom(run, [name], 1, t) == t;
    assert OutcomeOf(run, [name]) == t;
  }

  /** The analysis finds no violation in any cell of the manifest. */
  ghost predicate AllAccepted(m: Manifest) {
    forall name :: name in m.declared ==> SelectDecisionRows(Of(m.rows, name), Int(m.declared[name])).reasons == []
  }

  lemma CopiesRefused(row: Row, name: string, n: nat)
    requires row.caseName == Str(name)
    requires n > 5 || (Counted(row) && n > 3)
    ensures !AllAccepted(CopiesManifest(row, name, n))
  {
    var m := CopiesManifest(row, name, n);
    CopiesOf(row, name, n);
    CopiesAccepted(row, name, n);
    assert name in m.declared && Of(m.rows, name) == Copies(row, n) && m.declared[name] == n;
  }

  lemma PlainRow(name: string, counted: bool) returns (row: Row)
    ensures row.caseName == Str(name) && Counted(row) == counted && !HarnessError(row)
  {
    row := Row(Str(name), Null, Null, Bool(counted), Null, Null, Null, Null, Null,
               Null, Null, Null, Null, Null, Null, Null, Null, Null);
  }

  /** What the analysis's protocol allows for. */
  predicate WithinProtocol(repeat: nat, limit: nat) {
    repeat <= 3 && limit <= 5
  }

  /** Parameters outside the protocol let some run collect what the analysis refuses: as many
      counted draws as wanted, or uncounted ones up to the limit. */
  lemma RefusedRun(repeat: nat, maxAttempts: Option<nat>, name: string) returns (run: Run)
    requires 1 <= repeat <= LimitOf(repeat, maxAttempts)
    requires !WithinProtocol(repeat, LimitOf(repeat, maxAttempts))
    ensures run.Valid() && run.repeat == repeat && run.maxAttempts == maxAttempts
    ensures !AllAccepted(OutcomeOf(run, [name]).m)
  {
    var row := PlainRow(name, repeat > 3);
    var n := if Counted(row) then repeat else LimitOf(repeat, maxAttempts);
    run := Constant(repeat, maxAttempts, row);
    ConstantValid(repeat, maxAttempts, row);
    ConstantRun(run, row, name);
    CopiesRefused(row, name, n);
    assert OutcomeOf(run, [name]).m == CopiesManifest(row, name, n);
  }

  /** Every run with these parameters, over whatever cases and draws, is accepted by the
      analysis in every cell. */
  ghost predicate AlwaysAccepted(repeat: nat, maxAttempts: Option<nat>) {
    forall run: Run, cases: seq<string> ::
      run.Valid() && run.repeat == repeat && run.maxAttempts == maxAttempts && Distinct(cases)
      ==> AllAccepted(OutcomeOf(run, cases).m)
  }

  /** The suite loop takes every repeat of at least one and every limit of at least repeat; the
      analysis accepts whatever it then collects exactly when at most three counted draws are
      wanted and at most five attempts are allowed. */
  lemma AcceptedExactly(repeat: nat, maxAttempts: Option<nat>)
    requires 1 <= repeat <= LimitOf(repeat, maxAttempts)
    ensures AlwaysAccepted(repeat, maxAttempts) <==> WithinProtocol(repeat, LimitOf(repeat, maxAttempts))
  {
    if WithinProtocol(repeat, LimitOf(repeat, maxAttempts)) {
      forall run: Run, cases: seq<string> |
        run.Valid() && run.repeat == repeat && run.maxAttempts == maxAttempts && Distinct(cases)
        ensures AllAccepted(OutcomeOf(run, cases).m)
      {
        SoundRunAccepted(run, cases);
      }
    } else {
      var run := RefusedRun(repeat, maxAttempts, "");
      assert Distinct([""]);
    }
  }

  lemma SoundRunAccepted(run: Run, cases: seq<string>)
    requires run.Valid() && Distinct(cases) && WithinProtocol(run.repeat, run.Limit())
    ensures AllAccepted(OutcomeOf(run, cases).m)
  {
    OutcomeHolds(run, cases);
    var m := OutcomeOf(run, cases).m;
    forall name | name in m.declared
      ensures SelectDecisionRows(Of(m.rows, name), Int(m.declared[name])).reasons == []
    {
      ProducerMeetsConsumer(m, run.repeat, run.Limit(), name);
    }
  }

  /** The same on manifests alone: every sound one is accepted in every cell exactly within the
      protocol. */
  lemma SoundAcceptedExactly(repeat: nat, limit: nat)
    requires 1 <= repeat <= limit
    ensures (forall m: Manifest :: Sound(m, repeat, limit) ==> AllAccepted(m)) <==> WithinProtocol(repeat, limit)
  {
    if WithinProtocol(repeat, limit) {
      forall m: Manifest, name | Sound(m, repeat, limit) && name in m.declared
        ensures SelectDecisionRows(Of(m.rows, name), Int(m.declared[name])).reasons == []
      {
        ProducerMeetsConsumer(m, repeat, limit, name);
      }
    } else {
      var run := RefusedRun(repeat, Some(limit), "");
      OutcomeHolds(run, [""]);
    }
  }
}
