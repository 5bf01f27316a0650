/** Decisions of a task and of a condition (endpoints.py, analyse). */
module Analysis {
  import opened Draws
  import opened Endpoints
  import opened Json
  import opened Sequences

  const CHEAP_TIER_ENGINEERING_TASKS := 7
  const DIAGNOSTIC_MIN_TASKS := 3

  const DIAGNOSTIC_CASES := {"compile-error-locate", "compile-error-fix", "test-failure-diagnose", "segfault"}

  /** Attempt counts as the run manifests declare them. */
  type Declarations = map<(string, string), Json>

  function DeclaredFor(declared: Declarations, condition: string, case_: string): Json {
    if (condition, case_) in declared then declared[(condition, case_)] else Null
  }

  /** The rows of one case under one condition. */
  function Cell(rows: seq<Row>, condition: string, case_: string): seq<Row> {
    Filter((r: Row) => r.caseName == Str(case_) && r.condition == Str(condition), rows)
  }

  datatype TaskResult = TaskResult(
    engineeringCorrect: Tally, contractCompliant: Tally, verifiedCompletion: Tally,
    selected: seq<Row>, violation: bool)

  function Judge(contracts: Contracts, selection: Selection): TaskResult {
    TaskResult(
      Majority(Map((r: Row) => EngineeringCorrect(contracts, r), selection.selected)),
      Majority(Map((r: Row) => ContractCompliant(contracts, r), selection.selected)),
      Majority(Map((r: Row) => VerifiedCompletion(contracts, r), selection.selected)),
      selection.selected, selection.reasons != [])
  }

  function TaskOf(contracts: Contracts, rows: seq<Row>, declared: Declarations, condition: string,
                  case_: string): TaskResult {
    Judge(contracts, SelectDecisionRows(Cell(rows, condition, case_), DeclaredFor(declared, condition, case_)))
  }

  /** The rows of one case under one condition, each as often as in the table. */
  lemma CellExactly(rows: seq<Row>, condition: string, case_: string, row: Row)
    ensures multiset(Cell(rows, condition, case_))[row]
         == if row.caseName == Str(case_) && row.condition == Str(condition) then multiset(rows)[row] else 0
  {
    FilterCount((r: Row) => r.caseName == Str(case_) && r.condition == Str(condition), rows, row);
  }

  /** What an endpoint says of three rows. */
  function Said(e: Row -> Option<bool>, rows: seq<Row>): seq<Option<bool>>
    requires |rows| == 3
  {
    [e(rows[0]), e(rows[1]), e(rows[2])]
  }

  lemma ThreeMapped(e: Row -> Option<bool>, rows: seq<Row>)
    requires |rows| == 3
    ensures Map(e, rows) == Said(e, rows)
  {}

  /** Each of the three decisions is its own endpoint's, by two of three known values. */
  lemma DecidedBy(contracts: Contracts, rows: seq<Row>, declared: Declarations, condition: string, case_: string)
    ensures var t := TaskOf(contracts, rows, declared, condition, case_);
            var e1 := (r: Row) => EngineeringCorrect(contracts, r);
            var e2 := (r: Row) => ContractCompliant(contracts, r);
            var e3 := (r: Row) => VerifiedCompletion(contracts, r);
            && (t.engineeringCorrect.decision == Pass <==> |t.selected| == 3 && TwoOfThree(Said(e1, t.selected), true))
            && (t.engineeringCorrect.decision == Fail <==> |t.selected| == 3 && TwoOfThree(Said(e1, t.selected), false))
            && (t.contractCompliant.decision == Pass <==> |t.selected| == 3 && TwoOfThree(Said(e2, t.selected), true))
            && (t.contractCompliant.decision == Fail <==> |t.selected| == 3 && TwoOfThree(Said(e2, t.selected), false))
            && (t.verifiedCompletion.decision == Pass <==> |t.selected| == 3 && TwoOfThree(Said(e3, t.selected), true))
            && (t.verifiedCompletion.decision == Fail <==> |t.selected| == 3 && TwoOfThree(Said(e3, t.selected), false))
  {
    var selected := SelectDecisionRows(Cell(rows, condition, case_), DeclaredFor(declared, condition, case_)).selected;
    MajorityOf((r: Row) => EngineeringCorrect(contracts, r), selected);
    MajorityOf((r: Row) => ContractCompliant(contracts, r), selected);
    MajorityOf((r: Row) => VerifiedCompletion(contracts, r), selected);
  }

  lemma MajorityOf(e: Row -> Option<bool>, rows: seq<Row>)
    ensures Majority(Map(e, rows)).decision == Pass <==> |rows| == 3 && TwoOfThree(Said(e, rows), true)
    ensures Majority(Map(e, rows)).decision == Fail <==> |rows| == 3 && TwoOfThree(Said(e, rows), false)
  {
    MajorityExactly(Map(e, rows));
    if |rows| == 3 { ThreeMapped(e, rows); }
  }

  /** A task broke the protocol exactly when its record of attempts is not complete, or collection
      went on after the third counted row. */
  lemma ViolationExactly(contracts: Contracts, rows: seq<Row>, declared: Declarations, condition: string,
                         case_: string)
    ensures var t, cell := TaskOf(contracts, rows, declared, condition, case_), Cell(rows, condition, case_);
            var ordered, d := SortByAttempt(cell), DeclaredFor(declared, condition, case_);
            t.violation <==>
              || !(d.Int? && 0 <= d.n <= 5 && Numbered(ordered) && |cell| == d.n)
              || (|CountedRows(ordered)| >= 3 && CountedRows(ordered)[2] != ordered[|ordered| - 1])
  {
    var cell, d := Cell(rows, condition, case_), DeclaredFor(declared, condition, case_);
    CompleteRecord(cell, d);
    SortHolds(cell);
    PermutationFacts(SortByAttempt(cell), cell);
    if Integrity(cell, d) == [] { SelectsFirstThree(SortByAttempt(cell), cell); }
  }

  /** Everything decided about a task is independent of the order the rows come in. */
  lemma TaskIgnoresOrder(contracts: Contracts, a: seq<Row>, b: seq<Row>, declared: Declarations,
                         condition: string, case_: string)
    requires multiset(a) == multiset(b)
    ensures TaskOf(contracts, a, declared, condition, case_) == TaskOf(contracts, b, declared, condition, case_)
  {
    FilterPermutation((r: Row) => r.caseName == Str(case_) && r.condition == Str(condition), a, b);
    OrderDoesNotMatter(Cell(a, condition, case_), Cell(b, condition, case_), DeclaredFor(declared, condition, case_));
  }

  /** A task whose verified completion passes also passes on engineering and on compliance. */
  lemma VerifiedTaskPassesBoth(contracts: Contracts, rows: seq<Row>, declared: Declarations, condition: string,
                               case_: string)
    requires TaskOf(contracts, rows, declared, condition, case_).verifiedCompletion.decision == Pass
    ensures TaskOf(contracts, rows, declared, condition, case_).engineeringCorrect.decision == Pass
    ensures TaskOf(contracts, rows, declared, condition, case_).contractCompliant.decision == Pass
  {
    var selected := SelectDecisionRows(Cell(rows, condition, case_), DeclaredFor(declared, condition, case_)).selected;
    VerifiedMajorityImpliesBoth(contracts, selected);
  }

  /** A decided task rests on a complete record of attempts and on three counted rows, all of
      this case and condition. */
  lemma DecisionsRestOnThree(contracts: Contracts, rows: seq<Row>, declared: Declarations, condition: string,
                             case_: string)
    requires TaskOf(contracts, rows, declared, condition, case_).engineeringCorrect.decision != Indeterminate
    ensures var t := TaskOf(contracts, rows, declared, condition, case_);
            && |t.selected| == 3
            && (forall row :: row in t.selected ==>
                  row in rows && Counted(row) && row.caseName == Str(case_) && row.condition == Str(condition))
            && Integrity(Cell(rows, condition, case_), DeclaredFor(declared, condition, case_)) == []
  {
    var cell, d := Cell(rows, condition, case_), DeclaredFor(declared, condition, case_);
    var selected := SelectDecisionRows(cell, d).selected;
    CompleteRecord(cell, d);
    SortHolds(cell);
    PermutationFacts(SortByAttempt(cell), cell);
    forall row | row in selected ensures row in cell && Counted(row) {
      FilterMembers(Counted, FirstOf(Ordered(cell), MAX_ATTEMPTS_PER_TASK_CONDITION), row);
    }
    forall row | row in cell ensures row in rows && row.caseName == Str(case_) && row.condition == Str(condition) {
      FilterMembers((r: Row) => r.caseName == Str(case_) && r.condition == Str(condition), rows, row);
    }
  }

  // --------------------------------------------------------------- one condition

  predicate Decided(t: TaskResult) { t.engineeringCorrect.decision != Indeterminate && !t.violation }

  function Count<T>(p: T -> bool, s: seq<T>): (n: nat)
    ensures n <= |s|
  {
    if s == [] then 0 else Count(p, s[..|s| - 1]) + if p(s[|s| - 1]) then 1 else 0
  }

  predicate Passed(t: TaskResult) { t.engineeringCorrect.decision == Pass }

  predicate InScope(t: TaskResult) { forall row :: row in t.selected ==> !Truthy(row.scopeViolation) }

  /** Passes among the diagnostic cases. */
  function DiagnosticPasses(cases: seq<string>, tasks: seq<TaskResult>): nat
    requires |cases| == |tasks|
  {
    if cases == [] then 0
    else
      var n := |cases| - 1;
      DiagnosticPasses(cases[..n], tasks[..n]) + if cases[n] in DIAGNOSTIC_CASES && Passed(tasks[n]) then 1 else 0
  }

  /** Whether the condition is a candidate for the cheap tier: unknown unless every task is
      decided and no task violated the protocol. */
  function Candidate(cases: seq<string>, tasks: seq<TaskResult>): Option<bool>
    requires |cases| == |tasks|
  {
    if exists t :: t in tasks && !Decided(t) then None
    else Some(Count(Passed, tasks) >= CHEAP_TIER_ENGINEERING_TASKS
              && DiagnosticPasses(cases, tasks) >= DIAGNOSTIC_MIN_TASKS
              && forall t :: t in tasks ==> InScope(t))
  }

  /** The tasks that pass on engineering correctness. */
  function Passing(tasks: seq<TaskResult>): set<nat> {
    set i: nat | i < |tasks| && tasks[i].engineeringCorrect.decision == Pass
  }

  /** Those of them that are diagnostic. */
  function PassingDiagnostics(cases: seq<string>, tasks: seq<TaskResult>): set<nat>
    requires |cases| == |tasks|
  {
    set i: nat | i < |tasks| && tasks[i].engineeringCorrect.decision == Pass
                 && cases[i] in {"compile-error-locate", "compile-error-fix", "test-failure-diagnose", "segfault"}
  }

  lemma {:induction false} PassingCount(tasks: seq<TaskResult>)
    ensures Count(Passed, tasks) == |Passing(tasks)|
  {
    if tasks == [] {
      assert Passing(tasks) == {};
    } else {
      var n := |tasks| - 1;
      PassingCount(tasks[..n]);
      var rest := Passing(tasks[..n]);
      assert Passing(tasks) == if Passed(tasks[n]) then rest + {n} else rest;
    }
  }

  lemma {:induction false} DiagnosticsCount(cases: seq<string>, tasks: seq<TaskResult>)
    requires |cases| == |tasks|
    ensures DiagnosticPasses(cases, tasks) == |PassingDiagnostics(cases, tasks)|
  {
    if tasks == [] {
      assert PassingDiagnostics(cases, tasks) == {};
    } else {
      var n := |tasks| - 1;
      DiagnosticsCount(cases[..n], tasks[..n]);
      var rest, all := PassingDiagnostics(cases[..n], tasks[..n]), PassingDiagnostics(cases, tasks);
      assert forall i :: 0 <= i < n ==> (i in rest <==> i in all);
      assert all == if cases[n] in DIAGNOSTIC_CASES && Passed(tasks[n]) then rest + {n} else rest;
    }
  }

  /** Whether a condition is a candidate: unknown exactly when some task is undecided on
      engineering correctness or broke the protocol; and then, if at least seven tasks pass,
      three of them diagnostic, and no selected row went out of scope. */
  lemma CandidateExactly(cases: seq<string>, tasks: seq<TaskResult>)
    requires |cases| == |tasks|
    ensures Candidate(cases, tasks) == None
       <==> exists i :: 0 <= i < |tasks|
                        && (tasks[i].engineeringCorrect.decision == Indeterminate || tasks[i].violation)
    ensures Candidate(cases, tasks) == Some(true)
       <==> && (forall i :: 0 <= i < |tasks| ==>
                  tasks[i].engineeringCorrect.decision != Indeterminate && !tasks[i].violation)
            && |Passing(tasks)| >= 7 && |PassingDiagnostics(cases, tasks)| >= 3
            && (forall i, row :: 0 <= i < |tasks| && row in tasks[i].selected ==> !Truthy(row.scopeViolation))
  {
    PassingCount(tasks);
    DiagnosticsCount(cases, tasks);
    DecidedByIndex(tasks);
    ScopeByIndex(tasks);
  }

  lemma ScopeByIndex(tasks: seq<TaskResult>)
    ensures (forall t :: t in tasks ==> InScope(t))
       <==> forall i, row :: 0 <= i < |tasks| && row in tasks[i].selected ==> !Truthy(row.scopeViolation)
  {
    if forall t :: t in tasks ==> InScope(t) {
      forall i, row | 0 <= i < |tasks| && row in tasks[i].selected ensures !Truthy(row.scopeViolation) {
        assert tasks[i] in tasks;
      }
    }
    if forall i, row :: 0 <= i < |tasks| && row in tasks[i].selected ==> !Truthy(row.scopeViolation) {
      forall t | t in tasks ensures InScope(t) {
        var i :| 0 <= i < |tasks| && tasks[i] == t;
        assert forall row :: row in tasks[i].selected ==> !Truthy(row.scopeViolation);
      }
    }
  }

  lemma DecidedByIndex(tasks: seq<TaskResult>)
    ensures (exists t :: t in tasks && !Decided(t))
       <==> exists i :: 0 <= i < |tasks|
                        && (tasks[i].engineeringCorrect.decision == Indeterminate || tasks[i].violation)
  {
    if t :| t in tasks && !Decided(t) {
      var i :| 0 <= i < |tasks| && tasks[i] == t;
      assert tasks[i].engineeringCorrect.decision == Indeterminate || tasks[i].violation;
    }
    forall i | 0 <= i < |tasks| && (tasks[i].engineeringCorrect.decision == Indeterminate || tasks[i].violation)
      ensures exists t :: t in tasks && !Decided(t)
    {
      assert tasks[i] in tasks && !Decided(tasks[i]);
    }
  }

  /** analyse, for one condition. */
  method AnalyseCondition(contracts: Contracts, cases: seq<string>, rows: seq<Row>, declared: Declarations,
                          condition: string)
      returns (tasks: seq<TaskResult>, candidate: Option<bool>)
    ensures tasks == Tasks(contracts, cases, rows, declared, condition)
    ensures candidate == Candidate(cases, tasks)
    ensures candidate == None
       <==> exists i :: 0 <= i < |tasks|
                        && (tasks[i].engineeringCorrect.decision == Indeterminate || tasks[i].violation)
    ensures candidate == Some(true) ==> |Passing(tasks)| >= 7 && |PassingDiagnostics(cases, tasks)| >= 3
  {
    tasks := [];
    for i := 0 to |cases|
      invariant tasks == Tasks(contracts, cases[..i], rows, declared, condition)
    {
      NextTask(contracts, cases, rows, declared, condition, i);
      tasks := tasks + [TaskOf(contracts, rows, declared, condition, cases[i])];
    }
    assert cases[..|cases|] == cases;
    candidate := Candidate(cases, tasks);
    CandidateExactly(cases, tasks);
  }

  function Tasks(contracts: Contracts, cases: seq<string>, rows: seq<Row>, declared: Declarations,
                 condition: string): (t: seq<TaskResult>)
    ensures |t| == |cases|
  {
    if cases == [] then []
    else
      var n := |cases| - 1;
      Tasks(contracts, cases[..n], rows, declared, condition) + [TaskOf(contracts, rows, declared, condition, cases[n])]
  }

  lemma NextTask(contracts: Contracts, cases: seq<string>, rows: seq<Row>, declared: Declarations, condition: string,
                 i: nat)
    requires i < |cases|
    ensures Tasks(contracts, cases[..i + 1], rows, declared, condition)
         == Tasks(contracts, cases[..i], rows, declared, condition)
            + [TaskOf(contracts, rows, declared, condition, cases[i])]
  {
    assert cases[..i + 1][..i] == cases[..i];
  }

  lemma {:induction false} TasksAt(contracts: Contracts, cases: seq<string>, rows: seq<Row>, declared: Declarations,
                                   condition: string, i: nat)
    requires i < |cases|
    ensures Tasks(contracts, cases, rows, declared, condition)[i]
         == TaskOf(contracts, rows, declared, condition, cases[i])
  {
    if i < |cases| - 1 { TasksAt(contracts, cases[..|cases| - 1], rows, declared, condition, i); }
  }

  /** The whole verdict on a condition is independent of the order of the rows. */
  lemma {:induction false} ConditionIgnoresOrder(contracts: Contracts, cases: seq<string>, a: seq<Row>, b: seq<Row>,
                                                 declared: Declarations, condition: string)
    requires multiset(a) == multiset(b)
    ensures Tasks(contracts, cases, a, declared, condition) == Tasks(contracts, cases, b, declared, condition)
  {
    if cases != [] {
      ConditionIgnoresOrder(contracts, cases[..|cases| - 1], a, b, declared, condition);
      TaskIgnoresOrder(contracts, a, b, declared, condition, cases[|cases| - 1]);
    }
  }

  /** A condition that is judged at all, either way, had every one of its tasks judged on
      three counted rows of a complete record, none collected too many. */
  lemma JudgedOnCompleteRecords(contracts: Contracts, cases: seq<string>, rows: seq<Row>, declared: Declarations,
                                condition: string, i: nat)
    requires i < |cases| && Candidate(cases, Tasks(contracts, cases, rows, declared, condition)).Some?
    ensures var t := TaskOf(contracts, rows, declared, condition, cases[i]);
            && |t.selected| == 3 && !t.violation
            && (forall row :: row in t.selected ==> row in rows && Counted(row) && row.caseName == Str(cases[i]))
  {
    var tasks := Tasks(contracts, cases, rows, declared, condition);
    TasksAt(contracts, cases, rows, declared, condition, i);
    assert tasks[i] in tasks && Decided(tasks[i]);
    DecisionsRestOnThree(contracts, rows, declared, condition, cases[i]);
  }
}
