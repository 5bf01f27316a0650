/** The controller's record of one run (state.py), and what its flags mean.

    Every flag is a fact about the history of tool calls: `Valid` says which. */
module AgentState {
  import opened Sequences
  import opened Json
  import opened Proofs
  import opened Policy

  datatype HaltCause =
    | BudgetExhausted | RepeatLoop | UnknownTools | ServerUnavailable
    | InferenceStalled | ContextBudgetExhausted | StoppedByUser

  datatype CallVerdict = UnknownCall | Pending | Denied | NotApproved | Auto | Approved

  datatype CallRecord = CallRecord(
    name: string, arguments: Fields, verdict: CallVerdict, ok: Option<bool>, blocked: bool,
    execution: Execution, domain: Domain, evidence: Fields, epoch: nat, proof: ProofKind)

  type History = seq<CallRecord>
  type Registry = map<string, Risk>

  // ------------------------------------------------------------ reading a history

  function ClassifyRecord(r: CallRecord): ProofKind {
    ClassifyProof(r.name, r.arguments, r.execution, r.domain, r.evidence)
  }

  /** The call changed the tree, so what was proved before no longer describes it. */
  predicate Mutates(registry: Registry, r: CallRecord) {
    r.ok == Some(true) && r.name in registry && registry[r.name] in {Write, Dangerous}
  }

  function Mutations(registry: Registry, h: History): nat {
    if h == [] then 0
    else Mutations(registry, h[..|h| - 1]) + if Mutates(registry, h[|h| - 1]) then 1 else 0
  }

  predicate Observed(r: CallRecord) {
    r.name in VERIFYING_TOOLS && r.execution == ExecOk && r.domain != Unknown
  }

  predicate ProvesAt(r: CallRecord, epoch: nat) { r.epoch == epoch && r.proof in CURRENT_TREE_PROOFS }

  predicate Contradicts(r: CallRecord) { r.proof in CONTRADICTS_CURRENT_TREE }

  /** Some call proved the whole tree as it now is, and no later call saw it fail. */
  ghost predicate ProofStands(h: History, epoch: nat) {
    exists i :: 0 <= i < |h| && ProvesAt(h[i], epoch) && forall j :: i < j < |h| ==> !Contradicts(h[j])
  }

  /** The evaluator's own question over the finished history (task_contracts.py). */
  predicate FullBuildPassedAfterEdits(h: History, epoch: nat) {
    exists r :: r in h && ClassifyRecord(r) == FullBuildPass && r.epoch == epoch
  }

  predicate FullTestPassedAfterEdits(h: History, epoch: nat) {
    exists r :: r in h && r.epoch == epoch
                && ClassifyRecord(r) in CURRENT_TREE_PROOFS && ClassifyRecord(r) == FullTestPass
  }

  predicate EvaluatorProved(h: History, epoch: nat) {
    FullBuildPassedAfterEdits(h, epoch) || FullTestPassedAfterEdits(h, epoch)
  }

  /** Rows carry the classification of their own fields, proofs are never from a later
      epoch, and proofs and failures come in epoch order. */
  ghost predicate WellRecorded(h: History, epoch: nat) {
    && (forall i :: 0 <= i < |h| ==> h[i].proof == ClassifyRecord(h[i]))
    && (forall i :: 0 <= i < |h| && h[i].proof != NoCurrentProof ==> h[i].epoch <= epoch)
    && (forall i, j :: 0 <= i < j < |h| && h[i].proof != NoCurrentProof && h[j].proof != NoCurrentProof ==>
          h[i].epoch <= h[j].epoch)
  }

  /** What a call proved, it proved of the tree as the successful changes before it left it. */
  ghost predicate EpochsTell(registry: Registry, h: History) {
    forall i :: 0 <= i < |h| && h[i].proof != NoCurrentProof ==> h[i].epoch == Mutations(registry, h[..i])
  }

  ghost predicate Attempted(h: History) {
    exists i :: 0 <= i < |h| && Observed(h[i])
  }

  // ------------------------------------------------------------ adding one record

  lemma MutationsAppend(registry: Registry, h: History, r: CallRecord)
    ensures Mutations(registry, h + [r]) == Mutations(registry, h) + if Mutates(registry, r) then 1 else 0
  {
    assert (h + [r])[..|h|] == h;
  }

  /** What one more record at the current epoch does to a standing proof. */
  lemma StandsAppend(h: History, r: CallRecord, epoch: nat)
    requires r.proof == NoCurrentProof || r.epoch == epoch
    ensures ProofStands(h + [r], epoch) <==>
              r.proof in CURRENT_TREE_PROOFS || (!Contradicts(r) && ProofStands(h, epoch))
  {
    var h' := h + [r];
    if r.proof in CURRENT_TREE_PROOFS {
      assert ProvesAt(h'[|h|], epoch);
    } else if ProofStands(h, epoch) && !Contradicts(r) {
      var i :| 0 <= i < |h| && ProvesAt(h[i], epoch) && forall j :: i < j < |h| ==> !Contradicts(h[j]);
      assert ProvesAt(h'[i], epoch);
    } else if ProofStands(h', epoch) {
      var i :| 0 <= i < |h'| && ProvesAt(h'[i], epoch) && forall j :: i < j < |h'| ==> !Contradicts(h'[j]);
      assert h'[|h|] == r;
      assert i < |h| && ProvesAt(h[i], epoch);
      forall j | i < j < |h| ensures !Contradicts(h[j]) { assert h'[j] == h[j]; }
    }
  }

  /** In a new epoch nothing is proved yet. */
  lemma NothingStandsAfterMutation(h: History, epoch: nat)
    requires WellRecorded(h, epoch)
    ensures !ProofStands(h, epoch + 1)
  {}

  lemma AttemptedAppend(h: History, r: CallRecord)
    ensures Attempted(h + [r]) <==> Attempted(h) || Observed(r)
  {
    var h' := h + [r];
    assert h'[|h|] == r;
    if Attempted(h) {
      var i :| 0 <= i < |h| && Observed(h[i]);
      assert Observed(h'[i]);
    }
  }

  lemma WellRecordedAppend(h: History, r: CallRecord, epoch: nat, next: nat)
    requires WellRecorded(h, epoch) && epoch <= next && r.proof == ClassifyRecord(r)
    requires r.proof == NoCurrentProof || r.epoch == epoch
    ensures WellRecorded(h + [r], next)
  {}

  lemma EpochsAppend(registry: Registry, h: History, r: CallRecord)
    requires EpochsTell(registry, h)
    requires r.proof == NoCurrentProof || r.epoch == Mutations(registry, h)
    ensures EpochsTell(registry, h + [r])
  {
    var h' := h + [r];
    forall i | 0 <= i < |h'| && h'[i].proof != NoCurrentProof ensures h'[i].epoch == Mutations(registry, h'[..i]) {
      assert h'[..i] == h[..i];
      assert i == |h| ==> h[..i] == h;
    }
  }

  lemma NextEpoch(h: History, epoch: nat)
    requires WellRecorded(h, epoch)
    ensures WellRecorded(h, epoch + 1)
  {}

  /** What the flags of a run say about its history. */
  ghost predicate FlagsTell(registry: Registry, h: History, epoch: nat, verified: bool, attempted: bool) {
    && epoch == Mutations(registry, h)
    && WellRecorded(h, epoch) && EpochsTell(registry, h)
    && (verified <==> ProofStands(h, epoch))
    && (attempted <==> Attempted(h))
  }

  lemma FlagsAfterInert(registry: Registry, h: History, epoch: nat, verified: bool, attempted: bool, r: CallRecord)
    requires FlagsTell(registry, h, epoch, verified, attempted)
    requires r.proof == NoCurrentProof == ClassifyRecord(r) && r.ok != Some(true) && !Observed(r)
    ensures FlagsTell(registry, h + [r], epoch, verified, attempted)
  {
    MutationsAppend(registry, h, r);
    StandsAppend(h, r, epoch);
    AttemptedAppend(h, r);
    WellRecordedAppend(h, r, epoch, epoch);
    EpochsAppend(registry, h, r);
  }

  lemma FlagsAfterResult(registry: Registry, h: History, epoch: nat, verified: bool, attempted: bool, r: CallRecord)
    requires FlagsTell(registry, h, epoch, verified, attempted)
    requires r.epoch == epoch && r.proof == ClassifyRecord(r)
    ensures var proved := r.proof in CURRENT_TREE_PROOFS || (verified && !Contradicts(r));
            if Mutates(registry, r) then FlagsTell(registry, h + [r], epoch + 1, false, attempted || Observed(r))
            else FlagsTell(registry, h + [r], epoch, proved, attempted || Observed(r))
  {
    MutationsAppend(registry, h, r);
    StandsAppend(h, r, epoch);
    AttemptedAppend(h, r);
    WellRecordedAppend(h, r, epoch, epoch);
    EpochsAppend(registry, h, r);
    NextEpoch(h + [r], epoch);
    NothingStandsAfterMutation(h + [r], epoch);
  }

  // --------------------------------------------------------- the evaluator agrees

  lemma EvaluatorReadsProofs(h: History, epoch: nat)
    requires WellRecorded(h, epoch)
    ensures EvaluatorProved(h, epoch) <==> exists i :: 0 <= i < |h| && ProvesAt(h[i], epoch)
  {
    if EvaluatorProved(h, epoch) {
      var r :| r in h && r.epoch == epoch && ClassifyRecord(r) in CURRENT_TREE_PROOFS;
      var i :| 0 <= i < |h| && h[i] == r;
      assert ProvesAt(h[i], epoch);
    }
    if i :| 0 <= i < |h| && ProvesAt(h[i], epoch) {
      assert h[i] in h;
    }
  }

  /** The last thing the tools said about the tree is that it fails. */
  ghost predicate LastVerdictIsFailure(h: History) {
    exists j :: 0 <= j < |h| && Contradicts(h[j]) && forall k :: j < k < |h| ==> h[k].proof !in CURRENT_TREE_PROOFS
  }

  lemma LastProof(h: History, i: nat) returns (k: nat)
    requires i < |h| && h[i].proof in CURRENT_TREE_PROOFS
    ensures i <= k < |h| && h[k].proof in CURRENT_TREE_PROOFS
    ensures forall j :: k < j < |h| ==> h[j].proof !in CURRENT_TREE_PROOFS
    decreases |h| - i
  {
    if j :| i < j < |h| && h[j].proof in CURRENT_TREE_PROOFS {
      k := LastProof(h, j);
    } else {
      k := i;
    }
  }

  lemma ProofWithoutFailureStands(h: History, epoch: nat, i: nat)
    requires WellRecorded(h, epoch) && i < |h| && ProvesAt(h[i], epoch) && !LastVerdictIsFailure(h)
    ensures ProofStands(h, epoch)
  {
    var k := LastProof(h, i);
    assert h[k].epoch == epoch by { assert i < k ==> h[i].epoch <= h[k].epoch; }
    assert ProvesAt(h[k], epoch);
    forall j | k < j < |h| ensures !Contradicts(h[j]) {}
  }

  lemma StandingProofIsLast(h: History, epoch: nat)
    requires ProofStands(h, epoch)
    ensures !LastVerdictIsFailure(h)
  {
    var i :| 0 <= i < |h| && ProvesAt(h[i], epoch) && forall j :: i < j < |h| ==> !Contradicts(h[j]);
    forall j | 0 <= j < |h| && Contradicts(h[j]) ensures j < i && h[i].proof in CURRENT_TREE_PROOFS {}
  }

  /** The controller's reading against the evaluator's: a proof stands exactly when the
      evaluator finds one for this epoch and the last verdict on the tree is not a failure. */
  lemma ProofStandsExactly(h: History, epoch: nat)
    requires WellRecorded(h, epoch)
    ensures ProofStands(h, epoch) <==> EvaluatorProved(h, epoch) && !LastVerdictIsFailure(h)
  {
    EvaluatorReadsProofs(h, epoch);
    if EvaluatorProved(h, epoch) && !LastVerdictIsFailure(h) {
      var i :| 0 <= i < |h| && ProvesAt(h[i], epoch);
      ProofWithoutFailureStands(h, epoch, i);
    }
    if ProofStands(h, epoch) { StandingProofIsLast(h, epoch); }
  }

  // ----------------------------------------------- the flags in terms of the calls

  /** The call passed the whole tree: an untargeted build, or a test run that left nothing out,
      ran at least one test and tested what is there. */
  predicate PassedWholeTree(r: CallRecord) {
    && r.execution == ExecOk && r.domain == Pass
    && ( || (r.name == "build_target" && "target" !in r.arguments)
         || ( && r.name == "run_test"
              && !Truthy(Get(r.arguments, "name_filter")) && !Truthy(Get(r.arguments, "rerun_failed"))
              && !( && Get(r.evidence, "totals").Dict? && "total" in Get(r.evidence, "totals").fields
                    && !Truthy(Get(r.evidence, "totals").fields["total"]))
              && !Truthy(Get(r.evidence, "stale_sources")) && !Truthy(Get(r.evidence, "profile_mismatch"))
              && !Truthy(Get(r.evidence, "build_profile_mismatch")) && !Truthy(Get(r.evidence, "no_build_record"))))
  }

  /** The call ran a build or test, of any breadth, that failed. */
  predicate SawFailure(r: CallRecord) {
    (r.name == "build_target" || r.name == "run_test") && r.execution == ExecOk && r.domain == Fail
  }

  /** The call ran a build or test that passed or failed. */
  predicate SawVerdict(r: CallRecord) {
    && (r.name == "build_target" || r.name == "run_test") && r.execution == ExecOk
    && (r.domain == Pass || r.domain == Fail)
  }

  /** The call succeeded with a tool registered as one that writes or is dangerous. */
  predicate ChangedTree(registry: Registry, r: CallRecord) {
    && r.ok == Some(true) && r.name in registry
    && (registry[r.name] == Write || registry[r.name] == Dangerous)
  }

  /** Call i passed the whole tree, no later call saw a build or test fail, and neither it nor
      any later call changed the tree. */
  ghost predicate PassedAt(registry: Registry, h: History, i: nat)
    requires i < |h|
  {
    && PassedWholeTree(h[i])
    && (forall j :: i < j < |h| ==> !SawFailure(h[j]))
    && (forall j :: i <= j < |h| ==> !ChangedTree(registry, h[j]))
  }

  /** Some call passed the tree as it now stands. */
  ghost predicate PassedAsItStands(registry: Registry, h: History) {
    exists i: nat :: i < |h| && PassedAt(registry, h, i)
  }

  lemma RowMeans(r: CallRecord)
    requires r.proof == ClassifyRecord(r)
    ensures r.proof in CURRENT_TREE_PROOFS <==> PassedWholeTree(r)
    ensures Contradicts(r) <==> SawFailure(r)
    ensures Observed(r) <==> SawVerdict(r)
  {
    CurrentTreeProofExactly(r.name, r.arguments, r.execution, r.domain, r.evidence);
    ContradictionExactly(r.name, r.arguments, r.execution, r.domain, r.evidence);
  }

  /** The epoch has stayed the same since position i exactly when no call since changed the tree. */
  lemma {:induction false} SameEpochSince(registry: Registry, h: History, i: nat)
    requires i <= |h|
    ensures Mutations(registry, h[..i]) <= Mutations(registry, h)
    ensures Mutations(registry, h[..i]) == Mutations(registry, h)
       <==> forall j :: i <= j < |h| ==> !ChangedTree(registry, h[j])
  {
    if i == |h| {
      assert h[..i] == h;
    } else {
      var rest := h[..|h| - 1];
      assert rest[..i] == h[..i];
      SameEpochSince(registry, rest, i);
      assert Mutates(registry, h[|h| - 1]) <==> ChangedTree(registry, h[|h| - 1]);
    }
  }

  /** Call i gives a standing proof. */
  ghost predicate StandsFrom(h: History, epoch: nat, i: nat)
    requires i < |h|
  {
    ProvesAt(h[i], epoch) && forall j :: i < j < |h| ==> !Contradicts(h[j])
  }

  lemma StandsFromMeans(registry: Registry, h: History, epoch: nat, i: nat)
    requires epoch == Mutations(registry, h) && WellRecorded(h, epoch) && EpochsTell(registry, h) && i < |h|
    ensures StandsFrom(h, epoch, i) <==> PassedAt(registry, h, i)
  {
    RowMeans(h[i]);
    SameEpochSince(registry, h, i);
    forall j | i < j < |h| ensures Contradicts(h[j]) <==> SawFailure(h[j]) { RowMeans(h[j]); }
  }

  /** What `verified` means in terms of the calls themselves: a pass over the whole tree, no
      failing build or test since, and no change of the tree since. */
  lemma VerifiedByCalls(registry: Registry, h: History, epoch: nat, verified: bool, attempted: bool)
    requires FlagsTell(registry, h, epoch, verified, attempted)
    ensures verified <==> PassedAsItStands(registry, h)
  {
    forall i: nat | i < |h| ensures StandsFrom(h, epoch, i) <==> PassedAt(registry, h, i) {
      StandsFromMeans(registry, h, epoch, i);
    }
    if verified {
      var i :| 0 <= i < |h| && ProvesAt(h[i], epoch) && forall j :: i < j < |h| ==> !Contradicts(h[j]);
      assert StandsFrom(h, epoch, i);
    }
    if i: nat :| i < |h| && PassedAt(registry, h, i) {
      assert StandsFrom(h, epoch, i);
    }
  }

  /** `verificationAttempted`: some build or test gave a verdict. */
  lemma AttemptedByCalls(registry: Registry, h: History, epoch: nat, verified: bool, attempted: bool)
    requires FlagsTell(registry, h, epoch, verified, attempted)
    ensures attempted <==> exists i :: 0 <= i < |h| && SawVerdict(h[i])
  {
    forall i | 0 <= i < |h| ensures Observed(h[i]) <==> SawVerdict(h[i]) { RowMeans(h[i]); }
  }

  /** An applied patch withdraws every proof before it: only a new pass over the whole tree can
      set the flag again. */
  lemma PatchWithdraws(registry: Registry, h: History, epoch: nat, verified: bool, attempted: bool, k: nat)
    requires FlagsTell(registry, h, epoch, verified, attempted) && k < |h|
    requires h[k].name == "apply_patch" && h[k].ok == Some(true)
    requires "apply_patch" in registry && registry["apply_patch"] in {Write, Dangerous}
    requires forall j :: k < j < |h| ==> !PassedWholeTree(h[j])
    ensures !verified
  {
    VerifiedByCalls(registry, h, epoch, verified, attempted);
    forall i: nat | i < |h| && PassedAt(registry, h, i) ensures false {
      assert i <= k ==> ChangedTree(registry, h[k]);
    }
  }

  /** A full build that passed, then a suite that failed on the same tree: the evaluator's
      full-build check is satisfied, the controller's flag is not. */
  lemma EvaluatorDisagrees()
    ensures var build := CallRecord(
              "build_target", map[], Auto, Some(true), false, ExecOk, Pass, map[], 0, FullBuildPass);
            var test := CallRecord(
              "run_test", map[], Auto, Some(false), false, ExecOk, Fail, map[], 0, ObservedTestFail);
            WellRecorded([build, test], 0) && EvaluatorProved([build, test], 0) && !ProofStands([build, test], 0)
  {
    var build := CallRecord("build_target", map[], Auto, Some(true), false, ExecOk, Pass, map[], 0, FullBuildPass);
    var test := CallRecord("run_test", map[], Auto, Some(false), false, ExecOk, Fail, map[], 0, ObservedTestFail);
    assert build in [build, test];
    assert Contradicts([build, test][1]);
  }

  // -------------------------------------------------------------------- the state

  class State {
    var toolset: seq<string>
    var toolCalls: nat
    var history: History
    var verified: bool
    var verificationAttempted: bool
    var halt: Option<HaltCause>
    var claim: Option<string>
    var mutationEpoch: nat

    /** Each flag is exactly what the history says. */
    ghost predicate Valid(registry: Registry)
      reads this
    {
      toolCalls == |history| && FlagsTell(registry, history, mutationEpoch, verified, verificationAttempted)
    }

    /** The flags in terms of the calls on record. */
    lemma ReadFlags(registry: Registry)
      requires Valid(registry)
      ensures verified <==> PassedAsItStands(registry, history)
      ensures verificationAttempted <==> exists i :: 0 <= i < |history| && SawVerdict(history[i])
    {
      VerifiedByCalls(registry, history, mutationEpoch, verified, verificationAttempted);
      AttemptedByCalls(registry, history, mutationEpoch, verified, verificationAttempted);
    }

    constructor (toolset: seq<string>, ghost registry: Registry)
      ensures Valid(registry) && history == [] && halt == None && claim == None && this.toolset == toolset
    {
      this.toolset := toolset;
      toolCalls, history, verified, verificationAttempted := 0, [], false, false;
      halt, claim, mutationEpoch := None, None, 0;
    }

    method Record(r: CallRecord)
      modifies this`history, this`toolCalls
      ensures history == old(history) + [r] && toolCalls == old(toolCalls) + 1
    {
      history, toolCalls := history + [r], toolCalls + 1;
    }

    method Halt(cause: HaltCause)
      modifies this`halt
      ensures halt == Some(cause)
    {
      halt := Some(cause);
    }

    method NoteMutation()
      modifies this`mutationEpoch, this`verified
      ensures mutationEpoch == old(mutationEpoch) + 1 && !verified
    {
      mutationEpoch, verified := mutationEpoch + 1, false;
    }

    /** A call that never reached its handler: it counts, and proves nothing. */
    method RecordInert(r: CallRecord, ghost registry: Registry)
      requires Valid(registry) && r.proof == NoCurrentProof == ClassifyRecord(r)
      requires r.ok != Some(true) && !Observed(r)
      modifies this`history, this`toolCalls
      ensures Valid(registry) && history == old(history) + [r]
    {
      FlagsAfterInert(registry, history, mutationEpoch, verified, verificationAttempted, r);
      Record(r);
    }

    /** A current proof is set by a whole pass and taken back by any observed failure. */
    method NoteProof(r: CallRecord)
      modifies this`verified, this`verificationAttempted
      ensures verificationAttempted == (old(verificationAttempted) || Observed(r))
      ensures verified == (r.proof in CURRENT_TREE_PROOFS || (old(verified) && !Contradicts(r)))
    {
      if Observed(r) {
        verificationAttempted := true;
      }
      if r.proof in CURRENT_TREE_PROOFS {
        verified := true;
      }
      if r.proof in CONTRADICTS_CURRENT_TREE {
        verified := false;
      }
    }

    /** A call whose handler returned: record it, then update the flags from its proof kind
        and from whether it changed the tree. */
    method RecordResult(r: CallRecord, registry: Registry)
      requires Valid(registry) && r.epoch == mutationEpoch && r.proof == ClassifyRecord(r)
      modifies this`history, this`toolCalls, this`verified, this`verificationAttempted, this`mutationEpoch
      ensures Valid(registry) && history == old(history) + [r]
    {
      FlagsAfterResult(registry, history, mutationEpoch, verified, verificationAttempted, r);
      Record(r);
      NoteProof(r);
      if Mutates(registry, r) {
        NoteMutation();
      }
    }

    /** Identical calls against the same repository state. */
    function RepeatCount(name: string, arguments: Fields): nat
      reads this
    {
      Repeats(history, name, arguments, mutationEpoch)
    }
  }

  function Repeats(h: History, name: string, arguments: Fields, epoch: nat): nat {
    if h == [] then 0
    else
      var last := h[|h| - 1];
      Repeats(h[..|h| - 1], name, arguments, epoch)
        + if last.name == name && last.arguments == arguments && last.epoch == epoch then 1 else 0
  }

  function UnknownCalls(h: History): nat {
    if h == [] then 0 else UnknownCalls(h[..|h| - 1]) + if h[|h| - 1].verdict == UnknownCall then 1 else 0
  }
}
