/** A whole task: the cheap attempt, the decision to escalate, the rollback and the strong
    attempt, and the outcome that is counted (orchestrator.py, outcome.py). */
module Escalation {
  import opened Sequences
  import opened Policy
  import opened AgentState
  import opened Context
  import opened Workspace
  import opened Orchestrator
  import opened PythonText
  import Journal

  /** The environment, rather than the model, stopped the run. */
  predicate BlockedByEnvironment(halt: Option<HaltCause>, h: History, attempted: bool, verificationRequired: bool) {
    || (halt.Some? && halt.value in {ServerUnavailable, InferenceStalled, StoppedByUser})
    || ((exists r :: r in h && r.blocked) && verificationRequired && !attempted)
  }

  datatype FailureReason = Halted(cause: HaltCause) | NoAnswer | UnbackedSuccess | NothingWasRun

  /** Why an attempt did not succeed; None if it did. */
  function FailureOf(halt: Option<HaltCause>, answer: string, claim: Option<string>, verified: bool, attempted: bool,
                     verificationRequired: bool): Option<FailureReason> {
    if halt.Some? then Some(Halted(halt.value))
    else if Blank(answer) then Some(NoAnswer)
    else if verificationRequired && claim == Some("success") && !verified then Some(UnbackedSuccess)
    else if verificationRequired && !attempted then Some(NothingWasRun)
    else None
  }

  predicate BlockedRun(state: State, verificationRequired: bool)
    reads state
  {
    BlockedByEnvironment(state.halt, state.history, state.verificationAttempted, verificationRequired)
  }

  function FailureOfRun(state: State, answer: string, verificationRequired: bool): Option<FailureReason>
    reads state
  {
    FailureOf(state.halt, answer, state.claim, state.verified, state.verificationAttempted, verificationRequired)
  }

  /** What a run that counts as a success has behind it. */
  ghost predicate Backed(state: State, answer: string, verificationRequired: bool)
    reads state
  {
    && state.halt == None && !Blank(answer)
    && (verificationRequired ==> Attempted(state.history))
    && (verificationRequired && state.claim == Some("success") ==>
          ProofStands(state.history, state.mutationEpoch) && EvaluatorProved(state.history, state.mutationEpoch))
  }

  lemma SuccessIsBacked(state: State, registry: Registry, answer: string, verificationRequired: bool)
    requires state.Valid(registry) && FailureOfRun(state, answer, verificationRequired) == None
    ensures Backed(state, answer, verificationRequired)
  {
    ProofStandsExactly(state.history, state.mutationEpoch);
  }

  /** The operator stays in control: what is switched off did not happen, every call was allowed,
      approved or refused as policy says for such an attempt, and every change of the tree was
      approved when it was asked for. */
  ghost predicate UnderControl(o: Orchestrator, env: Env, speculative: bool, state: State, files: Journal.Files,
                               changes: nat)
    reads state, o.space, o.space.tree
  {
    && (NoPatching(o.policy, o.registry) ==> o.space.tree.files == files)
    && (NoCommitting(o.policy, o.registry) ==> o.space.historyChanges == changes)
    && Witnessed(env, state.history)
    && (forall r :: r in state.history ==> Permitted(o.policy, o.registry, r, speculative))
    && forall i :: 0 <= i < |state.history| && ChangedTree(o.registry, state.history[i]) ==> env.approvals(i)
  }

  lemma AnsweringIsControl(o: Orchestrator, state: State, env: Env, speculative: bool, base: Baseline)
    requires o.Answers(state, env, speculative, base)
    ensures UnderControl(o, env, speculative, state, base.files, base.historyChanges)
  {
    var now, h := Baseline(o.space.tree.files, o.space.historyChanges), state.history;
    SwitchesHold(o.policy, o.registry, speculative, h, base, now);
    forall i | 0 <= i < |h| && ChangedTree(o.registry, h[i]) ensures env.approvals(i) {
      assert h[i] in h && WitnessedRow(env, i, h[i]);
      MutationsApproved(o.policy, o.registry, speculative, h, base, now, h[i]);
    }
  }

  /** The user stopped it, or the server stalled or was gone. */
  predicate StoppedFromOutside(e: Ending) {
    || e.last == Some(TransportError(StopRequested))
    || e.last == Some(TransportError(Stalled))
    || e.last == Some(TransportError(Unavailable))
  }

  /** The model used up a budget, repeated itself or asked for tools that are not there. */
  predicate StoppedByItself(e: Ending) {
    || e.halt == Some(BudgetExhausted) || e.halt == Some(ContextBudgetExhausted)
    || e.halt == Some(RepeatLoop) || e.halt == Some(UnknownTools)
    || e.last == Some(TransportError(Overflow))
  }

  predicate SomeCallBlocked(e: Ending) { exists i :: 0 <= i < |e.calls| && e.calls[i].blocked }

  predicate SomeVerdictSeen(e: Ending) { exists i :: 0 <= i < |e.calls| && SawVerdict(e.calls[i]) }

  /** Some call was blocked, and no build or test ever gave the verdict that was asked for. */
  predicate KeptFromVerifying(e: Ending, verificationRequired: bool) {
    verificationRequired && SomeCallBlocked(e) && !SomeVerdictSeen(e)
  }

  /** It ran to an answer; where verification was asked for, a build or test gave a verdict, and
      a claim of success has a pass of the whole tree as it stands behind it. */
  ghost predicate Delivered(e: Ending, registry: Registry, verificationRequired: bool) {
    && e.halt == None && !Blank(e.answer)
    && (verificationRequired ==> SomeVerdictSeen(e))
    && (verificationRequired && e.claim == Some("success") ==> PassedAsItStands(registry, e.calls))
  }

  /** The three places where a halt comes from outside are the three the code tests for. */
  lemma BlockedMeans(e: Ending, attempted: bool, verificationRequired: bool, most: nat, limit: nat)
    requires EndTells(e, most, limit) && (attempted <==> SomeVerdictSeen(e))
    ensures BlockedByEnvironment(e.halt, e.calls, attempted, verificationRequired)
       <==> StoppedFromOutside(e) || KeptFromVerifying(e, verificationRequired)
  {
    if r :| r in e.calls && r.blocked {
      var i :| 0 <= i < |e.calls| && e.calls[i] == r;
      assert e.calls[i].blocked;
    }
    if i :| 0 <= i < |e.calls| && e.calls[i].blocked {
      assert e.calls[i] in e.calls;
    }
  }

  lemma DeliveredMeans(e: Ending, registry: Registry, verified: bool, attempted: bool, verificationRequired: bool)
    requires (attempted <==> SomeVerdictSeen(e)) && (verified <==> PassedAsItStands(registry, e.calls))
    ensures FailureOf(e.halt, e.answer, e.claim, verified, attempted, verificationRequired) == None
       <==> Delivered(e, registry, verificationRequired)
  {}

  /** One attempt, and what is made of it. */
  method Attempt(o: Orchestrator, env: Env, speculative: bool, verificationRequired: bool)
    returns (answer: string, state: State, blocked: bool, succeeded: bool, ghost sent: nat, ghost end: Ending)
    requires Faithful(o.codec) && o.space.Valid()
    modifies o.space`historyChanges, o.space.tree, o.space.journal
    ensures fresh(state) && state.Valid(o.registry) && o.space.Valid() && o.space.start == old(o.space.start)
    ensures sent <= o.maxToolCalls + 2 && end == EndingOf(env, sent, state, answer)
    ensures EndTells(end, o.maxToolCalls, o.maxRepeatCalls)
    ensures blocked <==> StoppedFromOutside(end) || KeptFromVerifying(end, verificationRequired)
    ensures succeeded <==> Delivered(end, o.registry, verificationRequired)
    ensures succeeded ==> Backed(state, answer, verificationRequired)
    ensures speculative ==> o.space.historyChanges == old(o.space.historyChanges)
    ensures UnderControl(o, env, speculative, state, old(o.space.tree.files), old(o.space.historyChanges))
  {
    ghost var base, requests := Baseline(o.space.tree.files, o.space.historyChanges), [];
    answer, state, requests := o.RunOnce(env, speculative, verificationRequired);
    sent, end := |requests|, EndingOf(env, |requests|, state, answer);
    AnsweringIsControl(o, state, env, speculative, base);
    blocked := BlockedRun(state, verificationRequired);
    BlockedMeans(end, state.verificationAttempted, verificationRequired, o.maxToolCalls, o.maxRepeatCalls);
    succeeded := FailureOfRun(state, answer, verificationRequired) == None;
    DeliveredMeans(end, o.registry, state.verified, state.verificationAttempted, verificationRequired);
    if succeeded { SuccessIsBacked(state, o.registry, answer, verificationRequired); }
  }

  /** What the strong attempt was handed, when there was one. */
  datatype Handover = Handover(files: Journal.Files, historyChanges: nat, journalled: nat)

  /** An attempt that halted on itself did not deliver and was not stopped from outside, so
      only calls that were blocked can make it count as blocked. */
  lemma OwnHalt(e: Ending, registry: Registry, verificationRequired: bool, most: nat, limit: nat)
    requires EndTells(e, most, limit)
    ensures StoppedFromOutside(e) ==> e.halt.Some? && !StoppedByItself(e)
    ensures StoppedByItself(e) ==> e.halt.Some? && !StoppedFromOutside(e)
  {}

  /** One task from start to counted outcome, for every behaviour of both models, the
      operator and the tools. `escalationAvailable` is what routing decided: there is a strong
      tier, the first attempt runs on the cheap one, and nothing forbids a second. `cheap` is how
      the first attempt ended, after `sent` requests, `end` how the last one did.

      The strong attempt happens exactly when it may and the first one neither delivered nor was
      stopped from outside nor was kept from verifying; so a run the user stops is never carried
      on, and one that halts on itself is handed over unless some call was blocked. */
  method Run(o: Orchestrator, first: Env, retry: Env, escalationAvailable: bool, verificationRequired: bool)
    returns (outcome: Outcome, answer: string, state: State, ghost handover: Option<Handover>, ghost sent: nat,
             ghost again: nat, ghost cheap: Ending, ghost end: Ending)
    requires Faithful(o.codec) && o.space.Valid() && o.space.journal.entries == []
    modifies o.space`historyChanges, o.space.tree, o.space.journal
    ensures fresh(state) && state.Valid(o.registry)
    ensures sent <= o.maxToolCalls + 2 && again <= o.maxToolCalls + 2 && (handover == None ==> again == 0)
    ensures cheap.last == LastAnswer(first, sent)
    ensures end == if handover == None then cheap else EndingOf(retry, again, state, answer)
    ensures handover == None ==> cheap == EndingOf(first, sent, state, answer)
    ensures EndTells(cheap, o.maxToolCalls, o.maxRepeatCalls)
    ensures EndTells(end, o.maxToolCalls, o.maxRepeatCalls)
    ensures handover.Some? <==>
              && escalationAvailable && !StoppedFromOutside(cheap) && !KeptFromVerifying(cheap, verificationRequired)
              && !Delivered(cheap, o.registry, verificationRequired)
    ensures StoppedFromOutside(cheap) ==> outcome == Blocked && handover == None
    ensures StoppedByItself(cheap) && !SomeCallBlocked(cheap) && escalationAvailable ==> handover.Some?
    ensures outcome == Blocked <==> StoppedFromOutside(end) || KeptFromVerifying(end, verificationRequired)
    ensures outcome in {Passed, EscalatedPass} <==> Delivered(end, o.registry, verificationRequired)
    ensures outcome in {Passed, EscalatedPass} ==> Backed(state, answer, verificationRequired)
    ensures outcome in {EscalatedPass, EscalatedFail} ==> handover.Some?
    ensures outcome in {Passed, Failed} ==> handover == None
    ensures StoppedByItself(end) && !SomeCallBlocked(end) ==>
              outcome == if handover.Some? then EscalatedFail else Failed
    ensures UnderControl(o, if handover == None then first else retry, escalationAvailable && handover == None, state,
                         old(o.space.tree.files), old(o.space.historyChanges))
    ensures Witnessed(first, cheap.calls)
    ensures handover.Some? ==>
              handover.value == Handover(old(o.space.tree.files), old(o.space.historyChanges), 0)
  {
    handover, again := None, 0;
    var blocked, succeeded;
    answer, state, blocked, succeeded, sent, cheap := Attempt(o, first, escalationAvailable, verificationRequired);
    end := cheap;
    OwnHalt(cheap, o.registry, verificationRequired, o.maxToolCalls, o.maxRepeatCalls);
    if blocked { return Blocked, answer, state, handover, sent, again, cheap, end; }
    if !escalationAvailable || succeeded {
      outcome := Classify(succeeded, false, escalationAvailable, false);
      return;
    }
    var _ := o.space.Restore();
    handover := Some(Handover(o.space.tree.files, o.space.historyChanges, |o.space.journal.entries|));
    answer, state, blocked, succeeded, again, end := Attempt(o, retry, false, verificationRequired);
    OwnHalt(end, o.registry, verificationRequired, o.maxToolCalls, o.maxRepeatCalls);
    outcome := if blocked then Blocked else Classify(succeeded, true, true, false);
    OutcomeExactly(succeeded, true, true, false);
  }
}
