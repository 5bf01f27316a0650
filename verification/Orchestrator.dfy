/** The deterministic controller's run loop (orchestrator.py).

    The model, the operator and the tools are adversaries: an `Env` fixes their answers to
    every request, approval and call, and everything here holds for all of them. */
module Orchestrator {
  import opened Sequences
  import opened Json
  import opened Proofs
  import opened Policy
  import opened AgentState
  import opened Discipline
  import opened PythonText
  import opened Readings
  import opened Context
  import opened Workspace
  import opened Journal

  // -------------------------------------------------------------- the adversaries

  /** `wellFormed` is false when the response could not be validated. */
  datatype ToolCall = ToolCall(id: string, name: string, arguments: Fields, wellFormed: bool)

  datatype ToolAnswer = ToolAnswer(ok: bool, execution: Execution, domain: Domain, data: Fields)

  datatype HandlerOutcome = HandlerOutcome(answer: ToolAnswer, effect: Effect)

  datatype TransportKind = Overflow | StopRequested | Stalled | Unavailable

  /** `shaped` says the prose is JSON matching the submit_answer schema. */
  datatype ModelTurn =
    | TransportError(kind: TransportKind)
    | Reply(content: string, calls: seq<ToolCall>, shaped: bool, promptTokens: int, callsLength: nat)

  /** Handlers and approvals are asked by the number of calls made so far, the model and the
      completion controller by the number of requests sent so far. */
  datatype Env = Env(
    opening: seq<Message>, schemas: Option<nat>, toolset: seq<string>, buildSummary: bool,
    model: nat -> ModelTurn, tools: nat -> HandlerOutcome, approvals: nat -> bool,
    payloads: nat -> string, completion: nat -> Option<string>)

  function Note(text: string): Message { Message(User, "", "", text, 0) }

  // ------------------------------------------------------------------ one call

  datatype Refusal = Unusable | Repeated | DeniedByPolicy | Declined

  /** The files and git history an attempt started from. */
  datatype Baseline = Baseline(files: Files, historyChanges: nat)

  /** A call that ran was allowed by policy, or needed approval and got it; one that did not run
      succeeded at nothing, and was refused by policy or the operator only where policy says so.
      The environment blocked a call exactly when it was refused so or its handler says it was. */
  predicate Permitted(policy: Permissions, registry: Registry, r: CallRecord, speculative: bool) {
    && (Ran(r) || r.verdict in {Denied, NotApproved} ==> r.name in registry)
    && (Ran(r) || r.ok != Some(true))
    && match r.verdict
       case Auto => Check(policy, Tool(r.name, registry[r.name]), speculative) == Allow
                    && (r.blocked <==> r.execution == ExecBlocked)
       case Approved => Check(policy, Tool(r.name, registry[r.name]), speculative) == Approve
                        && (r.blocked <==> r.execution == ExecBlocked)
       case Denied => Check(policy, Tool(r.name, registry[r.name]), speculative) == Deny && r.blocked
       case NotApproved => Check(policy, Tool(r.name, registry[r.name]), speculative) == Approve && r.blocked
       case UnknownCall => !r.blocked
       case Pending => !r.blocked
  }

  predicate Patched(r: CallRecord) { Ran(r) && r.name == "apply_patch" }

  predicate ChangedGit(r: CallRecord) { Ran(r) && r.name in HISTORY_MUTATING }

  /** What a history answers for: every row was permitted, and without a row that patched, or
      that staged or committed, files and git history are as they were. */
  ghost predicate Accountable(policy: Permissions, registry: Registry, speculative: bool, h: History,
                              base: Baseline, now: Baseline) {
    && (forall r :: r in h ==> Permitted(policy, registry, r, speculative))
    && ((forall r :: r in h ==> !Patched(r)) ==> now.files == base.files)
    && ((forall r :: r in h ==> !ChangedGit(r)) ==> now.historyChanges == base.historyChanges)
  }

  lemma OneMoreRow(policy: Permissions, registry: Registry, speculative: bool, h: History, base: Baseline,
                   was: Baseline, r: CallRecord, now: Baseline)
    requires Accountable(policy, registry, speculative, h, base, was) && Permitted(policy, registry, r, speculative)
    requires !Patched(r) ==> now.files == was.files
    requires !ChangedGit(r) ==> now.historyChanges == was.historyChanges
    ensures Accountable(policy, registry, speculative, h + [r], base, now)
  {
    assert r in h + [r] && forall x :: x in h ==> x in h + [r];
  }

  /** One more row, of this call. */
  predicate RowFor(was: History, now: History, call: ToolCall) {
    && now != [] && now == was + [now[|now| - 1]]
    && now[|now| - 1].name == call.name && now[|now| - 1].arguments == call.arguments
  }

  lemma RowIsFor(was: History, r: CallRecord, call: ToolCall)
    requires r.name == call.name && r.arguments == call.arguments
    ensures RowFor(was, was + [r], call)
  {}

  /** The new rows are those of the first calls, in order. */
  predicate InOrder(was: History, rows: History, now: History, calls: seq<ToolCall>) {
    && now == was + rows && |rows| <= |calls|
    && forall k :: 0 <= k < |rows| ==> rows[k].name == calls[k].name && rows[k].arguments == calls[k].arguments
  }

  lemma NextInOrder(was: History, rows: History, h: History, now: History, calls: seq<ToolCall>)
    requires InOrder(was, rows, h, calls) && |rows| < |calls| && RowFor(h, now, calls[|rows|])
    ensures InOrder(was, rows + [now[|now| - 1]], now, calls)
  {
    Assoc(was, rows, [now[|now| - 1]]);
  }

  /** The call submits this claim and this answer: what is missing reads as a diagnosis and as
      an empty summary. */
  predicate Submits(call: ToolCall, claim: Option<string>, answer: string) {
    && call.name == "submit_answer"
    && claim == Some(if "claim" in call.arguments then ToText(call.arguments["claim"]) else "diagnosis")
    && answer == if "summary" in call.arguments then ToText(call.arguments["summary"]) else ""
  }

  /** Some call of the response submits this claim and this answer. */
  predicate SubmittedAmong(calls: seq<ToolCall>, claim: Option<string>, answer: string) {
    exists p :: 0 <= p < |calls| && Submits(calls[p], claim, answer)
  }

  /** What the answer of a run that was not halted is: the prose of the last response, or what a
      call of it submits, or what the completion controller makes of the proof on record once no
      edit reminder is due. */
  predicate Concludes(turn: ModelTurn, completed: Option<string>, claim: Option<string>, answer: string, due: bool) {
    && turn.Reply?
    && if turn.calls == [] then answer == turn.content
       else SubmittedAmong(turn.calls, claim, answer) || (completed == Some(answer) && !due)
  }

  /** The conversation goes on with this response. */
  predicate HeardAs(was: seq<Message>, now: seq<Message>, turn: ModelTurn)
    requires turn.Reply?
  {
    was + [Message(Assistant, "", "", turn.content, turn.callsLength)] <= now
  }

  /** The i-th call of a run, if it ran, was one of the tools offered, and its row is what its
      handler answered; it ran with approval or was declined as the operator said. */
  predicate WitnessedRow(env: Env, i: nat, r: CallRecord) {
    && (r.verdict == Approved ==> env.approvals(i)) && (r.verdict == NotApproved ==> !env.approvals(i))
    && (Ran(r) ==>
          var answer := env.tools(i).answer;
          && (env.toolset == [] || r.name in env.toolset)
          && r.ok == Some(answer.ok) && r.execution == answer.execution && r.domain == answer.domain
          && r.evidence == answer.data)
  }

  predicate Witnessed(env: Env, h: History) { forall i :: 0 <= i < |h| ==> WitnessedRow(env, i, h[i]) }

  lemma OneMoreWitness(env: Env, h: History, r: CallRecord)
    requires Witnessed(env, h) && WitnessedRow(env, |h|, r)
    ensures Witnessed(env, h + [r])
  {
    var all := h + [r];
    forall i | 0 <= i < |all| ensures WitnessedRow(env, i, all[i]) {
      if i < |h| { assert WitnessedRow(env, i, h[i]); }
    }
  }

  /** The operator has switched patching off. */
  predicate NoPatching(policy: Permissions, registry: Registry) {
    !policy.allowPatch && ("apply_patch" in registry ==> registry["apply_patch"] in {Write, Dangerous, Forbidden})
  }

  /** The operator has switched committing off. */
  predicate NoCommitting(policy: Permissions, registry: Registry) {
    !policy.allowCommit
    && forall name :: name in HISTORY_MUTATING && name in registry ==> registry[name] in {Dangerous, Forbidden}
  }

  /** Whatever the model asks and the operator approves in a run: with patching switched off no
      file changes; with committing switched off, or while the attempt is speculative, git's
      index and history do not change. */
  lemma SwitchesHold(policy: Permissions, registry: Registry, speculative: bool, h: History, base: Baseline,
                     now: Baseline)
    requires Accountable(policy, registry, speculative, h, base, now)
    ensures NoPatching(policy, registry) ==> now.files == base.files
    ensures speculative || NoCommitting(policy, registry) ==> now.historyChanges == base.historyChanges
  {
    if NoPatching(policy, registry) {
      forall r | r in h ensures !Patched(r) { RowAllowed(policy, registry, speculative, r); }
    }
    if speculative || NoCommitting(policy, registry) {
      forall r | r in h ensures !ChangedGit(r) { RowAllowed(policy, registry, speculative, r); }
    }
  }

  lemma RowAllowed(policy: Permissions, registry: Registry, speculative: bool, r: CallRecord)
    requires Permitted(policy, registry, r, speculative)
    ensures NoPatching(policy, registry) ==> !Patched(r)
    ensures speculative || NoCommitting(policy, registry) ==> !ChangedGit(r)
  {
    if Ran(r) { DeniedExactly(policy, Tool(r.name, registry[r.name]), speculative); }
  }

  /** Every change of the tree in a run was approved by the operator. */
  lemma MutationsApproved(policy: Permissions, registry: Registry, speculative: bool, h: History, base: Baseline,
                          now: Baseline, r: CallRecord)
    requires Accountable(policy, registry, speculative, h, base, now) && r in h && ChangedTree(registry, r)
    ensures r.verdict == Approved
  {
    assert Permitted(policy, registry, r, speculative);
    if r.verdict == Auto { UnaskedIsHarmless(policy, Tool(r.name, registry[r.name]), speculative); }
  }

  class Orchestrator {
    const registry: Registry
    const policy: Permissions
    const maxToolCalls: nat
    const maxRepeatCalls: nat
    const budget: nat
    const codec: Codec
    const space: Space

    constructor (registry: Registry, policy: Permissions, maxToolCalls: nat, maxRepeatCalls: nat, budget: nat,
                 codec: Codec, space: Space)
      ensures this.registry == registry && this.policy == policy && this.maxToolCalls == maxToolCalls
      ensures this.maxRepeatCalls == maxRepeatCalls && this.budget == budget
      ensures this.codec == codec && this.space == space
    {
      this.registry, this.policy, this.maxToolCalls := registry, policy, maxToolCalls;
      this.maxRepeatCalls, this.budget, this.codec, this.space := maxRepeatCalls, budget, codec, space;
    }

    /** The state's history accounts for what has become of the tree since `base`, and for what the
        operator and the tools answered. */
    ghost predicate Answers(state: State, env: Env, speculative: bool, base: Baseline)
      reads state, space, space.tree
    {
      && Accountable(policy, registry, speculative, state.history, base,
                     Baseline(space.tree.files, space.historyChanges))
      && Disciplined(maxRepeatCalls, state.history) && Witnessed(env, state.history)
      && (state.toolset == env.toolset || state.toolset == ["submit_answer"])
    }

    predicate Usable(toolset: seq<string>, call: ToolCall) {
      call.wellFormed && call.name in registry && (toolset == [] || call.name in toolset)
    }

    function VerdictOn(call: ToolCall, speculative: bool): Verdict
      requires call.name in registry
    {
      Check(policy, Tool(call.name, registry[call.name]), speculative)
    }

    /** How a call that is run came to be. */
    function VerdictIfRun(call: ToolCall, speculative: bool): CallVerdict {
      if call.name in registry && VerdictOn(call, speculative) == Approve then Approved else Auto
    }

    /** Why a call does not reach its handler; None if it does. */
    function RefusalOf(toolset: seq<string>, repeats: nat, call: ToolCall, speculative: bool,
                       approved: bool): Option<Refusal> {
      if !Usable(toolset, call) then Some(Unusable)
      else if repeats >= maxRepeatCalls then Some(Repeated)
      else match VerdictOn(call, speculative)
        case Deny => Some(DeniedByPolicy)
        case Approve => if approved then None else Some(Declined)
        case Allow => None
    }

    /** A record of a call that was not run. */
    function Unproved(call: ToolCall, verdict: CallVerdict, ok: Option<bool>, blocked: bool, execution: Execution,
                      epoch: nat): CallRecord {
      CallRecord(call.name, call.arguments, verdict, ok, blocked, execution, Unknown, map[], epoch, NoCurrentProof)
    }

    /** The record a refused call leaves. */
    function RefusedRecord(call: ToolCall, refusal: Refusal, epoch: nat): (r: CallRecord)
      ensures r.proof == NoCurrentProof == ClassifyRecord(r) && r.ok != Some(true) && !Observed(r) && !Ran(r)
    {
      match refusal
      case Unusable => Unproved(call, UnknownCall, Some(false), false, ExecError, 0)
      case Repeated => Unproved(call, Pending, None, false, ExecOk, epoch)
      case DeniedByPolicy => Unproved(call, Denied, Some(false), true, ExecBlocked, epoch)
      case Declined => Unproved(call, NotApproved, Some(false), true, ExecBlocked, epoch)
    }

    /** The record a call that ran leaves. */
    function RanRecord(call: ToolCall, verdict: CallVerdict, answer: ToolAnswer, epoch: nat): CallRecord {
      CallRecord(call.name, call.arguments, verdict, Some(answer.ok), answer.execution == ExecBlocked,
        answer.execution, answer.domain, answer.data, epoch,
        ClassifyProof(call.name, call.arguments, answer.execution, answer.domain, answer.data))
    }

    /** Record a refused call; stop on a repeat, or on the third call of a tool it cannot use. */
    method Refuse(state: State, call: ToolCall, refusal: Refusal) returns (stop: bool)
      requires state.Valid(registry)
      requires refusal == Repeated ==> state.RepeatCount(call.name, call.arguments) >= maxRepeatCalls
      modifies state`history, state`toolCalls, state`halt
      ensures state.Valid(registry)
      ensures state.history == old(state.history) + [RefusedRecord(call, refusal, state.mutationEpoch)]
      ensures stop <==> refusal == Repeated || (refusal == Unusable && UnknownCalls(state.history) >= 3)
      ensures if stop then HaltedBy(state.halt, state.history, maxRepeatCalls) else state.halt == old(state.halt)
    {
      ghost var h := state.history;
      var row := RefusedRecord(call, refusal, state.mutationEpoch);
      state.RecordInert(row, registry);
      assert state.history[..|h|] == h && state.history[|h|] == row;
      stop := false;
      if refusal == Unusable && UnknownCalls(state.history) >= 3 {
        state.Halt(UnknownTools);
        stop := true;
      }
      if refusal == Repeated {
        state.Halt(RepeatLoop);
        stop := true;
      }
    }

    /** The one row a call leaves. */
    function Row(refusal: Option<Refusal>, call: ToolCall, speculative: bool, answer: ToolAnswer,
                 epoch: nat): CallRecord {
      if refusal.Some? then RefusedRecord(call, refusal.value, epoch)
      else RanRecord(call, VerdictIfRun(call, speculative), answer, epoch)
    }

    lemma RowPermitted(toolset: seq<string>, repeats: nat, call: ToolCall, speculative: bool, approved: bool,
                       answer: ToolAnswer, epoch: nat)
      ensures var refusal := RefusalOf(toolset, repeats, call, speculative, approved);
              var row := Row(refusal, call, speculative, answer, epoch);
              && Permitted(policy, registry, row, speculative)
              && (Ran(row) <==> refusal == None) && (Ran(row) ==> repeats < maxRepeatCalls && row.epoch == epoch)
              && row.name == call.name && row.arguments == call.arguments
    {}

    /** Exactly which calls reach their handlers: well formed, of a tool that is registered and
        offered, not tried too often, and allowed or, where they have to be, approved. */
    lemma RunsExactly(toolset: seq<string>, repeats: nat, call: ToolCall, speculative: bool, approved: bool)
      ensures RefusalOf(toolset, repeats, call, speculative, approved) == None <==>
                && call.wellFormed && call.name in registry && (toolset == [] || call.name in toolset)
                && repeats < maxRepeatCalls
                && ( || Check(policy, Tool(call.name, registry[call.name]), speculative) == Allow
                     || ( && Check(policy, Tool(call.name, registry[call.name]), speculative) == Approve
                          && approved))
    {}

    lemma RowWitnessed(env: Env, i: nat, toolset: seq<string>, repeats: nat, call: ToolCall, speculative: bool)
      requires toolset == env.toolset || toolset == ["submit_answer"]
      requires call.name != "submit_answer"
      ensures var refusal := RefusalOf(toolset, repeats, call, speculative, env.approvals(i));
              forall epoch :: WitnessedRow(env, i, Row(refusal, call, speculative, env.tools(i).answer, epoch))
    {
      if toolset == ["submit_answer"] { assert call.name !in toolset; }
    }

    /** Run one tool call, or refuse it. Exactly one record is added, whatever happens. */
    method Execute(state: State, call: ToolCall, speculative: bool, approved: bool, outcome: HandlerOutcome)
      returns (ok: bool, stop: bool)
      requires state.Valid(registry) && space.Valid()
      modifies state, space`historyChanges, space.tree, space.journal
      ensures state.Valid(registry) && space.Valid() && space.start == old(space.start)
      ensures state.toolset == old(state.toolset) && state.claim == old(state.claim)
      ensures var repeats := old(state.RepeatCount(call.name, call.arguments));
              var refusal := RefusalOf(old(state.toolset), repeats, call, speculative, approved);
              && state.history
                 == old(state.history) + [Row(refusal, call, speculative, outcome.answer, old(state.mutationEpoch))]
              && (ok <==> refusal == None && outcome.answer.ok) && (stop ==> refusal.Some?)
              && space.tree.files
                 == (if refusal.Some? then old(space.tree.files)
                     else FilesAfter(call.name, outcome.effect, old(space.tree.files)))
              && space.historyChanges
                 == (if refusal.Some? then old(space.historyChanges)
                     else ChangesAfter(call.name, outcome.effect, old(space.historyChanges)))
      ensures if stop then HaltedBy(state.halt, state.history, maxRepeatCalls) else state.halt == old(state.halt)
    {
      var repeats := state.RepeatCount(call.name, call.arguments);
      var refusal := RefusalOf(state.toolset, repeats, call, speculative, approved);
      if refusal.Some? {
        stop := Refuse(state, call, refusal.value);
        return false, stop;
      }
      RunHandler(state, call, VerdictIfRun(call, speculative), outcome);
      return outcome.answer.ok, false;
    }

    /** The handler takes effect and its result is recorded. */
    method RunHandler(state: State, call: ToolCall, verdict: CallVerdict, outcome: HandlerOutcome)
      requires state.Valid(registry) && space.Valid()
      modifies state`history, state`toolCalls, state`verified, state`verificationAttempted, state`mutationEpoch
      modifies space`historyChanges, space.tree, space.journal
      ensures state.Valid(registry) && space.Valid()
      ensures state.history == old(state.history) + [RanRecord(call, verdict, outcome.answer, old(state.mutationEpoch))]
      ensures space.tree.files == FilesAfter(call.name, outcome.effect, old(space.tree.files))
      ensures space.historyChanges == ChangesAfter(call.name, outcome.effect, old(space.historyChanges))
    {
      space.Apply(call.name, outcome.effect);
      state.RecordResult(RanRecord(call, verdict, outcome.answer, state.mutationEpoch), registry);
    }

    /** The same, accounted for: what the call did to files and git history is answered for by
        the row it left. */
    method ExecuteAccounted(state: State, call: ToolCall, env: Env, speculative: bool, ghost base: Baseline)
      returns (ok: bool, stop: bool)
      requires state.Valid(registry) && space.Valid() && Answers(state, env, speculative, base)
      requires call.name != "submit_answer"
      modifies state, space`historyChanges, space.tree, space.journal
      ensures state.Valid(registry) && space.Valid() && space.start == old(space.start)
      ensures Answers(state, env, speculative, base) && RowFor(old(state.history), state.history, call)
      ensures state.toolset == old(state.toolset) && state.claim == old(state.claim)
      ensures ok <==> state.history[|state.history| - 1].ok == Some(true)
      ensures if stop then HaltedBy(state.halt, state.history, maxRepeatCalls) else state.halt == old(state.halt)
    {
      var n := state.toolCalls;
      ghost var h, was, epoch := state.history, Baseline(space.tree.files, space.historyChanges), state.mutationEpoch;
      ghost var repeats, toolset := state.RepeatCount(call.name, call.arguments), state.toolset;
      ok, stop := Execute(state, call, speculative, env.approvals(n), env.tools(n));
      RowPermitted(toolset, repeats, call, speculative, env.approvals(n), env.tools(n).answer, epoch);
      RowWitnessed(env, n, toolset, repeats, call, speculative);
      ghost var refusal := RefusalOf(toolset, repeats, call, speculative, env.approvals(n));
      ghost var r := Row(refusal, call, speculative, env.tools(n).answer, epoch);
      OneMoreRow(policy, registry, speculative, h, base, was, r, Baseline(space.tree.files, space.historyChanges));
      OneMoreRun(maxRepeatCalls, h, r);
      OneMoreWitness(env, h, r);
      RowIsFor(h, r, call);
    }

    // ------------------------------------------------------------- one response

    /** The claim is recorded as the model made it; nothing else is believed. */
    method AcceptAnswer(state: State, call: ToolCall) returns (summary: string)
      requires state.Valid(registry)
      modifies state`claim
      ensures state.Valid(registry)
      ensures state.claim == Some(if "claim" in call.arguments then ToText(call.arguments["claim"]) else "diagnosis")
      ensures summary == if "summary" in call.arguments then ToText(call.arguments["summary"]) else ""
    {
      state.claim := Some(if "claim" in call.arguments then ToText(call.arguments["claim"]) else "diagnosis");
      summary := if "summary" in call.arguments then ToText(call.arguments["summary"]) else "";
    }

    /** A submitted answer is held back for an edit that was never applied: when it is the last call of
        its response, and the reminder has not been given yet. */
    predicate HeldBack(state: State, call: ToolCall, edited: bool, last: bool)
      reads state
    {
      var claimed := Get(call.arguments, "claim");
      && !edited && last
      && NeedsEditReminder(state.toolset, state.history, state.mutationEpoch,
                           if claimed.Str? then Some(claimed.s) else None)
    }

    /** A submitted answer: accepted, or held back once because no edit was applied. Either
        way its claim is on record. */
    method Submit(state: State, ctx: ContextManager, call: ToolCall, env: Env, mayRemind: bool)
      returns (end: TurnEnd)
      requires state.Valid(registry) && ctx.Valid()
      modifies state`claim, ctx
      ensures state.Valid(registry) && ctx.Valid() && state.claim.Some?
      ensures ctx.overhead == old(ctx.overhead) && old(ctx.messages) <= ctx.messages
      ensures end == GoOn || end.Submitted?
      ensures end.Submitted? && call.name == "submit_answer" ==> Submits(call, state.claim, end.answer)
      ensures var claimed := Get(call.arguments, "claim");
              end == GoOn <==> mayRemind && NeedsEditReminder(state.toolset, state.history, state.mutationEpoch,
                                              if claimed.Str? then Some(claimed.s) else None)
    {
      var claimed := Get(call.arguments, "claim");
      var held := mayRemind && NeedsEditReminder(state.toolset, state.history, state.mutationEpoch,
                                 if claimed.Str? then Some(claimed.s) else None);
      var summary := AcceptAnswer(state, call);
      if held {
        ctx.Append(Message(ToolResult, call.id, call.name, env.payloads(state.toolCalls), 0));
        return GoOn;
      }
      return Submitted(summary);
    }

    /** Any other call: run it and answer it in the conversation. */
    method CallStep(state: State, ctx: ContextManager, call: ToolCall, env: Env, speculative: bool,
                    ghost base: Baseline)
      returns (stop: bool)
      requires state.Valid(registry) && space.Valid() && ctx.Valid() && state.halt == None
      requires Answers(state, env, speculative, base) && call.name != "submit_answer"
      modifies state, ctx, space`historyChanges, space.tree, space.journal
      ensures state.Valid(registry) && space.Valid() && ctx.Valid() && space.start == old(space.start)
      ensures RowFor(old(state.history), state.history, call)
      ensures ctx.overhead == old(ctx.overhead)
      ensures old(ctx.messages) + [Message(ToolResult, call.id, call.name, env.payloads(|old(state.history)|), 0)]
           <= ctx.messages
      ensures var ok := state.history[|state.history| - 1].ok == Some(true);
              state.toolset
              == if env.buildSummary && call.name == "repo_info" && ok then ["submit_answer"] else old(state.toolset)
      ensures if stop then HaltedBy(state.halt, state.history, maxRepeatCalls) else state.halt == None
      ensures Answers(state, env, speculative, base)
    {
      var n := state.toolCalls;
      var ok;
      ok, stop := ExecuteAccounted(state, call, env, speculative, base);
      ctx.Append(Message(ToolResult, call.id, call.name, env.payloads(n), 0));
      if env.buildSummary && call.name == "repo_info" && ok {
        NarrowToReport(state, ctx);
      }
    }

    /** The p-th call of a response: an answer submitted, or a tool called. */
    method OneCall(state: State, ctx: ContextManager, calls: seq<ToolCall>, p: nat, env: Env, speculative: bool,
                   edited: bool, ghost base: Baseline)
      returns (end: TurnEnd, reminded: bool)
      requires p < |calls| && state.Valid(registry) && space.Valid() && ctx.Valid() && state.halt == None
      requires Answers(state, env, speculative, base)
      modifies state, ctx, space`historyChanges, space.tree, space.journal
      ensures state.Valid(registry) && space.Valid() && ctx.Valid() && space.start == old(space.start)
      ensures Answers(state, env, speculative, base)
      ensures ctx.overhead == old(ctx.overhead) && old(ctx.messages) <= ctx.messages
      ensures if calls[p].name == "submit_answer"
              then && state.history == old(state.history) && end != HaltedTurn
                   && reminded == (edited || end == GoOn) && (end == GoOn ==> !edited)
                   && (end == GoOn <==> HeldBack(state, calls[p], edited, p == |calls| - 1))
              else RowFor(old(state.history), state.history, calls[p]) && !end.Submitted? && reminded == edited
      ensures end.Submitted? ==> Submits(calls[p], state.claim, end.answer)
      ensures if end == HaltedTurn then HaltedBy(state.halt, state.history, maxRepeatCalls) else state.halt == None
    {
      if calls[p].name == "submit_answer" {
        end := Submit(state, ctx, calls[p], env, !edited && p == |calls| - 1);
        reminded := edited || end == GoOn;
      } else {
        var stop := CallStep(state, ctx, calls[p], env, speculative, base);
        end, reminded := if stop then HaltedTurn else GoOn, edited;
      }
    }

    /** The tool calls of one response, in order. Unless the run ends here, it has used up at
        least one tool call or the one edit reminder. */
    method RunCalls(state: State, ctx: ContextManager, calls: seq<ToolCall>, env: Env, speculative: bool,
                    edited: bool, ghost base: Baseline)
      returns (end: TurnEnd, reminded: bool, ghost rows: History)
      requires calls != [] && state.Valid(registry) && space.Valid() && ctx.Valid()
      requires state.halt == None
      requires Answers(state, env, speculative, base)
      modifies state, ctx, space`historyChanges, space.tree, space.journal
      ensures state.Valid(registry) && space.Valid() && ctx.Valid() && space.start == old(space.start)
      ensures ctx.overhead == old(ctx.overhead) && old(ctx.messages) <= ctx.messages
      ensures InOrder(old(state.history), rows, state.history, calls) && (edited ==> reminded)
      ensures end == GoOn ==> rows != [] || (reminded && !edited)
      ensures if end == HaltedTurn then HaltedBy(state.halt, state.history, maxRepeatCalls) else state.halt == None
      ensures end.Submitted? ==> SubmittedAmong(calls, state.claim, end.answer)
      ensures var p := |rows|;
              end != HaltedTurn && p < |calls| ==>
                && calls[p].name == "submit_answer"
                && (end == GoOn <==> HeldBack(state, calls[p], edited, p == |calls| - 1))
                && (end.Submitted? ==> Submits(calls[p], state.claim, end.answer))
      ensures Answers(state, env, speculative, base)
    {
      end, reminded, rows := GoOn, edited, [];
      ghost var was := state.history;
      var p := 0;
      while p < |calls|
        invariant |rows| == p <= |calls| && end == GoOn && reminded == edited
        invariant state.Valid(registry) && space.Valid() && ctx.Valid() && space.start == old(space.start)
        invariant state.halt == None && InOrder(was, rows, state.history, calls)
        invariant ctx.overhead == old(ctx.overhead) && old(ctx.messages) <= ctx.messages
        invariant Answers(state, env, speculative, base)
      {
        ghost var h := state.history;
        end, reminded := OneCall(state, ctx, calls, p, env, speculative, edited, base);
        if calls[p].name == "submit_answer" { break; }
        NextInOrder(was, rows, h, state.history, calls);
        p, rows := p + 1, rows + [state.history[|state.history| - 1]];
        if end != GoOn { break; }
      }
    }

    /** A build summary needs no more discovery: only the report is still offered. */
    method NarrowToReport(state: State, ctx: ContextManager)
      requires state.Valid(registry) && ctx.Valid()
      modifies state`toolset, ctx
      ensures state.Valid(registry) && ctx.Valid() && state.toolset == ["submit_answer"]
      ensures ctx.overhead == old(ctx.overhead) && old(ctx.messages) <= ctx.messages
    {
      state.toolset := ["submit_answer"];
      ctx.Append(Note("the repository summary is sufficient"));
    }

    /** A response in prose: ask again at most once for a claim and once for an edit. */
    method AnswerInProse(state: State, ctx: ContextManager, shaped: bool, verificationRequired: bool, nudged: bool,
                         edited: bool)
      returns (again: bool, nudgedNow: bool, editedNow: bool)
      requires ctx.Valid()
      modifies ctx
      ensures ctx.Valid() && ctx.overhead == old(ctx.overhead) && old(ctx.messages) <= ctx.messages
      ensures again <==> ctx.messages != old(ctx.messages)
      ensures again ==> Flags(Locals(nudgedNow, editedNow, 0)) == Flags(Locals(nudged, edited, 0)) + 1
      ensures !again ==> nudgedNow == nudged && editedNow == edited
      ensures again <==>
        || (state.claim == None && !nudged && (shaped || verificationRequired))
        || (!edited && NeedsEditReminder(state.toolset, state.history, state.mutationEpoch, state.claim))
    {
      again, nudgedNow, editedNow := false, nudged, edited;
      if state.claim == None && shaped && !nudged {
        ctx.Append(Note("call submit_answer: no claim was recorded"));
        return true, true, edited;
      }
      if !edited && NeedsEditReminder(state.toolset, state.history, state.mutationEpoch, state.claim) {
        ctx.Append(Note("nothing has been applied"));
        return true, nudged, true;
      }
      if state.claim == None && verificationRequired && !nudged {
        ctx.Append(Note("call submit_answer to finish"));
        return true, true, edited;
      }
    }

    /** A long streak of searches gets one plain instruction to read, each time it doubles up. */
    method NudgeSearch(state: State, ctx: ContextManager, nudges: nat, active: bool) returns (nudgesNow: nat)
      requires ctx.Valid()
      modifies ctx
      ensures ctx.Valid() && ctx.overhead == old(ctx.overhead)
      ensures var streak := SearchStreak(state.history);
              var due := active && streak >= 4 && streak / 4 > nudges
                         && (state.toolset == [] || "read_file" in state.toolset);
              && nudgesNow == (if due then streak / 4 else if streak < 4 then 0 else nudges)
              && ctx.messages == old(ctx.messages) + (if due then [Note("stop searching")] else [])
    {
      var streak := SearchStreak(state.history);
      nudgesNow := if streak < SEARCH_STREAK_NUDGE then 0 else nudges;
      if active && streak >= SEARCH_STREAK_NUDGE && streak / SEARCH_STREAK_NUDGE > nudgesNow
         && (state.toolset == [] || "read_file" in state.toolset) {
        nudgesNow := streak / SEARCH_STREAK_NUDGE;
        ctx.Append(Note("stop searching"));
      }
    }

    /** The model could not be asked. */
    method TransportHalt(state: State, kind: TransportKind)
      modifies state`halt
      ensures state.halt == Some(HaltOf(kind)) && TransportTells(TransportError(kind), state.halt)
    {
      state.Halt(HaltOf(kind));
    }

    /** Would an answer now be held back for an edit that was never applied? */
    predicate ReminderDue(state: State)
      reads state
    {
      NeedsEditReminder(state.toolset, state.history, state.mutationEpoch, state.claim)
    }

    /** A response with tool calls, up to the decision to go round again. */
    method CallsTurn(state: State, ctx: ContextManager, turn: ModelTurn, env: Env, speculative: bool, answer: string,
                     locals: Locals, completed: Option<string>, ghost base: Baseline)
      returns (done: bool, answerNow: string, localsNow: Locals)
      requires turn.Reply? && turn.calls != []
      requires state.Valid(registry) && space.Valid() && ctx.Valid() && state.halt == None
      requires Answers(state, env, speculative, base)
      modifies state, ctx, space`historyChanges, space.tree, space.journal
      ensures state.Valid(registry) && space.Valid() && ctx.Valid() && space.start == old(space.start)
      ensures !done ==> state.halt == None && Progress(old(state.toolCalls), locals, state.toolCalls, localsNow)
      ensures Answers(state, env, speculative, base)
      ensures ctx.overhead == old(ctx.overhead) && old(ctx.messages) <= ctx.messages
      ensures state.halt.Some? ==> HaltedBy(state.halt, state.history, maxRepeatCalls)
      ensures done && state.halt == None ==> Concludes(turn, completed, state.claim, answerNow, ReminderDue(state))
      ensures !done ==> completed == None || ReminderDue(state)
      ensures old(state.toolCalls) <= state.toolCalls <= old(state.toolCalls) + |turn.calls|
      ensures exists rows :: InOrder(old(state.history), rows, state.history, turn.calls)
    {
      answerNow := answer;
      ghost var rows;
      var end, edited;
      end, edited, rows := RunCalls(state, ctx, turn.calls, env, speculative, locals.edited, base);
      var nudges := NudgeSearch(state, ctx, locals.searchNudges, end == GoOn);
      localsNow := Locals(locals.nudged, edited, nudges);
      match end
      case Submitted(summary) => return true, summary, localsNow;
      case HaltedTurn => return true, answer, localsNow;
      case GoOn =>
        // Proof is consumed only after the whole batch, and never past an unapplied edit.
        if completed.Some? && !NeedsEditReminder(state.toolset, state.history, state.mutationEpoch, state.claim) {
          return true, completed.value, localsNow;
        }
        return false, answer, localsNow;
    }

    /** The response joins the conversation, and what it measured of the request raises the overhead. */
    method Hear(ctx: ContextManager, turn: ModelTurn)
      requires turn.Reply? && ctx.Valid()
      modifies ctx
      ensures ctx.Valid() && HeardAs(old(ctx.messages), ctx.messages, turn)
      ensures ctx.overhead >= old(ctx.overhead)
      ensures turn.promptTokens > 0 ==> ctx.overhead >= turn.promptTokens - Tokens(old(ctx.messages)) + ctx.margin
    {
      ctx.ObservePromptTokens(turn.promptTokens, Tokens(ctx.messages));
      ctx.Append(Message(Assistant, "", "", turn.content, turn.callsLength));
    }

    /** One request and what comes of its answer. */
    method Turn(state: State, ctx: ContextManager, turn: ModelTurn, env: Env, speculative: bool,
                verificationRequired: bool, answer: string, locals: Locals, completed: Option<string>,
                ghost base: Baseline)
      returns (done: bool, answerNow: string, localsNow: Locals)
      requires state.Valid(registry) && space.Valid() && ctx.Valid() && state.halt == None
      requires Answers(state, env, speculative, base)
      modifies state, ctx, space`historyChanges, space.tree, space.journal
      ensures state.Valid(registry) && space.Valid() && ctx.Valid() && space.start == old(space.start)
      ensures !done ==> state.halt == None && Progress(old(state.toolCalls), locals, state.toolCalls, localsNow)
      ensures turn.TransportError? ==> done && state.halt == Some(HaltOf(turn.kind)) && answerNow == answer
      ensures Answers(state, env, speculative, base)
      ensures TransportTells(turn, state.halt)
      ensures state.halt.Some? ==> turn.TransportError? || HaltedBy(state.halt, state.history, maxRepeatCalls)
      ensures done && state.halt == None ==> Concludes(turn, completed, state.claim, answerNow, ReminderDue(state))
      ensures !done ==> CallsIn(turn) == 0 || completed == None || ReminderDue(state)
      ensures state.toolCalls <= old(state.toolCalls) + CallsIn(turn)
      ensures turn.Reply? ==> HeardAs(old(ctx.messages), ctx.messages, turn)
      ensures turn.Reply? && turn.promptTokens > 0 ==>
                ctx.overhead >= turn.promptTokens - Tokens(old(ctx.messages)) + ctx.margin
    {
      if turn.TransportError? {
        TransportHalt(state, turn.kind);
        done, answerNow, localsNow := true, answer, locals;
      } else {
        Hear(ctx, turn);
        if turn.calls == [] {
          var again, nudged, edited :=
            AnswerInProse(state, ctx, turn.shaped, verificationRequired, locals.nudged, locals.edited);
          done, answerNow, localsNow := !again, turn.content, Locals(nudged, edited, locals.searchNudges);
        } else {
          done, answerNow, localsNow := CallsTurn(state, ctx, turn, env, speculative, answer, locals, completed, base);
        }
      }
    }

    // ------------------------------------------------------------------ one run

    /** The context a run starts from. */
    method Open(env: Env) returns (ctx: ContextManager)
      requires Faithful(codec)
      ensures fresh(ctx) && ctx.Valid() && ctx.budget == budget
      ensures ctx.keepRecent == 6 && ctx.hysteresis == 0.55 && ctx.margin == 128
      ensures ctx.messages == env.opening
      ensures env.schemas.Some? ==> ctx.overhead >= env.schemas.value / 4 + 128
    {
      ctx := new ContextManager(codec, budget);
      for i := 0 to |env.opening|
        invariant ctx.Valid() && fresh(ctx) && ctx.budget == budget
        invariant ctx.keepRecent == 6 && ctx.hysteresis == 0.55 && ctx.margin == 128
        invariant ctx.messages == env.opening[..i]
      {
        ctx.Append(env.opening[i]);
      }
      ctx.SetToolSchemas(env.schemas);
      assert env.opening[..|env.opening|] == env.opening;
    }

    /** Make room if the request is over budget; send it only if it then fits. */
    method Prepare(ctx: ContextManager) returns (fits: bool)
      requires ctx.Valid()
      modifies ctx
      ensures ctx.Valid() && (fits <==> ctx.EstimatedRequestTokens() <= ctx.budget)
      ensures !fits ==> forall i :: 0 <= i < |ctx.messages| ==> !Collapsible(ctx.codec, ctx.messages[i])
    {
      if ctx.NeedsCompaction() {
        var event, stop := ctx.Compact();
      }
      fits := !ctx.NeedsCompaction();
    }

    /** May another request be sent? Otherwise the run halts, on its tool budget or its context budget. */
    method Ready(state: State, ctx: ContextManager) returns (ready: bool)
      requires ctx.Valid() && state.halt == None
      modifies state`halt, ctx
      ensures ctx.Valid()
      ensures ready ==>
                state.halt == None && state.toolCalls < maxToolCalls && ctx.EstimatedRequestTokens() <= ctx.budget
      ensures !ready ==>
                state.halt == Some(if state.toolCalls < maxToolCalls then ContextBudgetExhausted else BudgetExhausted)
    {
      ready := state.toolCalls < maxToolCalls;
      if !ready {
        state.Halt(BudgetExhausted);
      } else {
        ready := Prepare(ctx);
        if !ready { state.Halt(ContextBudgetExhausted); }
      }
    }

    /** Once round the loop: stop if the tool budget is spent or the request cannot fit,
        otherwise send it and act on the answer. */
    method Round(state: State, ctx: ContextManager, env: Env, speculative: bool, verificationRequired: bool,
                 answer: string, locals: Locals, sent: nat, ghost last: Option<ModelTurn>, ghost base: Baseline)
      returns (done: bool, answerNow: string, localsNow: Locals, ghost request: Option<nat>)
      requires state.Valid(registry) && space.Valid() && ctx.Valid() && Answers(state, env, speculative, base)
      requires Going(last, state.halt, sent, |state.history|, Flags(locals))
      modifies state, ctx, space`historyChanges, space.tree, space.journal
      ensures state.Valid(registry) && space.Valid() && ctx.Valid() && space.start == old(space.start)
      ensures request.Some? ==> request.value <= ctx.budget && old(state.toolCalls) < maxToolCalls
      ensures request == None ==>
                state.halt
                == Some(if old(state.toolCalls) < maxToolCalls then ContextBudgetExhausted else BudgetExhausted)
      ensures !done ==> request.Some? && Progress(old(state.toolCalls), locals, state.toolCalls, localsNow)
      ensures var lastNow := if request.Some? then Some(env.model(sent)) else last;
              var completed := if request.Some? then env.completion(sent) else None;
              if done then EndTells(EndingWith(lastNow, completed, state, answerNow), maxToolCalls, maxRepeatCalls)
              else Going(lastNow, state.halt, sent + 1, |state.history|, Flags(localsNow))
      ensures !done ==> CallsIn(env.model(sent)) == 0 || env.completion(sent) == None || ReminderDue(state)
      ensures Answers(state, env, speculative, base)
      ensures state.toolCalls
           <= old(state.toolCalls) + if old(state.toolCalls) < maxToolCalls then CallsIn(env.model(sent)) else 0
    {
      var ready := Ready(state, ctx);
      if !ready { return true, answer, locals, None; }
      var turn := env.model(sent);
      request := Some(ctx.EstimatedRequestTokens());
      done, answerNow, localsNow :=
        Turn(state, ctx, turn, env, speculative, verificationRequired, answer, locals, env.completion(sent), base);
      if done {
        ghost var end := EndingWith(Some(turn), env.completion(sent), state, answerNow);
        EndAfterRequest(end, turn, maxToolCalls, maxRepeatCalls);
      }
    }

    /** What has been sent so far: at most two requests more than the tool budget, each within the
        context budget, and no more tool calls than they allowed for. */
    ghost predicate Spent(env: Env, requests: seq<nat>, budget: nat, calls: nat) {
      |requests| <= maxToolCalls + 2 && Within(requests, budget) && BudgetHeld(env, maxToolCalls, calls)
    }

    lemma SpentMore(env: Env, requests: seq<nat>, budget: nat, calls: nat, request: Option<nat>, callsNow: nat)
      requires Spent(env, requests, budget, calls)
      requires request.Some? ==> request.value <= budget && |requests| <= maxToolCalls + 1
      requires callsNow <= calls + if calls < maxToolCalls then CallsIn(env.model(|requests|)) else 0
      ensures Spent(env, Noted(requests, request), budget, callsNow)
    {
      OneMoreResponse(env, maxToolCalls, |requests|, calls, callsNow);
    }

    /** Where the loop of a run stands after n requests: how it ended, or what it goes on with. */
    predicate Standing(done: bool, n: nat, e: Ending, locals: Locals) {
      if done then EndTells(e, maxToolCalls, maxRepeatCalls) else Going(e.last, e.halt, n, |e.calls|, Flags(locals))
    }

    lemma StandingNext(done: bool, env: Env, n: nat, sentNow: bool, e: Ending, next: Ending, locals: Locals)
      requires !done ==> sentNow
      requires e.last == if sentNow then Some(env.model(n)) else LastAnswer(env, n)
      requires e.completed == if sentNow then env.completion(n) else None
      requires if done then EndTells(e, maxToolCalls, maxRepeatCalls)
               else Going(e.last, e.halt, n + 1, |e.calls|, Flags(locals))
      requires next == e.(completed := next.completed) && (sentNow ==> next == e) && (!sentNow ==> e.halt.Some?)
      ensures Standing(done, if sentNow then n + 1 else n, next, locals)
    {
      if !sentNow { EndWithoutRequest(e, next, maxToolCalls, maxRepeatCalls); }
    }

    /** One round, with the log of the requests sent. */
    method Lap(state: State, ctx: ContextManager, env: Env, speculative: bool, verificationRequired: bool,
               answer: string, locals: Locals, sent: nat, ghost requests: seq<nat>, ghost base: Baseline)
      returns (done: bool, answerNow: string, localsNow: Locals, ghost requestsNow: seq<nat>)
      requires state.Valid(registry) && space.Valid() && ctx.Valid() && sent == |requests|
      requires Answers(state, env, speculative, base) && Spent(env, requests, ctx.budget, state.toolCalls)
      requires Standing(false, |requests|, EndingOf(env, |requests|, state, answer), locals)
      modifies state, ctx, space`historyChanges, space.tree, space.journal
      ensures state.Valid(registry) && space.Valid() && ctx.Valid() && space.start == old(space.start)
      ensures Answers(state, env, speculative, base) && Spent(env, requestsNow, ctx.budget, state.toolCalls)
      ensures Standing(done, |requestsNow|, EndingOf(env, |requestsNow|, state, answerNow), localsNow)
      ensures !done ==> |requestsNow| == sent + 1 && old(state.toolCalls) < maxToolCalls
      ensures !done ==> Progress(old(state.toolCalls), locals, state.toolCalls, localsNow)
    {
      ghost var calls, request := state.toolCalls, None;
      done, answerNow, localsNow, request :=
        Round(state, ctx, env, speculative, verificationRequired, answer, locals, sent, LastAnswer(env, sent), base);
      SpentMore(env, requests, ctx.budget, calls, request, state.toolCalls);
      requestsNow := Noted(requests, request);
      ghost var e := EndingWith(if request.Some? then Some(env.model(sent)) else LastAnswer(env, sent),
                                if request.Some? then env.completion(sent) else None, state, answerNow);
      StandingNext(done, env, sent, request.Some?, e, EndingOf(env, |requestsNow|, state, answerNow), localsNow);
    }

    /** The loop of a run, round after round. */
    method Rounds(state: State, ctx: ContextManager, env: Env, speculative: bool, verificationRequired: bool,
                  ghost base: Baseline)
      returns (answer: string, ghost requests: seq<nat>)
      requires state.Valid(registry) && space.Valid() && ctx.Valid() && state.halt == None && state.toolCalls == 0
      requires Answers(state, env, speculative, base)
      modifies state, ctx, space`historyChanges, space.tree, space.journal
      ensures state.Valid(registry) && space.Valid() && space.start == old(space.start)
      ensures Answers(state, env, speculative, base)
      ensures Spent(env, requests, ctx.budget, state.toolCalls)
      ensures EndTells(EndingOf(env, |requests|, state, answer), maxToolCalls, maxRepeatCalls)
    {
      answer, requests := "", [];
      var locals, sent, done := Locals(false, false, 0), 0, false;
      while !done
        invariant state.Valid(registry) && space.Valid() && ctx.Valid() && space.start == old(space.start)
        invariant Answers(state, env, speculative, base) && Spent(env, requests, ctx.budget, state.toolCalls)
        invariant Standing(done, |requests|, EndingOf(env, |requests|, state, answer), locals)
        invariant !done ==> sent == |requests|
        decreases !done, maxToolCalls - state.toolCalls + 2 - Flags(locals)
      {
        done, answer, locals, requests :=
          Lap(state, ctx, env, speculative, verificationRequired, answer, locals, sent, requests, base);
        sent := sent + 1;
      }
    }

    /** One attempt. Whatever the model, the operator and the tools do, it ends; it sends at
        most two requests more than the tool budget, each within the context budget; its tool
        calls stay below the budget plus the longest single response; a speculative attempt
        leaves git's index and history alone; and its history answers for every change made. */
    method RunOnce(env: Env, speculative: bool, verificationRequired: bool)
      returns (answer: string, state: State, ghost requests: seq<nat>)
      requires Faithful(codec) && space.Valid()
      modifies space`historyChanges, space.tree, space.journal
      ensures fresh(state) && state.Valid(registry) && space.Valid() && space.start == old(space.start)
      ensures Spent(env, requests, budget, state.toolCalls) && |requests| <= maxToolCalls + 2
      ensures EndTells(EndingOf(env, |requests|, state, answer), maxToolCalls, maxRepeatCalls)
      ensures state.verified <==> PassedAsItStands(registry, state.history)
      ensures state.verificationAttempted <==> exists i :: 0 <= i < |state.history| && SawVerdict(state.history[i])
      ensures speculative ==> space.historyChanges == old(space.historyChanges)
      ensures Answers(state, env, speculative, Baseline(old(space.tree.files), old(space.historyChanges)))
    {
      state := new State(env.toolset, registry);
      var ctx := Open(env);
      ghost var base := Baseline(space.tree.files, space.historyChanges);
      answer, requests := Rounds(state, ctx, env, speculative, verificationRequired, base);
      ghost var now := Baseline(space.tree.files, space.historyChanges);
      SwitchesHold(policy, registry, speculative, state.history, base, now);
      state.ReadFlags(registry);
    }
  }

  function CallsIn(turn: ModelTurn): nat { if turn.Reply? then |turn.calls| else 0 }

  /** No response asks for more than `longest` tool calls. */
  ghost predicate NoLonger(env: Env, longest: nat) { forall n :: CallsIn(env.model(n)) <= longest }

  /** The tool budget is checked between responses, so the last response may overrun it: the
      calls of a run stay below the budget plus the longest single response. */
  ghost predicate BudgetHeld(env: Env, most: nat, calls: nat) {
    forall longest: nat :: NoLonger(env, longest) ==> calls == 0 || calls < most + longest
  }

  lemma OneMoreResponse(env: Env, most: nat, sent: nat, calls: nat, callsNow: nat)
    requires BudgetHeld(env, most, calls)
    requires callsNow <= calls + if calls < most then CallsIn(env.model(sent)) else 0
    ensures BudgetHeld(env, most, callsNow)
  {
    forall longest: nat | NoLonger(env, longest) ensures callsNow == 0 || callsNow < most + longest {
      assert CallsIn(env.model(sent)) <= longest;
    }
  }

  /** Every request was within the context budget. */
  predicate Within(requests: seq<nat>, budget: nat) { forall i :: 0 <= i < |requests| ==> requests[i] <= budget }

  function Noted(requests: seq<nat>, request: Option<nat>): seq<nat> {
    if request.Some? then requests + [request.value] else requests
  }

  /** What the model answered to the last of a run's n requests. */
  function LastAnswer(env: Env, n: nat): Option<ModelTurn> { if n == 0 then None else Some(env.model(n - 1)) }

  /** A run that goes on: it was answered, and each of its n requests has been paid for by a
      tool call or a one-shot flag. */
  predicate Going(last: Option<ModelTurn>, halt: Option<HaltCause>, n: nat, calls: nat, flags: nat) {
    && halt == None && n <= calls + flags
    && (last.Some? ==> !last.value.TransportError?)
  }

  /** What a run keeps between requests besides the state and the context. */
  datatype Locals = Locals(nudged: bool, edited: bool, searchNudges: nat)

  function Flags(l: Locals): nat { (if l.nudged then 1 else 0) + (if l.edited then 1 else 0) }

  /** Going round again has cost a tool call or one of the two one-shot flags. */
  predicate Progress(calls: nat, before: Locals, callsNow: nat, now: Locals) {
    calls <= callsNow && calls + Flags(before) < callsNow + Flags(now)
  }

  function HaltOf(kind: TransportKind): HaltCause {
    match kind
    case Overflow => ContextBudgetExhausted
    case StopRequested => StoppedByUser
    case Stalled => InferenceStalled
    case Unavailable => ServerUnavailable
  }

  datatype TurnEnd = Submitted(answer: string) | HaltedTurn | GoOn

  /** What a model that could not be asked means for the run. */
  predicate TransportTells(turn: ModelTurn, halt: Option<HaltCause>) {
    && (halt == Some(StoppedByUser) <==> turn == TransportError(StopRequested))
    && (halt == Some(InferenceStalled) <==> turn == TransportError(Stalled))
    && (halt == Some(ServerUnavailable) <==> turn == TransportError(Unavailable))
    && (turn == TransportError(Overflow) ==> halt == Some(ContextBudgetExhausted))
  }
  /** How a run went, by what was said and done: what the model answered last, what the completion
      controller made of that, what the run halted on, its calls, its claim, its answer, and
      whether an edit reminder was due. */
  datatype Ending = Ending(
    last: Option<ModelTurn>, completed: Option<string>, halt: Option<HaltCause>, calls: History,
    claim: Option<string>, answer: string, reminderDue: bool)

  /** The same, read off a run's n requests and its state. */
  function EndingOf(env: Env, n: nat, state: State, answer: string): Ending
    reads state
  {
    EndingWith(LastAnswer(env, n), if n == 0 then None else env.completion(n - 1), state, answer)
  }

  function EndingWith(last: Option<ModelTurn>, completed: Option<string>, state: State, answer: string): Ending
    reads state
  {
    Ending(last, completed, state.halt, state.history, state.claim, answer,
           NeedsEditReminder(state.toolset, state.history, state.mutationEpoch, state.claim))
  }

  /** What an ending says, where `most` is the tool budget and `limit` how often one call may be
      tried. Each halt has its cause, and a run that was not halted has an answer somebody gave. */
  predicate EndTells(e: Ending, most: nat, limit: nat) {
    && (e.halt == Some(StoppedByUser) <==> e.last == Some(TransportError(StopRequested)))
    && (e.halt == Some(InferenceStalled) <==> e.last == Some(TransportError(Stalled)))
    && (e.halt == Some(ServerUnavailable) <==> e.last == Some(TransportError(Unavailable)))
    && (e.last == Some(TransportError(Overflow)) ==> e.halt == Some(ContextBudgetExhausted))
    && (e.halt == Some(RepeatLoop) || e.halt == Some(UnknownTools) ==> HaltedBy(e.halt, e.calls, limit))
    && (e.halt == Some(BudgetExhausted) ==> |e.calls| >= most)
    && (e.halt == None ==>
          e.last.Some? && Concludes(e.last.value, e.completed, e.claim, e.answer, e.reminderDue))
  }

  lemma EndAfterRequest(e: Ending, turn: ModelTurn, most: nat, limit: nat)
    requires e.last == Some(turn) && TransportTells(turn, e.halt)
    requires e.halt.Some? ==> turn.TransportError? || HaltedBy(e.halt, e.calls, limit)
    requires e.halt == None ==> Concludes(turn, e.completed, e.claim, e.answer, e.reminderDue)
    ensures EndTells(e, most, limit)
  {
    if turn.TransportError? {
      match turn.kind
      case Overflow =>
      case StopRequested =>
      case Stalled =>
      case Unavailable =>
    }
  }

  /** A halt before a request leaves nothing to say of an answer. */
  lemma EndWithoutRequest(e: Ending, other: Ending, most: nat, limit: nat)
    requires EndTells(e, most, limit) && e.halt.Some? && other == e.(completed := other.completed)
    ensures EndTells(other, most, limit)
  {}
}
