/** What the controller's counts over a history mean, and what they keep a run from (orchestrator.py). */
module Discipline {
  import opened Sequences
  import opened Json
  import opened AgentState

  /** The handler ran: the call was allowed, or the operator approved it. */
  predicate Ran(r: CallRecord) { r.verdict in {Auto, Approved} }

  // ------------------------------------------------------------------ counting

  /** The call is this one, tried against this tree. */
  function SameCall(name: string, arguments: Fields, epoch: nat): CallRecord -> bool {
    (r: CallRecord) => r.name == name && r.arguments == arguments && r.epoch == epoch
  }

  lemma {:induction false} RepeatsCount(h: History, name: string, arguments: Fields, epoch: nat)
    ensures Repeats(h, name, arguments, epoch) == |Filter(SameCall(name, arguments, epoch), h)|
  {
    if h != [] {
      RepeatsCount(h[..|h| - 1], name, arguments, epoch);
      FilterLast(SameCall(name, arguments, epoch), h);
    }
  }

  function NotToBeHad(): CallRecord -> bool { (r: CallRecord) => r.verdict == UnknownCall }

  lemma {:induction false} UnknownCallsCount(h: History)
    ensures UnknownCalls(h) == |Filter(NotToBeHad(), h)|
  {
    if h != [] {
      UnknownCallsCount(h[..|h| - 1]);
      FilterLast(NotToBeHad(), h);
    }
  }

  /** The run was halted over the last call of its history: the call repeats what was tried
      `limit` times against the same tree, or it is the third for a tool that is not to be had. */
  predicate HaltedBy(halt: Option<HaltCause>, h: History, limit: nat) {
    && h != []
    && var last := h[|h| - 1];
       || (halt == Some(RepeatLoop) && last.verdict == Pending
           && Repeats(h[..|h| - 1], last.name, last.arguments, last.epoch) >= limit)
       || (halt == Some(UnknownTools) && last.verdict == UnknownCall && UnknownCalls(h) >= 3)
  }

  // ------------------------------------------------------------ repeated calls

  /** No call ran that had been tried `limit` times before against the same tree. */
  ghost predicate Disciplined(limit: nat, h: History) {
    forall i :: 0 <= i < |h| && Ran(h[i]) ==> Repeats(h[..i], h[i].name, h[i].arguments, h[i].epoch) < limit
  }

  lemma OneMoreRun(limit: nat, h: History, r: CallRecord)
    requires Disciplined(limit, h) && (Ran(r) ==> Repeats(h, r.name, r.arguments, r.epoch) < limit)
    ensures Disciplined(limit, h + [r])
  {
    var h' := h + [r];
    forall i | 0 <= i < |h'| && Ran(h'[i]) ensures Repeats(h'[..i], h'[i].name, h'[i].arguments, h'[i].epoch) < limit {
      assert h'[..i] == if i == |h| then h else h[..i];
    }
  }

  function RanSame(name: string, arguments: Fields, epoch: nat): CallRecord -> bool {
    (r: CallRecord) => Ran(r) && r.name == name && r.arguments == arguments && r.epoch == epoch
  }

  /** In a disciplined history no call runs more than `limit` times against the same tree. */
  lemma {:induction false} RunsAtMost(limit: nat, h: History, name: string, arguments: Fields, epoch: nat)
    requires Disciplined(limit, h)
    ensures |Filter(RanSame(name, arguments, epoch), h)| <= limit
  {
    if h != [] {
      var rest := h[..|h| - 1];
      FilterLast(RanSame(name, arguments, epoch), h);
      FilterMonotone(RanSame(name, arguments, epoch), SameCall(name, arguments, epoch), rest);
      RepeatsCount(rest, name, arguments, epoch);
      Earlier(limit, h);
      RunsAtMost(limit, rest, name, arguments, epoch);
    }
  }

  lemma Earlier(limit: nat, h: History)
    requires Disciplined(limit, h) && h != []
    ensures Disciplined(limit, h[..|h| - 1])
  {
    var rest := h[..|h| - 1];
    forall i | 0 <= i < |rest| && Ran(rest[i])
      ensures Repeats(rest[..i], rest[i].name, rest[i].arguments, rest[i].epoch) < limit
    {
      assert rest[..i] == h[..i];
    }
  }
}
