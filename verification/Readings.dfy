/** What the controller reads off a history before it lets a run end (orchestrator.py): edits
    proposed but never applied, and streaks of searching. */
module Readings {
  import opened Sequences
  import opened Json
  import opened AgentState

  function ToText(v: Json): string {
    match v
    case Str(s) => s
    case Null => "None"
    case Bool(b) => if b then "True" else "False"
    case _ => "<value>"
  }

  const PROPOSING_TOOLS := {"propose_patch", "propose_file"}
  const SEARCH_TOOLS := {"search_text", "find_definition"}
  const NO_EDIT_CLAIMS := {"failure", "diagnosis", "needs_action"}
  const SEARCH_STREAK_NUDGE: nat := 4

  predicate Applies(r: CallRecord, patchId: string) {
    r.name == "apply_patch" && r.ok == Some(true) && Get(r.arguments, "patch_id") == Str(patchId)
  }

  /** The latest successful proposal that no later apply_patch applied. */
  function UnappliedProposal(h: History, end: nat): Option<string>
    requires end <= |h|
  {
    if end == 0 then None
    else
      var r := h[end - 1];
      if r.name !in PROPOSING_TOOLS || r.ok != Some(true) then UnappliedProposal(h, end - 1)
      else
        var id := Get(r.evidence, "patch_id");
        if !id.Str? || id.s == [] then None
        else if exists k :: end <= k < |h| && Applies(h[k], id.s) then None
        else Some(id.s)
  }

  /** Is this worker finishing an editing task without an applied edit? */
  predicate NeedsEditReminder(toolset: seq<string>, h: History, epoch: nat, claim: Option<string>) {
    if toolset != [] && "apply_patch" !in toolset then false
    else if UnappliedProposal(h, |h|).Some? then true
    else toolset != [] && epoch == 0 && !(claim.Some? && claim.value in NO_EDIT_CLAIMS)
  }

  function SearchStreak(h: History): nat {
    if h == [] || h[|h| - 1].name !in SEARCH_TOOLS then 0 else 1 + SearchStreak(h[..|h| - 1])
  }

  // ------------------------------------------------------------- what they mean

  /** A successful proposal of an edit. */
  predicate Proposed(r: CallRecord) {
    (r.name == "propose_patch" || r.name == "propose_file") && r.ok == Some(true)
  }

  /** Call k is the last proposal before `end`, it gave the edit this id, and no later call
      applied it. */
  predicate Unapplied(h: History, end: nat, k: nat, id: string)
    requires end <= |h|
  {
    && k < end && Proposed(h[k]) && (forall j :: k < j < end ==> !Proposed(h[j]))
    && id != [] && Get(h[k].evidence, "patch_id") == Str(id)
    && forall j :: k < j < |h| && h[j].name == "apply_patch" && h[j].ok == Some(true) ==>
         Get(h[j].arguments, "patch_id") != Str(id)
  }

  lemma {:induction false} UnappliedExactly(h: History, end: nat, id: string)
    requires end <= |h| && forall j :: end <= j < |h| ==> !Proposed(h[j])
    ensures UnappliedProposal(h, end) == Some(id) <==> exists k: nat :: Unapplied(h, end, k, id)
  {
    if end > 0 {
      var r := h[end - 1];
      if Proposed(r) {
        LastProposal(h, end, id);
      } else {
        var before := end - 1;
        UnappliedExactly(h, before, id);
        if k: nat :| Unapplied(h, before, k, id) { assert Unapplied(h, end, k, id); }
        if k: nat :| Unapplied(h, end, k, id) { assert Unapplied(h, before, k, id); }
      }
    }
  }

  lemma LastProposal(h: History, end: nat, id: string)
    requires 0 < end <= |h| && Proposed(h[end - 1])
    ensures UnappliedProposal(h, end) == Some(id) <==> exists k: nat :: Unapplied(h, end, k, id)
  {
    var last := end - 1;
    assert forall k: nat :: Unapplied(h, end, k, id) ==> k == last;
    if UnappliedProposal(h, end) == Some(id) {
      forall j | last < j < |h| && h[j].name == "apply_patch" && h[j].ok == Some(true)
        ensures Get(h[j].arguments, "patch_id") != Str(id)
      {
        assert !Applies(h[j], id);
      }
      assert Unapplied(h, end, last, id);
    }
    if Unapplied(h, end, last, id) {
      forall k | end <= k < |h| ensures !Applies(h[k], id) {}
    }
  }

  /** A run that may apply patches is reminded exactly when its last proposal was never applied, or
      when it was given tools, changed nothing, and does not claim that nothing was to change. */
  lemma ReminderExactly(toolset: seq<string>, h: History, epoch: nat, claim: Option<string>)
    ensures NeedsEditReminder(toolset, h, epoch, claim) <==>
              && (toolset == [] || "apply_patch" in toolset)
              && ( || (exists k: nat, id: string :: Unapplied(h, |h|, k, id))
                   || (toolset != [] && epoch == 0
                       && claim != Some("failure") && claim != Some("diagnosis") && claim != Some("needs_action")))
  {
    if UnappliedProposal(h, |h|).Some? { UnappliedExactly(h, |h|, UnappliedProposal(h, |h|).value); }
    if k: nat, id: string :| Unapplied(h, |h|, k, id) { UnappliedExactly(h, |h|, id); }
  }

  predicate Searched(r: CallRecord) { r.name == "search_text" || r.name == "find_definition" }

  /** The streak is the number of searches at the end of the history. */
  lemma {:induction false} StreakExactly(h: History)
    ensures var n := SearchStreak(h);
            && n <= |h| && (forall i :: |h| - n <= i < |h| ==> Searched(h[i]))
            && (n < |h| ==> !Searched(h[|h| - n - 1]))
  {
    if h != [] && Searched(h[|h| - 1]) { StreakExactly(h[..|h| - 1]); }
  }
}
