/** What the model may call (policy.py), and how a finished run is counted (outcome.py). */
module Policy {

  datatype Risk = Read | Write | Execute | Dangerous | Forbidden

  datatype Verdict = Allow | Approve | Deny

  datatype Permissions = Permissions(allowBuild: bool, allowTest: bool, allowPatch: bool, allowCommit: bool)

  datatype Tool = Tool(name: string, risk: Risk)

  const HISTORY_MUTATING := {"git_stage", "git_commit"}

  function Check(policy: Permissions, tool: Tool, speculative: bool): Verdict {
    if speculative && tool.name in HISTORY_MUTATING then Deny
    else match tool.risk
      case Forbidden => Deny
      case Read => Allow
      case Execute =>
        if tool.name in {"build_target", "configure_project"} && !policy.allowBuild then Deny
        else if tool.name in {"run_test", "list_tests"} && !policy.allowTest then Deny
        else Allow
      case Write => if policy.allowPatch then Approve else Deny
      case Dangerous =>
        if tool.name == "apply_patch" && !policy.allowPatch then Deny
        else if tool.name in {"git_stage", "git_commit"} && !policy.allowCommit then Deny
        else Approve
  }

  /** Speculation only tightens: the verdict is the final attempt's verdict, except that
      staging and committing become impossible. */
  lemma SpeculationOnlyTightens(policy: Permissions, tool: Tool)
    ensures Check(policy, tool, true)
         == if tool.name in HISTORY_MUTATING then Deny else Check(policy, tool, false)
  {}

  /** Nothing that can change the tree or its history runs unasked. */
  lemma UnaskedIsHarmless(policy: Permissions, tool: Tool, speculative: bool)
    requires Check(policy, tool, speculative) == Allow
    ensures tool.risk == Read || tool.risk == Execute
  {}

  /** The operator's switches are final: exactly when a call is denied outright. */
  lemma DeniedExactly(policy: Permissions, tool: Tool, speculative: bool)
    ensures Check(policy, tool, speculative) == Deny <==>
      || tool.risk == Forbidden
      || (speculative && (tool.name == "git_stage" || tool.name == "git_commit"))
      || (tool.risk == Execute && tool.name in {"build_target", "configure_project"} && !policy.allowBuild)
      || (tool.risk == Execute && tool.name in {"run_test", "list_tests"} && !policy.allowTest)
      || (tool.risk == Write && !policy.allowPatch)
      || (tool.risk == Dangerous && tool.name == "apply_patch" && !policy.allowPatch)
      || (tool.risk == Dangerous && (tool.name == "git_stage" || tool.name == "git_commit") && !policy.allowCommit)
  {}

  /** And of the calls not denied, reading and executing go ahead; writing and whatever is
      dangerous wait for the operator. */
  lemma AskedExactly(policy: Permissions, tool: Tool, speculative: bool)
    requires Check(policy, tool, speculative) != Deny
    ensures Check(policy, tool, speculative) == Allow <==> tool.risk == Read || tool.risk == Execute
    ensures Check(policy, tool, speculative) == Approve <==> tool.risk == Write || tool.risk == Dangerous
  {}

  datatype Outcome = Passed | EscalatedPass | EscalatedFail | Failed | Blocked

  function Classify(succeeded: bool, escalated: bool, escalationAvailable: bool, blocked: bool): Outcome {
    if blocked && !succeeded then Blocked
    else if escalated then (if succeeded then EscalatedPass else EscalatedFail)
    else if succeeded then Passed
    else if !escalationAvailable then Failed
    else EscalatedFail
  }

  /** A success is counted as one, at its tier; a blocked run that did not succeed is no
      failure; failing is final only where nothing could be escalated to. */
  lemma OutcomeExactly(succeeded: bool, escalated: bool, escalationAvailable: bool, blocked: bool)
    ensures var outcome := Classify(succeeded, escalated, escalationAvailable, blocked);
            && (outcome in {Passed, EscalatedPass} <==> succeeded)
            && (outcome == Blocked <==> blocked && !succeeded)
            && (outcome == Failed <==> !succeeded && !blocked && !escalated && !escalationAvailable)
            && (outcome in {Passed, Failed} ==> !escalated)
  {}
}
