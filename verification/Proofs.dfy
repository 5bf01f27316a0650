/** One definition of what a tool call proves (verification.py, build_arguments.py). */
module Proofs {
  import opened Json

  datatype ProofKind =
    | FullBuildPass | FullTestPass
    | ObservedBuildFail | ObservedTestFail
    | TargetedBuildPass | TargetedTestPass
    | NoCurrentProof

  datatype Execution = ExecOk | ExecBlocked | ExecError

  datatype Domain = Pass | Fail | Unknown

  const VERIFYING_TOOLS := {"build_target", "run_test"}
  const CURRENT_TREE_PROOFS := {FullBuildPass, FullTestPass}
  const CONTRADICTS_CURRENT_TREE := {ObservedBuildFail, ObservedTestFail}
  const INVALIDATING_EVIDENCE := {"stale_sources", "profile_mismatch", "build_profile_mismatch", "no_build_record"}

  predicate Alphanumeric(c: char) {
    'a' <= c <= 'z' || 'A' <= c <= 'Z' || '0' <= c <= '9'
  }

  /** One target name: letters, digits and the punctuation "_-.", with at least one letter or digit. */
  predicate ValidBuildTarget(v: Json) {
    && v.Str?
    && (forall i :: 0 <= i < |v.s| ==> Alphanumeric(v.s[i]) || v.s[i] in "_-.")
    && (exists i :: 0 <= i < |v.s| && Alphanumeric(v.s[i]))
  }

  predicate NarrowedTest(arguments: Fields) {
    Truthy(Get(arguments, "name_filter")) || Truthy(Get(arguments, "rerun_failed"))
  }

  predicate RanNoTest(evidence: Fields) {
    var totals := Get(evidence, "totals");
    totals.Dict? && "total" in totals.fields && !Truthy(totals.fields["total"])
  }

  predicate Invalidated(evidence: Fields) {
    exists key :: key in INVALIDATING_EVIDENCE && Truthy(Get(evidence, key))
  }

  function ClassifyBuild(arguments: Fields, domain: Domain): ProofKind {
    if domain == Fail then ObservedBuildFail
    else if domain != Pass then NoCurrentProof
    else if "target" !in arguments then FullBuildPass
    else if ValidBuildTarget(arguments["target"]) then TargetedBuildPass
    else NoCurrentProof
  }

  function ClassifyTest(arguments: Fields, domain: Domain, evidence: Fields): ProofKind {
    if domain == Fail then ObservedTestFail
    else if domain != Pass then NoCurrentProof
    else if Invalidated(evidence) then NoCurrentProof
    else if RanNoTest(evidence) then NoCurrentProof
    else if NarrowedTest(arguments) then TargetedTestPass
    else FullTestPass
  }

  function ClassifyProof(name: string, arguments: Fields, execution: Execution, domain: Domain,
                         evidence: Fields): ProofKind {
    if name !in VERIFYING_TOOLS then NoCurrentProof
    else if execution != ExecOk then NoCurrentProof
    else if name == "build_target" then ClassifyBuild(arguments, domain)
    else ClassifyTest(arguments, domain, evidence)
  }

  /** Exactly which calls entitle anything to say the current tree is good. */
  lemma CurrentTreeProofExactly(name: string, arguments: Fields, execution: Execution, domain: Domain, evidence: Fields)
    ensures ClassifyProof(name, arguments, execution, domain, evidence) in CURRENT_TREE_PROOFS <==>
      && execution == ExecOk && domain == Pass
      && ( || (name == "build_target" && "target" !in arguments)
           || ( && name == "run_test"
                && !Truthy(Get(arguments, "name_filter")) && !Truthy(Get(arguments, "rerun_failed"))
                && !( && Get(evidence, "totals").Dict? && "total" in Get(evidence, "totals").fields
                      && !Truthy(Get(evidence, "totals").fields["total"]))
                && !Truthy(Get(evidence, "stale_sources")) && !Truthy(Get(evidence, "profile_mismatch"))
                && !Truthy(Get(evidence, "build_profile_mismatch")) && !Truthy(Get(evidence, "no_build_record"))))
  {}

  /** Exactly which calls say the current tree is bad. */
  lemma ContradictionExactly(name: string, arguments: Fields, execution: Execution, domain: Domain, evidence: Fields)
    ensures ClassifyProof(name, arguments, execution, domain, evidence) in CONTRADICTS_CURRENT_TREE
        <==> (name == "build_target" || name == "run_test") && execution == ExecOk && domain == Fail
  {}

  /** Narrowing weakens a pass but never a failure: two calls of one tool that differ only in
      arguments and evidence contradict the tree together, and one that asks for less than the
      whole never proves it. */
  lemma NarrowingAsymmetry(name: string, a: Fields, b: Fields, execution: Execution, domain: Domain, ea: Fields,
                           eb: Fields)
    ensures ClassifyProof(name, a, execution, domain, ea) in CONTRADICTS_CURRENT_TREE
        <==> ClassifyProof(name, b, execution, domain, eb) in CONTRADICTS_CURRENT_TREE
    ensures (name == "build_target" && "target" in a) || (name == "run_test" && NarrowedTest(a)) ==>
              ClassifyProof(name, a, execution, domain, ea) !in CURRENT_TREE_PROOFS
  {}
}
