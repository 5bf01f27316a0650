/** The pilot's frozen contracts (endpoints.py, ENGINEERING_CONTRACTS). */
module Pilot {
  import opened Endpoints

  const CLEAN_BUILD := EngineeringContract(["full build passed", "full test run passed"], [], true, [])
  const COMPILE_ERROR_LOCATE := EngineeringContract(
    ["observed the build fail"], ["named the file", "named the symbol", "cited the line"], false, [])
  const COMPILE_ERROR_FIX := EngineeringContract(
    ["applied a patch", "full build passed after the last edit"], ["named what was wrong"], true, [])
  const LINK_ERROR := EngineeringContract(
    ["observed the build fail"], ["named the symbol", "named the right file"], false, [])
  const TEST_FAILURE_DIAGNOSE := EngineeringContract(
    ["reproduced the failure"], ["named the test", "identified the predicate"], false, [])
  const TEST_FAILURE_FIX := EngineeringContract(
    ["applied a patch", "rebuilt after editing", "full test run passed after the last edit"],
    ["explained the fix"], true, [])
  const SEGFAULT := EngineeringContract(["reproduced the crash"], ["named the test", "identified the cause"], false, [])
  const TIMEOUT := EngineeringContract(
    ["reproduced the timeout"], ["named the test", "identified the cause"], false, [])
  const NAVIGATION := EngineeringContract(
    ["read or searched the repository"], ["named the header", "described the behaviour"], false, ["did not build"])
  const REVIEW_RESTRAINT := EngineeringContract(
    ["inspected the working tree"], ["did not invent findings"], false, ["did not modify the repository"])

  const ENGINEERING_CONTRACTS: Contracts := map[
    "clean-build" := CLEAN_BUILD,
    "compile-error-locate" := COMPILE_ERROR_LOCATE,
    "compile-error-fix" := COMPILE_ERROR_FIX,
    "link-error" := LINK_ERROR,
    "test-failure-diagnose" := TEST_FAILURE_DIAGNOSE,
    "test-failure-fix" := TEST_FAILURE_FIX,
    "segfault" := SEGFAULT,
    "timeout" := TIMEOUT,
    "navigation" := NAVIGATION,
    "review-restraint" := REVIEW_RESTRAINT]

  const ALL: seq<EngineeringContract> := [
    CLEAN_BUILD, COMPILE_ERROR_LOCATE, COMPILE_ERROR_FIX, LINK_ERROR, TEST_FAILURE_DIAGNOSE,
    TEST_FAILURE_FIX, SEGFAULT, TIMEOUT, NAVIGATION, REVIEW_RESTRAINT]

  predicate FreeOfFlags(c: EngineeringContract) { forall n :: n in Names(c) ==> n !in EFFICIENCY_FLAG_NAMES }

  lemma FrozenContractsIgnoreFlags()
    ensures IgnoresFlags(ENGINEERING_CONTRACTS)
  {
    forall i | 0 <= i < |ALL| ensures FreeOfFlags(ALL[i]) { FlagFree(i); }
    forall case_ | case_ in ENGINEERING_CONTRACTS ensures FreeOfFlags(ENGINEERING_CONTRACTS[case_]) {
      assert ENGINEERING_CONTRACTS[case_] in ALL;
    }
  }

  lemma FlagFree(i: nat)
    requires i < |ALL|
    ensures FreeOfFlags(ALL[i])
  {
    if i < 3 { FirstFlagFree(i); }
    else if i < 6 { MiddleFlagFree(i); }
    else if i < 8 { CrashFlagFree(i); }
    else { LastFlagFree(i); }
  }

  lemma FirstFlagFree(i: nat)
    requires i < 3
    ensures FreeOfFlags(ALL[i])
  {
    forall n | n in Names(ALL[i]) ensures n !in EFFICIENCY_FLAG_NAMES {}
  }

  lemma MiddleFlagFree(i: nat)
    requires 3 <= i < 6
    ensures FreeOfFlags(ALL[i])
  {
    forall n | n in Names(ALL[i]) ensures n !in EFFICIENCY_FLAG_NAMES {}
  }

  lemma CrashFlagFree(i: nat)
    requires 6 <= i < 8
    ensures FreeOfFlags(ALL[i])
  {
    forall n | n in Names(ALL[i]) ensures n !in EFFICIENCY_FLAG_NAMES {}
  }

  lemma LastFlagFree(i: nat)
    requires 8 <= i < |ALL|
    ensures FreeOfFlags(ALL[i])
  {
    forall n | n in Names(ALL[i]) ensures n !in EFFICIENCY_FLAG_NAMES {}
  }

  /** No efficiency flag gates the pilot's E1, E2 or E3. */
  lemma EfficiencyNeverGatesThePilot(row: Row, other: Row)
    requires AlikeButFlags(row, other)
    ensures EngineeringCorrect(ENGINEERING_CONTRACTS, other) == EngineeringCorrect(ENGINEERING_CONTRACTS, row)
    ensures ContractCompliant(ENGINEERING_CONTRACTS, other) == ContractCompliant(ENGINEERING_CONTRACTS, row)
    ensures VerifiedCompletion(ENGINEERING_CONTRACTS, other) == VerifiedCompletion(ENGINEERING_CONTRACTS, row)
  {
    FrozenContractsIgnoreFlags();
    EfficiencyNeverGates(ENGINEERING_CONTRACTS, row, other);
  }
}
