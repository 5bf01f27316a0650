# Local Code Agent: verified models of its controller, serving and evaluation logic

The repository is a coding agent run by a deterministic controller, with the tooling that
serves models to it, evaluates it and runs its test suite. This project models the parts of
that code whose promises span many calls or many steps, and proves those promises for every
input, every run or every reachable state.

| file | what it models |
|---|---|
| `Shards.dfy`, `ShardBounds.dfy`, `Weights.dfy` | longest-first placement of test units onto CI shards, Graham's bound on it, the runners that each keep one shard, and what a unit weighs in terms of the recorded times |
| `NodeIds.dfy` | JUnit class names back to pytest node ids |
| `Proofs.dfy`, `Policy.dfy`, `AgentState.dfy` | what a tool call proves, what may be called, and the flags of a run as facts about its history |
| `Discipline.dfy`, `Readings.dfy` | what the controller counts and reads off a history: repeats, unusable calls, searches, edits proposed but never applied |
| `Journal.dfy`, `Workspace.dfy` | journalled writes and undoing them |
| `Context.dfy` | the append-only request context and its compaction |
| `Orchestrator.dfy`, `Escalation.dfy` | the run loop against an adversarial model, operator and tools; escalation and rollback |
| `Serving.dfy`, `ManagedRuntime.dfy` | server ownership as an interleaved step system, and reuse, replacement or start on top of it |
| `Endpoints.dfy`, `Draws.dfy`, `Analysis.dfy`, `Pilot.dfy` | the pre-registered endpoints, the rows that decide, the decisions, and the frozen contracts |
| `Producer.dfy`, `Pipeline.dfy` | the suite loop, and that the analysis accepts what it writes |
| `Oracle.dfy` | snapshot, comparison and restoration of the expected truth |
| `Versions.dfy`, `Toml.dfy`, `Continuity.dfy` | version specifiers, TOML strings, chained endpoint continuity |
| `Sequences.dfy`, `Json.dfy`, `PythonText.dfy` | shared datatypes and list facts, JSON values, Python's white space |

Code that changes state step by step is a class with methods or a loop, proved against a
specification function or predicate; code made of expressions is functions. Everything the
code cannot control is an input: the model, the operator, tool results and readiness answers
are arbitrary functions of how many calls came before, process deaths and reuse of process
ids are steps of the system.

`dafny verify dfyconfig.toml` checks the whole project.

## Where the code and its documentation differ

The models follow the code; each difference has a lemma with a concrete input and the exact
condition, or a proved statement.

- Undoing the journal is documented to leave alone a file that is not what was last written.
  The code also restores over a file that equals an older recorded version
  (`Journal.OlderVersionIsClobbered`, `Journal.LeftAloneExactly`).
- The evaluator's full-build check can accept a run whose `verified` flag was withdrawn by a
  later failing test on the same tree (`AgentState.EvaluatorDisagrees`,
  `AgentState.ProofStandsExactly`).
- A controller that dies between launching a server and recording it leaves a server no later
  start can see (`Serving.CrashBeforeRecordBreaksIt`). Such a crash breaks the ownership
  promise exactly when the child still runs (`Serving.UnrecordedCrashExactly`); every other
  crash is harmless.
- A class named like a test module breaks the node-id round trip (`NodeIds.NodeIdRoundTrip`).
- Ensuring a managed runtime never answers "not healthy": start returns only healthy states
  (`ManagedRuntime.Host.Ensure`).
- The `~=` operator accepts a one-component target, which PEP 440 forbids
  (`Versions.CompatibleRelease`).
- The suite loop takes any repeat of at least one and any limit of at least repeat. The
  analysis accepts whatever it then collects exactly when repeat is at most three and the
  limit at most five (`Producer.AcceptedExactly`).

Two limits that no documentation contradicts: the tool budget is checked between responses, so
one response with several calls can go past it, by less than its own length
(`Orchestrator.Orchestrator.RunOnce`). The persistent session itself runs out of prompt
prefixes beyond 59 turns (`Continuity.PersistentSession`); the command line refuses exactly
those numbers of turns (internal/perf/endpoint_harness.py:750-751), so it never gets there.

## Model

| member | source | states |
|---|---|---|
| `ShardBounds.LptBound` | internal/devtools/ci_shards.py:70-88 | Graham's bound in a plan's own weight table: against any other partition of the same units into m shards with makespan T, every load L of the plan satisfies 3·m·L ≤ (4m − 1)·T, for all units, recorded weights and m |
| `Weights.RecordedBound` | internal/devtools/ci_shards.py:70-88 | the same bound on the recorded times themselves, for a suite whose files are all recorded at 0.05 or more: 3·m·L ≤ (4m − 1)·T with L and T sums of recorded times |
| `Weights.WeightExactly` | internal/devtools/ci_shards.py:74-80 | a recorded weight of at least 0.05 is the unit's weight, a smaller one counts as 0.05, and with nothing recorded every unit weighs 1 |
| `Weights.UnrecordedWeight` | internal/devtools/ci_shards.py:74-80 | an unrecorded unit weighs halfway between two values of which one has fewer than half of the known weights below it and at least half up to it, and the other likewise from above, never less than 0.05 |
| `Weights.MedianSplits` | internal/devtools/ci_shards.py:74-75 | the median characterised by counting values on both sides, for any list |
| `Weights.HeaviestFirst` | internal/devtools/ci_shards.py:84 | of any two units in the plan's order the earlier is heavier, or as heavy with the name that comes first |
| `ShardBounds.SimplerBound` | internal/devtools/ci_shards.py:70-88 | the weaker bound 2·m·L ≤ (3m − 1)·T follows |
| `ShardBounds.LastUnitBalance` | internal/devtools/ci_shards.py:82-88 | a shard's load without its last-placed unit is at most every other shard's load |
| `ShardBounds.LargeUnitFits` | internal/devtools/ci_shards.py:84-87 | a unit longer than a third of the rival makespan always still fits below that makespan where the plan puts it |
| `ShardBounds.RoomForNext` | internal/devtools/ci_shards.py:84-87 | whatever the unit, m times the least load plus the unit is within m times the rival makespan |
| `ShardBounds.RunnersCoverSuite` | conftest.py:28-42 | N runners that collected the same items in any orders: each item is kept by exactly one shard, as often as it was collected |
| `Shards.Plan` | internal/devtools/ci_shards.py:70-88 | refused exactly for a count below one; otherwise the loops over shards and loads produce the specified placement |
| `Shards.PlaceAll` | internal/devtools/ci_shards.py:82-88 | the loop over two parallel lists equals placing the units of the order one by one on the preferred shard |
| `Shards.TargetAmong` | internal/devtools/ci_shards.py:85 | the chosen shard is preferred to every other by (load, number of units, index) |
| `Shards.TargetLeast` | internal/devtools/ci_shards.py:85 | the chosen shard is strictly ahead of every other: a smaller load, or the same load and fewer units, or the same of both and a smaller index |
| `Shards.StrLessExactly` | internal/devtools/ci_shards.py:84 | names are compared by their first differing character, a prefix coming first |
| `Shards.Sorted` | internal/devtools/ci_shards.py:84 | every unit once, strictly ordered by (−weight, name) |
| `Shards.OrderedUnique` | internal/devtools/ci_shards.py:84 | that order leaves no choice: only one ordered list holds a given set of names |
| `Shards.SortReals` | internal/devtools/ci_shards.py:74-75 | a nondecreasing rearrangement of its input, the basis of the median |
| `Shards.MedianPermutation` | internal/devtools/ci_shards.py:74-75 | the median of the known weights does not depend on their order |
| `Shards.TablePermutation` | internal/devtools/ci_shards.py:74-80 | neither does any unit's weight |
| `Shards.PlanPartitions` | internal/devtools/ci_shards.py:70-88 | the plan holds every unit exactly once and nothing else |
| `Shards.PlanPermutation` | internal/devtools/ci_shards.py:70-88 | the plan does not depend on the order the files were collected in |
| `NodeIds.NodeIdRoundTrip` | internal/devtools/ci_shards.py:104-118 | a test's JUnit class name and name give back its node id exactly when no class around it is named like a test module |
| `NodeIds.RoundTripHolds` | internal/devtools/ci_shards.py:104-118 | the direction the recorded weights rely on |
| `NodeIds.RoundTripFails` | internal/devtools/ci_shards.py:104-118 | a class named test_… or conftest always yields a different node id |
| `NodeIds.NoModule` | internal/devtools/ci_shards.py:104-110 | a class name without any module part is read as one path |
| `NodeIds.ModuleEnd` | internal/devtools/ci_shards.py:104-110 | finds the last part that names a test module, or none |
| `NodeIds.RecordedUnit` | internal/devtools/ci_shards.py:52-55 | a recorded weight lands on the unit the plan looks up |
| `NodeIds.SplitJoin` | internal/devtools/ci_shards.py:104-118 | splitting undoes joining for parts without the separator |
| `Proofs.CurrentTreeProofExactly` | internal/local_agent/verification.py:102-157 | exactly which calls prove the current tree, field by field: a passing build without a target, or a passing test run without filter or rerun, with tests run and none of the four invalidating marks |
| `Proofs.NarrowingAsymmetry` | internal/local_agent/verification.py:61-78 | narrowing a call weakens a pass but never a failure |
| `Policy.SpeculationOnlyTightens` | internal/local_agent/agent/policy.py:68-107 | a speculative attempt gets the same verdicts, except that staging and committing are denied |
| `Policy.DeniedExactly` | internal/local_agent/agent/policy.py:68-107 | exactly which calls are denied outright, tool by tool and switch by switch |
| `Policy.AskedExactly` | internal/local_agent/agent/policy.py:68-107 | of the others, reading and executing go ahead, writing and dangerous tools wait for approval |
| `Policy.OutcomeExactly` | internal/local_agent/agent/outcome.py:51-65 | how a finished run is counted: a success at its tier, blocked exactly without success, failed only where nothing could be escalated to |
| `AgentState.State.Record` | internal/local_agent/agent/state.py:335-337 | one row more and one tool call more |
| `AgentState.State.NoteMutation` | internal/local_agent/agent/state.py:368-371 | a new epoch, and nothing verified |
| `AgentState.State.NoteProof` | internal/local_agent/agent/orchestrator.py:1117-1140 | a whole pass sets the flag, an observed failure takes it back, an observed run counts as an attempt |
| `AgentState.State.RecordResult` | internal/local_agent/agent/orchestrator.py:1093-1148 | after any result the flags are again exactly what the history says |
| `AgentState.State.RecordInert` | internal/local_agent/agent/orchestrator.py:978-1063 | a call that never reached its handler counts and leaves every flag true to the history |
| `AgentState.FlagsAfterResult` | internal/local_agent/agent/orchestrator.py:1103-1148 | the step behind it: epoch = number of mutations, verified ⇔ a proof stands, attempted ⇔ something was observed |
| `AgentState.StandsAppend` | internal/local_agent/agent/orchestrator.py:1122-1139 | when a proof stands after one more record |
| `AgentState.NothingStandsAfterMutation` | internal/local_agent/agent/orchestrator.py:1147-1148 | in a new epoch nothing is proved |
| `AgentState.ProofStandsExactly` | internal/evaluation/task_contracts.py:57-108 | the controller's flag against the evaluator's reading of the same history: a proof stands exactly when the evaluator finds one at this epoch and the last verdict on the tree is no failure |
| `AgentState.EvaluatorReadsProofs` | internal/evaluation/task_contracts.py:57-108 | the two evaluator checks together ask for a full-build or full-test proof at the current epoch |
| `AgentState.EvaluatorDisagrees` | internal/evaluation/task_contracts.py:57-67 | a concrete history the evaluator's build check accepts and the controller does not |
| `AgentState.VerifiedByCalls` | internal/local_agent/agent/orchestrator.py:1103-1148 | the verified flag in terms of the calls alone: it holds exactly when some call passed the whole tree, no later build or test failed, and neither that call nor a later one succeeded with a tool registered as writing or dangerous |
| `AgentState.AttemptedByCalls` | internal/local_agent/agent/orchestrator.py:1117-1121 | the attempted flag: exactly when some build or test gave a verdict |
| `AgentState.PatchWithdraws` | internal/local_agent/agent/orchestrator.py:1147-1148 | an applied patch leaves the flag false until a later call passes the whole tree |
| `AgentState.SameEpochSince` | internal/local_agent/agent/state.py:368-371 | the epoch is the same as at an earlier point exactly when no call since changed the tree |
| `Discipline.RunsAtMost` | internal/local_agent/agent/orchestrator.py:996-1009 | in any history a run leaves, no call reaches its handler more than max_repeat_calls times with the same arguments against the same tree |
| `Discipline.RepeatsCount` | internal/local_agent/agent/state.py:360-366 | the repeat count is the number of earlier rows equal in name, arguments and epoch |
| `Discipline.UnknownCallsCount` | internal/local_agent/agent/orchestrator.py:1155-1156 | the count that stops a run is the number of calls it could not use |
| `Readings.UnappliedExactly` | internal/local_agent/agent/orchestrator.py:70-90 | a proposal is unapplied exactly when it is the latest successful one, carries an id, and no later apply_patch with that id succeeded |
| `Readings.ReminderExactly` | internal/local_agent/agent/orchestrator.py:109-127 | exactly when a worker is reminded of an edit: it may apply patches, and its last proposal was never applied, or it was given tools, changed nothing and claims neither failure, diagnosis nor needed action |
| `Readings.StreakExactly` | internal/local_agent/agent/orchestrator.py:137-143 | the search streak is the number of searches the history ends with |
| `Journal.MutationJournal.RecordWrite` | internal/local_agent/agent/journal.py:122-123 | appends the write with what was there before, nothing else |
| `Journal.MutationJournal.RecordIrreversible` | internal/local_agent/agent/journal.py:125-127 | appends the description, nothing else |
| `Journal.MutationJournal.Revert` | internal/local_agent/agent/journal.py:138-170 | the backward loop equals undoing the entries newest first; entries are forgotten exactly when none was skipped |
| `Journal.RevertRestoresStart` | internal/local_agent/agent/journal.py:138-170 | with every write journalled and no other writer: the starting files exactly, nothing skipped |
| `Journal.JournalWrite` | internal/local_agent/agent/journal.py:122-123 | a write recorded with the content it found keeps the journal complete |
| `Journal.UndoIsPerPath` | internal/local_agent/agent/journal.py:148-161 | undoing treats each path by itself, whatever was edited elsewhere |
| `Journal.RevertWithOutsideEdits` | internal/local_agent/agent/journal.py:138-161 | despite outside edits: a path nobody else wrote returns to its first recorded content, a path never journalled is untouched |
| `Journal.RevertWritesExactly` | internal/local_agent/agent/journal.py:148-161 | a path is written exactly when its content is one of the journal's own versions; otherwise it is left as found |
| `Journal.OlderVersionIsClobbered` | internal/local_agent/agent/journal.py:138-145 | the documented promise about files that are not what was last written fails on a concrete journal |
| `Journal.LeftAloneExactly` | internal/local_agent/agent/journal.py:138-161 | the exact condition under which it holds |
| `Journal.SkippedExactly` | internal/local_agent/agent/journal.py:148-156 | why a path that holds no recorded version is skipped: unreadable exactly when the file is gone, somebody else's exactly when it is there |
| `Context.ContextManager.Append` | internal/local_agent/agent/context.py:194-195 | the message is added; overhead, compactions and last request stay |
| `Context.ContextManager.SetToolSchemas` | internal/local_agent/agent/context.py:208-219 | overhead never falls and covers the serialized schemas |
| `Context.ContextManager.ObservePromptTokens` | internal/local_agent/agent/context.py:221-228 | overhead never falls and covers what the server measured |
| `Context.ContextManager.ForRequest` | internal/local_agent/agent/context.py:294-297 | the request extends the previous one unless a compaction came between, and always agrees with it below the first touched message |
| `Context.ContextManager.CollapseUntil` | internal/local_agent/agent/context.py:263-280 | the loop collapses exactly the tool results up to where it stops, counts them, and stops for one of its three reasons |
| `Context.ContextManager.Compact` | internal/local_agent/agent/context.py:242-292 | afterwards the request fits or every tool result is collapsed; nothing happens exactly when that already held; read back, every tool result before the stopping point has its old ok, summary and artifacts and is marked collapsed, or the first 200 characters if it could not be read, and every other message is untouched; the event records what was done |
| `Context.WalkSettles` | internal/local_agent/agent/context.py:253-280 | why: a walk that stopped rightly leaves nothing to do, whatever the lengths of the collapsed payloads |
| `Context.CollapseIsFinal` | internal/local_agent/agent/context.py:136-156 | a collapsed result reads as collapsed and keeps role, id and name |
| `Context.CollapseBeforeMeans` | internal/local_agent/agent/context.py:136-156 | what collapsing leaves, message by message, read back through the codec: the old ok, summary and artifacts, or the first 200 characters of what could not be read |
| `Context.EstimateAddsUp` | internal/local_agent/agent/context.py:122-133 | the estimate adds up over messages, counts content and tool calls, and is four characters a token rounded down |
| `Context.RecentExactly` | internal/local_agent/agent/context.py:253-269 | a tool result is recent exactly when it is among the last keep_recent of them |
| `Context.TargetExactly` | internal/local_agent/agent/context.py:253-254 | the target is the given share of the budget less the overhead, in whole tokens, not below zero |
| `Context.CollapsedAt` | internal/local_agent/agent/context.py:265-278 | message by message, what a compaction changed |
| `Context.OnlyToolContentChanges` | internal/local_agent/agent/context.py:265-278 | order, roles, ids and every message that is no tool result are unchanged |
| `Context.StablePrefix` | internal/local_agent/agent/context.py:277 | below the first touched message nothing changes |
| `Context.StopsAfterProgress` | internal/local_agent/agent/context.py:265-269 | stopping to keep recent results means something was collapsed |
| `Context.TargetFits` | internal/local_agent/agent/context.py:253-254 | a request that met the hysteresis target is within the budget |
| `Context.CompactionsBounded` | internal/local_agent/agent/context.py:285-291 | compactions never outnumber the tool results appended |
| `Context.Drive` | internal/local_agent/agent/context.py:194-297 | over any sequence of operations: requests with no compaction between them extend each other, messages below the smallest recorded index are as appended, every other one is as appended or the summary of what was, overhead never falls |
| `Workspace.Space.Apply` | internal/local_agent/agent/journal.py:122-127 | only apply_patch writes, through the journal; only git_stage and git_commit change the index or history; a commit is journalled as irreversible |
| `Workspace.Space.Restore` | internal/local_agent/agent/orchestrator.py:549-574 | puts back exactly the starting files and empties the journal |
| `Orchestrator.Orchestrator.RefusedRecord` | internal/local_agent/agent/orchestrator.py:963-1063 | every refused call leaves a row that proves and observes nothing |
| `Orchestrator.Orchestrator.Refuse` | internal/local_agent/agent/orchestrator.py:963-1009 | stops exactly on a repeat or on the third unusable call; the halt names its cause and the last row shows it |
| `Orchestrator.Orchestrator.RunsExactly` | internal/local_agent/agent/orchestrator.py:942-1063 | exactly which calls reach their handlers: well formed, registered, offered, not tried too often, and allowed or approved |
| `Orchestrator.Orchestrator.Execute` | internal/local_agent/agent/orchestrator.py:942-1152 | exactly one row is added; the handler takes effect exactly when nothing refuses the call |
| `Orchestrator.Orchestrator.RunHandler` | internal/local_agent/agent/orchestrator.py:1070-1148 | the handler takes effect on files, journal and git history exactly as its tool may, and its result is recorded |
| `Orchestrator.Orchestrator.ExecuteAccounted` | internal/local_agent/agent/orchestrator.py:942-1152 | after any call the history answers for the run: every row is what policy, operator and handler said of that very call, only offered tools ran, none too often, and files or git history differ from the start only if some row patched, or staged or committed |
| `Orchestrator.SwitchesHold` | internal/local_agent/agent/policy.py:68-107 | whatever the model asks and the operator approves in a run: with patching off no file changes; with committing off, or while speculative, git index and history do not |
| `Orchestrator.MutationsApproved` | internal/local_agent/agent/policy.py:87-107 | every call of a run that succeeded with a tool registered as writing or dangerous was approved |
| `Orchestrator.Orchestrator.AcceptAnswer` | internal/local_agent/agent/orchestrator.py:452-512 | the claim is recorded as made; flags are not touched |
| `Orchestrator.Orchestrator.Submit` | internal/local_agent/agent/orchestrator.py:808-830 | held back exactly when a reminder is due and this is the last call of the response |
| `Orchestrator.Orchestrator.CallStep` | internal/local_agent/agent/orchestrator.py:831-869 | one call, one row of that call, one tool message with its payload; a build summary narrows the offered tools |
| `Orchestrator.Orchestrator.OneCall` | internal/local_agent/agent/orchestrator.py:807-869 | a submitted answer is held back exactly when it comes last, no reminder was given and an edit is missing; otherwise its claim and summary are taken as submitted; any other call leaves its own row |
| `Orchestrator.Orchestrator.RunCalls` | internal/local_agent/agent/orchestrator.py:807-869 | the new rows are those of the response's calls, in order, up to the submitted answer or the halt; a batch that does not end the run has used a tool call or the one reminder |
| `Orchestrator.Orchestrator.AnswerInProse` | internal/local_agent/agent/orchestrator.py:750-802 | asks again at most once for a claim and once for an edit |
| `Orchestrator.Orchestrator.NudgeSearch` | internal/local_agent/agent/orchestrator.py:870-891 | one instruction exactly when a search streak has reached another multiple of four since the last one |
| `Orchestrator.Orchestrator.CallsTurn` | internal/local_agent/agent/orchestrator.py:804-905 | ending without a halt means an answer submitted in this response, or a completion with no reminder due; going round again means neither, and progress in tool calls or one-shot flags |
| `Orchestrator.Orchestrator.Turn` | internal/local_agent/agent/orchestrator.py:706-905 | any response joins the conversation, raises the measured overhead, and progresses or ends the run with an answer it gave; each transport error ends it with its own cause |
| `Orchestrator.Orchestrator.Prepare` | internal/local_agent/agent/orchestrator.py:667-698 | a request that does not fit after compaction has every tool result collapsed |
| `Orchestrator.Orchestrator.Open` | internal/local_agent/agent/orchestrator.py:610-659 | the conversation starts as the opening messages, with the tool schemas in the overhead |
| `Orchestrator.Orchestrator.Round` | internal/local_agent/agent/orchestrator.py:659-905 | nothing is sent over the context budget or after the tool budget is spent |
| `Orchestrator.Orchestrator.Rounds` | internal/local_agent/agent/orchestrator.py:659-905 | the loop ends, within the request and tool bounds, and keeps the history answering for the tree |
| `Orchestrator.Orchestrator.RunOnce` | internal/local_agent/agent/orchestrator.py:576-919 | every run ends, sends at most max_tool_calls + 2 requests, each within the budget; tool calls stay below the budget plus the longest single response; each halt has its own cause, and without one the answer is the last response's or the completion's; the verified flag means a pass of the whole tree with no failure and no change since; a speculative run changes no git history; its history answers for every change of the tree |
| `Escalation.SuccessIsBacked` | internal/local_agent/agent/orchestrator.py:536-547 | a run with no escalation reason has an answer, an attempt, and for a claim of success a standing proof the evaluator confirms |
| `Escalation.BlockedMeans` | internal/local_agent/agent/orchestrator.py:515-534 | an attempt counts as blocked exactly when the user stopped it, the server stalled or was gone, or some call was blocked and the verification asked for never gave a verdict |
| `Escalation.DeliveredMeans` | internal/local_agent/agent/orchestrator.py:536-547 | an attempt counts as succeeded exactly when it ran to an answer, with a verdict where verification is asked for and a current pass of the whole tree behind a claim of success |
| `Escalation.Attempt` | internal/local_agent/agent/orchestrator.py:386-405 | one attempt with its verdicts in these terms, and the operator in control of every change |
| `Escalation.Run` | internal/local_agent/agent/orchestrator.py:375-450 | for every behaviour of both models, operator and tools: the strong attempt happens exactly when it may and the first neither delivered nor was blocked, so an attempt the user stopped is never carried on and one that halted on itself is handed over unless a call was blocked; the outcome says exactly how the last attempt ended; the strong attempt starts from the starting files with unchanged git history; nothing switched off happened and every change of the tree was approved |
| `Serving.StepKeepsInv` | internal/serving/serve.py:301-522 | every step of every controller and of the system keeps the ownership invariant, except the crash named next |
| `Serving.UnrecordedCrashExactly` | internal/serving/serve.py:454-468 | a controller dying between launch and record write keeps the invariant exactly when its child is dead already |
| `Serving.RunKeepsInv` | internal/serving/serve.py:301-522 | every interleaving without such a crash keeps it |
| `Serving.OneOwnedServer` | internal/serving/serve.py:301-522 | at most one launched server runs; the record names it once its launch is recorded; only processes some start launched are ever signalled |
| `Serving.CrashBeforeRecordBreaksIt` | internal/serving/serve.py:454-458 | the harm in a concrete run: two live servers, one of them unrecorded |
| `Serving.RecordChanges` | internal/serving/serve.py:441-522 | a step leaves the record, names the child just launched, forgets it, or notes readiness on the very record that is there |
| `Serving.NeverRevived` | internal/serving/serve.py:480-502 | a record that was replaced or removed never comes back, however late a readiness recording arrives |
| `Serving.FreeNamed` | internal/serving/serve.py:301-325 | while nobody holds the lock the record names whatever runs |
| `Serving.StartCheckExactly` | internal/serving/serve.py:441-453 | a start finds its way clear exactly when no running process has the recorded id; where the id belongs to another process it cannot go on |
| `Serving.StopReadExactly` | internal/serving/serve.py:505-522 | a stop goes after the recorded process exactly when that very process runs; where the id belongs to another it lets go and touches neither record nor process |
| `ManagedRuntime.SameLaunch` | internal/serving/serve.py:374-390 | no differences exactly when recorded and requested launch are equal up to resolving the executable |
| `ManagedRuntime.DifferencesExactly` | internal/serving/serve.py:366-390 | each differing launch field is named by its own name, in the order of the launch fields |
| `ManagedRuntime.Host.Status` | internal/serving/serve.py:339-364 | an error exactly when the recorded id is held by a running process created at another time; alive exactly when it is held by one created at the recorded time |
| `ManagedRuntime.Host.Stop` | internal/serving/serve.py:505-522 | refused exactly when, as the record is read, its id belongs to another running process: then nothing recorded or signalled changes; otherwise the record is gone and nothing this profile launched runs |
| `ManagedRuntime.Host.LaunchRecorded` | internal/serving/serve.py:454-468 | a new process, recorded with its launch fields, or ended again when the record cannot be written |
| `ManagedRuntime.Host.RecordReadiness` | internal/serving/serve.py:480-502 | readiness is noted on the record of this very launch; failing to is no failure |
| `ManagedRuntime.Host.AwaitReady` | internal/serving/serve.py:469-477 | polling ends; success means a healthy answer while the record still names the launch, and an undisturbed server that answers in time is a success |
| `ManagedRuntime.Host.Start` | internal/serving/serve.py:441-477 | nothing is launched where the recorded id is held, by the recorded process or another; a server is reused exactly when the recorded one lives, answers and was launched as requested; a new one is recorded with everything older gone; with the way clear and everything going well a start succeeds |
| `ManagedRuntime.Host.Ensure` | internal/serving/managed_runtime.py:105-156 | the result meets its own checks; reuse exactly when the recorded server lives, answers and matches, and then nothing is touched; an id that belongs to another process is an error that touches nothing; other successes launched the recorded server here after older ones were gone, with the exact reason and fields; it succeeds whenever the endpoint is free and everything goes well; the last refusal reason never occurs |
| `ManagedRuntime.Host.MakeWay` | internal/serving/managed_runtime.py:105-140 | what becomes of a recorded server: reused, left alone as unclear, or replaced because it had gone, was launched otherwise or did not answer |
| `ManagedRuntime.EnsureTwice` | internal/serving/managed_runtime.py:105-156 | a second call on the same configuration with the server still healthy reuses it and changes nothing |
| `Endpoints.AllNamedTrueMeans` | internal/evaluation/endpoints.py:130-138 | unknown exactly when some name is missing or no truth value; true exactly when all are |
| `Endpoints.EngineeringExactly` | internal/evaluation/endpoints.py:141-199 | E1 is met exactly by a counted row of a known case with all its checks true, the independent oracle content with a repair, no scope violation and no tampering |
| `Endpoints.EngineeringKnown` | internal/evaluation/endpoints.py:141-199 | E1 is known exactly when its checks and flags are truth values and, for a repair that passed them, the oracle has spoken |
| `Endpoints.ComplianceKnownExactly` | internal/evaluation/endpoints.py:202-272 | E2 is known exactly when every protocol field is there and either a violation is on record or the rest can be judged |
| `Endpoints.CompletionKnown` | internal/evaluation/endpoints.py:274-291 | E3 is known exactly where E1 and E2 are and outcome and disagreement are on record |
| `Endpoints.FactsExactly` | internal/evaluation/endpoints.py:247-251 | a quality check hides a required check of the same name |
| `Endpoints.ComplianceExactly` | internal/evaluation/endpoints.py:202-272 | E2 is met exactly without a protocol violation, with restraint checks true and citations sound; a violation on record fails it whatever other evidence is missing |
| `Endpoints.CompletionExactly` | internal/evaluation/endpoints.py:187-291 | E3 in terms of the row itself, through E1 and E2: every contract check true, no protocol violation, sound citations, the independent oracle content with a repair, a passing outcome, no disagreement |
| `Endpoints.MajorityExactly` | internal/evaluation/endpoints.py:405-420 | decided exactly on three known values, by two of them |
| `Endpoints.TallyCounts` | internal/evaluation/endpoints.py:405-420 | the tally reports how many values are known and how many are true |
| `Endpoints.CompletionIsBoth` | internal/evaluation/endpoints.py:274-291 | verified completion is known, and true, only where engineering and compliance are |
| `Endpoints.VerifiedMajorityImpliesBoth` | internal/evaluation/endpoints.py:405-420 | a majority of verified completions is a majority of both others on the same rows |
| `Endpoints.StrongerCounts` | internal/evaluation/endpoints.py:405-420 | a pointwise stronger endpoint never has more known values or wins |
| `Endpoints.EfficiencyNeverGates` | internal/evaluation/endpoints.py:294-299 | E1, E2 and E3 do not change when efficiency flags do, for contracts that do not ask for them |
| `Pilot.FrozenContractsIgnoreFlags` | internal/evaluation/endpoints.py:78-127 | the frozen contracts do not |
| `Pilot.EfficiencyNeverGatesThePilot` | internal/evaluation/endpoints.py:78-127 | so no efficiency flag gates the pilot |
| `Draws.CompleteRecord` | internal/evaluation/endpoints.py:343-368 | a record of attempts is complete exactly when its sorted rows carry attempts 0 .. declared − 1, at most five |
| `Draws.ReasonsExactly` | internal/evaluation/endpoints.py:343-359 | each reason against a record exactly when: an index that is no integer, two equal ones, no declared count, one out of bounds |
| `Draws.SelectsFirstThree` | internal/evaluation/endpoints.py:370-381 | from a complete record in any order the first three counted rows are selected; the one violation left is a third counted row that is not the last of all |
| `Draws.OrderDoesNotMatter` | internal/evaluation/endpoints.py:339-381 | selection and violation do not depend on the order of the rows, complete record or not |
| `Draws.ExtraDrawsNeverDecide` | internal/evaluation/endpoints.py:370-378 | attempts after the third counted draw are a violation and never change the selected rows |
| `Draws.SortHolds` | internal/evaluation/endpoints.py:361 | an ascending rearrangement of the rows |
| `Draws.NumberedIsSorted` | internal/evaluation/endpoints.py:361-368 | sorting finds the one numbered order |
| `Analysis.TaskIgnoresOrder` | internal/evaluation/endpoints.py:423-469 | all of a task's decisions, its selected rows and its violation flag are independent of the order of the whole table |
| `Analysis.ConditionIgnoresOrder` | internal/evaluation/endpoints.py:443-469 | and so is everything decided about a condition |
| `Analysis.VerifiedTaskPassesBoth` | internal/evaluation/endpoints.py:452-469 | a task that passes verified completion passes engineering correctness and compliance |
| `Analysis.DecidedBy` | internal/evaluation/endpoints.py:452-469 | each of a task's three decisions is its own endpoint's, by two of three known values of the selected rows |
| `Analysis.ViolationExactly` | internal/evaluation/endpoints.py:343-375 | a task broke the protocol exactly when its record is incomplete or its third counted row is not the last one |
| `Analysis.CellExactly` | internal/evaluation/endpoints.py:428-433 | a cell holds exactly the rows of its case and condition, each as often as the table |
| `Analysis.CandidateExactly` | internal/evaluation/endpoints.py:521-532 | the candidate verdict is unknown exactly when some task is undecided or broke the protocol; true exactly when besides at least seven tasks pass, three of them diagnostic, and no selected row went out of scope |
| `Analysis.DecisionsRestOnThree` | internal/evaluation/endpoints.py:452-469 | a decided task rests on a complete record and three counted rows of its own case and condition |
| `Analysis.JudgedOnCompleteRecords` | internal/evaluation/endpoints.py:521-532 | a condition judged either way had every task judged on such rows, without a violation |
| `Analysis.AnalyseCondition` | internal/evaluation/endpoints.py:443-532 | the loop over cases yields every task's result and the candidate verdict on them |
| `Producer.RunAll` | internal/evaluation/run_evaluation.py:372-483 | for every outcome sequence and every way to end: the two bad parameters are refused, otherwise manifest and ending are those of the specified run; the manifest is sound, every row is what its case, attempt and position handed back, under the run's condition, contradicting none of the eight identity fields; a finished run completed every case with no two harness or precondition errors in a row, an early stop saw two, an identity error means the next draw of some case contradicts the run |
| `Producer.DrawnMeans` | internal/evaluation/run_evaluation.py:405-427 | stamping changes a row's condition and attempt and nothing else, and only rows that agree with the run's identity are recorded |
| `Producer.RunCase` | internal/evaluation/run_evaluation.py:405-482 | the attempt loop computes the specified attempts of one case |
| `Producer.CaseHolds` | internal/evaluation/run_evaluation.py:405-482 | the attempts of one case: numbered from zero, within the limit, stopped in time, each row its stamped draw, other cases untouched, and the reason when the run ends there |
| `Producer.OutcomeHolds` | internal/evaluation/run_evaluation.py:405-483 | so the specified run over any distinct cases has all that RunAll promises |
| `Producer.StoppedInTime` | internal/evaluation/run_evaluation.py:481-482 | a cell that stops as soon as it has three counted draws is acceptable |
| `Producer.ConsumerAccepts` | internal/evaluation/endpoints.py:339-381 | an acceptable cell within five attempts passes the protocol checks and its first three counted rows are selected |
| `Producer.ProducerMeetsConsumer` | internal/evaluation/run_evaluation.py:372-483 | every cell of a sound manifest is accepted as declared, for repeat up to 3 and at most 5 attempts |
| `Producer.AcceptedExactly` | internal/evaluation/run_evaluation.py:384-390 | of the parameters the loop takes, exactly those with repeat up to 3 and at most 5 attempts make every run, over any cases and draws, acceptable to the analysis in every cell |
| `Producer.SoundAcceptedExactly` | internal/evaluation/endpoints.py:339-381 | the same on manifests: every sound one is accepted in every cell exactly within these bounds |
| `Producer.RefusedRun` | internal/evaluation/run_evaluation.py:384-390 | outside them a run exists whose manifest the analysis refuses |
| `Producer.CopiesAccepted` | internal/evaluation/endpoints.py:356-375 | n equal attempts are accepted exactly when n is at most 5 and, if they count, at most 3 |
| `Pipeline.AnalysedAsProduced` | internal/evaluation/endpoints.py:443-469 | so every case begun is analysed on its first three counted draws |
| `Oracle.FilesUnder` | internal/evaluation/oracle.py:52-63 | exactly the files at or below the entry, each once |
| `Oracle.CompareEntry` | internal/evaluation/oracle.py:122-147 | the three lists of one entry hold exactly its modified, deleted and added files |
| `Oracle.Compare` | internal/evaluation/oracle.py:115-150 | every changed, missing or new file among the tests and the top build file stands once in the one list it belongs to; tampered exactly when there is one |
| `Oracle.CoveredMeans` | internal/evaluation/oracle.py:30-63 | the oracle's paths are exactly those under tests and the top CMakeLists.txt |
| `Oracle.KindsSplit` | internal/evaluation/oracle.py:122-147 | the kinds are disjoint and together are the symmetric difference |
| `Oracle.Tree.RemoveAdded` | internal/evaluation/oracle.py:156-160 | what the agent added is gone, nothing else |
| `Oracle.Tree.CopyBack` | internal/evaluation/oracle.py:161-164 | the file is back and its parents exist; fails exactly when a directory is in its place |
| `Oracle.Tree.RestoreEntry` | internal/evaluation/oracle.py:155-168 | below the entry the oracle is back exactly; elsewhere nothing changes |
| `Oracle.Tree.Restore` | internal/evaluation/oracle.py:153-168 | fails exactly when some oracle file's path is a directory; otherwise the covered files are the oracle's; files elsewhere are untouched in any case |
| `Oracle.RestoredIsClean` | internal/evaluation/oracle.py:153-168 | a restored tree is clean, and restoring it again changes nothing |
| `Oracle.RestoringCleanTrees` | internal/evaluation/oracle.py:115-168 | restoring changes nothing exactly when nothing was tampered with |
| `Oracle.Snapshot` | internal/evaluation/oracle.py:95-112 | a well-formed copy of exactly the covered files |
| `Oracle.PutTruthBack` | internal/evaluation/run_evaluation.py:643-651 | the check after restoring never fails; the only harness error is a directory in the way |
| `Oracle.Episode` | internal/evaluation/run_evaluation.py:643-651 | whatever the agent did, the verdict sees the snapshot's oracle files and the agent's other files; an untouched tree is not called tampered |
| `Oracle.RestoreTwice` | internal/evaluation/oracle.py:153-168 | a second restore succeeds and changes nothing |
| `Versions.ReleaseRoundTrip` | internal/scripts/runtime-preflight.py:55-59 | reading a printed release gives it back, whatever blanks precede and whatever follows the number |
| `Versions.UnreadableExactly` | internal/scripts/runtime-preflight.py:55-59 | a version string is unreadable exactly when no digit follows its leading blanks |
| `Versions.CmpMeans` | internal/scripts/runtime-preflight.py:62-66 | the comparison decides by the first differing component, missing ones counting as zero |
| `Versions.CmpIsTotalPreorder` | internal/scripts/runtime-preflight.py:62-66 | a total preorder |
| `Versions.CompatibleRelease` | internal/scripts/runtime-preflight.py:86-94 | the ~= interval test equals "at least the target and prefix-equal on all but its last component" (PEP 440, Compatible release); a one-component target is compared on that component |
| `Versions.RefusalsAreFailures` | internal/scripts/runtime-preflight.py:69-94 | every operator refuses exactly the releases that do not meet it by components |
| `Versions.Satisfies` | internal/scripts/runtime-preflight.py:69-95 | true exactly when every specifier is met; otherwise the first failing or unreadable one decides |
| `Toml.BasicString` | internal/local_agent/repo_setup.py:100-120 | refused exactly for surrogates; otherwise the printed text decodes to the value |
| `Toml.RoundTrip` | internal/local_agent/repo_setup.py:100-120 | decoding by the String section of TOML v1.0.0 gives the value back and consumes exactly the printed text, whatever follows |
| `Toml.PieceReads` | internal/local_agent/repo_setup.py:113-118 | one written character is read as that character |
| `Toml.PieceExactly` | internal/local_agent/repo_setup.py:113-118 | exactly how each character is written: two escaped by a backslash, the control characters, tab among them, by four upper-case hexadecimal digits, the rest as themselves |
| `Toml.NoControlWritten` | internal/local_agent/repo_setup.py:113-118 | no control character stands in the written text |
| `Toml.HexRoundTrip` | internal/local_agent/repo_setup.py:115-116 | four hexadecimal digits read back as the code |
| `Continuity.CompareSnapshots` | internal/perf/endpoint_harness.py:505-525 | a break is reported exactly when something observed differs, missing evidence exactly when something was not observed, and neither as the other |
| `Continuity.JudgeContinuity` | internal/perf/endpoint_harness.py:528-571 | reuse, no reuse and unknown, each exactly when; the evidence of reuse is the owned process where it is alive, the unchanged instance otherwise, and there is none without reuse |
| `Continuity.PersistentSession` | internal/perf/endpoint_harness.py:642-691 | reuse across all turns is True exactly when all 2n + 1 chained snapshots show one endpoint and each turn can identify it; False exactly when some turn observed a boundary; beyond 59 turns the prompt prefixes run out |
| `Continuity.TurnsChain` | internal/perf/endpoint_harness.py:656-679 | turns that each reuse, chained end to start, are one endpoint, and conversely |

## Left out

- Model calls, HTTP, subprocesses, git and launch arguments: inputs or abstract steps, as above.
- Tool handlers: arbitrary results and effects; only apply_patch writes files, only git_stage and git_commit change the index or history (`Workspace.Space.Apply`).
- Run state that decides nothing modelled here: warnings, metrics, phases, changed files, notes of evidence, validity.
- Orchestrator.Orchestrator.AcceptAnswer: which cited ids resolve to calls, and the grounding flag derived from them, are not modelled; they never decide an outcome.
- Proofs.CurrentTreeProofExactly: a test result whose totals are no mapping counts as one without totals, where the code may raise; letters and digits in build target names are the ASCII ones.
- Workspace.Space.Apply: a patch whose write fails half-way, before it is journalled, is not modelled.
- Skill routing, tiers, the evidence packet and the repository fingerprint: whether escalation is available is an input to `Escalation.Run`.
- A run without a journal: `Escalation.Run` always has one.
- Journal.MutationJournal.Revert: a file that cannot be written back during undo, and file contents that are not UTF-8 text, are not modelled.
- Orchestrator.Orchestrator.RunOnce: the texts of prompts and reminders, and truncation of tool results, are abstract; their lengths are arbitrary.
- JSON text: the context's codec is a parameter that reads back what it prints; the rows of the analysis are decoded values, with a missing field read as null.
- Floating-point rounding of weights, medians and the hysteresis share: exact reals.
- Wall-clock times, hashing, locale and path normalisation: times are inputs, the resolver of executable names is a function.
- Serving.OneOwnedServer: a process is identified by id and creation time, so the comparison of executable paths is not modelled, nor are unreadable record files; a child killed because its record could not be written is gone when the lock is released.
- ManagedRuntime.Host.Stop: a kill that does not take effect in time is a step of the protocol only, not of this method.
- ManagedRuntime.Host.Start: preflight is one yes-or-no input; the checks inside it are not modelled.
- The efficiency endpoint, attempt summaries and rates of the analysis: reporting that decides nothing.
- The comparison between conditions (procedure delta): a subtraction of two modelled counts.
- Progress lines of the suite loop, and transcripts: presentation.
- Oracle.Tree.Restore: permissions, symbolic links and the text of diffs are not modelled; a directory listing is an unordered set of paths.
- Reading requirement lines and shard arguments by regular expression or integer conversion: no property beyond the text itself.
- Versions.ReleaseRoundTrip: digits are the ASCII ones.
- Continuity.PersistentSession: the generation requests and their measurements are not modelled.
- Terminal interface, reports, chat, doctor, demos, presets, the build ledger and the static-standards ratchet: presentation, data or easy arithmetic.
