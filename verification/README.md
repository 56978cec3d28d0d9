# A model of the conversational agent

This project models the deterministic core of the `agent` package: the state machines that surround a language
model. What the model says, what the tools and the store answer, and what the clock shows are inputs; everything
else is modelled branch by branch. Each part is a pure specification, methods in the source's imperative form
that are proved to compute it, and lemmas about all inputs, all runs or all reachable states.

| file | what it models |
|---|---|
| `Text.dfy` | strings, options, time stamps, cleaned lists |
| `ExecutionState.dfy` | execution states, the observation log and its compaction |
| `Compaction.dfy` | what normalising and compacting an execution state keep |
| `Planner.dfy` | one iteration of the plan executor as a function of the outside world's answers |
| `PlannerRuns.dfy` | the effects of one iteration, and the duplicate filter |
| `PlannerTheorems.dfy` | what holds at every loop head |
| `PlannerRefetch.dfy` | two runs of one call are kept apart |
| `PlannerSafety.dfy` | whole runs of the executor |
| `PlannerTimes.dfy` | runs under a clock that never goes back |
| `PlannerCalls.dfy` | what tells two calls apart, and the duplicate filter in those terms |
| `PlannerReplies.dfy` | what a run replies and what it logs |
| `PlannerOutcomes.dfy` | why a run stops, and what each iteration leaves behind |
| `PlannerLoop.dfy` | the executor and its filters in imperative form |
| `SkillSession.dfy` | skill sessions: a field map mirrored by a struct of slots |
| `DraftName.dfy` | the clean-up of trader draft names |
| `History.dfy` | the bounded chat history and its compression |
| `SuspendedTask.dfy` | workflow sessions and suspended tasks, and their normalisation |
| `TaskStack.dfy` | the persisted stack of suspended tasks |
| `Contexts.dfy` | suspending the live contexts and bringing them back |
| `Restoring.dfy` | which suspended task comes back |
| `AgenticTurn.dfy` | one turn of the native tool-calling loop |
| `StrategyDraft.dfy` | the draft of a strategy over several turns |
| `Confirmation.dfy` | prompts and confirmations before destructive actions: one turn |
| `Target.dfy` | how the target of an action is found |
| `ConfirmationRun.dfy` | whole runs of prompts, confirmations and what comes between |
| `TraderCreate.dfy` | creating a trader: one turn |
| `BrainDraft.dfy` | trader drafts that the central brain drives |
| `TraderRun.dfy` | whole runs of trader drafts |
| `Brain.dfy` | news that is announced once, signals that are debounced |
| `StreamText.dfy` | splitting a reply into streamed chunks |
| `Onboarding.dfy` | the first setup by chat |

## Results

**Plan executor.** From every state that preparation hands over, for all answers of the outside world: at every loop
head the steps are a completed prefix and a pending rest, the prefix only grows, steps run once and in order, at most
twelve things happen, and a run that replies leaves the state waiting with a question, completed, or cleared. If step
identifiers are distinct, two runs of one call have a decision between them that came more than a minute, or at least
eight log entries, after the first; so under a clock that never goes back, two runs of one call with fewer than eight
entries in between are more than a minute apart (`NoCallWithinAMinute`). What a run replies, what each event of its
history carries and why it stops are told by the answers it was given (`ExecutePlanTells`); and the duplicate filter keeps
exactly the calls that differ in tool or arguments from those just fetched or already proposed (`FilterByCall`). `RepeatedIdsDefeatFilter` shows why identifiers must be distinct,
`FetchReadRightIff` when exactly a fetch is read rightly, and `BlankIdsCollide` that identifiers left blank collide.

**Task stack and contexts.** The stored stack of five refines an unbounded one over any operations under a clock that
does not go back; it is the unbounded one while no more than five entries are alive. Suspending and resuming is a round
trip, with the exact condition under which the stack too is what it was. Restoring by identifier reads the stack twice;
it removes the entry it found exactly when nothing at or below it expires in between. At one reading of the clock the
topmost live entry with that identifier, or about that domain, is the one restored (`RestoresById`, `RestoresByDomain`).

**Tool-calling turn.** A turn falls back exactly when the first call fails or says nothing. Otherwise the reply is not
blank, every call is run once and in order, and every transcript sent answers each call once and continues the one before
with the model's own words. The reply is what the model says in the first round in which it asks for no tool, the wrap-up
after twelve rounds, and otherwise the word about the interruption (`TurnReplies`).

**Strategy draft.** Over any turns the patch never holds the branch of a type other than the draft's; what a draft holds
beyond five shared fields was said since the last switch. Nothing but the name, the type, the patch and a pending
confirmation enters a draft, so no template field ever stands outside the patch. The patch of a draft is clean for the
draft's type exactly when it names a type itself; one accepted before any type was known stays as it was
(`RunSettled`, `CoinSourceStays`). Cleaning a patch is idempotent. It makes an explicit field of the AI template missing
exactly when its section is given twice and only the overwritten copy has it (`RiskTwiceLosesLeverage` is such a patch).

**Confirmations.** The target is the first option with the identifier, name or hint that is asked for, or the only one
that overlaps with it (`Targets`). An action on one target runs exactly when a waiting session is confirmed and a live
target is found. Over any events, recoveries from raw JSON and turns of the central brain included, actions never outnumber prompts, except
that a snapshot brought back by copying can be acted on again and again (`CopyActsAgain`). Within turns alone the target
acted on is the one prompted for as long as its identifier answers, and otherwise never. A reply that means all targets
turns a waiting prompt for one target into a bulk deletion that was never prompted for (`WideningIsNotPrompted`). Over any
events a bulk deletion without a bulk prompt happens in only two ways: by such a reply, or from a session into which
something was extracted while it waited or for which the brain asked in its own words (`ActsOnItsBasis`;
`ExtractedScopeDeletes` and `ExtractedTargetRedirects` show what extraction can do, `TightRunsActAsPrompted` that nothing
else does it). A target that is gone leaves a session that no later mention of a target can move (`WedgedForever`).

**Trader drafts.** Over any turns, extractions, recoveries and switches, every waiting session, live or suspended, has all
four required fields, and the create tool is only called with them, with one exception. The central brain rebuilds its
session from what it has collected and may replace a field by a blank while the draft waits: over any run every create
call has all four fields if and only if the brain never confirms a draft when, after its merge, the name is not said or an
identifier is neither said nor found by its name (`RunWholeIff`). `BlankNameCreates` is a run that creates without a name;
`CarefulRunIsWhole` says that nothing goes wrong as long as no required field is taken away. The attempts never outnumber
the prompts and the drafts copied back; without copies each attempt has a prompt of its own, and a lone waiting draft that
is copied back and confirmed again creates again, without another prompt (`CopyCreatesAgain`). Each create call is made for the
very session that was confirmed, with its exchange, model and strategy (`RunCallsFor`). A trader is started exactly when it
was made and the start was confirmed. A session's fields and slots behave as one register for each key. They part,
or a name is emptied, only when a draft name comes out of its clean-up as white space, as a tab in quotation marks does
(`TabNameSmudges`), or when a start flag is neither true nor false.

**Smaller parts.** Announcements of one address are more than 501 log positions apart; debounced notifications are at
least ten minutes apart; the chat history never misses one of its last twelve messages; chunks conserve the text. Setup
takes its steps in order and never makes a second account or trader. The account that it saves holds exactly what the
user sent, unless a restart took a credential on the way: then a new account is refused, and an existing one keeps the
old credential beside the new ones (`CredentialsArriveIff`). Setup can never make a Hyperliquid account, as it passes no
key for it and the store demands one (`HyperliquidNeverConnects`); every other venue can be set up (`OthersConnect`).

## Model

| member | source | states |
|---|---|---|
| `Text.CleanStringList` | `agent/memory.go:121-143` | one pass with a set of lower-cased entries computes the cleaned list: trimmed, not blank, no two equal up to case |
| `Text.CleanCovers` | `agent/memory.go:121-143` | every non-blank entry survives cleaning up to case |
| `Text.CleanFixed` | `agent/memory.go:121-143` | a clean list is left alone, so cleaning is idempotent |
| `ExecutionStates.NormalizeObservationList` | `agent/execution_state.go:558-580` | the loop computes the normalised observations |
| `ExecutionStates.NormalObservationsFixed` | `agent/execution_state.go:558-580` | observations in normal form are left alone |
| `ExecutionStates.OverflowSummary` | `agent/execution_state.go:602-630` | a summary exists exactly when some folded entry has text, and is then in normal form |
| `ExecutionStates.CompactNotes` | `agent/execution_state.go:582-600` | at most four notes stay at most four |
| `ExecutionStates.StateCell.Compact` | `agent/execution_state.go:582-600` | the in-place compaction keeps the last eight entries and the notes of the specification |
| `ExecutionStates.StateCell.NormalizeInPlace` | `agent/execution_state.go:359-398` | the field-by-field normalisation computes the specification |
| `ExecutionStates.StateCell.AppendLog` | `agent/execution_state.go:637-640` | append and normalise in place |
| `ExecutionStates.Normalize` | `agent/execution_state.go:359-398` | at most eight log entries, all in normal form, legacy observations merged away, notes capped when they were |
| `ExecutionStates.StableIsFixed` | `agent/execution_state.go:359-398` | a stable state is left alone at any time |
| `ExecutionStates.NormalizeStable` | `agent/execution_state.go:359-398` | the result is stable exactly when the notes are within their cap |
| `ExecutionStates.NormalizeTwiceStable` | `agent/execution_state.go:359-398` | two normalisations at any times reach a stable state |
| `ExecutionStates.NormalizeIdempotentIff` | `agent/execution_state.go:359-398` | idempotent at one time exactly when compaction does not skip the cap on the notes |
| `ExecutionStates.NotesCapCanBeSkipped` | `agent/execution_state.go:582-600` | a state with five notes after normalisation, changed by normalising again |
| `ExecutionStates.AppendKeepsWindow` | `agent/execution_state.go:637-640` | after any non-blank appends the log is exactly the last eight observations in order |
| `ExecutionStates.AppendKeepsNotesCap` | `agent/execution_state.go:637-640` | four notes at most after any appends, whatever is appended |
| `PlannerLoop.NextPendingStepIndex` | `agent/planner_runtime.go:3825-3832` | the first blank or pending step, or -1 |
| `PlannerLoop.CompletedSteps` | `agent/planner_runtime.go:3587-3595` | the completed steps in order |
| `PlannerLoop.LatestFetches` | `agent/planner_runtime.go:3276-3312` | for exactly the fetched signatures, the time of the latest fetch in the log |
| `PlannerLoop.LatestDecides` | `agent/planner_runtime.go:3276-3338` | the latest fetch alone decides whether a signature is fresh |
| `PlannerLoop.FreshSignatures` | `agent/planner_runtime.go:3314-3326` | the set of signatures fetched at most a minute ago |
| `PlannerLoop.FilterFreshDuplicateToolSteps` | `agent/planner_runtime.go:3314-3338` | the loop computes the filter; no tool step it keeps is fresh and no two have one signature |
| `PlannerLoop.HasRepeatedReasonLoop` | `agent/planner_runtime.go:3340-3357` | whether all proposed steps repeat the last completed reasoning |
| `PlannerLoop.FillSteps` | `agent/planner_runtime.go:3062-3076` | the loop fills identifiers, titles and statuses, and fails on a missing type |
| `PlannerRuns.FilterIsSelection` | `agent/planner_runtime.go:3314-3338` | the filter is a selection: a step passes exactly when it is no tool step, or neither known nor a repetition |
| `PlannerRuns.FilterContract` | `agent/planner_runtime.go:3314-3338` | a subsequence that keeps every non-tool step and drops a tool step only if its signature is fresh in the log or occurred earlier in the batch |
| `PlannerLoop.Executor.DecideNext` | `agent/planner_runtime.go:3043-3085` | one decision: filter, loop check, filling, adoption and save |
| `PlannerLoop.Executor.RunStep` | `agent/planner_runtime.go:3101-3213` | one step of each kind, with its log entry, waiting state or final answer |
| `PlannerLoop.Executor.ExecutePlan` | `agent/planner_runtime.go:3038-3225` | the counted loop over the mutable state computes the specification of a run |
| `PlannerTheorems.IterateKeepsHead` | `agent/planner_runtime.go:3043-3222` | one iteration keeps the loop-head invariant: shape, journal, log window, order of runs |
| `PlannerSafety.HeadsWellShaped` | `agent/planner_runtime.go:3043-3222` | at every loop head the steps are a completed prefix and a pending rest |
| `PlannerSafety.HeadsGrow` | `agent/planner_runtime.go:3043-3222` | from loop head to loop head the completed prefix only grows |
| `PlannerSafety.RunOrderly` | `agent/planner_runtime.go:3038-3225` | steps run at most once and in plan order; at most one event per iteration |
| `PlannerRefetch.NotFreshIsApart` | `agent/planner_runtime.go:3276-3338` | a signature that passes the filter was run more than a minute, or at least eight log entries, before |
| `PlannerSafety.RunKeepsApart` | `agent/planner_runtime.go:3052-3077` | two runs of one call have a decision between them that is that far from the first |
| `PlannerSafety.ExecutePlanIsSafe` | `agent/planner_runtime.go:3038-3225` | the whole run: shape, growth, order, at most twelve events, no early refetch when identifiers are distinct |
| `PlannerTimes.NoCallWithinAMinute` | `agent/planner_runtime.go:3038-3225` | under a clock that does not run backwards, two runs of one call with fewer than eight log entries in between are more than a minute apart; with eight entries in all, any two |
| `PlannerSafety.RunConcludes` | `agent/planner_runtime.go:3149-3211` | a run that replies is waiting with a question, completed, or cleared, and so is the store |
| `PlannerSafety.ResumedIsReady` | `agent/planner_runtime.go:2655-2686` | a resumed run starts with completed steps only, whatever was stored |
| `PlannerSafety.BegunIsReady` | `agent/planner_runtime.go:2688-2706` | a new run starts ready |
| `PlannerSafety.BlankIdsCollide` | `agent/planner_runtime.go:2806-2820` | decisions with blank identifiers reuse step_1 |
| `PlannerSafety.FetchReadRightIff` | `agent/planner_runtime.go:3276-3312` | a logged fetch counts for the call that was made exactly when the last step with the same identifier makes that call |
| `PlannerSafety.RepeatedIdsDefeatFilter` | `agent/planner_runtime.go:3276-3338` | with one identifier used twice a call made this second passes the filter again |
| `Sessions.SessionCell.SyncMirror` | `agent/skill_management_handlers.go:93-128` | each non-blank field is copied over its slot |
| `Sessions.SessionCell.Write` | `agent/skill_management_handlers.go:28-43` | the write in place: alias, trimming, cleaned name, mirror |
| `Sessions.NormalizeFields` | `agent/skill_dispatcher.go:49-65` | the loop over the field map in any order |
| `Sessions.SessionCell.NormalizeInPlace` | `agent/skill_dispatcher.go:45-122` | the in-place normalisation computes the specification for some order of the map |
| `Sessions.StableIsFixed` | `agent/skill_dispatcher.go:45-122` | a stable session is left alone |
| `Sessions.NormalizeStableIff` | `agent/skill_dispatcher.go:45-122` | one normalisation reaches a stable session exactly when the start flag is not odd |
| `Sessions.NormalizeIdempotentIff` | `agent/skill_dispatcher.go:45-122` | idempotent exactly when the start flag is not odd |
| `Sessions.NormalizeTwiceStable` | `agent/skill_dispatcher.go:45-139` | what was saved and loaded is kept by further saves and loads |
| `Sessions.FlagStaysEven` | `agent/skill_management_handlers.go:28-128` | over any writes, saves and loads from a session without slots no odd flag arises, so saving twice is saving once |
| `Sessions.OddRecord` | `agent/skill_dispatcher.go:45-122` | a stored record with an odd flag, which no write makes, is changed by loading it twice |
| `Sessions.SetFieldMirroredIff` | `agent/skill_management_handlers.go:28-128` | a write keeps fields and slots equal exactly when it writes a proper start flag and no smudged name over a proper one |
| `Sessions.SetFieldEmptiesIff` | `agent/skill_management_handlers.go:28-78` | a write empties a filled field exactly when it is a smudged name and no slot holds the name |
| `DraftNames.SmudgedIff` | `agent/skill_dispatcher.go:198-220` | a written draft name comes out as white space exactly when what the cuts leave of it holds, between marks, white space only, and some other than blanks |
| `DraftNames.TabNameSmudges` | `agent/skill_management_handlers.go:28-78` | a tab in quotation marks as a name sets field and slot apart, and empties the name of a draft without slots |
| `Sessions.WriteKeepsFilled` | `agent/skill_management_handlers.go:28-128` | no write empties a filled slot |
| `Sessions.ReloadKeepsFilled` | `agent/skill_dispatcher.go:45-122` | saving and loading empties no filled slot |
| `Sessions.ReloadSlotted` | `agent/skill_dispatcher.go:45-122` | saving and loading a session in step changes no field value and makes fields and slots equal |
| `Sessions.SessionIsRegisters` | `agent/skill_management_handlers.go:28-128` | over any writes, saves and loads each key reads as the last non-blank value written to it |
| `Histories.ChatHistory.Add` | `agent/history.go:34-49` | append, then cut to the cap |
| `Histories.ChatHistory.Replace` | `agent/history.go:66-81` | replace by the last messages within the cap, or delete |
| `Histories.ChatHistory.CleanOld` | `agent/history.go:91-104` | exactly the users whose last message is too old are dropped |
| `Histories.ChatHistory.MaybeCompress` | `agent/memory.go:276-307` | the recent twelve are kept when the tokens are over the threshold and the summary was saved |
| `Histories.AddedTwice` | `agent/skill_dispatcher.go:403-409` | a recorded exchange adds exactly two entries and touches no other user |
| `Histories.HistoryRecalls` | `agent/history.go:34-104` | over any additions, compressions and clean-ups the last twelve messages are always there, in order |
| `Histories.LateCompressionLosesIff` | `agent/memory.go:281-306` | a compression keeps the last twelve of the messages it read; what was added in between is exactly what is lost |
| `SuspendedTasks.NormalizeWorkflowTasks` | `agent/workflow.go:47-67` | the loop computes the normalised tasks |
| `SuspendedTasks.NormalWorkflowStable` | `agent/workflow.go:45-75` | normalising a workflow reaches a stable one |
| `SuspendedTasks.StableWorkflowFixed` | `agent/workflow.go:45-75` | a stable workflow is left alone |
| `SuspendedTasks.StableIsFixed` | `agent/execution_state.go:400-455` | a stable task is left alone |
| `SuspendedTasks.NormalTwiceStable` | `agent/execution_state.go:400-455` | two normalisations reach a stable task, or nothing |
| `TaskStacks.TaskStore.Normalize` | `agent/execution_state.go:457-480` | the loop drops blank and expired entries and keeps the last five |
| `TaskStacks.TaskStore.Push` | `agent/execution_state.go:318-327` | the push on the stored stack |
| `TaskStacks.TaskStore.Pop` | `agent/execution_state.go:329-338` | the pop on the stored stack |
| `TaskStacks.TaskStore.RemoveAt` | `agent/execution_state.go:203-215` | the removal by index on the stored stack |
| `TaskStacks.NormalStackStable` | `agent/execution_state.go:457-480` | on stable entries normalising is expiring and capping |
| `TaskStacks.PushedStable` | `agent/execution_state.go:318-327` | a push appends the stored form of what is pushed, unless expired, and keeps the last five |
| `TaskStacks.PoppedStable` | `agent/execution_state.go:329-338` | a pop gives the last live entry and keeps the others |
| `TaskStacks.RemovedStable` | `agent/execution_state.go:203-215` | a removal takes the entry at that index of the live ones and keeps the others in order |
| `TaskStacks.StepRefines` | `agent/execution_state.go:203-338` | every operation keeps the refinement of the unbounded stack and returns what that returns, or nothing on an empty window |
| `TaskStacks.RunRefines` | `agent/execution_state.go:203-480` | over any operations: at most five entries, a top part of the unbounded stack, every returned task the ideal one |
| `TaskStacks.RunEquals` | `agent/execution_state.go:203-480` | while at most five are alive at once the stack is the unbounded one and all answers agree |
| `Contexts.Store.BuildSuspendedTask` | `agent/planner_runtime.go:1907-1946` | the snapshot of what is active, with kind, hint, triggers and history |
| `Contexts.Store.SuspendActiveContexts` | `agent/planner_runtime.go:2017-2027` | push and clear, in place |
| `Contexts.Store.RestoreSuspendedTask` | `agent/planner_runtime.go:2029-2050` | clear and restore, in place |
| `Contexts.Store.TryResumeSuspendedTask` | `agent/planner_runtime.go:2091-2113` | cancel, resume or leave alone |
| `Contexts.Store.RestoreTopmost` | `agent/planner_runtime.go:2062-2076` | the search from the top, the second read and the removal |
| `Contexts.Store.RestoreById` | `agent/planner_runtime.go:2052-2077` | restoring by identifier, in place |
| `Contexts.Store.RestoreMatching` | `agent/planner_runtime.go:2188-2216` | restoring by domain, in place |
| `Contexts.Store.TryRestoreAwaitingConfirmation` | `agent/planner_runtime.go:2167-2186` | a lone waiting snapshot is restored and left on the stack |
| `Contexts.BuiltIsStable` | `agent/planner_runtime.go:1907-1946` | the snapshot is stable and holds exactly the active parts, with its kind and whether it waits for sub-tasks; there is none when nothing is active |
| `Contexts.SuspendEffect` | `agent/planner_runtime.go:2017-2027` | nothing changes when nothing is active; else the contexts are cleared and one task is pushed |
| `Contexts.RestoreEffect` | `agent/planner_runtime.go:2029-2050` | restoring a stable task replaces the live contexts by its parts, an execution state only if it names the user, and the history if it kept one |
| `Contexts.SuspendThenResume` | `agent/planner_runtime.go:1907-2113` | the round trip brings back exactly what was active, an execution state only if it names the user; the stack loses only the oldest of five and what expired |
| `Contexts.RoundTripIsExact` | `agent/planner_runtime.go:1907-2113` | for stored contexts the round trip is exact, and so is the stack exactly when it had room and nothing expired |
| `Contexts.StackSurvivesIff` | `agent/execution_state.go:318-338` | when the stack after push and pop is what it was |
| `Contexts.MoveEffect` | `agent/planner_runtime.go:2052-2077` | the topmost wanted entry comes back and the others stay in order |
| `Contexts.MoveConserves` | `agent/planner_runtime.go:2052-2077` | nothing on the stack is lost or doubled by a move |
| `Contexts.SwitchConserves` | `agent/planner_runtime.go:2086-2089` | suspend then restore conserves the active and the stacked tasks but for the oldest of five |
| `Contexts.RightEntryIff` | `agent/planner_runtime.go:2052-2077` | the entry found is the one removed exactly when nothing at or below it expires between the two reads |
| `Contexts.RestoreFindsItsEntryIff` | `agent/planner_runtime.go:2052-2077` | the same for the two reads of restoring by identifier |
| `Contexts.CopyCanRepeat` | `agent/planner_runtime.go:2167-2186` | a snapshot restored by copying can be restored again by the same reply |
| `AgenticTurns.Agent.RecentHistoryMessages` | `agent/agentic_loop.go:165-191` | the replay of the recent history |
| `AgenticTurns.Turns` | `agent/agentic_loop.go:177-192` | replayed messages hold no tool calls and no tool results |
| `AgenticTurns.Agent.Finish` | `agent/agentic_loop.go:150-160` | the guarded reply, and one user and one assistant entry |
| `AgenticTurns.Agent.RunTools` | `agent/agentic_loop.go:112-132` | each call of a round is run once and answered, in order |
| `AgenticTurns.Agent.RunAgenticTurn` | `agent/agentic_loop.go:66-146` | the round loop computes the specification; without a reply the history is untouched |
| `AgenticTurns.RoundsOutcome` | `agent/agentic_loop.go:84-146` | from any round on: what is run, what is sent, and when there is no reply |
| `AgenticTurns.FallbackIff` | `agent/agentic_loop.go:66-146` | not handled exactly when the first call fails or says nothing, and then no tool has run; else the reply is not blank |
| `AgenticTurns.TurnIsOrderly` | `agent/agentic_loop.go:84-146` | at most twelve rounds and one wrap-up; every call run once, in order; every transcript sent well formed, telling exactly what was run before and what it yielded |
| `AgenticTurns.WellFormedRound` | `agent/agentic_loop.go:112-132` | a message with calls and its results keep the transcript well formed |
| `StrategyDrafts.Sanitize` | `agent/central_brain.go:1439-1473` | the section loop computes the cleaned patch |
| `StrategyDrafts.SanitizedIsClean` | `agent/central_brain.go:1439-1473` | a cleaned patch has only the type, what is published, and the branch of that type |
| `StrategyDrafts.CleanIsFixed` | `agent/central_brain.go:1439-1473` | a clean patch is left alone |
| `StrategyDrafts.SanitizeIdempotent` | `agent/central_brain.go:1439-1473` | cleaning is idempotent |
| `StrategyDrafts.FilterForKind` | `agent/central_brain.go:1413-1437` | the loop computes the filter for a type |
| `StrategyDrafts.ActiveSession.FilterByTemplate` | `agent/central_brain.go:1402-1437` | the type is taken from the turn, then from the draft |
| `StrategyDrafts.ActiveSession.ResetForType` | `agent/central_brain.go:1388-1400` | only five shared fields and the new type are kept |
| `StrategyDrafts.ActiveSession.Merge` | `agent/central_brain.go:1281-1300` | the merge in place, with the reset on a switch |
| `StrategyDrafts.ActiveSession.Turn` | `agent/central_brain.go:1281-1437` | one turn: filter then merge |
| `StrategyDrafts.UnmixedMeans` | `agent/central_brain.go:1354-1386` | an unmixed draft has at most the branch of its own type |
| `StrategyDrafts.TurnUnmixed` | `agent/central_brain.go:1281-1437` | a turn keeps the draft unmixed |
| `StrategyDrafts.RunUnmixed` | `agent/central_brain.go:1281-1437` | over any turns the draft never holds the branch of a type other than its own |
| `StrategyDrafts.AcceptedRawIff` | `agent/central_brain.go:1402-1437` | a turn leaves a patch that names no type exactly when neither the turn nor the draft names one |
| `StrategyDrafts.RunSettled` | `agent/central_brain.go:1281-1437` | over any turns a patch that names a type is clean for it, and it is the type of the draft; the patch of a draft of some type is clean for that type exactly when it names one |
| `StrategyDrafts.CoinSourceStays` | `agent/central_brain.go:1281-1437` | a coin source accepted before any type stays at top level in a grid draft |
| `StrategyDrafts.SwitchKeepsOnly` | `agent/central_brain.go:1281-1300` | a switch keeps only the shared fields; everything else is what the turn says |
| `StrategyDrafts.RunHoldsRecent` | `agent/central_brain.go:1281-1400` | whatever else the draft holds was said since the last switch |
| `StrategyDrafts.SwitchHappensIff` | `agent/central_brain.go:1402-1437` | a turn that names the other type switches exactly when that type survives the filter; else only a name and a pending confirmation can come of it |
| `StrategyDrafts.RunStaysInTemplate` | `agent/central_brain.go:1302-1335` | over any turns only the name, the type, the patch and the pending confirmation enter the draft |
| `StrategyDrafts.NoTemplateFieldOutside` | `agent/llm_flow_extractor.go:253-281` | no field of either template ever stands outside the patch of a draft that the turns began |
| `StrategyDrafts.AiFieldAfter` | `agent/skill_management_handlers.go:643-765` | an AI field is found after cleaning exactly when the section that is kept has it |
| `StrategyDrafts.AiFieldLostIff` | `agent/skill_management_handlers.go:643-765` | cleaning loses an AI field exactly when its section is given twice |
| `StrategyDrafts.GridFieldKept` | `agent/skill_management_handlers.go:643-765` | cleaning loses no grid field |
| `StrategyDrafts.GridNeverGrows` | `agent/skill_management_handlers.go:667-689` | cleaning never adds to the missing grid fields |
| `StrategyDrafts.AiGrowsIff` | `agent/skill_management_handlers.go:643-665` | when cleaning adds a field to the missing AI fields |
| `StrategyDrafts.RiskTwiceLosesLeverage` | `agent/skill_management_handlers.go:643-765` | a patch with risk control given twice, which after cleaning misses a limit that it had |
| `StrategyDrafts.LegacyTypeForgottenIff` | `agent/skill_management_handlers.go:395-412` | the type is forgotten exactly when only the patch names it and the patch cleans to nothing |
| `StrategyDrafts.MomentumIsForgotten` | `agent/skill_management_handlers.go:395-412` | a turn that leaves a draft whose type is forgotten when it is normalised |
| `StrategyDrafts.LegacyIdempotent` | `agent/skill_management_handlers.go:395-412` | normalising the older session twice is normalising it once |
| `Confirmations.FindOptionByIdOrName` | `agent/skill_dispatcher.go:1033-1044` | the loop finds the first option that answers to the query |
| `Confirmations.FindUniqueContainingOption` | `agent/skill_dispatcher.go:1046-1066` | the only option that overlaps with the query, if there is just one |
| `Confirmations.ResolveTargetSelection` | `agent/skill_dispatcher.go:1005-1031` | the target by identifier, then by name, then by the text |
| `Confirmations.EnsureLiveTargetReference` | `agent/skill_management_handlers.go:203-226` | the target as it is now, or nothing |
| `Confirmations.ResolvedKeepsLive` | `agent/skill_dispatcher.go:1005-1031` | a remembered live target is kept whatever the text mentions; without one the text alone decides |
| `Confirmations.UniqueIsOnly` | `agent/skill_dispatcher.go:1046-1066` | an option is found by overlap exactly when it is the only one that overlaps |
| `Confirmations.SkillStore.Gate` | `agent/skill_runner.go:225-234` | prompt, then wait for a yes, then act and clear |
| `Confirmations.SkillStore.Act` | `agent/skill_execution_handlers.go:1481-1510` | bulk or single target, and the gate |
| `Confirmations.SkillStore.HandleTurn` | `agent/skill_management_handlers.go:2528-2626` | the turn in place computes the specification |
| `Confirmations.RanIff` | `agent/skill_execution_handlers.go:1481-1510` | when exactly an action on a single target runs, on which target, and that the session is cleared |
| `Confirmations.GateIff` | `agent/skill_runner.go:225-234` | which of prompting, waiting and acting a turn does, exactly |
| `Confirmations.BulkGateIff` | `agent/skill_execution_handlers.go:1801-1900` | the same for a bulk deletion, which acts on exactly the deletable ones |
| `Confirmations.PromptEffect` | `agent/skill_runner.go:225-234` | a prompt names the live target and leaves the session waiting for it |
| `ConfirmationRuns.ActionsArePaidFor` | `agent/skill_runner.go:225-244` | actions and waiting sessions never outnumber prompts and copies, over any events, recoveries and turns of the brain included |
| `ConfirmationRuns.NoCopiesNoMore` | `agent/skill_runner.go:225-244` | without copies each action has a prompt of its own |
| `ConfirmationRuns.CopyActsAgain` | `agent/planner_runtime.go:2167-2186` | every copy of a waiting snapshot allows one more action |
| `Confirmations.AliveKeepsIdIff` | `agent/skill_management_handlers.go:203-226` | the look-up keeps the identifier exactly when the first option that answers to it has it |
| `Confirmations.ActsOnWhatWasPrompted` | `agent/skill_execution_handlers.go:1495-1510` | while the identifier answers, the first action is on what was prompted, and happens exactly on a yes |
| `Confirmations.ElseActsElsewhere` | `agent/skill_execution_handlers.go:1495-1510` | otherwise a yes never acts on what was prompted |
| `Confirmations.OnlyByNameClash` | `agent/skill_dispatcher.go:1033-1044` | a live identifier answers unless another option has it as name or hint |
| `Confirmations.WideningIsNotPrompted` | `agent/skill_management_handlers.go:2535-2538` | a reply meaning all targets makes a waiting prompt a bulk deletion without a prompt |
| `Confirmations.BulkNeedsWidening` | `agent/skill_management_handlers.go:2535-2538` | without such a reply a session prompted for one target never deletes in bulk |
| `ConfirmationRuns.ActsOnItsBasis` | `agent/skill_management_handlers.go:2535-2538` | over any events, unless the session was loose: a bulk deletion that runs was prompted for as such or widened while it waited, and an action on one target was prompted for as such |
| `ConfirmationRuns.TightRunsActAsPrompted` | `agent/skill_runner.go:225-244` | where nothing is extracted into sessions and the brain leaves asking to the skill, no session is ever loose |
| `ConfirmationRuns.ExtractedScopeDeletes` | `agent/planner_runtime.go:2470-2555` | fields extracted on a yes turn a copied snapshot for one target into a bulk deletion that was never prompted for |
| `ConfirmationRuns.ExtractedTargetRedirects` | `agent/llm_flow_extractor.go:510-531` | a target extracted into a waiting session is the one acted on |
| `Confirmations.LostTargetWedges` | `agent/skill_management_handlers.go:2596-2611` | a prompted target that is gone leaves the session without target past the target step |
| `Confirmations.WedgedForever` | `agent/skill_execution_handlers.go:1481-1487` | such a session answers every reply alike and is never changed |
| `TraderCreates.HydrateReferences` | `agent/skill_dispatcher.go:894-949` | the three look-ups in place |
| `TraderCreates.Creator.ExecuteCreate` | `agent/skill_dispatcher.go:640-720` | create, then start, save or clear |
| `TraderCreates.Creator.HandleCreateTrader` | `agent/skill_dispatcher.go:434-504` | the turn in place computes the specification |
| `TraderCreates.HydratedEffect` | `agent/skill_dispatcher.go:894-949` | only the three couples of keys change; a changed identifier is one of the live entities of its kind; one is known afterwards exactly when it was, or its name leads to one |
| `TraderCreates.HydratedBacked` | `agent/skill_dispatcher.go:894-949` | looking up references empties no required slot |
| `TraderCreates.DraftedComplete` | `agent/skill_dispatcher.go:470-504` | a draft that is to wait has all four required fields |
| `TraderCreates.TurnSound` | `agent/skill_dispatcher.go:434-504` | for any session: create is called exactly on a confirmation and uses it up, with all four fields exactly when the name is said and each identifier is known or found by its name; start exactly after a yes to starting and a successful create |
| `TraderRuns.ActedSound` | `agent/llm_flow_extractor.go:487-558` | a turn, or one after an extraction, keeps the live draft sound, and tools are called only for a draft that waited, with all four fields, which then waits no more |
| `TraderRuns.RecoveredSound` | `agent/planner_runtime.go:2470-2555` | a draft recovered from raw JSON, new or copied, is sound, and no tool is called for it |
| `TraderRuns.HappenInOrder` | `agent/planner_runtime.go:2029-2205` | suspending, moving back, resuming, copying back, dropping, recovering and turns of the brain keep every draft sound and every attempt paid for |
| `TraderRuns.RunSound` | `agent/skill_dispatcher.go:434-720` | over any run, switches, copies, recoveries and turns of the brain included: waiting sessions, live or suspended, are complete; attempts and waiting drafts never outnumber prompts and copies |
| `TraderRuns.FromNothing` | `agent/skill_dispatcher.go:434-720` | from nothing at all: the same, and every create call has all four fields if and only if no turn of the brain spoils a draft |
| `TraderRuns.RunWholeIff` | `agent/central_brain.go:921-939` | over any run every create call has all four fields if and only if the brain never confirms a draft when, after its merge, the name is not said, or an identifier is neither said nor found by its name |
| `TraderRuns.CarefulRunIsWhole` | `agent/central_brain.go:1281-1300` | where what the brain extracts takes no required field away, every create call of a run has all four fields |
| `TraderRuns.BlankNameCreates` | `agent/central_brain.go:921-939` | a blank name extracted together with a yes: the create tool is called without a name |
| `BrainDrafts.DriveCreatesIff` | `agent/central_brain.go:269-440` | a turn of the brain creates exactly when it is handed to the skill and confirms a waiting draft, and with all four fields exactly when, after the merge, the name is said and each identifier is said or found by its name |
| `BrainDrafts.ExecutingSound` | `agent/central_brain.go:921-938` | a draft that waits after a turn of the brain says all four required fields |
| `BrainDrafts.Driver.MergeExtracted` | `agent/central_brain.go:1281-1335` | what passes the filter replaces what was collected, blank or not |
| `BrainDrafts.Driver.ToSession` | `agent/central_brain.go:1005-1051` | a session without slots, of what is said |
| `BrainDrafts.Driver.TakeBack` | `agent/central_brain.go:1070-1092` | what the session says is laid over what was collected |
| `BrainDrafts.Driver.ExecuteActive` | `agent/central_brain.go:921-938` | the session is handed to the skill and given up, the draft taken back or over |
| `BrainDrafts.Driver.DriveActive` | `agent/central_brain.go:269-440` | one turn in place computes the specification: merges, route, execution |
| `TraderRuns.NoCopiesNoMore` | `agent/skill_dispatcher.go:434-720` | where nothing is copied back each attempt has a prompt of its own |
| `TraderRuns.CopyCreatesAgain` | `agent/planner_runtime.go:2167-2186` | every copy of a lone waiting draft that is confirmed creates again |
| `TraderRuns.OnePromptManyAttempts` | `agent/planner_runtime.go:2167-2186` | one prompt is enough for as many attempts as there are copies |
| `TraderCreates.WaitsIff` | `agent/skill_dispatcher.go:434-504` | a turn that neither confirms nor declines leaves the draft waiting exactly when it is complete, once looked up, and accepted |
| `Brains.Scanner.Take` | `agent/brain.go:122-130` | an address is taken in once, in the set and in the list |
| `Brains.Scanner.Evict` | `agent/brain.go:164-175` | the half eviction in place keeps set and list the same |
| `Brains.Scanner.ScanNews` | `agent/brain.go:90-176` | one scan: the list is the keys of the set, once each, in order of insertion |
| `Brains.ScansRemember` | `agent/brain.go:90-176` | the last 501 addresses are always remembered, over any scans |
| `Brains.AnnouncementsAreSpaced` | `agent/brain.go:90-176` | two announcements of one address are more than 501 log positions apart |
| `Brains.Debouncer.HandleSignal` | `agent/brain.go:50-66` | the table in place |
| `Brains.Debouncer.CleanStaleSignals` | `agent/brain.go:40-48` | exactly the entries older than half an hour are removed |
| `Brains.ReactIsDue` | `agent/brain.go:40-60` | a signal is notified exactly when the last notification of its kind is ten minutes old or more, whatever was cleaned |
| `Brains.NotesWellApart` | `agent/brain.go:40-60` | two notifications of one kind are at least ten minutes apart |
| `StreamTexts.SplitLine` | `agent/stream_text.go:28-44` | the inner loop computes the pieces of a line |
| `StreamTexts.SplitStreamText` | `agent/stream_text.go:14-49` | the loops compute the chunks |
| `StreamTexts.ChunksConserve` | `agent/stream_text.go:14-49` | but for white space the chunks together are the text |
| `StreamTexts.ChunksNeat` | `agent/stream_text.go:14-49` | chunks are trimmed, not blank, and cut only at their last rune; the fallback is never taken |
| `Onboardings.Onboarder.GetState` | `agent/onboard.go:44-63` | the cached state, or the stored keys |
| `Onboardings.Onboarder.SaveExchange` | `agent/onboard.go:431-479` | our account of the venue is updated, where blank credentials keep the old ones, or a new one made, which is refused when one is missing |
| `Onboardings.Onboarder.CreateTrader` | `agent/onboard.go:363-429` | a pair that exists is used again |
| `Onboardings.Onboarder.HandleMessage` | `agent/onboard.go:107-217` | one message in place computes the specification |
| `Onboardings.HappenSound` | `agent/onboard.go:44-217` | one event keeps cache and keys in agreement, the exchange saved before the model, accounts and traders unique |
| `Onboardings.StepsOn` | `agent/onboard.go:107-217` | from each step one way on, by the venue at the fork, or back to the start |
| `Onboardings.SetupIsOrderly` | `agent/onboard.go:44-217` | over any messages, failures and restarts all of this holds, the steps taken are a prefix of the way for the venue, and the state holds what was sent but for what a restart took |
| `Onboardings.ConnectsIff` | `agent/onboard.go:431-479` | the model is asked for exactly when the store works and there is an account to update or a new one lacks nothing; else nothing changes |
| `Onboardings.SavedIsSentIff` | `store/exchange.go:292-318` | the saved account holds exactly what was sent if and only if no restart took a needed credential, or the account held it before |
| `Onboardings.CredentialsArriveIff` | `agent/onboard.go:44-217` | both, at the end of any run of messages, failures and restarts |
| `Onboardings.HyperliquidNeverConnects` | `store/exchange.go:241-249` | setup alone never makes an account at Hyperliquid |
| `Onboardings.OthersConnect` | `agent/onboard.go:107-217` | every other venue is set up by its messages, and the account then holds exactly what was sent |
| `PlannerLoop.Executor.Save` | `agent/execution_state.go:246-262` | the normalised state is stored, and the steps in memory, which share its storage, are normalised with it |
| `PlannerLoop.Executor.AdoptSteps` | `agent/planner_runtime.go:3059-3085` | the filled steps join the completed ones, and the state is saved |
| `PlannerLoop.Executor.StartStep` | `agent/planner_runtime.go:3088-3099` | the step is marked as running and the state saved |
| `PlannerLoop.Executor.ExecuteStep` | `agent/planner_runtime.go:3088-3213` | one step from its start to its outcome |
| `PlannerLoop.Executor.FinishStep` | `agent/planner_runtime.go:3215-3218` | the save after a step, which ends the run when it fails |
| `PlannerTheorems.ExecuteKeepsHead` | `agent/planner_runtime.go:3088-3222` | one executed step keeps the loop-head invariant |
| `PlannerTheorems.DecideKeepsHead` | `agent/planner_runtime.go:3045-3086` | one decision keeps the loop-head invariant |
| `Sessions.SessionCell.CopySlots` | `agent/skill_dispatcher.go:67-101` | the filled slots are written over their fields, one after the other |
| `Histories.ChatHistory.constructor` | `agent/history.go:23-31` | an empty history with the given cap, or a hundred |
| `Histories.ChatHistory.Get` | `agent/history.go:52-64` | the messages of the user, none for an unknown one |
| `Histories.ChatHistory.Clear` | `agent/history.go:84-88` | the user is forgotten, and no one else |
| `TaskStacks.TaskStore.Get` | `agent/execution_state.go:273-292` | reading normalises and does not write |
| `TaskStacks.TaskStore.Save` | `agent/execution_state.go:294-308` | writing normalises |
| `TaskStacks.TaskStore.Clear` | `agent/execution_state.go:340-345` | the stored stack is empty |
| `Contexts.Store.SaveExecution` | `agent/execution_state.go:246-262` | the normalised state is stored under the user it names; a blank session clears the entry |
| `Contexts.Store.SaveWorkflow` | `agent/workflow.go:92-108` | the normalised workflow is stored with the user and the time |
| `Contexts.Store.IsBusy` | `agent/planner_runtime.go:2091-2104` | the guard of resuming: whether a session, a workflow or an execution state is active |
| `TraderCreates.LookUp` | `agent/skill_dispatcher.go:894-914` | one kind of reference, looked up in place |
| `TraderCreates.LookedEffect` | `agent/skill_dispatcher.go:894-914` | a known identifier is refreshed to that of the first entity that answers to it, if any |
| `AgenticTurns.Toolbox.Handle` | `agent/agentic_loop.go:121-131` | each handled call is one more tool run |
| `Onboardings.Onboarder.SaveState` | `agent/onboard.go:65-74` | cache and stored keys are written together |
| `Onboardings.Onboarder.ClearState` | `agent/onboard.go:76-82` | cache and stored keys are cleared together |
| `Onboardings.Onboarder.Connect` | `agent/onboard.go:158-172` | the exchange is saved, and only then the model asked for |
| `Onboardings.Onboarder.Finish` | `agent/onboard.go:305-357` | the state is cleared before the trader is made |
| `PlannerReplies.RunSays` | `agent/planner_runtime.go:3178-3213` | what a run replies is said by the answer at which it stopped: canned or final text of a response, instruction or default of a question, text of a redirect; and it is the final answer |
| `PlannerReplies.RunTells` | `agent/planner_runtime.go:3059-3150` | event by event: the batch decided is what passed the filter, a tool entry carries the result as answered and its summary, a thought the reasoning as written |
| `PlannerOutcomes.IterateStopsIff` | `agent/planner_runtime.go:3043-3225` | for each reason to stop without a reply its exact condition, and the exact condition to reply |
| `PlannerOutcomes.RunStopsBecause` | `agent/planner_runtime.go:3038-3225` | a run stops for the reason of its last iteration, and runs out exactly when no iteration stops |
| `PlannerOutcomes.RunGoesOn` | `agent/planner_runtime.go:3043-3225` | from head to head: the step is done with its output, or the batch and the goal adopted; all stored, the identity kept |
| `PlannerOutcomes.FailureIsMarked` | `agent/planner_runtime.go:3129-3149` | a failed reasoning marks its step and the run, with the text of the failure |
| `PlannerOutcomes.ExecutePlanTells` | `agent/planner_runtime.go:3038-3225` | the whole run: reply, history, reason to stop, and what each iteration leaves |
| `PlannerOutcomes.DoneStepsSnoc` | `agent/planner_runtime.go:3587-3595` | each step is kept exactly when it is done, in order |
| `PlannerCalls.SignatureIff` | `agent/planner_runtime.go:3374-3387` | two calls have one signature exactly when tool and arguments are the same |
| `PlannerCalls.FilterByCall` | `agent/planner_runtime.go:3314-3338` | said of tools and arguments only: kept are the other steps, and the calls neither logged within a minute nor repeated in the batch |
| `PlannerCalls.SameWordsIff` | `agent/planner_runtime.go:3340-3357` | two reasonings repeat each other exactly when tool, title and instruction agree up to case |
| `AgenticTurns.TurnReplies` | `agent/agentic_loop.go:84-146` | the reply is what the model says in the first round without tools, the wrap-up after twelve, or the word about the interruption |
| `AgenticTurns.TurnsAppend` | `agent/agentic_loop.go:165-191` | each entry is shown as what it says, to the side that said it |
| `AgenticTurns.ReplayIs` | `agent/agentic_loop.go:165-191` | the last twelve entries are replayed, without the one that is just being answered |
| `Restorings.RestoresById` | `agent/planner_runtime.go:2052-2077` | the topmost live entry with the given snapshot identifier is removed and restored |
| `Restorings.RestoresNothingById` | `agent/planner_runtime.go:2052-2077` | without such an entry nothing happens |
| `Restorings.RestoresByDomain` | `agent/planner_runtime.go:2188-2216` | the topmost live entry about the given domain is removed and restored |
| `Restorings.RestoresNothingByDomain` | `agent/planner_runtime.go:2188-2216` | without such an entry nothing happens |
| `Restorings.ReadsTheYoung` | `agent/execution_state.go:457-480` | read are exactly the entries suspended no more than a day ago |
| `Restorings.BusyIff` | `agent/planner_runtime.go:2091-2104` | when something goes on, for contexts as they are stored |
| `Restorings.ResumeDecides` | `agent/planner_runtime.go:2091-2113` | cancel, resume or nothing, exactly |
| `Restorings.CopyRestoresIff` | `agent/planner_runtime.go:2167-2186` | a snapshot is copied back exactly when it is the only live one, the reply answers, and its session waits |
| `Restorings.BuiltSays` | `agent/planner_runtime.go:1907-1946` | new identifiers, the hint worded after what was active, and the triggers of a trader draft |
| `TraderRuns.RunCallsFor` | `agent/skill_dispatcher.go:640-720` | over any run each create call is made for the very session handed over: its exchange, model and strategy, refreshed among the live ones |
| `Targets.EqualFoldIff` | `agent/skill_dispatcher.go:1033-1044` | texts are equal up to case letter by letter |
| `Targets.FindsTheFirst` | `agent/skill_dispatcher.go:1033-1044` | found is the first option with that identifier, name or hint, and nothing if there is none |
| `Targets.FindsTheOnlyNear` | `agent/skill_dispatcher.go:1046-1066` | found is the only option one of whose texts contains the query or is contained in it |
| `Targets.FindsEither` | `agent/skill_dispatcher.go:1005-1031` | the first that answers goes before the only one that overlaps |
| `Targets.ResolvedIs` | `agent/skill_dispatcher.go:1005-1031` | the remembered identifier first, then the remembered name, then the text |
| `Targets.AliveIs` | `agent/skill_management_handlers.go:203-226` | the option found by the identifier, else by the name, with its present name |
| `Targets.AimIs` | `agent/skill_management_handlers.go:2528-2626` | the target of a turn: resolved at the target step, remembered after it, and live |
| `Targets.BulkOnlyDeletes` | `agent/skill_management_handlers.go:142-149` | only deletions of traders and strategies are ever prompted for or done in bulk |
| `Targets.AllMeansAll` | `agent/skill_execution_handlers.go:1801-1900` | a reply that means all targets prompts for all, and deletes all that can be deleted once confirmed |
| `Targets.StoredIs` | `agent/skill_dispatcher.go:103-118` | a session is stored with its target trimmed, or without a blank one |
| `ConfirmationRuns.PromptThenYes` | `agent/skill_runner.go:225-234` | a prompted session is stored and waits, and a yes to it acts once on the target it was prompted for |
| `Compactions.StepIdsDiffer` | `agent/execution_state.go:359-398` | identifiers by position differ for different positions |
| `Compactions.LabelsAppend` | `agent/execution_state.go:602-630` | each folded entry adds its kind and its text, the summary before the raw result |
| `Compactions.SummaryTells` | `agent/execution_state.go:602-630` | the labels joined and cut, as a note of its own kind |
| `Compactions.NothingLost` | `agent/execution_state.go:582-600` | what is folded and what is kept are the whole log |
| `Compactions.AppendFolds` | `agent/execution_state.go:637-640` | appending to a full log folds its oldest entry into the newest note |
| `Compactions.EntryKeeps` | `agent/execution_state.go:558-580` | an entry is trimmed and keeps its time; blank ones are dropped |
| `Compactions.NormalizeKeeps` | `agent/execution_state.go:359-398` | nothing but white space, blank identifiers, blank statuses and a missing time changes |
| `Compactions.WaitingKeeps` | `agent/execution_state.go:480-500` | a question is kept, trimmed, unless nothing is asked for |
| `Histories.OperationsAreEvents` | `agent/history.go:34-104` | each operation is an event of the one user that it names |
| `Histories.CleanKeepsIff` | `agent/history.go:91-104` | kept are exactly the histories that are empty or whose last message is recent |
| `Brains.ScanTells` | `agent/brain.go:90-176` | an article is taken in exactly when its address is new, and announced exactly when it is also recent and toned |
| `Brains.ScanForgets` | `agent/brain.go:164-175` | forgotten is the older half, and only beyond a thousand |
| `Brains.SweepForgetsIff` | `agent/brain.go:40-48` | forgotten is exactly what was notified more than half an hour ago |
| `StreamTexts.LineIsCut` | `agent/stream_text.go:28-44` | a line is cut after each rune that cuts, and nowhere else |
| `StreamTexts.TextIsDivided` | `agent/stream_text.go:14-49` | a text is divided at each line end, and nowhere else |
| `StreamTexts.LinesInOrder` | `agent/stream_text.go:14-49` | the lines are cut one after the other |
| `StreamTexts.CutsIff` | `agent/stream_text.go:14-49` | which runes cut |
| `SuspendedTasks.KeepsWorkable` | `agent/workflow.go:47-67` | a task of a workflow is kept exactly when it has a skill, an action and a request |
| `SuspendedTasks.KeepsWorkflow` | `agent/workflow.go:45-75` | a workflow is kept exactly when some task of it is |
| `SuspendedTasks.TaskKeeps` | `agent/execution_state.go:400-455` | a task is dropped exactly when it has neither part nor kind, and otherwise keeps its parts and texts |
| `SuspendedTasks.PartsLeft` | `agent/execution_state.go:400-455` | which parts of a task are left |
| `Text.TrimCuts` | `agent/memory.go:121-143` | trimming cuts white space at both ends and nothing else |
| `Restorings.MovesByPosition` | `agent/planner_runtime.go:2052-2077` | with two readings of the clock the entry is looked up by its position among those live at the second |
| `Restorings.ReadsFive` | `agent/execution_state.go:457-480` | no more than the last five entries are read |
| `Brains.SignalNotifiesIff` | `agent/brain.go:50-66` | a signal notifies exactly when its kind was not notified in the last ten minutes |
| `Onboardings.PassphraseIff` | `agent/onboard.go:514-516` | which venues need a passphrase |
| `Onboardings.KeyLikeIff` | `agent/onboard.go:118-137` | a text in plain letters can be a credential exactly with eight of them and no blank in between |
| `Onboardings.HanIsNoKey` | `agent/onboard.go:118-137` | Han characters are never part of one |
| `Onboardings.EndsEarly` | `agent/onboard.go:107-217` | a cancellation, or a text that cannot be a credential where one is asked for, ends the conversation |
| `Onboardings.UnreadStays` | `agent/onboard.go:107-217` | a message that cannot be read as an answer changes nothing |
| `Onboardings.ChoiceIsKept` | `agent/onboard.go:107-217` | a venue or model that is chosen is kept, and its key asked for |
| `Onboardings.SetupMakesTrader` | `agent/onboard.go:305-429` | the last message makes the trader of the saved account and the chosen model, once |
| `Onboardings.RestartForgets` | `agent/onboard.go:44-63` | after a restart the conversation goes on where it was, without the credentials |
| `StrategyDrafts.LegacyTypeReads` | `agent/skill_management_handlers.go:567-589` | what the older session takes for its type: its field, the patch as text, the branch |
| `TraderCreates.TurnLeaves` | `agent/skill_dispatcher.go:434-504` | what a turn leaves of a session: its values as looked up, the phase that says what is awaited, or nothing |
| `Onboardings.HandsOver` | `agent/onboard.go:431-479` | the passphrase as it is, and key and secret in the places that the venue wants |
| `BrainDrafts.GatheredIs` | `agent/central_brain.go:1281-1300` | a key says what was extracted last for it |
| `BrainDrafts.TakenBackIs` | `agent/central_brain.go:1070-1092` | a draft taken back says what the session says, and otherwise what it said before |
| `BrainDrafts.DriveByRoute` | `agent/central_brain.go:269-440` | what a turn does by its route, and when it executes without one |
| `BrainDrafts.DrivenFrom` | `agent/central_brain.go:269-440` | a turn works on a new draft or on the one there is |
| `Sessions.AliasFolds` | `agent/skill_dispatcher.go:49-65` | the alias of the model key fills a blank one, and wins over a filled one if it is met later |
| `Sessions.NoAliasElsewhere` | `agent/skill_dispatcher.go:49-65` | a session of another skill keeps both keys |
| `DraftNames.IndexOfFirst` | `agent/skill_dispatcher.go:198-220` | a part is found at the first place where it stands |
| `DraftNames.PrefixComesOff` | `agent/skill_dispatcher.go:198-220` | the first prefix that the name starts with is taken off |
| `DraftNames.LabelCuts` | `agent/skill_dispatcher.go:198-220` | a label cuts at its first place, whatever its case, and several one after the other |
| `DraftNames.StopCuts` | `agent/skill_dispatcher.go:198-220` | the same for the stops |
| `DraftNames.DraftNameTrims` | `agent/skill_dispatcher.go:198-220` | white space around a name never matters |
| `DraftNames.DraftNameInOrder` | `agent/skill_dispatcher.go:198-220` | prefix, labels, stops, and then only marks are stripped, at the ends |
| `Text.SpaceIff` | `agent/memory.go:121-143` | which runes count as white space |
| `Text.OrElseIs` | `agent/memory.go:121-143` | the first text counts unless it is all white space |
| `Text.JoinAppend` | `agent/execution_state.go:602-630` | joining two lists puts one separator between them |
| `TraderRuns.GivenIs` | `agent/planner_runtime.go:1173-1205` | what is handed to the skill: new or stored, with what was extracted written to it |
| `TraderRuns.RecoveryWaits` | `agent/planner_runtime.go:2470-2555` | a recovered draft that misses nothing waits at once, as it was written and looked up |
| `TraderRuns.WhereDraftsGo` | `agent/planner_runtime.go:2029-2186` | where suspending, moving, resuming, copying and dropping take the drafts |
| `TraderRuns.HappenCounts` | `agent/skill_dispatcher.go:434-720` | attempts, copies and prompts are counted exactly |
| `ConfirmationRuns.EditedIs` | `agent/llm_flow_extractor.go:487-533` | an extraction replaces what it names, trimmed, and leaves the rest |
| `ConfirmationRuns.OverlaidIs` | `agent/central_brain.go:1070-1092` | laid over what was collected, a session keeps what it says |
| `ConfirmationRuns.TurnsDo` | `agent/skill_management_handlers.go:2528-2626` | what a turn leaves and how it counts |
| `ConfirmationRuns.RecoveryDoes` | `agent/planner_runtime.go:2470-2555` | a recovery goes into the live session, else into a new one or a copy |
| `ConfirmationRuns.BrainDoes` | `agent/central_brain.go:269-440` | a turn of the brain asks, leaves, or hands its session to the skill and takes it back |
| `ConfirmationRuns.WhereSessionsGo` | `agent/planner_runtime.go:2029-2186` | where suspending, moving and copying take the sessions |
| `Onboardings.SizeCons` | `agent/onboard.go:118-137` | runes beyond the plain letters count as two, three or four bytes |
| `Onboardings.UpdateKeeps` | `store/exchange.go:292-340` | an update keeps every credential that it is not given |
| `Onboardings.OpensAs` | `store/exchange.go:241-290` | a new account is ours and holds what was handed over |
| `Onboardings.LacksIff` | `store/visibility.go:5-37` | what a new account must be given |
| `ConfirmationRuns.TrailIsComplete` | `agent/skill_runner.go:225-244` | the record of what actions rested on misses none of them |
| `TraderRuns.BrainTurnDoes` | `agent/central_brain.go:921-938` | a turn of the brain changes its own draft and gives up the live session when it executes |

## Left out

- Prompts, the parsing of model output, HTTP, logging, streaming of events and the wording of replies: opaque inputs and outputs.
- Tool implementations, the database and its listings: inputs, one answer for each call that the source makes.
- Action-name clean-up, the list of fields that a strategy type lets be edited, the reading of strategy types and of yes, no and all-targets replies: parameters, with the assumption needed stated as a precondition (idempotent clean-up; the two canonical type names are read as themselves).
- Time stamps are whole seconds or absent; malformed ones, which the source treats as unknown times, are not modelled. Each operation reads the clock once, except restoring by identifier, which reads it twice.
- Case folding covers the letters A to Z; lengths count characters where the source counts bytes (the caps of 500 and 1000).
- Skill names, statuses, phases, kinds and field keys are read trimmed, as enumerations with a case for other texts; a skill session with a key that differs from another one only by white space is not modelled.
- Store write failures outside the plan executor and the setup flow: the source ignores them there.
- Current references, reference history and dynamic snapshots of an execution state, which the executor does not branch on.
- The source of a chosen target (mentioned or remembered), and the other fields of a session that waits for a confirmation.
- The confirmation path of risk-controlled strategy updates, which also pushes a snapshot; `CopyActsAgain` covers what that snapshot can lead to.
- Which decision, route and extracted fields a turn of the brain gets: inputs. Of confirmations the brain asks for itself, whether the required fields were there is an input too, and what may be extracted is not limited to the fields that the registry allows.
- TraderRuns.RunSound: sessions of other skills that are live or suspended in between are not part of the run.
- Planner: taking a decision normalises the steps in memory, which share their storage; on the steps that the executor keeps this changes nothing.
- Update, query and diagnosis actions, which need no confirmation; the diagnosis texts.
- Maps and pointers that the source shares between structures are values here: the write of the sanitiser into the branch object of its input, and of `strategyCreateConfigFromSession` into its caller's fields, do not show. The sharing of the step slice between memory and store is modelled.
- Background history compression is one atomic step; `LateCompressionLosesIff` says what is lost otherwise.
- Sentiment scoring, market briefs, the sentinel and the scheduler, wallets, model ranking, the entity and provider catalogues, the web and command-line parts: data or plumbing.
- PlannerSafety.ExecutePlanIsSafe: decision steps are assumed blank or pending, and the early-refetch part assumes distinct step identifiers; the source checks neither.
- PlannerCalls.FilterByCall: tool names are assumed to hold no bar, which is what separates name and arguments in a signature; no tool of the program has one.
- PlannerSafety.BegunIsReady: references carried over from memory are not part of the state.
- PlannerLoop.Executor.RunStep: the text asked when a question step carries none is one fixed text, shorter than the source's.
- Sessions.SessionCell.Write: the clean-up of draft names is a parameter, so that what is said holds of any; `DraftNames.DraftName` is the source's.
- Sessions.FlagStaysEven: writes of a step marker into the field map, which bypass the slots and never touch the start flag, are no changes here.
- Contexts.SuspendThenResume: an execution state that names another user is stored under that user, whose context is not modelled.
- Onboardings.SetupIsOrderly: accounts and traders are assumed to be made by setup only, and new accounts to get an identifier.
