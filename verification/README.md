# Venat: a verified model of the agent loop and its algorithms

Venat is a Go SDK for agents: a checkpointable loop that alternates model turns and tool
turns, the history transformations that loop has to survive, two lock-based protocols, and
several streaming algorithms that must give the answer a one-shot version would give. This
project models those parts in Dafny and proves what they promise.

The files follow the program's components.

- **The loop and its continuations.** `TokenUsage` is the saturating usage sum.
  `Continuations` is the validator of saved continuations: predicates that state each rule,
  and the methods that scan the transcript and the steps, proved to decide those predicates.
  `AgentLoop` gives one pass of the loop, and the run of passes, as functions of a state and
  of the answers of the environment; `LoopEngine` is the loop itself, a class whose methods
  update messages, steps, usage, context usage, tool-call count and operation turn in place
  and are proved equal to those functions. `LoopTranscript`, `LoopLedger` and `LoopInvariant`
  prove that every boundary is valid, `LoopBoundaries` that the validator accepts nothing else,
  `LoopEffects` what each pass adds and what a run hands back, `LoopLimits` that budgets bind and
  that the loop stops, `LoopResume` that a run resumed from any boundary ends as the uninterrupted
  run, `LoopGaps` exactly where the boundary check fails. `LoopMemory` and `LoopWithMemory` put the
  loop and working memory together, so that nothing is assumed about the states of a run.
  `LoopFitting` does the same for the overflow fallback, which deletes messages.
  `LoopWitnesses` holds small runs from a new conversation that reach the failures.
- **History.** `History` defines complete turns and safe cuts. `WorkingMemory`,
  `ArchiveProofs`, `WorkingMemoryGuarantees` and `WorkingMemoryProcedures` cover archiving
  compaction, `Excerpts`, `FitContext` and `FitProcedures` fitting a history into a context
  window.
- **Protocols.** `TokenTracker` (token reservations of child agents), `ControlMailbox`,
  `ControlProtocol` and `ControlService` (live input), `ToolBatch` (barriered parallel tools) are state machines
  over atomic critical sections; every theorem is about every interleaving.
- **Streams.** `CallBuilders`, `CallAssembly`, `EventNormalizer`, `ResponseContent` and
  `NormalizerProcedures` (events into one response), `ThinkSplitter` (think tags), `OpenAISlots` (tool-call slots),
  `RetryStream` (reopened streams), `ScanSearch` (search in stored output), `OutputBuffer`
  (bounded output). `Chunks` holds what the chunked algorithms share.
- **`EditDistance`** is the two-row dynamic program against minimal edit scripts.

`Messages` and `Wrappers` hold the shared entities.

## How the model is set up

- The provider, the tools, the output guardrails, the step decider and the live inputs are
  answers read from a script, one entry per pass; a theorem about a run holds for every script.
  Compactors, token estimators, JSON and blank-text tests, and the behaviour of each attempt of
  a stream are function parameters.
- Go strings are `string` whose characters stand for bytes. `int64` sums that saturate in the
  source saturate in the model.
- An operation ID `turn:T:call:S` is the pair of its numbers, or `Malformed`.
- Tool-call builders are named by their position in the creation order, which is what the key
  strings of the source distinguish.
- A verdict is what the results of the guardrails come to; a result the engine refuses as invalid
  counts as a block.
- A boundary observer is always configured: the source snapshots and validates only then.

## Where the code and its promises part

- A boundary is valid only while the transcript ends in one assistant message for each step,
  with that step's calls (`LoopInvariant.TranscriptValidIff`). Nothing stops a guardrail, a
  compactor or an empty answer from breaking that, and the run is then stopped by its own check:
  after a verdict exactly when the history it left does not end so (`LoopGaps.VerdictContinuesIff`,
  `LoopGaps.RetryContinuesIff`), after context work exactly when the history returned does not, or
  its cost does not fit (`LoopGaps.CompactionBoundaryIff`), and on an empty answer exactly when
  older answers without calls do not make up for it (`LoopGaps.AnswerRejectedIff`). So a retry that
  omits the rejected answer fails (`LoopWitnesses.OmittedAnswerStops`), unless its replacement
  context holds one answer in its place (`LoopWitnesses.StandInContinues`); a retry that keeps the
  answer and adds another fails behind a tool step (`LoopWitnesses.CrowdedAnswerStops`); and so do
  an empty answer (`LoopWitnesses.EmptyAnswerStops`), a compactor that deletes an answer
  (`LoopWitnesses.ForgettingStops`) and the overflow fallback that drops one
  (`LoopFitting.FitContinuesIff`, reached in `LoopWitnesses.FittedAnswerStops`).
- Context work charged to a step without tool calls breaks the ledger exactly when it cost
  something and child-agent usage came before (`LoopLedger.AccountContextIff`,
  `LoopGaps.CompactionBoundaryIff`; reached in `LoopWitnesses.ChildThenContextStops`).
- A run resumed from `ready` repeats the budget check, and stops where the uninterrupted run
  went on if that check now fails (`LoopResume.ResumeReady`; reached in
  `LoopWitnesses.RecheckedRunStops`). With `MaxIterations` unset, a
  retry asked for while validating output is refused after a resume although the uninterrupted
  run allows it (`LoopResume.ResumedRetryRefused`; reached in
  `LoopWitnesses.ResumedRetryStops`). The thinking reported for a tool step that
  the decider failed differs after a resume (`LoopResume.ResumeToolsComplete`).
- The comment on `preDispatchBudgetBlock` speaks of the step count before the current step; the
  code counts the current step. The two part exactly when that step reaches `MaxSteps` with
  tokens and tool calls left (`LoopLimits.StepCeilingIff`): the turn is then refused even if its
  tools are terminal and would finish the run, against agent/agent.go:90-93
  (`LoopLimits.ToolTurnRefusedIff`; reached in `LoopWitnesses.OneStepRefuses`). The model follows
  the code.
- A tool result without a call ID takes the first open call, which can leave a later result
  without its own: a matching exists and the history is still rejected
  (`History.NamelessResultMayBlock`). A turn whose results can be matched at all is refused
  exactly when a nameless result takes a call that a later result needs
  (`History.PairableAcceptedIff`), never when the nameless results come last
  (`History.NamelessLastAccepted`).
- A message of the summary kind outside tool turns is archived exactly when it carries no
  instructions (`ArchiveProofs.SummaryArchivedIff`), so one in a system message outlives every
  compaction (`WorkingMemoryGuarantees.InstructionsOutliveSummaries`).
- `Steer` admits its input and interrupts the turn in two critical sections; between them the
  input can be consumed, and then a later turn is interrupted
  (`ControlProtocol.LaterTurnInterrupted`). That can come about in a run if and only if inputs
  are taken, or the run finishes, between the two halves of a correction
  (`ControlProtocol.RunStraysIff`).
- A parallel group in which every call succeeded returns its outputs as they are, a group with a
  failure fills in missing call IDs and names; calls, order and contents agree either way
  (`ToolBatch.EveryInterleavingReports` says which outputs are filled in).
- The share of a batch is rounded up, so its last children can be left waiting although there is
  a token for each: a budget of 5 shared by four leaves the fourth nothing
  (`TokenTracker.LastChildWaits`). A child gets a claim exactly when the shares of those before it
  leave something (`TokenTracker.BatchTakesAll`).
- The validator accepts a `model_complete` continuation in which some results of the open turn are
  recorded already (`LoopBoundaries.ModelCompleteIff`), but resuming takes back the last message as
  the one with the calls. A valid continuation can be resumed exactly when it does not end so
  (`LoopBoundaries.ResumableIff`; the smallest case is `LoopBoundaries.HalfDoneAccepted`). The loop
  builds none.
- The validator bounds the context usage of a continuation from below only. One that agrees with
  the last step is accepted at `ready` exactly when the loop's invariant holds
  (`LoopBoundaries.ReadyIff`); one that is ahead of all steps is accepted as well
  (`LoopBoundaries.ContextAheadAccepted`).
- The similarity score divides a distance in runes by a length in bytes; it stays in [0, 1]
  because no string has more runes than bytes (`EditDistance.ScoreInUnit`).

## Model

| member | source | states |
|---|---|---|
| LoopInvariant.RunSound | agent/agent.go:331-424 | from any state the invariant admits, under assumptions on answers, and with verdicts and compactors that leave one answer for each step where the run goes on, a run of any length keeps the invariant, never stops on a rejected boundary, and every continuation it hands to observers passes the validator |
| LoopInvariant.OnePassSound | agent/agent.go:331-424 | one pass (inputs, compaction, model turn, tools, answer, pause, recovery, interruption) keeps the invariant and meets no rejected boundary |
| LoopInvariant.GoodIsValid | agent/continuation.go:128-164 | a state with the invariant, snapshot at `ready`, passes every rule of the validator |
| LoopInvariant.BoundaryValidIff | agent/continuation.go:128-192 | a continuation carrying a state with a balanced ledger is valid if and only if transcript and steps fit its phase |
| LoopInvariant.TranscriptValidIff | agent/continuation.go:128-287 | with a ledger balanced for some calls and any transcript, a continuation is valid in any phase if and only if its transcript ends in assistant messages with those calls, one for each step (calls still to be executed need only their numbers), and fits the phase |
| LoopInvariant.ReadyValidIff | agent/continuation.go:128-192 | at `ready`: if and only if no call is open or of a later turn and the last assistant messages made the calls of the steps |
| LoopInvariant.AlignedGood | agent/continuation.go:194-226 | a transcript so aligned leads back to a state with the invariant |
| LoopLedger.LedgerFitsIff | agent/continuation.go:228-287 | a ledger valid for one sequence of turns is valid for another if and only if the calls are the same, in every field but for those still to be executed |
| LoopInvariant.StartToolsSound | agent/agent.go:583-663 | before tools run, the appended tool turn is a valid `model_complete` boundary with exactly its calls unanswered |
| LoopInvariant.FinishToolsSound | agent/agent.go:770-829 | recorded tool results give a valid `tools_complete` boundary, and whatever the decider says leaves the invariant |
| LoopInvariant.ToolSound | agent/agent.go:583-663 | a whole tool turn, from counting its usage to the next pass, keeps the invariant |
| LoopInvariant.AnswerSound | agent/agent.go:681-768 | a final answer keeps the invariant whenever the run goes on, if the history its verdict leaves keeps the answers aligned with the steps |
| LoopInvariant.AnswerBoundary | agent/agent.go:681-705 | the answer just appended with its finishing step is a valid `validating_output` boundary |
| LoopInvariant.SettleSound | agent/agent.go:707-768 | accepted and retried outputs, with any replacement context that keeps the alignment, lead to a state with the invariant, and no verdict to a rejected boundary |
| LoopInvariant.VerdictOkFits | agent/output_guardrail.go:186-205 | accepted answers, retries that keep the answer and add instructions, and retries with one answer standing in for it keep the alignment in every state |
| LoopInvariant.PauseSound | agent/pause_continuation.go:43-105 | a paused turn, continued or not, keeps the invariant |
| LoopInvariant.InterruptedSound | agent/agent.go:438-472 | recording a turn cut short by steering keeps the invariant |
| LoopInvariant.CompressGood | agent/agent.go:1000-1035 | a compaction that archives, or keeps the answers aligned in any other way, keeps the invariant if its cost fits |
| LoopInvariant.AskSound | agent/agent.go:1360-1424 | a model turn, with one recovery from context overflow, leaves the invariant when it yields a reply or an interruption |
| LoopInvariant.ObservedValid | agent/agent.go:865-906 | with no assumption at all, observers of a pass only receive continuations the validator accepts |
| LoopInvariant.EnterGood | agent/agent.go:256-330 | a new run on any well-formed transcript without open calls starts in the invariant |
| LoopInvariant.EnterKeeps | agent/agent.go:256-330 | entering the loop again from a state with the invariant changes nothing |
| LoopInvariant.OperationTurnIsFresh | agent/agent.go:852-863 | the operation turn of the next tool turn is above every turn in the transcript, so no operation ID is used twice |
| LoopBoundaries.ReadyIff | agent/continuation.go:128-164 | for every state: a `ready` continuation is accepted, with counts in range, context usage that agrees with the last step and a fresh operation turn, if and only if the loop's invariant holds |
| LoopBoundaries.ContextAheadAccepted | agent/continuation.go:318-340 | the smallest accepted continuation whose context usage is ahead of its totals |
| LoopBoundaries.ModelCompleteIff | agent/continuation.go:194-354 | a step and a turn on top of a state are accepted as `model_complete` if and only if the state had the invariant, the calls are named, distinct and numbered for the turn, fewer results than calls follow in order, and the step is unfinished, goes on and records index, calls and tokens exactly |
| LoopBoundaries.ToolsCompleteIff | agent/continuation.go:194-360 | as `tools_complete`: if and only if the same, with a result for every one of at least one call, traces of those calls and a decision made |
| LoopBoundaries.ValidatingOutputIff | agent/continuation.go:194-366 | as `validating_output`: if and only if the state had the invariant, the message is an answer without calls and its step finishes and records it exactly |
| LoopBoundaries.ValidMeans | agent/continuation.go:194-340 | in whatever phase: counts in range, steps in order that went on up to the last, context usage that only grows, tokens that cover each call, and totals that agree with the last step |
| LoopBoundaries.NeedsStep | agent/continuation.go:342-368 | every phase but `ready` needs a step, and no other phase is accepted |
| LoopBoundaries.VersionsAccepted | agent/continuation.go:128-143 | version 1 is accepted if and only if nothing of version 2 is used, version 2 where the other rules hold, and no other |
| LoopBoundaries.WellNamedIff | agent/continuation.go:515-533 | a turn's calls pass the transcript analysis if and only if their IDs and names are not empty, no ID comes twice, and operation IDs, where set, name their own slot of a turn that is not negative |
| LoopBoundaries.ResumableIff | agent/resume.go:161-186 | an accepted continuation can be resumed if and only if it is not a `model_complete` one that ends in a result |
| LoopBoundaries.HalfDoneAccepted | agent/continuation.go:166-192 | the smallest accepted continuation that cannot be resumed: two calls, one answered |
| LoopEffects.FinishedRun | agent/agent.go:256-436 | a run that finishes hands back the history of its last observed `ready` boundary, as overflow recovery left it, and on top exactly the output that was accepted, or nothing if that is blank, with its thinking; after tools the message with its numbered calls and their results; one step, the usage and the calls of the turn |
| LoopEffects.PassEnds | agent/agent.go:331-424 | for every pass and every answer: the history, totals, steps, reason and iterations it ends with, in terms of the state before, the compactor's result and the answers |
| LoopEffects.AnswerEnds | agent/agent.go:681-768 | a turn without tools: which messages the history gets for each verdict, which decision and observation its step records, and when the run stops and why |
| LoopEffects.PauseEnds | agent/pause_continuation.go:43-105 | a paused turn is kept and goes on, unless its tokens are unreported under a token limit or it is the ninth in a row with no correction waiting |
| LoopEffects.ToolsEnd | agent/agent.go:583-829 | a turn with tools: refused with nothing but its message, or its results, child usage, calls and traces recorded; a terminal tool that succeeded ends the run unless input waits, else the decider decides |
| LoopEffects.IncompleteEnds | agent/agent.go:438-545 | an interrupted turn is kept archived and without calls, a broken one as it is; either counts its usage and a step unless nothing came |
| LoopEffects.OpenEnds | agent/agent.go:914-1035 | how a pass opens: inputs appended, a row of pauses ended, a spent budget, the compactor that is due and when, its history taken if complete with the cache prefix, and the inputs still last |
| LoopEffects.AskEnds | agent/agent.go:1360-1424 | the request is made on the boundary's state; an overflow is answered by one more on a history compacted to three quarters of the target, if that changed it, and otherwise breaks the turn |
| LoopEffects.CompressEnds | agent/agent.go:1000-1054 | compaction succeeds if and only if its history is complete and keeps the cache prefix; its usage is charged either way |
| LoopEffects.RunStopsAt | agent/agent.go:331-436 | a run that stops has gone through whole passes and ends as the next one ends, or has no turns left |
| LoopEffects.TurnsSpentEnds | agent/agent.go:424-436 | with no turns left the run reports a pause or a recovery the last step was waiting for, and otherwise the turn limit |
| LoopEffects.TurnsAllowed | agent/agent.go:665-679 | a run may take the turns set, twelve if none are set, or any number |
| LoopTranscript.AppendCalls | agent/continuation.go:483-538 | a numbered tool turn appended to a settled transcript leaves exactly its calls open |
| LoopTranscript.AppendResults | agent/continuation.go:483-538 | results in call order close those calls and the transcript is settled again |
| LoopTranscript.ScanIgnoresFlags | agent/continuation.go:483-538 | the transcript analysis does not depend on archive flags |
| LoopTranscript.ArchiveKeepsSettled | agent/continuation.go:483-538 | flags and one inserted summary keep the analysis of a complete transcript: same calls, same turns, nothing open |
| LoopLedger.RecordTurn | agent/continuation.go:194-287 | a new model step keeps the ledger balanced, with its calls pending if it has any |
| LoopLedger.RecordTools | agent/continuation.go:228-316 | recording tool results with child usage turns the pending step into a complete one and keeps the ledger balanced |
| LoopLedger.AmendLast | agent/continuation.go:228-287 | changing the last step's decision and observations keeps the ledger |
| LoopLedger.AccountContextIff | agent/continuation.go:289-316 | charging context work keeps the ledger if and only if there is no step yet, the last step has tool calls, the work cost nothing, or no child usage was charged before |
| LoopGaps.VerdictContinuesIff | agent/agent.go:707-768 | whatever the guardrails made of an answer, where the run goes on its next boundary is valid if and only if the history they left ends in one answer for each step |
| LoopGaps.RetryContinuesIff | agent/agent.go:1154-1162 | a granted guardrail retry with any replacement context leaves a valid `ready` boundary if and only if the history it goes on with ends in one answer for each step, with that step's calls |
| LoopGaps.InstructedRetryIff | agent/agent.go:1154-1162 | with instructions only in its context: if and only if the non-empty rejected answer is kept, or the last assistant messages before it, one per step, exist and made no calls |
| LoopGaps.AnswerRejectedIff | agent/agent.go:1166-1171 | a turn without tools is stopped by its boundary if and only if its text and thinking are empty, unless the transcript ends in an answer and its last assistant messages, one per step and one more, made no tool calls |
| LoopGaps.MissingAnswerIff | agent/continuation.go:194-226 | a ledger whose last answer is missing fits the older answers if and only if all of those it is matched with made no calls |
| LoopGaps.ContextBoundaryIff | agent/continuation.go:289-316 | the `ready` boundary behind archiving context work is valid if and only if what the work spent fits the ledger |
| LoopGaps.CompactionBoundaryIff | agent/agent.go:1000-1054 | behind context work of any kind, deleting included, the `ready` boundary is valid if and only if its cost fits the ledger and the history returned ends in one answer for each step |
| LoopFitting.FitContinuesIff | agent/agent.go:1397-1424 | after the overflow fallback has fitted the history the run may go on if and only if the assistant messages of its steps are all left, with their calls |
| LoopFitting.FittingOkIff | agent/agent.go:1397-1424 | the fallback is a compactor the loop's invariant survives exactly in that case |
| LoopFitting.FittedScans | agent/context_window.go:27-78 | a fitted history is accepted by the transcript analysis, with no call open and no new operation turn |
| LoopWitnesses.OmittedAnswerStops | agent/agent.go:1154-1162 | from a new conversation: a retry that omits its answer, and the next pass is stopped by its boundary |
| LoopWitnesses.StandInContinues | agent/agent.go:1154-1162 | from a new conversation: a retry that omits its answer but carries one in its replacement context, and the next pass opens |
| LoopWitnesses.CrowdedAnswerStops | agent/agent.go:1154-1162 | from a new conversation: a tool step, then a retry that keeps its answer and carries another, and the next pass is stopped by its boundary |
| LoopWitnesses.ForgettingStops | agent/agent.go:1000-1035 | from a new conversation: a compactor deletes the answer of the first step, and the run is stopped by its boundary |
| LoopWitnesses.FittedAnswerStops | agent/agent.go:1397-1424 | from a new conversation: the overflow fallback drops the answer of the first step, and the next answer is stopped by its boundary |
| LoopWitnesses.EmptyAnswerStops | agent/agent.go:1166-1171 | from a new conversation: an empty answer is stopped by its boundary |
| LoopWitnesses.ChildThenContextStops | agent/continuation.go:289-316 | from a new conversation: child usage, an answer, paid context work, and the run is stopped by its boundary |
| LoopMemory.MemoryIsCompactor | agent/working_memory.go:196-253 | working memory meets what the loop assumes of a compactor on every history that is not complete or whose tool groups are archived as wholes, if its cost fits the ledger |
| LoopMemory.AccountNothing | agent/agent.go:1000-1035 | a compactor that spent nothing leaves a state with the invariant untouched |
| LoopWithMemory.MemoryPrepares | agent/runtime_helpers.go:50-62 | what working memory prepared, with the run's target or its own default, a second opening leaves alone |
| LoopMemory.CompressTwice | agent/agent.go:1000-1035 | compressing again with working memory changes nothing and costs nothing |
| LoopMemory.CompressTellsSummariser | agent/agent.go:1000-1035 | where the loop takes a history that working memory changed, its summary was made of exactly the messages the model no longer sees, and was charged |
| LoopWithMemory.RunSoundWithMemory | agent/agent.go:331-424 | with working memory as the compactor, and assumptions on the answers alone (child agents spend nothing or summaries are free), every boundary of every run is valid and tool groups of complete histories stay archived as wholes |
| LoopWithMemory.PassSteady | agent/agent.go:331-424 | one pass keeps tool groups whole and the totals free of child usage |
| LoopWithMemory.PassAssumed | agent/agent.go:1000-1035 | in such a state all that is assumed of compactors in a pass holds of itself |
| LoopWithMemory.FaithfulWithMemory | agent/resume.go:146-159 | a `ready` boundary of such a run resumes faithfully if and only if no live input came with it and the budget check still passes |
| LoopWithMemory.RunResumesWithMemory | agent/resume.go:146-222 | from every boundary of every pass of such a run the resumed run ends as the uninterrupted one |
| LoopLimits.RunWithin | agent/agent.go:1095-1103 | over every run tool calls stay within their limit, recoveries within 3 and, with no correction queued, continued pauses within 8 in a row |
| LoopLimits.RunWithinCalls | agent/agent.go:1095-1103 | tool calls and recoveries stay within their limits whatever steering does |
| LoopLimits.RunPausesWithin | agent/pause_continuation.go:77-91 | with corrections that reach their next turn, the row of pauses since the last input stays within 8, but for one pause a queued correction forgives |
| LoopLimits.RunStepsWithin | agent/agent.go:964-985 | a run never takes more steps than `MaxSteps` |
| LoopLimits.ToolTurnRefusedIff | agent/agent.go:613-629 | a tool turn is refused by a budget if and only if tokens, calls or steps run out in it, with the dimension; none of its tools has run, and a failed step is all it adds |
| LoopLimits.StepCeilingIff | agent/agent.go:1085-1103 | the check before tools differs from its comment if and only if this turn's step reaches `MaxSteps` with tokens and calls left, and then blocks |
| LoopWitnesses.OneStepRefuses | agent/agent.go:1095-1103 | from a new conversation: `MaxSteps = 1` refuses a terminal tool call that `MaxSteps = 2` lets finish the run in one step |
| LoopLimits.PassProgress | agent/agent.go:914-985 | without live control, a pass that goes on added one step, and under a token limit raised the total, which was below the limit before |
| LoopLimits.RunStops | agent/agent.go:914-985 | without live control, a run still going after k passes took k steps, and k is below the iteration limit and at most the tokens that were left (one for a fresh run) |
| LoopResume.ResumeModelComplete | agent/resume.go:161-186 | resuming from `model_complete` with the same answers ends as the tool turn would have |
| LoopResume.ResumeToolsComplete | agent/resume.go:188-200 | resuming from `tools_complete` ends as the original run; only the reported thinking of a step failed by the decider is replaced |
| LoopResume.ResumeValidatingOutput | agent/resume.go:202-222 | resuming from `validating_output` ends as the original, unless a retry hinges on the defaulted iteration limit |
| LoopResume.ResumedRetryRefused | agent/agent.go:1203-1255 | in that remaining case the original run goes on and the resumed one stops with its output blocked |
| LoopWitnesses.ResumedRetryStops | agent/resume.go:202-222 | from a new conversation: a retry granted with `MaxIterations` unset, refused when resumed from its own boundary |
| LoopResume.ResumePaused | agent/resume.go:146-159 | resuming from the boundary of a continued pause ends as the original run |
| LoopResume.ResumeReady | agent/resume.go:146-159 | when a second compaction would change nothing, resuming from `ready` equals the original run if the budget check still passes, and otherwise stops as exhausted, which differs from the original unless the model turn is interrupted |
| LoopResume.ResumeReadyAgain | agent/resume.go:146-159 | with any compactor, the original run acts on the prepared state and the resumed run on the same state after the budget check and one more compaction |
| LoopWitnesses.RecheckedRunStops | agent/agent.go:914-926 | from a new conversation: paid context work spends the tokens; the original run finishes, the run resumed at that boundary is exhausted |
| LoopResume.ToolTurnRenumbered | agent/agent.go:583-663 | numbering calls that are numbered already changes nothing, so a resumed tool turn keeps its operation IDs |
| LoopResume.PassResumes | agent/resume.go:146-222 | from every boundary of a pass (at its top: prepared, and within budget) the resumed run ends with the same messages, steps, usage, tool-call count and operation turn as the uninterrupted one (only the reported thinking of a step failed by the decider may differ) |
| LoopResume.RunFrom | agent/agent.go:331-424 | a run is its first k passes followed by the run of the rest, and the invariant and assumptions hold in between |
| LoopResume.RunResumes | agent/resume.go:146-222 | the same from every boundary of every pass of a run of any length |
| LoopEngine.Engine.RunMessages | agent/agent.go:256-436 | the loop on mutable fields ends in the state, with the outcome and the observed boundaries of the specified run |
| LoopEngine.Engine.RunIteration | agent/agent.go:331-424 | one iteration of it does what one specified pass does |
| LoopEngine.Engine.PrepareIteration | agent/agent.go:914-926 | inputs, pause reset, compaction, checks and the `ready` boundary are those of the specified opening |
| LoopEngine.Engine.RunTurnWithContextRecovery | agent/agent.go:1360-1395 | one model turn, repeated once after an overflow was compacted away |
| LoopEngine.Engine.RunCompactor | agent/agent.go:1000-1035 | compaction with its usage accounted, refused when the history comes back incomplete or without its cache prefix |
| LoopEngine.Engine.ObserveWorkingMemory | agent/runtime_helpers.go:102-109 | context usage added to both totals and written through to the last step's snapshot |
| LoopEngine.Engine.ObserveBoundary | agent/agent.go:865-906 | reports validity of the snapshot, logs exactly the valid ones, and changes nothing but the last step's context snapshot |
| LoopEngine.Engine.RunToolStep | agent/agent.go:583-663 | numbering, budget block, execution, recording and both boundaries of a tool turn |
| LoopEngine.Engine.AccountToolResults | agent/agent.go:1661-1673 | tool calls, child usage, traces and result messages recorded together |
| LoopEngine.Engine.FinalizeToolStep | agent/agent.go:770-829 | terminal tools, decider and follow-ups settle the tool step |
| LoopEngine.Engine.FinalizeNoToolStep | agent/agent.go:681-768 | pause, token report, boundary and verdict of a turn without tools |
| LoopEngine.Engine.JudgeOutput | agent/agent.go:707-768 | the verdict on an output decides the messages and the last step's decision |
| LoopEngine.Engine.FinishPausedTurn | agent/pause_continuation.go:43-105 | a paused turn is recorded and continued until the ninth in a row |
| LoopEngine.Engine.ResetPauseForInput | agent/pause_continuation.go:139-145 | new input ends the row of pauses, and nothing else |
| LoopEngine.Engine.RecordInterruptedTurn | agent/agent.go:438-472 | an interrupted turn counts, and is recorded with its partial message |
| LoopEngine.Engine.HandleTurnFailure | agent/agent.go:484-545 | a broken turn is recorded only if it left text, thinking, calls or usage |
| LoopEngine.Engine.RecordIncompleteTurn | agent/agent.go:1144-1149 | message and usage of an incomplete turn are kept unless both are empty |
| LoopEngine.Engine.ResumeLoop | agent/resume.go:146-159 | dispatch on the phase of a saved continuation, equal to the specified resumption |
| LoopEngine.Engine.ResumeModelComplete | agent/resume.go:161-186 | pops message and step and runs the tool turn again |
| LoopEngine.Engine.ResumeToolsComplete | agent/resume.go:188-200 | goes on behind the recorded results |
| LoopEngine.Engine.ResumeValidatingOutput | agent/resume.go:202-222 | pops the answer and finalises it again |
| LoopEngine.NextToolOperationTurn | agent/agent.go:852-863 | one above the largest operation turn in the history, 0 if there is none |
| LoopEngine.CountPauses | agent/pause_continuation.go:107-116 | the length of the row of paused steps at the end |
| LoopEngine.CountRecoveries | agent/response_recovery.go:138-148 | the number of recoveries recorded in all steps |
| LoopEngine.NumberOperations | agent/agent.go:595-597 | slot k of the turn on call k |
| LoopEngine.ContinuationThinking | agent/resume.go:274-281 | the thinking of the last assistant message |
| LoopInvariant.NumberedCallsNamed | agent/agent.go:595-597 | named calls with distinct IDs, once numbered, are calls the validator accepts as those of that turn |
| AgentLoop.TracesOf | agent/agent.go:1180-1201 | the traces agree with the calls in ID, name and arguments, one each |
| AgentLoop.Ask | agent/agent.go:1360-1424 | after one recovery no overflow is left to handle |
| AgentLoop.NextToolTurn | agent/agent.go:852-863 | above every operation turn of every call in the history |
| Continuations.ValidateContinuation | agent/continuation.go:128-164 | accepts exactly the continuations that satisfy version, request, scalar, transcript, step, total and phase rules |
| Continuations.ValidateContinuationSteps | agent/continuation.go:194-226 | the scan accepts exactly when each step matches its assistant message counted from the end, and returns the calls completed and the usage summed |
| Continuations.ValidateContinuationStep | agent/continuation.go:228-287 | one round of it, for the step's index, numbering, traces, decision and budget equalities and inequalities |
| Continuations.AnalyzeTranscript | agent/continuation.go:483-538 | fails exactly when calls and results do not follow each other, and otherwise finds open calls, assistant positions and the largest turn |
| Continuations.CheckCalls | agent/continuation.go:515-533 | accepts exactly the calls with distinct IDs and operation IDs naming their own slot, and returns the largest turn |
| Continuations.LocatedFromEnd | agent/continuation.go:194-226 | the i-th of the last n assistant messages carries the i-th of the last n groups of calls |
| Continuations.ScanConcat | agent/continuation.go:483-538 | analysing a transcript in two parts is analysing it whole |
| TokenUsage.SaturatingTokenAdd | provider/provider.go:98-104 | the sum, cut at the largest 64-bit integer |
| TokenUsage.NormalizedIffConsistent | provider/provider.go:86-96 | normalising leaves a usage alone if and only if it is consistent |
| TokenUsage.NormalizedUsage | provider/provider.go:86-96 | the result is consistent for every report, negative counters included |
| TokenUsage.AddClosed | provider/provider.go:71-84 | every sum is consistent and contains both normalised addends |
| TokenUsage.AddCommutative | provider/provider.go:71-84 | commutative on all reports |
| TokenUsage.AddAssociative | provider/provider.go:71-84 | associative on all reports, through saturation |
| TokenUsage.AddZero | provider/provider.go:71-84 | the empty usage is neutral for consistent ones |
| TokenUsage.AddMonotone | agent/continuation.go:383-392 | containment survives adding the same usage |
| TokenUsage.AddTotal | provider/provider.go:71-84 | totals of consistent usages add up to saturation |
| TokenUsage.AddCounts | provider/provider.go:71-84 | on all reports every counter of a sum is the clamped sum of the normalised counters, and a count is reported as soon as one side reports it |
| TokenUsage.NormalizedNearest | provider/provider.go:86-96 | normalising takes the nearest consistent counters and the least total not below the reported one |
| History.ValidateCompleteTurns | message/history.go:14-73 | accepts exactly the histories all of whose groups are complete turns |
| History.CompleteIffGroupsValid | message/history.go:14-73 | completeness is a property of each group on its own |
| History.AcceptedTurnIsPaired | message/history.go:14-73 | results of an accepted turn and its calls are in a bijection compatible with the call IDs |
| History.AcceptedIff | message/history.go:140-164 | results in order are accepted if and only if there are calls enough for them, a different one for each that names one, and no nameless result takes a call a later result needs |
| History.PairableAcceptedIff | message/history.go:140-164 | a turn whose results can be matched with its calls is accepted if and only if no nameless result takes a call a later one needs |
| History.NamelessLastAccepted | message/history.go:140-164 | if no nameless result stands before a named one, results that can be matched are accepted |
| History.NamelessResultMayBlock | message/history.go:140-164 | the smallest refused turn that could be matched: a nameless result in front of a named one |
| History.UnmatchedCallIndex | message/history.go:140-164 | the index found with the map of IDs is the specified open call, or -1 |
| History.UnmatchedCall | message/history.go:140-164 | a call found is open and compatible with the result |
| History.MatchResults | message/history.go:33-70 | accepts exactly when IDs are distinct and the messages that follow answer all calls |
| History.ConcatComplete | message/history.go:14-73 | complete histories concatenate, and so do their groups |
| History.SubsequenceComplete | message/history.go:14-73 | any selection of the groups of a complete history is complete |
| History.CutsAreAligned | message/history.go:78-107 | a cut of a complete history is between groups if and only if both parts are complete |
| History.SafeCutIsValid | message/history.go:78-107 | the safe cut splits into two complete histories, and is the preferred cut if that is safe, otherwise the next safe one before the end of the history, otherwise the last one before it |
| History.CompleteTurnBoundary | message/history.go:78-107 | returns the safe cut for any preferred index, an error only for incomplete histories |
| History.CachePrefixIsValid | message/history.go:112-138 | the cache prefix is the smallest group-aligned prefix that covers the last marker |
| History.CachePrefixBoundary | message/history.go:112-138 | returns that prefix, an error only for incomplete histories |
| History.ContextViewConcat | message/history.go:173-190 | the visible view is taken part by part |
| History.CompleteByShape | message/history.go:14-73 | completeness and cuts depend on roles, calls and result IDs only |
| WorkingMemoryGuarantees.ArchiveIsSound | agent/working_memory.go:431-447 | archiving keeps the transcript up to flags and one inserted summary; full and visible history stay complete and flags uniform per group; the new view is the protected prefix, the summary, the rest not archived |
| WorkingMemoryGuarantees.CompactionArchivesHistory | agent/working_memory.go:196-253 | every successful compaction changes the history by flags and at most one inserted summary |
| WorkingMemoryGuarantees.CompactTwice | agent/working_memory.go:196-253 | a second compaction to the same target changes nothing and spends nothing |
| WorkingMemoryGuarantees.CompactSummarizes | agent/working_memory.go:196-253 | a compaction that changed the history inserted one summary, made by the summariser of exactly the messages visible before and archived now, in order, at the usage returned; the history did not fit the target before, and fits it now |
| WorkingMemoryGuarantees.CompactLeavesIff | agent/working_memory.go:196-225 | a history comes back as it is if and only if it is complete and there is no target or it fits, and then costs nothing |
| WorkingMemoryGuarantees.RecentTurnsStay | agent/working_memory.go:354-392 | of the groups counted as turns exactly the wanted number of latest ones stay, and the latest user turn |
| WorkingMemoryGuarantees.LatestUserMessageStays | agent/working_memory.go:354-392 | the latest message of a user stays visible |
| WorkingMemoryGuarantees.InstructionsStay | agent/working_memory.go:354-410 | system messages and the instructions of skills stay visible, tool turns included |
| WorkingMemoryGuarantees.FreshInputsStayLast | agent/working_memory.go:354-392 | the fresh inputs are still the end of the history, unarchived |
| WorkingMemoryGuarantees.OneSummaryVisible | agent/working_memory.go:354-392 | after the prefix an earlier message of the summary kind stays visible only if it carries instructions or belongs to a tool turn, and those with instructions do |
| WorkingMemoryGuarantees.OldSummariesHidden | agent/working_memory.go:354-392 | of the summaries compaction writes, no earlier one stays visible after the prefix |
| WorkingMemoryGuarantees.InstructionsOutliveSummaries | agent/working_memory.go:354-392 | the smallest history in which a summary in a system message is not archived |
| WorkingMemoryProcedures.CompactTo | agent/working_memory.go:196-253 | the procedure on arrays gives the specified history, error and usage |
| WorkingMemoryProcedures.ArchiveWorkingMemory | agent/working_memory.go:431-447 | flags set and the tail shifted in place: the marked history with the summary at its insertion point |
| WorkingMemoryProcedures.InsertInPlace | agent/working_memory.go:431-447 | one message inserted, all others kept in order |
| WorkingMemoryProcedures.SplitGroups | agent/working_memory.go:354-392 | the flags per message, and the messages flagged in order |
| WorkingMemoryProcedures.SelectRecent | agent/working_memory.go:354-392 | exactly the eligible groups with fewer than the wanted number of eligible groups behind them |
| WorkingMemoryProcedures.SelectLatestUser | agent/working_memory.go:354-392 | adds exactly the latest group with a user message |
| WorkingMemoryProcedures.WorkingMemoryGroups | agent/working_memory.go:339-352 | the groups of a complete view, with their bounds |
| ArchiveProofs.ViewIsComplete | message/history.go:173-190 | the visible view of a complete history with uniform flags is complete |
| ArchiveProofs.VisibleStartsAreAligned | agent/working_memory.go:431-447 | a visible message that starts a group of the view starts one of the history |
| ArchiveProofs.MarkKeepsTranscript | agent/working_memory.go:431-447 | flagging changes nothing but flags |
| ArchiveProofs.MarkKeepsUniform | agent/working_memory.go:431-447 | flags given per group stay uniform in the full history |
| ArchiveProofs.ViewOfMark | agent/working_memory.go:431-447 | the view afterwards is the part of the view not flagged |
| ArchiveProofs.ViewOfSplice | agent/working_memory.go:431-447 | with the summary inserted: prefix, summary, unflagged rest |
| ArchiveProofs.SpliceIsComplete | agent/working_memory.go:431-447 | a summary at a group boundary keeps history complete and uniform |
| ArchiveProofs.InsertIsAligned | agent/working_memory.go:431-447 | the insertion point is a group boundary of the full history |
| ArchiveProofs.SummaryArchivedIff | agent/working_memory.go:354-392 | a message of the summary kind behind the prefix and outside tool turns is archived if and only if it carries no instructions |
| ArchiveProofs.LatestUserTurnStays | agent/working_memory.go:354-392 | no message of the latest user turn is archived |
| ArchiveProofs.InputStays | agent/working_memory.go:354-392 | an input among as many last messages as turns are kept is not archived |
| FitContext.FitIsSound | agent/context_window.go:27-78 | a fitted history costs at most the target, is complete, starts with the unchanged cache prefix, and differs from the surviving groups in trimmed tool text only |
| FitContext.FitTwice | agent/context_window.go:27-78 | fitting again gives the same history |
| FitContext.FitDropsOldest | agent/context_window.go:27-78 | the dropped groups are the oldest disposable ones, one fewer would not have been enough, and the protected ones all survive |
| FitContext.DropsOldest | agent/context_window.go:56-64 | the same of dropping on its own, with the count it returns |
| FitContext.ProtectedSurvive | agent/context_window.go:195-201 | protected groups survive in order and nothing is invented |
| FitContext.PrefixKept | agent/context_window.go:27-78 | dropping leaves the cache prefix message by message, and it stays the cache prefix |
| FitContext.LastGroupProtected | agent/context_window.go:27-78 | the final group is protected |
| FitContext.TrimOneLongest | agent/context_window.go:115-182 | a trimmed output is the longest head-and-tail excerpt within its allowance or the 128-byte floor, and is taken only if cheaper |
| FitContext.TrimKeeps | agent/context_window.go:115-182 | trimming touches tool text only, keeps shape and prefix, and returns the true total |
| FitContext.TrimsUpTo | agent/context_window.go:115-182 | trimming stops where the total first fits: each oversized output before has been tried for what was then too much, and nothing behind has been touched |
| FitContext.OverLimitMeans | agent/context_window.go:65-78 | a history is refused as too large only with no disposable group left and every oversized output behind the prefix tried |
| FitContext.NothingVitalIsLost | agent/context_window.go:27-78 | system and user messages and skill instructions are all in the fitted history unchanged, tool errors with at most their text cut |
| FitContext.OutputTold | agent/context_window.go:115-182 | the text excerpted is the content, with the structured form behind it unless both say the same |
| FitProcedures.FitHistory | agent/context_window.go:27-78 | the procedure gives the specified fit or error |
| FitProcedures.BuildGroups | agent/context_window.go:39-55 | groups with their cost and protection, and the total |
| FitProcedures.DropGroups | agent/context_window.go:56-64 | the surviving messages and their cost |
| FitProcedures.PriceGroup | agent/context_window.go:80-111 | the group's cost, and whether some message in it is protected |
| FitProcedures.TrimContextToolOutput | agent/context_window.go:115-182 | trimming in place from the oldest until the total fits |
| FitProcedures.TrimMessage | agent/context_window.go:115-182 | one message rewritten, with exactly the cost saved |
| FitProcedures.SearchExcerpt | agent/context_window.go:149-171 | the binary search leaves the longest fitting excerpt in place |
| Excerpts.ExcerptGrows | agent/context_window.go:184-193 | a longer excerpt never costs less, which the binary search relies on |
| Excerpts.ExcerptShows | agent/context_window.go:184-193 | an excerpt is the text's beginning, the notice and its end, half of the size from each side, short of it only to end between runes |
| Excerpts.LongestIsLongest | agent/context_window.go:149-171 | the size chosen fits unless it is the floor, and no larger size fits |
| Excerpts.ContextHeadTail | agent/context_window.go:184-193 | head and tail cut back to rune starts around the notice |
| TokenTracker.RunConserves | agent/agent_tool.go:602-679 | under every interleaving remaining, claimed and spent tokens add up to the budget, remaining is not negative, `active` counts the unsettled claims, each of them positive |
| TokenTracker.StepConserves | agent/agent_tool.go:614-679 | the same for one critical section |
| TokenTracker.StepForgetsNobody | agent/agent_tool.go:614-679 | whoever waits, waits on a channel that somebody will still close |
| TokenTracker.NobodyStaysBlocked | agent/agent_tool.go:614-679 | when no claim is held and no settlement is under way, each waiter can wake, and then claims or is refused |
| TokenTracker.SettleOnce | agent/agent_tool.go:664-679 | after a settlement and any further events, settling the same claim again changes nothing |
| TokenTracker.ClaimBounds | agent/agent_tool.go:614-656 | a claim is positive and within the remaining tokens, the request and the batch share |
| TokenTracker.ClaimIsGreatest | agent/agent_tool.go:614-656 | and it is the greatest such number |
| TokenTracker.SettlementCharges | agent/agent_tool.go:664-679 | a settlement charges what the child reports up to its claim and returns the rest |
| TokenTracker.SharesCover | agent/agent_tool.go:602-612 | the batch share is the least one whose multiples cover the remaining tokens |
| TokenTracker.BatchTakesAll | agent/agent_tool.go:602-656 | the children of a batch on a fresh tracker, reserving in any order, take the whole budget: each the share, or what is left, and a claim if and only if the shares before it leave something |
| TokenTracker.ReservesShare | agent/agent_tool.go:614-656 | the same for any row of reservations, from any tracker with a share |
| TokenTracker.LastChildWaits | agent/agent_tool.go:602-656 | the smallest batch whose last child is left waiting although there is a token for each |
| TokenTracker.SmallerBatchKeepsShare | agent/agent_tool.go:602-612 | a later batch changes the share only if it is larger than all before |
| TokenTracker.AgentToolTokenTracker.PrepareBatch | agent/agent_tool.go:602-612 | the critical section as specified |
| TokenTracker.AgentToolTokenTracker.TryReserve | agent/agent_tool.go:614-656 | one turn of the reservation loop: a claim, a channel to wait on, or exhaustion |
| TokenTracker.AgentToolTokenTracker.Settle | agent/agent_tool.go:664-679 | the unspent part returned, the claim released, and the channel to close |
| TokenTracker.AgentToolTokenReservation.Settle | agent/agent_tool.go:664-679 | only the first settlement touches the tracker |
| ControlProtocol.RunSound | agent/control.go:105-272 | all invariants below hold after every run of events |
| ControlProtocol.AcknowledgedOnce | agent/control.go:178-200 | no accepted input is acknowledged twice, and after `finish` each one has been exactly once |
| ControlProtocol.StepPartitions | agent/control.go:105-272 | queues, in-flight and acknowledged inputs partition the accepted ones, numbered in admission order |
| ControlProtocol.StepWithinLimits | agent/control.go:105-133 | `bytes` is the size of everything queued and in flight, within both limits |
| ControlProtocol.StepOrders | agent/control.go:224-254 | across all takes, Send and Steer inputs are consumed in admission order, and so are follow-ups |
| ControlProtocol.StepIsPrompt | agent/control.go:81-144 | while a steering input is queued, a turn that has not overlapped tools is interrupted or the interruption is still due |
| ControlProtocol.LaterTurnInterrupted | agent/control.go:81-93 | a run in which the input was consumed before its interruption hit the next turn |
| ControlProtocol.RunStraysIff | agent/control.go:81-144 | over every run, a correction can come to interrupt a turn it was not queued for if and only if inputs were taken or the run finished between its two halves |
| ControlProtocol.StrayHasCause | agent/control.go:81-144 | every interruption of a turn with no correction queued has such an event before it |
| ControlProtocol.StepAttachedIff | agent/control.go:81-144 | a step parts pending interruptions from the queue if and only if it takes inputs or finishes while one is due |
| ControlProtocol.SealedForGood | agent/control.go:324-340 | once `continueOrSeal` answered false nothing is queued, and no later event queues anything |
| ControlService.AdmittedIff | agent/control.go:105-133 | over every run, an input is admitted if and only if nothing closed the mailbox since the start, fewer than 64 admitted inputs are unacknowledged, and the size limits leave room |
| ControlService.RunOpenIff | agent/control.go:148-200 | the mailbox stays open if and only if no event closed it: cancellation, finish, or `continueOrSeal` with nothing queued |
| ControlService.ContinuationFeeds | agent/control.go:324-340 | `continueOrSeal` answers true if and only if anything is queued, and the next take then consumes something: all follow-ups if nothing else waited |
| ControlService.EverythingIsServed | agent/control.go:224-340 | a take, `continueOrSeal` and another take consume everything queued, follow-ups last |
| ControlService.ConsumedMeansTaken | agent/control.go:256-272 | an input acknowledged as consumed has been consumed |
| ControlService.AcknowledgementsTell | agent/control.go:178-272 | acknowledging answers exactly the inputs in flight with its verdict, finishing everything outstanding with a refusal, and nothing else answers anybody |
| ControlService.OverlappedTurnGoesOn | agent/control.go:139-161 | a turn during which tools have begun is interrupted by cancellation alone |
| ControlService.InterruptionStays | agent/control.go:148-161 | an interrupted turn stays so until it ends, and cancellation interrupts any turn |
| ControlProtocol.MergePermutes | agent/control.go:241-254 | merging loses and invents nothing |
| ControlProtocol.MergeOrders | agent/control.go:241-254 | two queues in admission order merge into one in admission order |
| ControlMailbox.MergeQueued | agent/control.go:241-254 | the loop merges as specified, ties to the second queue |
| ControlMailbox.Control.Start | agent/control.go:163-176 | succeeds once, and opens the mailbox |
| ControlMailbox.Control.Enqueue | agent/control.go:105-133 | admission exactly under the specified conditions, with the next number |
| ControlMailbox.Control.InterruptTurn | agent/control.go:139-144 | interrupts the registered turn unless it has overlapped tools |
| ControlMailbox.Control.BeginTurn | agent/control.go:205-222 | registers a turn, interrupted at once if steering is queued |
| ControlMailbox.Control.UpdateTurnStarted | agent/control.go:344-356 | republishes the turn without losing its interruption |
| ControlMailbox.Control.Take | agent/control.go:224-239 | what is consumable moves in flight, in order |
| ControlMailbox.Control.Acknowledge | agent/control.go:256-272 | exactly the in-flight inputs are acknowledged and their bytes released |
| ControlMailbox.Control.ContinueOrSeal | agent/control.go:324-340 | goes on if anything is queued, promoting follow-ups; seals otherwise |
| ControlMailbox.Control.Cancel | agent/control.go:148-161 | closes admission and keeps what is queued |
| ControlMailbox.Control.Finish | agent/control.go:178-200 | rejects everything outstanding, once |
| ToolBatch.EveryInterleavingReports | tool/tool.go:611-764 | however workers interleave, when the batch is over each call is done, and the report has each in its results or its failures, once, in call order; a result has the content, call ID and name its call ended with, blanks filled in only in a group that failed; a failure has its call's ID and is marked executed if and only if the call ended failed |
| ToolBatch.BatchPartitions | tool/tool.go:611-666 | for any outcomes the report partitions the calls in order |
| ToolBatch.BatchTells | tool/tool.go:611-764 | each entry of the report tells how its call ended |
| ToolBatch.RunSafe | tool/tool.go:699-764 | no interleaving starts a call twice, ends one as executed that was not started, or leaves the barrier discipline |
| ToolBatch.EndDecides | tool/tool.go:699-764 | what a call's execution ended with is what stays recorded of it, whatever follows |
| ToolBatch.StepConsistent | tool/tool.go:699-764 | each atomic step keeps that discipline |
| ToolBatch.RunsAlone | tool/tool.go:611-666 | calls running together belong to one group between barriers: all before are done, all after wait, and a sequential call runs alone |
| ToolBatch.AtMostWorkers | tool/tool.go:699-764 | at most 32 calls run at a time |
| ToolBatch.RunsTogether | tool/tool.go:699-764 | from every state in which a group opens, all of its calls, or 32 of them, can come to run at once |
| ToolBatch.GroupIsMaximal | tool/tool.go:636-639 | parallel calls in a row form one group, up to the next sequential call or the end |
| ToolBatch.NeverStuck | tool/tool.go:699-764 | until the batch is over some step other than a cancellation can be taken |
| ToolBatch.BatchEnds | tool/tool.go:611-764 | every interleaving ends after at most five steps a call and one cancellation, and where none of its own steps is left the batch is over |
| ToolBatch.ExecuteBatch | tool/tool.go:611-666 | too large a batch is refused; otherwise the loop over groups returns the specified report |
| ToolBatch.CollectGroup | tool/tool.go:699-764 | outputs and failures of one group in call order |
| ToolBatch.BatchStopped | tool/tool.go:675-691 | after a failed group all later calls are reported as not executed |
| ToolBatch.ParallelRunEnd | tool/tool.go:611-666 | the end of the run of parallel calls |
| EventNormalizer.CallsOfResponse | provider/conformance.go:249-289 | on success the calls have distinct non-blank IDs in the order of their first mention, each with the complete call's arguments if supplied and else the joined fragments, JSON or empty, and the latest name given up to there; an index stands for an ID only if some mention carries both |
| EventNormalizer.MentionsAre | provider/conformance.go:60-108 | the mentions are those of the events, one for each event that brings one, in order |
| EventNormalizer.NormalizesIff | provider/conformance.go:55-121 | a stream normalises if and only if it has no error event, its terminal event last and present if required, no call completed twice, and at most 1024 calls without conflict, blank ID or malformed arguments |
| ResponseContent.ResponseSays | provider/conformance.go:55-121 | the text and thinking of the response are those of the events put together, its parts spell them in order with the redacted blocks in place and none that could be joined, signature and redacted block are the latest, and the usage is the sum, or the final event's |
| EventNormalizer.SplittingIsInvisible | provider/conformance.go:55-121 | splitting a text delta, a thinking delta or an identified argument fragment anywhere in the stream leaves the response the same, or both streams fail |
| EventNormalizer.FragmentTwice | provider/conformance.go:222-245 | two adjacent fragments build what their concatenation builds, or both are in conflict |
| EventNormalizer.AppendTwice | provider/conformance.go:163-180 | two adjacent texts of a kind make the part their concatenation makes, signed by the later signature |
| CallAssembly.AssembledCalls | provider/conformance.go:301-369 | with no conflict left, builders are the IDs meant, in first-mention order, each with its own mentions' content |
| CallAssembly.PlacesBound | provider/conformance.go:301-369 | the ID and the index of a mention lead to the builder it went to |
| CallAssembly.ContentOfPlace | provider/conformance.go:197-245 | a builder's content is that of the mentions that went to it, in order |
| CallAssembly.PlaceCompletedOnce | provider/conformance.go:197-219 | no builder takes two complete calls |
| CallAssembly.ArgumentsAdd | provider/conformance.go:197-245 | complete arguments win over fragments before and after them, else fragments concatenate |
| CallAssembly.NamesAdd | provider/conformance.go:197-245 | a call's name is the latest one given, up to the complete call that supplies arguments |
| CallAssembly.NamelessStaysNameless | provider/conformance.go:301-369 | a mention with neither ID nor index makes a builder that never gets an ID |
| CallBuilders.EnsureTidy | provider/conformance.go:301-369 | resolving an ID and an index keeps both tables owned by the builders they name, or marks a conflict |
| CallBuilders.ApplyTidy | provider/conformance.go:197-245 | the same for a whole mention, which changes one builder only |
| CallBuilders.Ensure | provider/conformance.go:301-369 | the builder found exists and all table entries stay within the builders |
| NormalizerProcedures.NormalizeEvents | provider/conformance.go:55-121 | the fold over mutable builders gives the specified response or error |
| NormalizerProcedures.Normalizer.ProcessEvent | provider/conformance.go:60-108 | one event |
| NormalizerProcedures.Normalizer.EnsureToolCallBuilder | provider/conformance.go:301-369 | the builder and both tables as specified |
| NormalizerProcedures.Normalizer.ApplyToolCallEvent | provider/conformance.go:197-219 | a complete call, refused when its builder has one |
| NormalizerProcedures.Normalizer.ApplyToolCallDelta | provider/conformance.go:222-245 | a fragment, never refused |
| NormalizerProcedures.Normalizer.AppendPartText | provider/conformance.go:163-180 | text joins the last part of its kind or opens a new one |
| NormalizerProcedures.FinalizeToolCalls | provider/conformance.go:249-289 | the first fault in order, or the calls |
| NormalizerProcedures.ValidateTerminalSequence | provider/conformance.go:123-141 | accepts exactly one terminal event at the end, none only where allowed |
| ThinkSplitter.ChunkingIsInvisible | provider/openai/stream.go:176-220 | for any chunks, what is emitted up to the flush is the one-shot split of the joined text, and equal texts leave equal states |
| ThinkSplitter.OnlyTagsAreLost | provider/openai/stream.go:176-206 | the input is the pieces of text and thinking with exactly the tags between them, and no piece contains the tag that would end it |
| ThinkSplitter.ScanComposes | provider/openai/stream.go:176-206 | scanning two parts, with the withheld end carried over, is scanning their concatenation |
| ThinkSplitter.ProcessComposes | provider/openai/stream.go:176-206 | the same for any number of chunks from any state the splitter can be in |
| ThinkSplitter.ScanThenDrain | provider/openai/stream.go:210-220 | scanning and flushing is the one-shot split |
| ThinkSplitter.FindBeyond | provider/openai/stream.go:225-237 | a tag is found later at the same place although the safe part has been given away |
| ThinkSplitter.WithheldBeyond | provider/openai/stream.go:225-237 | and the same end is withheld |
| ThinkSplitter.SafeEmitLength | provider/openai/stream.go:225-237 | all but the longest end that could begin the tag |
| ThinkSplitter.Splitter.Process | provider/openai/stream.go:176-206 | the loop emits and leaves what the specified scan does |
| ThinkSplitter.Splitter.Flush | provider/openai/stream.go:210-220 | the withheld end goes to the side the splitter is on |
| OpenAISlots.TryAllAgrees | provider/openai/stream.go:482-532 | an accepted dry run ends in the directory and sizes that the commit produces, step for step |
| OpenAISlots.TryAgrees | provider/openai/stream.go:482-532 | the same for one item |
| OpenAISlots.ValidateIff | provider/openai/stream.go:482-532 | a chunk is accepted if and only if it is short enough, its names are, and committing it would keep the bounds |
| OpenAISlots.TryIff | provider/openai/stream.go:482-532 | the same for one item |
| OpenAISlots.StreamStaysBounded | provider/openai/stream.go:562-660 | after any chunks, slots are not negative, calls at most 1024, arguments at most 2^20 bytes, and the order lists each slot once |
| OpenAISlots.StreamAssembles | provider/openai/stream.go:562-660 | after any chunks each accepted item went to one slot, in order; a slot's call has the latest ID and name given to it and its argument pieces joined; slots are listed by first use |
| OpenAISlots.ItemGoes | provider/openai/stream.go:662-711 | an item goes to its index, else to the slot of the latest item with its ID, else to the latest slot unless IDs or names tell them apart, else to the least free slot |
| OpenAISlots.FirstFree | provider/openai/stream.go:662-711 | the least free slot |
| OpenAISlots.StreamState.ValidateChunk | provider/openai/stream.go:482-532 | the dry run over the chunk, state untouched |
| OpenAISlots.StreamState.ProcessDelta | provider/openai/stream.go:595-660 | the commit over the chunk |
| OpenAISlots.StreamState.ConsumeChunk | provider/openai/stream.go:562-591 | commits exactly the accepted chunks, and says which were |
| OpenAISlots.ResolveToolCallIndex | provider/openai/stream.go:662-711 | slot and directory as specified |
| RetryStream.StreamLife | provider/retry_stream.go:74-145 | over the life of a stream at most Max + 1 openings, and what was delivered is the content of one attempt up to where it was read |
| RetryStream.LifeKeeps | provider/retry_stream.go:103-222 | the same from any reachable state; deliveries only grow, and after the first one no attempt is opened |
| RetryStream.RecvKeeps | provider/retry_stream.go:103-145 | one `Recv` |
| RetryStream.OpenExplained | provider/retry_stream.go:201-222 | opening goes on exactly through failures the policy approves, and ends with a success, a cancellation, a spent allowance or a refusal |
| RetryStream.RecvMeans | provider/retry_stream.go:103-191 | content and events without failure are returned as they came; a failure is final after content, and before it the stream goes on from a new attempt wherever it may |
| RetryStream.Open | provider/retry_stream.go:201-222 | openings and retries spent go together and never pass the limit |
| RetryStream.Retry | provider/retry_stream.go:201-222 | reopening spends a retry |
| RetryStream.RetryingStream.Recv | provider/retry_stream.go:103-145 | the loop delivers and leaves what is specified |
| RetryStream.RetryingStream.ClassifyReceived | provider/retry_stream.go:147-177 | result, retry and flags of a received event |
| RetryStream.RetryingStream.ClassifyPartialFailure | provider/retry_stream.go:179-191 | a failure after content is final |
| RetryStream.OpenStreamWithRetry | provider/retry_stream.go:201-222 | the loop opens as specified |
| ScanSearch.Search | tool/output_store.go:427-480 | for any read sizes, a complete search reports exactly the first `maxMatches` occurrences in the whole text, a limited one a proper prefix of them; it is complete where the largest entries would all fit, and what is reported fits |
| ScanSearch.ScanWindow | tool/output_store.go:427-480 | one window: occurrences up to its end are found once, whatever the seams |
| ScanSearch.AllMatchesComplete | tool/output_store.go:427-480 | the reference list is strictly increasing and holds exactly the positions where the query occurs |
| OutputBuffer.ChunkingIsInvisible | tool/kit/adapters.go:366-422 | after any writes the bytes are the input, or its first half, the marker and its last half; what was emitted, with the flush, is the same |
| OutputBuffer.WriteHolds | tool/kit/adapters.go:366-390 | a write keeps head, tail and total those of the joined input |
| OutputBuffer.LimitedOutputBuffer.Write | tool/kit/adapters.go:366-390 | the new state on success, and what a refused emission leaves behind |
| OutputBuffer.LimitedOutputBuffer.Flush | tool/kit/adapters.go:394-398 | emits what is pending, or fails and changes nothing |
| OutputBuffer.LimitedOutputBuffer.Read | tool/kit/adapters.go:418-422 | the bytes of the state |
| EditDistance.Levenshtein | tool/tool.go:573-592 | the two swapped rows compute the recursive distance |
| EditDistance.FillRow | tool/tool.go:573-592 | the next row from the previous one |
| EditDistance.Shortest | tool/tool.go:573-592 | some edit script turns one text into the other at that cost |
| EditDistance.NoneShorter | tool/tool.go:573-592 | no edit script does it for less |
| EditDistance.Symmetric | tool/tool.go:573-592 | symmetric |
| EditDistance.ZeroIffEqual | tool/tool.go:573-592 | zero exactly on equal texts |
| EditDistance.Triangle | tool/tool.go:573-592 | the triangle inequality |
| EditDistance.Compose | tool/tool.go:573-592 | two scripts compose into one that costs no more than both |
| EditDistance.AtMostLonger | tool/tool.go:573-592 | at most the longer length |
| EditDistance.ScoreInUnit | tool/tool.go:503-504 | the edit-distance part of the similarity is in [0, 1], and 1 exactly on equal names |

## Left out

- LoopInvariant.RunSound: assumes non-empty final answers, named calls with distinct IDs, self-consistent usage of provider and child agents, results in call order, inputs that are neither answers nor tool messages, and verdicts and compactors whose histories keep the answers aligned where the run goes on, as `LoopGaps` shows to be needed; beyond what is needed, that no message of another role than the assistant's carries calls of a turn to come. Total usage is assumed to stay below the largest 64-bit integer, since the validator adds without saturating.
- LoopResume.RunResumes: `ready` boundaries are covered where no live input arrived in that pass and the opening would compact nothing again; `LoopWithMemory.RunResumesWithMemory` needs the second for no run driven by working memory, and `LoopResume.ResumeReadyAgain` says what it does to any other.
- LoopWithMemory.RunSoundWithMemory: assumes that child agents spend nothing or summaries cost nothing, which `LoopGaps.CompactionBoundaryIff` shows to be needed, verdicts of the kinds in `LoopInvariant.VerdictOkFits`, and that no assistant message with tool calls arrives archived; skill messages that the engine injects around a compaction (agent/engine.go:403-443) are not part of the model.
- LoopBoundaries.ModelCompleteIff: this and the two rows below it are about steps whose context usage is that of the state below, which is what the loop records; `LoopBoundaries.ValidMeans` covers the others.
- ToolBatch.ExecuteBatch: how each call ends is a parameter; schema checks and unknown tools inside `Execute` are not part of the model.
- TokenTracker.SharesCover: `remaining + size - 1` is exact here and 64-bit in the source, so budgets within a batch size of the largest integer are not covered.
- LoopLimits.RunStops: counts model turns; that each answer of the environment arrives is not modelled.
- ScanSearch.Search: the report of a match counts as its size, a parameter; the context text around a match is not modelled.
- EditDistance.ScoreInUnit: containment and token overlap, the other parts of the similarity, are not part of the model.
- FitContext.FitIsSound: token costs are a frame per message plus a cost per rune, both parameters; estimators that are not such sums are not covered.
- RetryStream.StreamLife: delays between attempts and cancellation of the caller's context are parameters of the environment.
- Early tool execution while a model turn still streams (`agent/stream_overlap.go`): only its effect on turn interruption is modelled, in the mailbox.
- Wall-clock budgets, timeouts, context cancellation, panic recovery and errors of step observers: behaviour of the environment.
- `emitCompleteToolCalls` of the OpenAI stream and the queue of pending events: they follow the slot order proved here.
- HTTP, server-sent events, JSON and JSON Schema, reflection-based cloning, file system and processes: library behaviour.
- Numeric details of a provider's own maximum-turn exit, metadata warnings, error texts, frame mapping, examples and scripts: no hard property.
- Locks are modelled as atomic steps; that the Go mutexes make those sections atomic is not proved.
