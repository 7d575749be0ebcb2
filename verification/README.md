# Verified model of the YunmengZe agent

This Dafny project models the parts of the YunmengZe agent whose correctness is hardest to see from any one
function, and proves what they promise. `dafny verify dfyconfig.toml` checks everything.

The provider's context window is filled by a chain of list transformations. The
one invariant that every provider protocol needs is that tool calls and tool results are paired, so the model takes
"`RepairToolMessages` changes nothing" as the meaning of well-formed (`Repair.FixedPointIffPaired`, read by
position in `Repair.PairedMeaning`) and follows it through trimming, clearing, dropping turns, splitting, packing,
the mid-turn rebuild and the durable compaction of a session. A run of the agent is an append-only log; recovery
replays it, and the model states what recovery does with every prefix of every log it accepts, which logs of the
running agent it accepts, and how the state it brings back differs from the live one. The scheduler is a transition
system over three tables with statements about whole runs. Three smaller protocols follow: the coalescing reload
runner over all interleavings, the event stream from the table to a client that reconnects after broken connections,
and the canonical form of a plan.

| files | what they model |
|---|---|
| `Text`, `Messages` | trimming, decimal numbers, filters; messages, roles and tool calls |
| `Repair`, `RepairOrder`, `Estimate`, `TrimBodies`, `Clear`, `Turns`, `Pack`, `View`, `MidTurn`, `Orphans`, `Compaction`, `Summaries` | the provider view |
| `Records`, `ToolCalls`, `Restore`, `CrashRecovery`, `Recovered` | the run log and crash recovery |
| `Inbox`, `RunLoop`, `Runner`, `BatchOrder` | the step loop, its inbox and what it writes to the log |
| `Steers`, `ToolSteps`, `Limits`, `Executions`, `Survival` | what a run does with steers, tool calls and its limits |
| `LiveLog`, `LiveReplay`, `LiveCrash`, `Completion`, `SteeredLogs`, `ToolFailures`, `LiveExamples` | the running agent against the recovery of its own log |
| `Scheduler`, `SchedulerRuns`, `SchedulerHistory`, `SchedulerSkip`, `SchedulerRunOnce`, `SchedulerClaims`, `SchedulerStore` | jobs, runs and leases |
| `Reload` | the reload runner |
| `EventLog`, `EventStream`, `EventDelivery` | the event table, its stream, and the reader |
| `Sorting`, `Transcript`, `Plan`, `PlanChecks`, `PlanMeaning`, `PlanAgain`, `PlanRehash` | the sorts and the canonical plan |

Code that changes things step by step is imperative here too: methods with loops, arrays changed in place, and
classes (`RecordLog`, `Inbox`, `Store`, `Runner`, `EventStore`). Each is proved against a function of its inputs or
of the old state, and the properties are lemmas about those functions.

## Where the code does something other than one would expect

Each point is proved: the exact condition where there is one, and an input that shows it.

- **Dropping turns can orphan a result.** If the first message after the system block is an assistant batch,
  `dropOldestTurn` drops it alone and leaves its results behind. A paired list stays paired exactly when that message
  opens no call (`Turns.DropKeepsPairing`, `Turns.DropCanOrphan`). The drop loop takes single messages until a user
  comes first, the budget holds or one message is left; `Pack.Stop` is that position, and a pack keeps pairs exactly
  when no call is open there (`Pack.PackPairedIff`, `Orphans.PackCanOrphan`). The same condition on the kept history
  decides for the mid-turn rebuild (`View.RebuildPaired`, `MidTurn.MidTurnPaired`). It fails for a conversation in
  which a user speaks right after a tool result: the cut then moves back to the batch, and the kept history starts
  with it (`Orphans.RebuildCanOrphan`).
- **The count in a trim marker** is fixed before the head is extended, so it is the number of omitted runes only under
  the condition of `TrimBodies.PrintedCountExact`; `TrimBodies.PrintedCountCanBeWrong` is a text of 10040 runes.
  Lengths are always exact (`TrimBodies.TrimmedLength`). The last guard of `trimRunes` never applies.
- **A batch with a refused call before an executable one cannot be recovered.** The loop logs executed results first
  and refusals after them, while `restore` demands call order. The log of a run that goes on or ends in time is replayed
  exactly if in every batch of it the refused calls come last, recovery knows every result and the bills are within the
  budget (`LiveReplay.RunReadable`, and `BatchOrder.LoggedBatchReadable` for one batch);
  `LiveExamples.MixedBatchIsLost` is a run of one step that is rejected.
- **What a user says while tools run makes the log unreadable.** A running turn is steered without stopping its tools:
  the session service writes the text to the log of the run at once and queues it. A log is read exactly if nothing was
  written into it while a call was open (`SteeredLogs.SteeredReadIff`), so in a tool step just the places before the
  reply and behind the last result are safe (`SteeredLogs.SaidDuringTools`), and nothing recovers the log later
  (`SteeredLogs.SaidTooSoonIsFatal`, with `SteeredLogs.SaidDuringToolsIsLost` for a batch of one call).
- **What a user says while the model writes its last text is not answered after a crash.** The run goes on to answer it,
  but the last row of its log is that text, and such a log is taken for completed whatever was said before
  (`SteeredLogs.CompletedWhateverWasSaid`, with `LiveExamples.SaidDuringAnswerIsDropped` for such a run). It is the one
  case in which a run that goes on is taken for completed (`Completion.RunningIsNotCompleted`).
- **A failed tool that names an error of its own makes the log unreadable**: no response is stored for it, and what is
  logged is no observation unless the error is one of the agent's own (`ToolFailures.FailureReadBackIff`,
  `ToolFailures.OwnErrorIsLost`).
- **A result appended under an id with white space around it makes the log unreadable**: it is stored under the trimmed
  id, and reading compares the two (`Records.ReadBackIffTrimmed`, `Records.SpacedIdIsLost`).
- **A reply can be counted and not logged**: when the provider fails, the text is empty, a tool loop is detected, or the
  batch cannot be logged. However a run ended, recovery brings back its iterations exactly if no reply was lost, and
  then its usage too; otherwise as many iterations are missing as replies were lost, and their tokens
  (`LiveLog.RecoveredVersusLive`). In `LiveExamples.LoopIsForgotten` ten iterations come back as nine; a tool step
  followed by a cancelled provider call, two iterations, comes back as one (`LiveExamples.RestartIsShort`).
- **A batch with a blank id or name, or arguments that are not JSON, fails the run** when its assistant message is
  appended, before its calls are answered as refused. `LiveLog.BadCallEndsRun` says that this is the case exactly for
  such a batch; `LiveExamples.BlankIdEndsRun` is one.
- **A call whose id is not new ends the run for good.** It is refused, but the refusal is a second result for its id,
  which the unique index rejects. `Survival.BatchGoesOnIff` says exactly which batches a run survives, and recovery
  never accepts the log that is left, whatever is stored (`Survival.KnownIdIsFatal`). `LiveExamples.TwinCallsAreFatal`
  is a batch that asks for one id twice.
- **A crash before the refusals of a batch are written cannot be recovered**, because nothing is stored for a refused
  call: what a run had written when it stopped or crashed is accepted exactly if every open call has its response
  stored, and open ids are new and distinct (`LiveCrash.LiveCutRecovers`, and `LiveExamples.RefusalIsLost` for such a
  crash).
- **Normalising a plan is not idempotent.** A domain that ends in two dots, or a path that cleans to a text with a
  space at its edge, changes again in a second pass, while stored plans and the issue of a grant hash a plan that is
  already normalised. The second hash is the first one exactly for settled plans (`PlanRehash.RehashIff`, an example in
  `PlanRehash.RehashCanDiffer`).
- **An event type with a newline, or that ends in a carriage return, does not survive the stream**; the store accepts it.
  `EventStream.ReadBackIffTypesFit` is the exact condition, `EventStream.TypeCanBreakTheStream` such an event.
- **A stream that ends cleanly inside a frame makes `StreamSSE` emit an incomplete event** (section 9.2.6 of the WHATWG
  HTML Living Standard discards it). It does so exactly if the stream ends behind an id line and before the blank line
  of the frame (`EventStream.CutIsCompleteIff`), with any event at all (`EventStream.CleanEndCanMislead`);
  `EventStream.ReaderSeesPrefix` shows that `StreamEvents` never passes it on.

## Model

| member | source | states |
|---|---|---|
| Repair.RepairToolMessages | internal/contextpack/repair.go:16-94 | The loop with its pending map, order queue and flush closure returns the reference function `Repaired` of its input. |
| Repair.FlushMissing | internal/contextpack/repair.go:24-42 | The closure appends the reference list `Flush` of the errors for the calls still pending, and leaves none pending; that they stand in call order is RepairOrder.ErrorsInCallOrder. |
| Repair.RepairedIsPaired | internal/contextpack/repair.go:10-15 | Whatever the input, the output pairs every call with one result before the next boundary. |
| Repair.FixedPointIffPaired | internal/contextpack/repair.go:10-94 | Repair leaves a list alone exactly when it is paired. |
| Repair.RepairIdempotent | internal/contextpack/repair.go:16-94 | A second repair changes nothing. |
| Repair.PairedMeaning | internal/contextpack/repair.go:10-15 | Paired means: every result answers, once, a call of the nearest boundary before it, and every non-blank call id is answered before the next boundary or the end. |
| Repair.RepairKeepsOthers | internal/contextpack/repair.go:44-92 | Messages that are not tool results come out unchanged and in order. |
| Repair.RepairSources | internal/contextpack/repair.go:44-92 | Every first answer to an open call is kept, once and in order, among unchanged other messages; all that is added are synthetic errors. |
| Repair.RepairConcat | internal/contextpack/repair.go:44-92 | Repair works turn by turn: it commutes with a cut before any boundary. |
| Repair.PairedConcat | internal/contextpack/repair.go:44-92 | A list cut before a boundary is paired exactly when both parts are. |
| RepairOrder.ErrorsInCallOrder | internal/contextpack/repair.go:24-67 | Behind a batch and the messages that are kept stands one error for each id that nothing answered, in the order of the batch's calls, each about the last call with its id. |
| RepairOrder.LoneBatch | internal/contextpack/repair.go:24-94 | For a batch alone, with distinct ids that are not blank, result k answers call k. |
| RepairOrder.ErrorNamesTool | internal/contextpack/repair.go:30-38 | The error names the tool that was called: undoing the escapes gives back its trimmed name, or "unknown". |
| Estimate.EstimateText | internal/contextpack/estimate.go:31-51 | One token for each CJK rune and one for every four others, rounded up; zero only for empty text. |
| Estimate.EstimateMessage | internal/contextpack/estimate.go:68-77 | The estimate of a message: overhead, content, thinking, call id, and every call with four more. |
| Estimate.EstimateMessages | internal/contextpack/estimate.go:80-86 | The sum over the messages. |
| Estimate.ListTokensConcat | internal/contextpack/estimate.go:80-86 | The estimate of two lists joined is the sum of their estimates. |
| Estimate.TextCosts | internal/contextpack/estimate.go:31-51 | A text costs one token for each CJK character, and for the others a quarter of one each, rounded up. |
| Estimate.MessageCosts | internal/contextpack/estimate.go:68-77 | No part of a message is left out of its estimate: six tokens, four for each call, and between a quarter of a token and one token for each character of every field. |
| TrimBodies.TrimRunes | internal/contextpack/pack.go:216-266 | The step-by-step adjustment of head, tail and marker yields the reference text `Trimmed`, of length min of the text's and the limit's. |
| TrimBodies.TrimmedLength | internal/contextpack/pack.go:216-266 | The length is exactly min(length, max(limit, 16)). |
| TrimBodies.TrimmedShape | internal/contextpack/pack.go:216-266 | The result is a prefix of the text, or a prefix, a marker and a suffix that do not overlap. |
| TrimBodies.TrimIdempotent | internal/agent/trim.go:42-94 | Trimming again changes nothing, also when the printed count has fewer digits. |
| TrimBodies.PrintedCountExact | internal/contextpack/pack.go:228-263 | The printed count is the number of runes left out of the text exactly under a condition on its digits. |
| TrimBodies.PrintedCountCanBeWrong | internal/contextpack/pack.go:228-263 | There is a text whose marker prints a wrong count. |
| TrimBodies.TrimToolBodies | internal/contextpack/view.go:171-198 | In place, from a start position: tool results and plain assistant texts are trimmed and counted, all else is kept. |
| TrimBodies.TrimMessagesForProvider | internal/agent/trim.go:19-40 | The copy differs from the list only in the trimmed bodies. |
| TrimBodies.TrimFromIdempotent | internal/contextpack/view.go:171-198 | A second pass over the bodies changes nothing. |
| TrimBodies.BodiesFit | internal/contextpack/view.go:171-198 | From the start position on no tool result and no plain assistant text is longer than the limit; shorter ones and everything else are left alone. |
| TrimBodies.KeepsBothEnds | internal/contextpack/pack.go:228-265 | A trimmed text begins and ends as the text does, for at least half of the room beside the marker at either end. |
| Clear.ClearOldToolResults | internal/contextpack/pack.go:120-168 | The two passes over the collected results, in place, replace exactly the results that are old and worth clearing, and count them. |
| Clear.Survey | internal/contextpack/pack.go:133-145 | The newest results fill the protected amount; the first entry beyond it and the reclaimable total are found. |
| Clear.ProtectedRun | internal/contextpack/pack.go:120-168 | The kept results form the shortest newest-first run whose estimate reaches the protected amount; all of it stays word for word. |
| Clear.ClearSaves | internal/contextpack/pack.go:149-167 | The estimate of the list falls by more than four for each cleared result. |
| Clear.ClearIdempotent | internal/contextpack/pack.go:120-168 | A second pass clears nothing. |
| Clear.PlaceholderTells | internal/contextpack/pack.go:149-167 | A placeholder tells whose result it stands for: different ids give different ones. |
| Clear.OldResultsAreCleared | internal/contextpack/pack.go:120-168 | The results before the protected ones are replaced if together they hold the amount worth reclaiming, each exactly if that saves more than four tokens, and nothing else is. |
| Turns.DropOldestTurn | internal/contextpack/pack.go:172-212 | The reference step: the oldest turn goes, or a single odd message; the last turn is refused. |
| Turns.DropOldestOfTurns | internal/contextpack/pack.go:172-212 | On a system block followed by user turns exactly the first turn goes, and only the last one is refused. |
| Turns.DropKeepsPairing | internal/contextpack/pack.go:186-193 | A paired list stays paired exactly when the first message after the system block opens no call. |
| Turns.DropCanOrphan | internal/contextpack/pack.go:186-193 | There is a paired list from which dropping leaves an orphan result. |
| Turns.AlignToolPairCut | internal/contextpack/estimate.go:151-175 | The index loop moves the cut to the reference position `AlignCut`. |
| Turns.CutMovesBefore | internal/contextpack/estimate.go:151-175 | A cut through a batch and its results moves right before the batch. |
| Turns.OtherCutsStay | internal/contextpack/estimate.go:151-175 | Any other cut stays where it is, unless it is among results without a batch: then it moves before them. |
| Turns.AlignCutKeepsPairs | internal/contextpack/estimate.go:151-175 | For a list that repair leaves alone the cut never moves right and both sides are again lists that repair leaves alone. |
| Turns.TailCutKeepsPairs | internal/corequery/session.go:276-297 | The transcript tail has at least the requested rows, starts at a boundary and needs no repair. |
| Turns.TailNeverMovesBack | internal/corequery/session.go:276-297 | When rows are added, the tail of the last n rows never begins earlier. |
| Turns.SplitHeadTail | internal/contextpack/estimate.go:119-148 | The loop over user positions computes the reference split. |
| Turns.SplitPartitions | internal/contextpack/estimate.go:119-148 | System block, head and rest of the tail are the list, in order. |
| Turns.SplitKeepsTurns | internal/contextpack/estimate.go:116-148 | A non-empty head leaves exactly the requested number of user turns in the tail. |
| Turns.HeadIff | internal/contextpack/estimate.go:119-148 | A head is cut off exactly if there are more user turns than are to be kept. |
| Turns.SplitKeepsPairs | internal/contextpack/estimate.go:119-175 | Both parts of the split of a list that repair leaves alone are such lists. |
| Pack.Pack | internal/contextpack/pack.go:47-104 | Repair, trim, clear, drop: the result is the reference `Packed`, with its estimate, counters and over-budget flag. |
| Pack.FitTurns | internal/contextpack/pack.go:89-97 | The drop loop removes the least number of turns that fits the budget, or all but the last. |
| Pack.FitKeepsNewestTurns | internal/contextpack/pack.go:89-97 | What it keeps of a paired view is the system block and whole newest turns, and repair leaves it alone. |
| Pack.PackKeepsNewestTurns | internal/contextpack/pack.go:47-104 | If the conversation starts with a user, packing returns the system block and a suffix of turns of the trimmed view, the fewest dropped, well paired. |
| Pack.OverBudgetIsOneTurn | internal/contextpack/pack.go:89-103 | What is still over budget is a single user turn. |
| Pack.PackWithoutBudget | internal/contextpack/pack.go:61-84 | Without a budget nothing is dropped and pairing holds for every input. |
| Pack.PackClearsOld | internal/contextpack/pack.go:61-88 | A pack under a budget clears old results, with 40000 protected and 20000 reclaimable tokens by default. |
| Pack.PackedBodiesFit | internal/contextpack/pack.go:47-104 | No tool result and no plain assistant text of a packed list is longer than the limit, but for placeholders. |
| Pack.FitPairedIff | internal/contextpack/pack.go:89-97 | The drop loop keeps a paired view paired exactly when no call is open where dropping single messages stops. |
| Pack.PackPairedIff | internal/contextpack/pack.go:47-104 | So a pack, for every input, needs no repair exactly under that condition on the trimmed view, or without a budget. |
| Pack.UserFirstKeepsPairs | internal/contextpack/pack.go:47-104 | A conversation that starts with a user meets the condition under every budget. |
| Orphans.PackCanOrphan | internal/contextpack/pack.go:186-193 | There is a paired list that a pack with a budget leaves unpaired. |
| View.Build | internal/contextpack/view.go:61-87 | Prefix, summary block, packed history and ephemeral messages, each from its own input; compacted exactly if there is a summary, a dropped turn or a cleared result. |
| View.LastUserIndex | internal/contextpack/view.go:161-168 | The index of the last user message, or -1. |
| View.SplitCodingEphemeral | internal/contextpack/view.go:138-158 | Todo blocks before the last user leave the history and join the last turn, in order. |
| View.SplitLeadingSystem | internal/contextpack/view.go:117-126 | The longest leading run of system messages, and the rest. |
| View.RebuildBudgetBounds | internal/agent/runner_compact.go:219-230 | The rebuild packs under a positive budget, within the usable window when the window is known. |
| View.WindowIsShared | internal/contextpack/view.go:89-114 | The window has room for the answer, a reserve and the usable part, and the history takes 60 percent of that, or 2048 tokens. |
| View.RebuildProviderView | internal/agent/runner_compact.go:208-266 | For any summariser the composed calls compute the reference view `Rebuilt`; what that view says and keeps is Summaries.RebuildSummarises and the rows below. |
| Summaries.RebuildSummarises | internal/agent/runner_compact.go:208-266 | The conversation before the last user, less its todos, is a head and the history that is packed. Behind the kept system messages stands the trimmed summary of exactly that head, or without a head the summary the view had before; a head is cut off exactly if there are more than four messages and more than two turns. |
| Summaries.OpenViewIs | internal/agent/runner_compact.go:212-230 | The view opens with its system messages, of which the last one is taken for the earlier summary exactly if it is marked as one. |
| View.RebuildKeepsEnds | internal/agent/runner_compact.go:208-266 | The view begins with the given system messages (less a trailing summary) and ends with the last user message and all after it, word for word. |
| View.RebuildKeepsTodos | internal/agent/runner_compact.go:208-266 | Every todo block survives, once and in order, and none is added. |
| View.RebuildPaired | internal/agent/runner_compact.go:208-266 | A rebuild of a paired view is paired exactly when packing keeps the pairs of the kept history, a condition on where dropping stops in it; always when the kept history starts with a user. |
| Orphans.RebuildCanOrphan | internal/agent/runner_compact.go:164-266 | There is a paired conversation that a mid-turn compaction leaves unpaired, for every summariser. |
| MidTurn.MaybeCompactMidTurn | internal/agent/runner_compact.go:164-205 | In-place trimming of the new bodies, the pressure test, and then either clearing in place or a rebuild, as the reference says. |
| MidTurn.MidTurnKeepsEnds | internal/agent/runner_compact.go:164-266 | Whatever is decided, the result begins with the given system messages (less a trailing summary) and ends with the last turn, of which only result and answer bodies may be shorter. |
| MidTurn.MidTurnPaired | internal/agent/runner_compact.go:164-266 | A paired conversation stays paired exactly if it is not rebuilt, or packing keeps the pairs of its kept history. |
| MidTurn.UnpressedFits | internal/agent/runner_compact.go:181-199 | What is returned without a rebuild under a known window is below three quarters of the usable window, as estimated or as calibrated, for calibrators that do not lower estimates or that keep their order. |
| MidTurn.PressedIff | internal/agent/runner_compact.go:174-199 | A turn is rebuilt exactly if its calibrated estimate takes three quarters of the usable window, or without a window if it has 32000 tokens. |
| MidTurn.UnpressedClearsOld | internal/agent/runner_compact.go:164-205 | What is not rebuilt is the trimmed list, with its old results cleared if the window is known. |
| Compaction.IndexAfterID | internal/chatsession/pack.go:164-174 | One past the first position of the id, or -1. |
| Compaction.LastHistoryID | internal/chatsession/pack.go:176-194 | The id of the first message that looks like the last summarised one. |
| Compaction.ThroughNeverLate | internal/chatsession/pack.go:176-204 | The stored id is never later than the last summarised message, and is that message exactly when no earlier one looks the same. |
| Compaction.AssembleContextView | internal/chatsession/pack.go:33-90 | The recall branches, the pressure test, the summary to store and the final view compute the reference `Assemble` and `Built`. |
| Summaries.AssembledViewHolds | internal/chatsession/pack.go:66-90 | The view is the given messages, the new summary or else the stored one, the packed working history, the todos, and last the user's text. |
| Summaries.StoredIff | internal/chatsession/pack.go:66-90 | A compaction is stored exactly if it is due, there are more than four messages and more than two turns, and the summary says something; then the summarised head and the working history are the history. |
| Compaction.RecallHistory | internal/chatsession/pack.go:46-60 | The working history is what follows the stored id if the turn sees it; with a summary but no id, its last two turns. |
| Compaction.IsCompactionDue | internal/chatsession/pack.go:61-67 | Due when the probe packing is over budget, or the calibrated estimate of the working history presses on the window. |
| Compaction.DueIff | internal/chatsession/pack.go:61-67 | It is due exactly if it is enabled, the window is known, and the packed history is over its budget or the calibrated estimate takes three quarters of the usable window. |
| Compaction.ForceCompact | internal/chatsession/pack.go:248-302 | A manual compaction stores the summary of the head and the id of its last message, unless there is nothing to summarise. |
| Compaction.ForcedCompaction | internal/chatsession/pack.go:248-302 | The id it stores is usable and inside the head it summarised. |
| Compaction.ForcedKeepsTwo | internal/chatsession/pack.go:248-302 | A manual compaction leaves the last two turns, or the last two messages if there are no more turns than that. |
| Compaction.CompactingTurn | internal/chatsession/pack.go:66-90 | A compacting turn stores a usable id inside the head it summarised and works on exactly the rest. |
| Compaction.RecallingTurn | internal/chatsession/pack.go:46-60 | Without a compaction the working history starts right behind the stored id exactly if the turn still sees it, and is all of it otherwise; a summary without an id leaves the last two turns of a long history. |
| Compaction.TurnLosesNothing | internal/chatsession/pack.go:46-89 | In every turn the working history is a suffix of what the turn sees, and all it leaves out was in the head of the latest summary. |
| Compaction.SessionStaysProper | internal/chatsession/pack.go:46-89 | The invariant behind that holds after any number of turns and manual compactions. |
| Records.RecordLog.Insert | internal/agent/store.go:221-249 | A valid record goes to the end of the log; an invalid one or a second result for an id changes nothing. |
| Records.RecordLog.AppendAssistant | internal/agent/store.go:112-126 | Succeeds exactly for a valid assistant message and then appends it with its usage. |
| Records.RecordLog.AppendUser | internal/agent/store.go:128-139 | Succeeds exactly for a valid, non-blank user message. |
| Records.RecordLog.AppendToolResult | internal/agent/store.go:141-149 | Appends the result under its trimmed id, once per id. |
| Records.RecordLog.List | internal/agent/store.go:259-303 | Lists the log exactly when every row is valid. |
| Records.RecordLog.Prepare | internal/agent/store.go:64-110 | Writes the initial messages of a new run; accepts a known run exactly if its log is readable and starts with them. |
| Records.ValidByRole | internal/agent/store.go:365-387 | What a log takes, role by role: results carry an id and no calls, replies calls with ids, names and JSON, others neither. |
| Records.ReadBackIffTrimmed | internal/agent/store.go:141-149 | An accepted result leaves a readable log readable exactly when its call id is trimmed. |
| Records.SpacedIdIsLost | internal/agent/store.go:141-149 | There is an accepted result after which a readable log cannot be listed. |
| ToolCalls.ClassifyToolCalls | internal/agent/runner_util.go:53-69 | Each call's kind is judged against all ids before it; the ids seen and the failure flag follow. |
| ToolCalls.ExecutableIff | internal/agent/runner_util.go:87-103 | A call is executable exactly if it is well-formed, advertised, and its id is new to the run and to the batch. |
| ToolCalls.ExecutedOnce | internal/agent/runner_util.go:53-69 | No call id is executed twice in a batch. |
| Executions.RunOnce | internal/agent/runner_util.go:53-69 | However a new run ends, no call id was executed twice in it, and every executed id is asked for in its log. |
| Executions.ExecutedOnceEver | internal/agent/runner_restore.go:74-80 | A run that crashes after whatever record and is recovered, any number of times, never executes a call id twice, and what it executed stays executed. |
| CrashRecovery.CutRecovers | internal/agent/runner_restore.go:43-130 | Cut any accepted log anywhere: recovery accepts the cut exactly when every open call has a stored response, and re-appends just the results that the uncut log, or its completion, holds there. |
| CrashRecovery.CrashRecovers | internal/agent/runner_restore.go:43-130 | The same law with no more stored than at the time of the crash. |
| CrashRecovery.RestoresIff | internal/agent/runner_restore.go:43-130 | A log that can be replayed is recovered exactly if the calls it leaves open have their responses stored, and ids that are new to it and distinct. |
| CrashRecovery.CutRestoresIff | internal/agent/runner_restore.go:43-130 | The same for every cut of such a log, with what was stored at the crash; what is re-appended agrees with the log that was cut. |
| CrashRecovery.RecoveryConverges | internal/agent/runner_restore.go:14-131 | Recovering again leaves log and state as they are. |
| CrashRecovery.RestoredIsScan | internal/agent/runner_restore.go:43-130 | The recovered state is what a replay of the recovered log gives, with nothing open and result ids still unique. |
| CrashRecovery.CompleteIsScan | internal/agent/runner_restore.go:114-130 | Completing the open batch is the same as replaying the completed log. |
| Recovered.ReplayedIff | internal/agent/runner_restore.go:43-112 | Recovery reads a log exactly if each of its records can stand behind those before it: inputs before the first reply or while no call is open, replies that say something within the budget, results of the first open call that are known. |
| Recovered.KnownIff | internal/agent/runner_restore.go:82-106 | A result is known exactly if it repeats the stored response of a call that succeeded, or none is stored and it is a refusal or failure of the agent's own. |
| Recovered.RecoveryWrites | internal/agent/runner_restore.go:114-130 | Recovery appends one result for each open call, in call order, with what its stored response says, and nothing else. |
| CrashRecovery.ScanPrefix | internal/agent/runner_restore.go:43-112 | Every prefix of an accepted log is accepted, and its next state is one step further. |
| CrashRecovery.RecoveredNeedsNoRepair | internal/agent/runner_restore.go:43-131 | Whatever listable log of system and user inputs it is given, the conversation a recovery returns is one that repair leaves alone. |
| CrashRecovery.RecoveredUsage | internal/agent/runner_restore.go:43-131 | Recovered usage is that of the assistant records: every kind of token summed, and costs in the first currency named; iterations are their number. |
| CrashRecovery.AccountIs | internal/agent/runner_util.go:204-216 | Adding usages up sums all tokens, and the costs before a currency is named and in that currency; other currencies are left out. |
| Restore.ReadOne | internal/agent/runner_restore.go:43-112 | One pass of the replay loop is the reference step `Read`. |
| Restore.RestoreRun | internal/agent/runner_restore.go:14-131 | The replay loop and the completion loop, on a live log, compute the reference recovery; when that counts as completed is Completion.CompletedIff. |
| Completion.CompletedIff | internal/agent/runner_restore.go:62-72 | A log is taken for completed exactly if recovery accepts it and its last record is an assistant message without calls; then nothing is open or appended, and that message is the content. |
| Completion.FinishedIsCompleted | internal/agent/runner_run.go:67-74 | A run that has ended is recovered as completed, with its content, exactly if it logged no steer after its text, and it logs one there only at the cap. |
| Completion.RunningIsNotCompleted | internal/agent/runner_run.go:213-227 | A run that goes on is not taken for completed, except after a text whose steers were all in the log already. |
| SteeredLogs.SteeredReadIff | internal/chatsession/steer.go:69-79 | Texts that the session service writes into the log of a running turn leave it readable exactly if none was written while a call was open. |
| SteeredLogs.SaidDuringTools | internal/chatsession/steer.go:69-79 | In a tool step just the places before the reply and behind the last result are safe. |
| SteeredLogs.SaidTooSoonIsFatal | internal/agent/runner_restore.go:45-51 | Nothing recovers a log with such a text, whatever is written behind it. |
| SteeredLogs.SaidDuringToolsIsLost | internal/chatsession/steer.go:69-79 | There is a log of one tool step that is read, and that is lost with a text said while the tool ran. |
| SteeredLogs.CompletedWhateverWasSaid | internal/agent/runner_restore.go:62-72 | A log that ends in a text of the model is taken for completed, whatever was said before that. |
| LiveExamples.SaidDuringAnswerIsDropped | internal/chatsession/steer.go:69-79 | There is a run that goes on to answer what was said and that recovery takes for completed. |
| Inbox.Inbox.Enqueue | internal/agent/inbox.go:34-52 | Appends the trimmed item unless it is blank or its id is queued already. |
| Inbox.Inbox.ClaimStep | internal/agent/inbox.go:60-85 | In-place filtering hands out the session's items in order and keeps the others in order. |
| Inbox.Inbox.Clear | internal/agent/inbox.go:104-126 | Removes one session's items, or all of them for a blank session. |
| Inbox.InboxConserves | internal/agent/inbox.go:34-85 | Over any operations, what was accepted for a session is what was delivered followed by what waits: nothing lost, doubled or reordered. |
| Steers.ArrivalWaits | internal/agent/inbox.go:34-52 | An item with a text and a session, and an id that no waiting item has, is accepted and waits behind the others; any other leaves no trace. |
| Steers.NothingWaits | internal/agent/inbox.go:60-85 | After a step that gets to its inbox nothing waits there for its session, and everything still does for the others. |
| RunLoop.HasRepeatedToolSteps | internal/agent/loop_detection.go:34-53 | True exactly when some non-empty batch occurs more than the allowed times among the last ones. |
| ToolSteps.LoopIff | internal/agent/loop_detection.go:34-53 | A loop is raised exactly if some batch that executes something stands at more than five of the last ten places. |
| ToolSteps.SignatureIff | internal/agent/loop_detection.go:18-30 | Two batches count as the same exactly if they call the same tools with the same arguments in the same order. |
| RunLoop.IterationCap | internal/agent/runner_run.go:96-235 | With cap N and r restored iterations a run ends with at most max(r + 1, N), for every provider and every stream of steers. |
| RunLoop.NoToolsInCappedStep | internal/agent/runner_run.go:113-235 | No tool runs in a capped step. |
| RunLoop.NoToolsAfterLoop | internal/agent/runner_run.go:247-260 | After a detected tool loop no tool runs again. |
| RunLoop.ExecutedWindow | internal/agent/runner_run.go:247-269 | Among any ten consecutive executed batches none occurs more than five times. |
| RunLoop.SameBatchAtMostNine | internal/agent/runner_run.go:247-269 | A batch repeated forever is executed at most nine times. |
| RunLoop.StepCounts | internal/agent/runner_run.go:96-291 | A step counts at most one iteration and executes at most one batch, and only when tools are enabled and the step is not capped. |
| Runner.AppendToolResults | internal/agent/runner_tools.go:164-181 | Results are appended one by one in call order, up to the first failure. |
| Runner.ClaimAndAppendStepInbox | internal/agent/runner_run.go:294-317 | The loop over the claimed items is the reference step `Steer`; that it delivers every steer is Steers.SteersReachLog. |
| Steers.SteersReachLog | internal/agent/runner_run.go:302-308 | The added rows are exactly user messages with the texts of the claimed items that are not written yet, once each and in order. |
| Steers.RunDelivers | internal/agent/runner_run.go:294-317 | Over every run: the user rows it adds are the texts of the items its inbox delivered, less those written already, and the items accepted for its session are those delivered and then those that wait. |
| Runner.SplitByKind | internal/agent/runner_run.go:237-246 | The executable and the refused calls, each in call order. |
| Runner.AnswerInText | internal/agent/runner_run.go:191-235 | The text branch: what is logged, when a steer continues the run, when it ends. |
| Runner.ExecuteBatch | internal/agent/runner_run.go:262-290 | The tool branch: assistant record, executed results, refusals, then steers. |
| Runner.RunTools | internal/agent/runner_run.go:237-290 | Classification, loop detection and the tool branch are the reference tool step; a looping batch is not executed. |
| ToolSteps.ToolStepDoes | internal/agent/runner_run.go:96-291 | Told from its input alone: when a step runs tools, the executable calls run once in order, and the log gains the reply, their results, the refusals and the steers. |
| ToolSteps.ResultRowsAre | internal/agent/runner_tools.go:164-181 | Each result is logged under the trimmed id of its call, with what the tool said. |
| ToolSteps.RefusalSaysWhy | internal/agent/runner_tools.go:106-138 | A refused call is answered with the reason for which it was refused. |
| Completion.FinalTextIs | internal/agent/runner_run.go:191-212 | A text step logs what the model said; if it only asked for tools it cannot have, it logs a text of its own. |
| Limits.StepSpends | internal/agent/runner_run.go:97-102 | The provider is asked exactly if the run is not cancelled and something is left of every limit. |
| Limits.RunSpends | internal/agent/runner_run.go:100-155 | Every reply but the last came while something was left of every limit, so a run exceeds a limit by its last reply at most. |
| Limits.FinishedWithinLimits | internal/agent/runner_run.go:213-218 | A run that ends in time is within its limits. |
| Runner.RunStep | internal/agent/runner_run.go:96-291 | One pass of the loop on a live log and inbox is the reference step. |
| Runner.RunAgent | internal/agent/runner_run.go:96-291 | The loop is the reference run, to which the cap and loop lemmas apply. |
| BatchOrder.OrderKeptIff | internal/agent/runner_run.go:269-277 | The log keeps call order exactly when refused calls come last. |
| BatchOrder.BatchReadBackIff | internal/agent/runner_restore.go:82-111 | Recovery reads the results of a batch back exactly when refused calls come last. |
| BatchOrder.LoggedBatchReadable | internal/agent/runner_run.go:262-278 | The same law for the log that the loop really writes. |
| LiveReplay.RunReadable | internal/agent/runner_run.go:96-291 | The log of a run of any length that goes on or ends in time is replayed exactly if in every batch the refused calls came last, recovery knows every result, and no bill exceeds its budget; then nothing is open and the content is the live one. |
| LiveReplay.LiveLogRestores | internal/agent/runner_restore.go:14-131 | If no reply is lost, such a log is recovered exactly under the conditions on batches and results, as it stands and with the live content; however the run ends, a recovery that appends nothing brings back its usage, iterations and seen ids. |
| LiveCrash.RunStaysClean | internal/agent/store.go:141-149 | However it ends, a run leaves at most one result for each id in its log, written just as recovery would write it. |
| LiveCrash.LiveCutRecovers | internal/agent/runner_restore.go:43-130 | What a run had written when it stopped or crashed, after any record and however it would have ended, is replayed if its batches have their refused calls last, and accepted exactly if every open call has its response stored by then and open ids are new and distinct; what is re-appended agrees with the log of the run. |
| LiveCrash.RunScans | internal/agent/runner_run.go:96-291 | However a run ends, cancelled inside a batch too, its log is replayed if every batch has its refused calls last, recovery knows the results and the bills are within the budget. |
| LiveCrash.NewRunCutRecovers | internal/agent/store.go:64-110 | The law for new runs, with nothing assumed of the start. |
| LiveCrash.ResumedRunCutRecovers | internal/agent/runner_restore.go:14-131 | The law for runs that go on after a recovery. |
| LiveExamples.RefusalIsLost | internal/agent/runner_run.go:264-278 | There is a run whose log is recovered as a whole, and not if it crashes before its refusal is written. |
| LiveReplay.PreparedIsRestorable | internal/agent/store.go:64-110 | A new run starts in a state to which these laws apply. |
| LiveReplay.ResumedIsRestorable | internal/agent/runner_restore.go:14-131 | So does a recovered one. |
| LiveExamples.MixedBatchIsLost | internal/agent/runner_run.go:262-278 | There is a run whose own log recovery rejects. |
| LiveLog.BadCallEndsRun | internal/agent/runner_run.go:237-264 | A tool step outside a loop stops with a corrupt history and an unchanged log exactly when some call has a blank id, a blank name or arguments that are not JSON. |
| LiveExamples.BlankIdEndsRun | internal/agent/runner_run.go:237-264 | There is such a step. |
| Survival.BatchGoesOnIff | internal/agent/runner_run.go:237-290 | A run goes on after a tool step outside a loop exactly if every call is well-formed, the budget holds, every executed tool returns, every id is new to the log and asked for once, and no steer is empty. |
| Survival.KnownIdEndsRun | internal/agent/runner_util.go:87-103 | A call whose id has a result, or that the batch repeats, ends the run. |
| Survival.AskedAgainNeverRecovers | internal/agent/runner_restore.go:43-131 | A log with a record that asks for an answered id, or for one id twice, is never recovered, whatever is stored. |
| Survival.KnownIdIsFatal | internal/agent/runner_run.go:264-278 | So the log that such a well-formed step leaves is never recovered. |
| LiveExamples.TwinCallsAreFatal | internal/agent/runner_util.go:87-103 | There is such a step. |
| LiveLog.RunBills | internal/agent/runner_run.go:96-291 | However a run ends, the live usage adds up all replies it counted, and the log bills the same replies in order but for the lost ones. |
| LiveLog.RunIterations | internal/agent/runner_run.go:96-291 | However a run ends, its log counts as many iterations less than the run did as replies were lost. |
| LiveLog.RecoveredVersusLive | internal/agent/runner_restore.go:43-131 | However a run ended, recovery brings back the live iterations exactly if no reply was lost, and then the live usage; otherwise it lacks as many iterations as replies were lost, and their tokens. |
| LiveExamples.LoopIsForgotten | internal/agent/runner_run.go:247-260 | There is a run of ten iterations that recovery counts as nine. |
| LiveExamples.FailureIsForgotten | internal/agent/runner_run.go:154-173 | There is a run that counts one iteration and is recovered with none, without any loop: its provider fails. |
| LiveExamples.RestartIsShort | internal/agent/runner_test.go:499-531 | A tool step and then a cancelled provider call: two live iterations, one recovered. |
| ToolFailures.FailureReadBackIff | internal/agent/runner_tools.go:140-162 | Recovery reads a failed result back exactly if the tool named no error of its own, or one that the agent uses itself. |
| ToolFailures.OwnErrorIsLost | internal/agent/runner_restore.go:82-111 | A log with any other failed result is never recovered. |
| Scheduler.AdvanceNextRun | internal/scheduler/store.go:372-388 | The loop computes the reference next time for each misfire policy. |
| Scheduler.NextRunAdvances | internal/scheduler/store.go:372-388 | The next time is after the claimed one; under skip after now, under run_once not before now. |
| Scheduler.SkipIsLeast | internal/scheduler/store.go:378-386 | Under skip it is the least later multiple of the interval strictly after now. |
| SchedulerRuns.LeaseAndRetry | internal/scheduler/store.go:206-365 | In every state with the invariant: a lease exists exactly when its run is claimed; retry_at is set only without a lease, for an allowed retry; no attempt exceeds max_retries + 1. |
| SchedulerRuns.CreateKeeps | internal/scheduler/store.go:53-118 | Create keeps the invariant of the tables. |
| SchedulerRuns.ChangeKeeps | internal/scheduler/store.go:158-176 | A state change keeps it. |
| SchedulerRuns.ExpireEnds | internal/scheduler/store.go:206-237 | Expiry ends exactly the runs whose leases have run out, and retries or resets their jobs. |
| SchedulerRuns.AckEndsOne | internal/scheduler/store.go:306-370 | An acknowledgement that does anything ends exactly one leased run. |
| SchedulerRuns.EndsKeeps | internal/scheduler/store.go:206-370 | Ending runs, by expiry or acknowledgement, keeps the invariant. |
| SchedulerRuns.ClaimKeeps | internal/scheduler/store.go:260-299 | A claim keeps the invariant. |
| SchedulerRuns.ClaimIsLater | internal/scheduler/store.go:262-285 | A claim comes after every run the job ever had. |
| SchedulerRuns.ClaimNotDelivered | migrations/core/012_jobs.sql:22-34 | The unique index on delivery keys never refuses a claim. |
| SchedulerRuns.AckFollowedBy | internal/scheduler/store.go:331-365 | After an acknowledgement the job's next claim is the following attempt of a failed run, attempt times backoff later, while retries are left; otherwise it is the next occurrence. |
| SchedulerRuns.ExpiryFollowedBy | internal/scheduler/store.go:222-237 | The same after a lease has run out. |
| SchedulerHistory.ApplyKeepsHistory | internal/scheduler/store.go:53-370 | Every transaction, with any clock value, keeps tables and history of tasks in agreement. |
| SchedulerHistory.RunKeepsHistory | internal/scheduler/store.go:53-370 | So does every run of transactions. |
| SchedulerHistory.ClaimsIncrease | internal/scheduler/store.go:222-299 | Over every run, the (scheduled_at, attempt) pairs claimed for a job strictly increase, each retry follows an attempt of its occurrence, none exceeds max_retries + 1. |
| SchedulerHistory.KeysNeverClash | internal/scheduler/store.go:268-299 | Over every run, delivery keys never repeat, and two tasks share their Core key exactly when they are attempts of one occurrence of one job. |
| SchedulerHistory.LeasesAndRetries | internal/scheduler/store.go:206-365 | Over every run, a lease exists exactly when its run is claimed, retry_at is set only without a lease, for an allowed retry, and no attempt exceeds max_retries + 1. |
| SchedulerHistory.CatchUpNeverSkips | internal/scheduler/store.go:262-291 | Under catch_up the first attempts of a job are exactly its next time, one interval later, and so on, with no gap. |
| SchedulerSkip.SkipKeepsTheGrid | internal/scheduler/store.go:262-388 | Under skip, over every run, the first attempts of a job are its next time plus multiples of the interval, strictly increasing, and of the occurrences before the next one only those are left out that the clock of a claim had passed. |
| SchedulerRunOnce.RunOnceKeepsPace | internal/scheduler/store.go:262-388 | Under run_once, over every run, a job's first attempts begin with its next time, and each follows an interval after the one before, or after the clock of a claim that came later: one run makes up for all that was missed, and no two are closer than an interval. |
| SchedulerClaims.ClaimPicks | internal/scheduler/store.go:206-299 | A claim hands out one task for each job it picks: active, its retry or next time has come, not held by a lease that runs, sooner ones first; such a job is passed over only at the limit, for sooner ones. What is picked is held until its lease runs out. |
| SchedulerClaims.ClaimBounds | internal/scheduler/store.go:178-188 | A claim hands out a hundred tasks at most, ten by default; a lease holds an hour at most, a minute by default. |
| SchedulerClaims.IdleJobsNeverRun | internal/scheduler/store.go:158-176 | Over every run: a paused job gets no task before it is made active again, and an archived one never. |
| SchedulerClaims.CreatedWaits | internal/scheduler/store.go:53-118 | A good request with a new key makes an active job, whose first task is the first attempt at the time asked for; any other changes nothing. |
| SchedulerClaims.ChangeReaches | internal/scheduler/store.go:158-176 | A change of status reaches every job but the archived ones, and nothing else. |
| SchedulerClaims.AckHeardIff | internal/scheduler/store.go:306-370 | An acknowledgement is heard exactly if it comes from the holder of the lease, says how the run ended, and names the task that it says was created; then the run has that status and the job is free. |
| SchedulerStore.Store.Create | internal/scheduler/store.go:53-118 | The new tables are the reference ones; a taken key returns the job that has it. |
| SchedulerStore.Store.ChangeState | internal/scheduler/store.go:158-176 | The new tables are the reference ones; archived jobs stay archived. |
| SchedulerStore.Store.Acknowledge | internal/scheduler/store.go:306-370 | The new tables are the reference ones; only the holder of the lease is heard. |
| SchedulerStore.Store.Reap | internal/scheduler/store.go:206-237 | The loop over expired leases yields the reference tables. |
| SchedulerStore.Store.SelectDue | internal/scheduler/store.go:238-259 | The loop picks as the reference relation `DuePick` says; what is picked is SchedulerClaims.ClaimPicks. |
| SchedulerStore.Store.ClaimDue | internal/scheduler/store.go:178-304 | The whole transaction is a possible step of the transition system and returns its tasks. |
| SchedulerStore.Store.ClaimRow | internal/scheduler/store.go:260-299 | One claim inserts run and lease and moves the job on. |
| SchedulerStore.AckKeeps | internal/scheduler/store.go:306-370 | Acknowledge keeps the invariant of the tables. |
| Reload.Runner.Enter | internal/configreload/watch.go:145-153 | The first locked block: a call that finds a runner leaves a mark and goes away. |
| Reload.Runner.Recheck | internal/configreload/watch.go:164-171 | The second locked block: a mark means one more call. |
| Reload.Runner.Fire | internal/configreload/watch.go:144-173 | One call with others arriving during OnChange runs it once more after each round that saw an arrival, and ends idle and unmarked. |
| Reload.RunIsSafe | internal/configreload/watch.go:144-173 | Over all interleavings one goroutine at most owns the run, and every call so far is served by a later OnChange or owed one. |
| Reload.OneCallAtATime | internal/configreload/watch.go:34-37 | At most one OnChange is in flight. |
| Reload.NoLostWakeUp | internal/configreload/watch.go:144-173 | Whenever no runner is active, every `fire` so far was followed by an OnChange that started after it. |
| Reload.NoLostChange | internal/configreload/watch.go:133-173 | Once timer and goroutines are quiet, every file change was followed by an OnChange. |
| Reload.CallsAreCoalesced | internal/configreload/watch.go:133-173 | OnChange starts at most once per `fire`, and `fire` runs at most once per file change. |
| Reload.RunnerSettles | internal/configreload/watch.go:155-172 | An active runner can always step and is idle after at most six more steps of its own. |
| EventLog.EventStore.Append | internal/events/store.go:54-101 | A new event gets a larger sequence; a known one is returned; a conflicting one changes nothing. |
| EventLog.EventStore.ListAfter | internal/events/store.go:102-122 | The first events after a sequence, up to a valid limit. |
| EventLog.LaterIsLater | internal/events/store.go:109-116 | The events listed after x are exactly those with a larger sequence. |
| EventLog.RetryIsKnown | internal/events/store.go:88-96 | A retry of an accepted append finds its own event, whatever the clock: no conflict and no second row. |
| EventLog.AcceptedIff | internal/events/store.go:164-203 | A draft is accepted exactly if its required fields are there, and is stored as it is, with its time set and its payload compacted. |
| EventLog.RetryIff | internal/events/store.go:205-220 | A draft under a known id is taken for a retry exactly if the stored event says the same in every field that counts. |
| EventStream.PrintPage | internal/gateway/handlers_events.go:66-76 | A page prints the frames of its items in order and moves the cursor to the last. |
| EventStream.StreamSSE | internal/gatewayclient/transport.go:153-204 | The line loop emits exactly the reference parse of the text. |
| EventStream.FeedField | internal/gatewayclient/transport.go:171-203 | A line sets the id, the event name, or one more line of data; other fields change nothing. |
| EventStream.ParseFrame | internal/gatewayclient/transport.go:171-203 | A printed frame parses to one event with its id, type and data, whatever follows. |
| EventStream.ParseCutStream | internal/gatewayclient/transport.go:155-204 | A stream cut anywhere yields its whole frames and, at a clean end, one more event that may be partial. |
| EventStream.CutIsCompleteIff | internal/gatewayclient/transport.go:155-204 | What a broken stream yields are first events, whole and in order, exactly if it did not end cleanly or the cut splits no event behind its id line. |
| EventStream.CleanEndCanMislead | internal/gatewayclient/transport.go:155-204 | Any event, cut behind its id line at a clean end, yields one without type and data. |
| EventStream.ParsedNamesAreOneLine | internal/gatewayclient/transport.go:171-203 | No text makes the parser emit an event name with a newline or a trailing carriage return. |
| EventStream.ReadBackIffTypesFit | internal/gateway/handlers_events.go:66-74 | Printed events read back as printed exactly when every event type fits on one line. |
| EventStream.TypeCanBreakTheStream | internal/gateway/handlers_events.go:66-74 | There is an event that the store accepts and that does not read back. |
| EventStream.ReaderSeesPrefix | internal/gatewayclient/client.go:37-51 | Wherever the stream is cut, the decoding reader sees the first events, whole and in order. |
| EventDelivery.StepsKeep | internal/gateway/handlers_events.go:60-84 | Over appends, pages and broken connections: the text printed is what lies between the reader's start and the cursor, and everything before was delivered. |
| EventDelivery.DeliveryIsExact | internal/tui/run.go:56-92 | At every moment of every run the reader has seen the first few events after its origin, each once and in order. |
| EventDelivery.DeliveryIsComplete | internal/gateway/handlers_events.go:60-84 | A reader with the whole text of a caught-up server has every event after its origin. |
| Sorting.InsertionSort | internal/corequery/session.go:476-489 | Swapping neighbours in place yields the reference sort. |
| Sorting.SortUniqueInPlace | internal/approval/plan.go:262-274 | Sorting and moving kept texts to the front of the same array yields the sorted list without repetition. |
| Sorting.SortedUniqueIs | internal/approval/plan.go:262-274 | It ascends strictly and has exactly the given elements. |
| Sorting.AscendingIsUnique | internal/approval/plan.go:262-274 | A set of texts has one ascending list. |
| Sorting.OrderedIsUnique | internal/approval/plan.go:117-119 | Where the order tells elements apart, any sort returns the same list. |
| Transcript.SortTranscript | internal/corequery/session.go:476-489 | Ordered by creation text and id, a permutation, and entries of one key keep their order. |
| Plan.NormalizeList | internal/approval/plan.go:229-260 | Trim, drop blanks, sort and deduplicate: the reference list for each kind of text. |
| Plan.NormalListIff | internal/approval/plan.go:229-274 | Two lists normalise alike exactly when they stand for the same set. |
| Plan.NormalizeCapability | internal/approval/plan.go:160-214 | The reference capability, exactly when it passes the checks. |
| Plan.NormalizeStep | internal/approval/plan.go:123-153 | The reference step with its capabilities sorted, exactly when it passes the checks. |
| Plan.Normalize | internal/approval/plan.go:81-121 | The loop with its two maps and the sort computes the reference form, and fails exactly on invalid or repeated steps. |
| PlanChecks.AcceptedIff | internal/approval/plan.go:81-153 | A plan is accepted exactly if what is handed in has its ids, a revision, an objective and good steps with distinct ids and positions; then its steps are put in the order of their positions. |
| PlanChecks.CapabilityIff | internal/approval/plan.go:160-227 | A capability passes exactly if it has a name, a duration and calls, one call if it is for one time, and absolute places if it runs commands. |
| PlanChecks.ListsAre | internal/approval/plan.go:229-260 | The sets that lists of texts and domains stand for: trimmed, without blanks, domains in lower case without their last dot. |
| PlanMeaning.FormIsMeaning | internal/approval/plan.go:81-153 | Two plans share their canonical form exactly when they mean the same: sets of texts, multisets of capabilities and steps. |
| PlanMeaning.HashIsMeaning | internal/approval/plan.go:72-79 | So do they share their hash. |
| PlanMeaning.RearrangedPlansAgree | internal/approval/plan.go:81-153 | Reordering steps and capabilities and reordering or repeating texts leaves form and hash as they were. |
| PlanAgain.ListAgain | internal/approval/plan.go:229-274 | Normalising a canonical list again changes nothing exactly when every text in it is left alone. |
| PlanRehash.NormalFormIsFixedIff | internal/approval/plan.go:81-121 | Normalising a canonical plan again changes nothing exactly for settled plans. |
| PlanRehash.RehashIff | internal/approval/grant.go:63-81 | The hash of the normalised plan is the hash of the plan exactly for settled plans. |
| PlanRehash.RehashCanDiffer | internal/approval/plan.go:251-260 | There is a valid plan whose stored form hashes to something else. |

## Left out

- RepairOrder.ErrorNamesTool: the tool name is quoted without the numeric escapes of Go's %q, because which characters need them is a table, not logic.
- Estimate.EstimateText: CJK runes are those of the principal Unicode blocks of the four scripts, because the full script tables are data, not logic.
- Turns.AlignCutKeepsPairs: needs the four known roles, because repair passes messages of any other role through and the cut would stop at them.
- Compaction.TurnLosesNothing: assumes that the window of transcript rows a turn sees never moves back, because the transcript only grows and its tail is cut by count (Turns.TailNeverMovesBack).
- Steers.RunDelivers: a run writes every row of its log itself; rows that the session service writes meanwhile are those of SteeredLogs.SteeredReadIff.
- Runner.RunAgent: the message list sent to the provider, its packing and overflow retry, and the list of responses are not part of the step; what happens to that list in the middle of a turn is MidTurn.MaybeCompactMidTurn.
- Runner.AppendToolResults: tools that run in parallel return their results in call order, so only that order is modelled.
- RunLoop.HasRepeatedToolSteps: a signature is the list of names and arguments instead of its SHA-256, taken to be injective.
- SchedulerStore.Store.ClaimDue: times are integers, because the text form of a timestamp drops trailing zeros and does not sort by time; ids are numbers; the branch for a refused delivery key is left out because SchedulerRuns.ClaimNotDelivered shows that it cannot happen.
- SchedulerStore.Store.Create: the name, session, title, skills, model and execution mode of a job, and the check of its owner, are plain data.
- Restore.RestoreRun: an artifact is its encoded text, and JSON validity and the error field of an object are parameters.
- ToolFailures.FailureReadBackIff: field names that differ from "error" in case only are not modelled; a decoder that ignores case may read one of them.
- Reload.NoLostChange: closing the watcher drops a pending timer, so the law is about a watcher that is open.
- EventDelivery.DeliveryIsExact: assumes of the events in the log that their types have one line (see EventStream.ReadBackIffTypesFit) and that their JSON decodes to them again.
- PlanRehash.RehashIff: path cleaning and lower case are parameters with the properties stated in PlanAgain.Library; JSON and SHA-256 are injective functions.
- SQL and transactions that fail, file systems, HTTP, process control, provider streaming, MCP, the terminal interface and the command line are plumbing around this logic.
- Floating-point calibration of estimates (a function from estimate to estimate in MidTurn), the extractive summary and the texts of prompts.
- Kernel state tables, grants, memory, todos, skills and configuration: single rows looked up, checked field by field and rewritten, with no order of operations that matters beyond the check in the same statement.
- Integer overflow, invalid UTF-8, log lines, metrics and timestamps of records.
