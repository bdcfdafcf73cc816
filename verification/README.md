# Verified model of the agent supervision layer

The repository runs coding agents as child processes and lets an operator watch
and interrupt them. This project models the parts of `crates/agents` and
`crates/config` where a mistake loses work, leaves a process running, or
rewrites history, and proves what they promise.

| area | modules | what is proved |
|---|---|---|
| Interrupts of a plain Codex job | `Interrupts`, `Markers`, `CodexJobProtocol` | a step relation over child, monitor thread and one commander; invariants over every interleaving |
| Interrupts of an ACP turn | `AcpTurnProtocol`, `AcpTurnOutcome`, `AcpTurnWitnesses` | the same for runner, monitor, commander, child, job log, intent marker and connection cache |
| Cache of live connections | `ResidentCache` | bounds and eviction order of the LRU, and where every child handle is |
| Job log | `Text`, `JobCodec`, `JobRecords`, `JobJson`, `JobLog` | what the hand-written JSON scanner, and any other JSON reader, recovers from what the hand-written escaper wrote; replay is last writer wins |
| Event stream of a turn | `RuntimeTypes`, `Dedup`, `EventStream`, `StreamFacts`, `StreamItems` | numbering, evidence ids, merge gates, finished calls and the reply, for any updates |
| Persisting and replaying a turn | `PromptLoop`, `EventReplay`, `TurnReplay`, `OwnerBackfill` | what reaches file and sink while the prompt loop runs; the healing reader; the owner backfill |
| Streaming text | `Utf8`, `TerminalOutput`, `PatchFiles` | incremental truncation on UTF-8 boundaries equals one truncation; diff counts are conserved and files go by their names |
| Documents edited in place | `Toml`, `StandingApprovals`, `UiAppearance`, `UiLayout`, `UiStore`, `LexicalPath` | an edited array refines an ordered map; two records in one table are two independent stores; path normalisation keeps meaning |

The program's mutable objects are classes here (`ResidentSessions`, `JobStore`,
`TurnStream`, `TurnOutput`, `AcpTerminalRecord`, `SettingsFile`,
`PreferenceFile`), each method tied to a function of the old state; its loops
are loops. Threads are step relations: a `Run` is any interleaving, and the
invariants hold in every reachable state. Clocks, processes, pipes and file
failures are inputs.

## Where the code does less than its comments say

Each entry names a lemma that exhibits a concrete run or input, and the lemma
that says exactly when the promise does hold.

- A refused interrupt can leave a dead job listed as `running`
  (`CodexJobProtocol.RefusedInterruptStrandsJob`): for a plain job exactly when a
  termination failed (`CodexJobProtocol.JobLeftRunningExactlyWhenRefused`). A turn
  can be left `running` or waiting for an approval
  (`AcpTurnWitnesses.RefusalMayStrandTurn`,
  `AcpTurnWitnesses.RefusalMayStrandWaitingTurn`): exactly when the refusal is
  recorded after the end of the turn by a commander that had read the job before
  it (`AcpTurnProtocol.TurnLeftOpenExactlyWhenRefusedLate`).
- A monitor that looked for the marker before it was written can record
  `finished` over a confirmed interrupt
  (`CodexJobProtocol.LateMarkerMayBeOverwritten`,
  `AcpTurnWitnesses.LateMarkerMayBeOverwritten`): exactly when nothing it still
  looks at could stop it as the interrupt was recorded
  (`CodexJobProtocol.ConfirmedStatusStaysExactlyUnlessOvertaken`,
  `AcpTurnProtocol.ConfirmedInterruptSettlesJob`). Where the marker is written
  decides whether that can happen
  (`CodexJobProtocol.ConfirmedStatusIsSafeExactlyOutsideTheLook`,
  `AcpTurnWitnesses.ConfirmedStatusIsSafeExactlyWhenMarkedSafely`). The monitor of a plain job
  looks for a cancelled record, but not for a paused or killed one.
- A pause that reports its connection kept may have none: the turn failed after
  its cancel request was logged, sent or not, or the agent cancelled by itself
  (`AcpTurnWitnesses.PauseMayReportADeadConnectionKept`,
  `AcpTurnWitnesses.PauseMayMistakeAnotherCancel`). The child is in the cache
  exactly when the turn was not dropped and the child did not exit by itself
  (`AcpTurnProtocol.KeptConnectionSurvives`).
- A refused cancel or kill may leave a running child in the cache
  (`AcpTurnWitnesses.RefusalMayLeaveALiveConnection`): exactly when it was marked
  after the runner entered its loop and before it released the child
  (`AcpTurnWitnesses.RefusalIsSafeExactlyWhenMarkedSafely`).
- A failed write of an event costs more than that event. The line and its break
  are written one after the other, and what is appended next goes on the
  unfinished line, so the fact that says how the turn ended is lost with it
  (`TurnReplay.ClosingFactMayBeLost`): it is read exactly when the last write
  before it left the last line finished and the file readable as text
  (`TurnReplay.ClosingFactIsReadExactly`). A write that stops inside a character
  makes the whole file unreadable (`TurnReplay.SplitCharacterLosesTheTurn`); in
  every other case all that was written whole is read
  (`TurnReplay.WrittenTurnReadsBack`).
- Revoking an approval whose id a hand-edited file repeats brings the next
  repeat into force (`StandingApprovals.RevokeMayRevealRepeat`,
  `StandingApprovals.RevokeTakesEffect`), and a revoke that meets an unreadable
  entry of the id first does not report the rule in force
  (`StandingApprovals.RevokeMayMissRule`,
  `StandingApprovals.RevokeReportsRuleInForce`).
- A terminal read that ends inside a character corrupts it
  (`TerminalOutput.SplitCharacterIsCorrupted`,
  `TerminalOutput.ChunksSurviveDecoding`).
- An added line whose text starts with `++`, or a deleted one whose text starts
  with `--`, is taken for a file header and not counted
  (`PatchFiles.DisguisedAdditionIsMissed`, `PatchFiles.PrintedDiffCounts`). If a
  space follows, the file goes by that text (`PatchFiles.DisguisedAdditionRenames`);
  otherwise it goes by its own path exactly if that ends in neither whitespace
  nor a quote (`PatchFiles.PrintedPathsAreReported`).
- The escaper of the job log leaves most control characters as they are: a
  record is a line of JSON exactly if its texts hold none but line feeds,
  carriage returns and tabs (`JobJson.RecordIsJson`).
- Saving a layout into a file without `[ui]` creates one, so an appearance
  profile that was never stored reads as the built-in one afterwards
  (`UiStore.LayoutSaveMakesProfile`, `UiStore.LayoutSaveKeepsProfile`). It shows
  only if the client's defaults differ from the built-in ones
  (`UiStore.BuiltInProfileShows`), which `system_ui_preferences` never lets them.
- Resetting the appearance also drops the keys of `[ui]` that belong to neither
  record (`UiStore.ResetDropsUnknownKey`, `UiStore.ExtrasKept`).
- A preference write can fail after the new file took the old one's place, when
  the directory cannot be synced: the reply then says the change was not
  written, and it is on disk (`UiStore.FailedSaveMayBeOnDisk`; the contracts of
  `UiStore.PreferenceFile` say when).
- A `[ui.layout]` that is no table reads as the defaults without a diagnostic,
  and nothing can be saved over it (`UiStore.OddLayoutReadsAsDefaults`,
  `UiStore.SaveLayoutSucceedsExactly`).

## Model

| member | source | states |
|---|---|---|
| CodexJobProtocol.RunKeepsInv | crates/agents/src/codex.rs:671-755 | over any run of child, monitor and commander the invariants hold, and liveness, marker and log only move forward |
| CodexJobProtocol.NoRecordHidesALiveChild | crates/agents/src/codex.rs:374-390 | in every interleaving every record but `running` is appended after the child has exited |
| CodexJobProtocol.MarkerBeforeLookIsFinal | crates/agents/src/codex.rs:374-390 | a marker written before the monitor looked for it, the child dead or not, silences the monitor for good, and a successful commander's status is final |
| CodexJobProtocol.MarkerBeforeExitIsFinal | crates/agents/src/codex.rs:374-390 | in particular one written while the child was alive |
| CodexJobProtocol.ConfirmedStatusStaysExactlyUnlessOvertaken | crates/agents/src/codex.rs:374-390 | when both threads are done a confirmed interrupt's status is the last one if and only if the monitor could still be stopped as it was recorded |
| CodexJobProtocol.ConfirmedStatusIsSafeExactlyOutsideTheLook | crates/agents/src/codex.rs:374-390 | a confirmed status is always the last one if and only if the marker was written before the monitor looked or after it was done |
| CodexJobProtocol.FailingMeansTerminationFailed | crates/agents/src/codex.rs:722-737 | in every run the command is refused if and only if its termination failed |
| CodexJobProtocol.JobLeftRunningExactlyWhenRefused | crates/agents/src/codex.rs:671-755 | when both threads are done the latest status is `running` if and only if the command was refused, which is if and only if a termination failed |
| CodexJobProtocol.RefusedInterruptStrandsJob | crates/agents/src/codex.rs:714-755 | a run in which a dead job stays `running` |
| CodexJobProtocol.LateMarkerMayBeOverwritten | crates/agents/src/codex.rs:374-390 | for every interrupt and each place between the two looks, a run in which the marker is written there and the monitor records `finished` over a confirmed interrupt |
| CodexJobProtocol.MonitorRecordsTheExit | crates/agents/src/codex.rs:374-390 | over any run, interrupted or not, the monitor has recorded `finished` if and only if it saw an exit with success, `failed` if and only if it saw another, and nothing else; a marker is there if and only if it was written |
| CodexJobProtocol.UninterruptedJobEndsAsItsProcess | crates/agents/src/codex.rs:374-390 | if no marker was written and the monitor is done, the last status is `finished` exactly for an exit with success and `failed` exactly for any other |
| CodexJobProtocol.AlreadyOverExactlyWhenFinished | crates/agents/src/codex.rs:676-681 | after any run, a commander that reads the job stands down if and only if the monitor has recorded success; a failed job can still be interrupted |
| AcpTurnProtocol.RunKeepsInv | crates/agents/src/glue.rs:839-985 | every step of runner, monitor, commander and child keeps the invariants over log, marker, process and cache |
| AcpTurnProtocol.ReachableInv | crates/agents/src/glue.rs:839-985 | those invariants hold in every reachable state of a turn, whatever connection was cached before it |
| AcpTurnProtocol.InterruptedSessionStaysUncached | crates/agents/src/glue.rs:1173-1216 | once a cancel or kill has returned Ok, the cache holds no running child for the session then or after any further steps |
| AcpTurnProtocol.EarlyMarkStopsTheTurn | crates/agents/src/acp.rs:1153-1347 | a cancel or kill marked before the prompt loop, even a refused one, leaves the child dead and uncached when the turn is over |
| AcpTurnProtocol.SafeMarkLeavesNoneCached | crates/agents/src/acp.rs:1153-1347 | a cancel or kill marked before the loop, or once the runner has released the child, leaves no running child cached from its return on, refused or not |
| AcpTurnWitnesses.RefusalIsSafeExactlyWhenMarkedSafely | crates/agents/src/glue.rs:1173-1216 | a refused cancel or kill can never leave a running child cached if and only if the runner was at one of those places when the marker was written |
| AcpTurnProtocol.NoLiveChildHidden | crates/agents/src/codex.rs:671-755 | a commander record that ends the job is never written over a live child; after the monitor's final record a live child can only be the cached one |
| AcpTurnProtocol.KeptConnectionSurvives | crates/agents/src/glue.rs:1195-1207 | a pause that reports its connection kept, once the runner is done: the cache holds the running child if and only if the turn neither failed nor ended in a cancellation of the agent's own and the child did not exit by itself |
| AcpTurnProtocol.ConfirmedInterruptSettlesJob | crates/agents/src/glue.rs:874-949 | after a confirmed interrupt the job has its status if and only if the monitor had not settled on another verdict when it was recorded, which is so whenever the marker came before the monitor looked |
| AcpTurnProtocol.TurnLeftOpenExactlyWhenRefusedLate | crates/agents/src/codex.rs:671-755 | when both threads are done the job is left `running` or waiting for an approval if and only if the command was refused after the end of the turn, having read it as open before; it is then left as it was read |
| AcpTurnProtocol.SafeMarkSettlesJob | crates/agents/src/glue.rs:874-949 | a confirmed interrupt marked before the monitor looked, or once it was done, always ends with its own status |
| AcpTurnOutcome.UninterruptedTurnIsRecordedAsReported | crates/agents/src/glue.rs:874-949 | in any run without a marker the ended turn has a last record of the monitor, with the status the agent reported, or `failed` if it reported none |
| AcpTurnOutcome.AlreadyOverExactlyWhenReported | crates/agents/src/codex.rs:676-681 | after any run, a commander that reads the job stands down if and only if the turn has ended as its agent reported it finished or cancelled |
| Markers.InterruptReadsBack | crates/agents/src/codex.rs:608-650 | the interrupt written to a marker is the one read from it, and the status it settles at stands for it alone |
| AcpTurnWitnesses.ConfirmedStatusIsSafeExactlyWhenMarkedSafely | crates/agents/src/glue.rs:874-949 | for every place the marker may be written, a confirmed status can be overwritten if and only if the monitor had looked for the marker and not yet recorded another end of the turn |
| AcpTurnWitnesses.PauseMayReportADeadConnectionKept | crates/agents/src/acp.rs:1154-1162 | runs in which a pause reports a connection that the runner has killed, its cancel request sent or only logged |
| AcpTurnWitnesses.PauseMayMistakeAnotherCancel | crates/agents/src/codex.rs:714-721 | a run in which the agent cancels by itself and text of the log is taken for the answer to the pause |
| AcpTurnWitnesses.RefusalMayLeaveALiveConnection | crates/agents/src/glue.rs:1173-1216 | for cancel and kill and every place from the loop to the insertion, a run in which the marker is written there, the command is refused, and a running child is cached |
| AcpTurnWitnesses.LateMarkerMayBeOverwritten | crates/agents/src/glue.rs:874-949 | for every interrupt and each such place, with each end the agent may report, a run in which that end is recorded over a confirmed interrupt |
| AcpTurnWitnesses.RefusalMayStrandTurn | crates/agents/src/codex.rs:699-712 | for every interrupt a run in which a turn that failed to start ends up `running` |
| AcpTurnWitnesses.RefusalMayStrandWaitingTurn | crates/agents/src/glue.rs:1232-1246 | for every interrupt a run in which a turn that asked for an approval and has ended is left waiting for it |
| ResidentCache.EvictionOrder | crates/agents/src/glue.rs:286-297 | oldest use first, key order among equals, is a total order |
| ResidentCache.CappedIsUnique | crates/agents/src/glue.rs:286-297 | the result of the capacity loop is the only subset of the bound's size whose every evicted key precedes every survivor |
| ResidentCache.StoreBounds | crates/agents/src/glue.rs:262-303 | after a store at most 8 sessions remain, none but possibly the new one older than the TTL, and no evicted fresh session was used later than a survivor |
| ResidentCache.StoreAgrees | crates/agents/src/glue.rs:262-303 | once what left the cache is stopped, every child is in exactly one place, every running one is held or cached, and settled children stay settled |
| ResidentCache.StoreRetires | crates/agents/src/glue.rs:262-303 | the stale, replaced and evicted sessions that a store stops are exactly those whose child is no longer cached |
| ResidentCache.StoredStays | crates/agents/src/glue.rs:262-303 | a stored session stays if and only if fewer than 8 go after it in eviction order, as it does if it was used last; it keeps its connection, remote session, request number, command, mode and model |
| ResidentCache.StoreThenTake | crates/agents/src/glue.rs:237-303 | a turn that follows one on the same session gets the very connection it stored, if and only if the cache kept it, 15 minutes have not passed and command, mode, model and a requested remote session are the same |
| ResidentCache.ResidentSessions.TakeResidentAcpSession | crates/agents/src/glue.rs:237-260 | a session leaves the cache and is returned if and only if it has the command, mode, model and any requested remote session, still runs and was used in the last 15 minutes; otherwise its child is stopped |
| ResidentCache.ResidentSessions.StoreResidentAcpSession | crates/agents/src/glue.rs:262-303 | a dead child is not cached and nothing else changes; a running one is cached, the cache is capped, and exactly the children that left are stopped |
| ResidentCache.ResidentSessions.OldestKey | crates/agents/src/glue.rs:286-293 | finds the first key in eviction order, and fails only on an empty cache, so the loop's `break` is dead code |
| ResidentCache.ResidentSessions.EvictOverBound | crates/agents/src/glue.rs:286-297 | the loop ends with the capped cache and returns exactly what it evicted |
| ResidentCache.ResidentSessions.StopAll | crates/agents/src/glue.rs:300-302 | stopping what left restores consistency |
| ResidentCache.ResidentSessions.RemoveResidentAcpSession | crates/agents/src/glue.rs:305-314 | the session is gone and its child stopped, no other touched |
| ResidentCache.ResidentSessions.ShutdownResidentAcpSessions | crates/agents/src/glue.rs:320-338 | exactly the sessions of one directory are gone and stopped |
| JobCodec.EscapedQuotesAreGuarded | crates/agents/src/infra.rs:597-609 | in an escaped value every quote follows a backslash, and no line break or tab is left |
| JobCodec.EscapeIsUndone | crates/agents/src/infra.rs:597-609 | unescaping by section 7 of RFC 8259 gives back every escaped text |
| JobCodec.EscapedIsJsonExactly | crates/agents/src/infra.rs:597-609 | an escaped text is free of raw control characters if and only if the text holds none but line feeds, carriage returns and tabs |
| JobCodec.RecoveredExactly | crates/agents/src/infra.rs:597-618 | the scanner recovers a written string if and only if it holds none of the five escaped characters |
| JobCodec.RecoveredIsPlainExactly | crates/agents/src/infra.rs:597-618 | what the scanner makes of a string that needs escaping never passes for one that does not |
| JobCodec.NoKeyInsideValue | crates/agents/src/infra.rs:611-618 | no quote inside or around an escaped value is followed by a key and `":` |
| JobCodec.ScanFindsField | crates/agents/src/infra.rs:611-639 | whatever the values hold, scanning for a key finds its own field, and an unwritten key is not found |
| JobCodec.StringFieldRead | crates/agents/src/infra.rs:611-618 | a quoted field reads back as its recovered text, whatever the rest of the line holds |
| JobCodec.NumberFieldRead | crates/agents/src/infra.rs:630-639 | a number reads back exactly, a null as absent |
| JobRecords.WrittenRecordReadsAs | crates/agents/src/codex.rs:929-967 | what every written record, with any text, reads back as |
| JobRecords.RecordRoundTrip | crates/agents/src/codex.rs:862-967 | writing then parsing is the identity on exactly the records without escaped characters, with non-empty optional fields and a non-empty agent id |
| JobRecords.ProtocolFieldsSurvive | crates/agents/src/codex.rs:862-967 | time and pid always come back, id, kind and status as soon as they are plain, however hostile the rest |
| JobJson.LineIsJson | crates/agents/src/infra.rs:597-609 | a reader of JSON objects takes a written line as exactly the fields written, in order, if and only if no value holds an unescaped control character |
| JobJson.RecordIsJson | crates/agents/src/codex.rs:862-903 | the 19 named members that such a reader finds in the line of any record, each text whole |
| JobLog.ReplayIsLastWriterWins | crates/agents/src/codex.rs:905-922 | after replay an id names one job, the last record written under it |
| JobLog.SortKeepsJobs | crates/agents/src/codex.rs:921-922 | sorting by time is a stable permutation that finds the same jobs |
| JobLog.LatestIsLastWriterWins | crates/agents/src/codex.rs:905-927 | the whole view is last writer wins, sorted, and a new record changes the view of its own id only |
| JobLog.RecordIsOneLine | crates/agents/src/codex.rs:862-903 | a record is one non-blank line whatever its text holds |
| JobLog.LogReadsBack | crates/agents/src/codex.rs:862-922 | n appended records read back as exactly n lines, in order |
| JobLog.LogAnswersLastAppended | crates/agents/src/codex.rs:862-927 | for a plain id, whatever other records hold, the log answers with the last record appended under it as the scanner sees it: time and pid exactly, kind and status exactly if and only if they are plain |
| JobLog.JobStore.AppendCodexJobRecord | crates/agents/src/codex.rs:862-903 | the file is the old file and one line more |
| JobLog.JobStore.LatestCodexJobs | crates/agents/src/codex.rs:905-922 | the read loop over the file yields the replayed, sorted view of all that was appended |
| JobLog.JobStore.FindCodexJob | crates/agents/src/codex.rs:925-927 | finds the last readable record of the id |
| JobLog.ReadJobs | crates/agents/src/codex.rs:905-922 | the loop that overwrites vector entries computes the replay of the parsed lines |
| JobLog.Overwrite | crates/agents/src/codex.rs:915-919 | overwriting in place is the replay's upsert |
| EventStream.TurnStream.constructor | crates/agents/src/acp.rs:1117-1137 | a turn opens with its gate proposed and nothing recorded |
| EventStream.TurnStream.AppendUpdate | crates/agents/src/glue.rs:1418-1644 | the incremental counter and id list produce the same events as reading numbers and gate ids off the history |
| EventStream.TurnStream.PushUniqueEvidenceId | crates/agents/src/glue.rs:1716-1720 | appends an id only if it is new |
| EventStream.TurnStream.Push | crates/agents/src/glue.rs:1722-1729 | appends an event under the current number and advances it |
| EventStream.UpdateKeepsStream | crates/agents/src/glue.rs:1418-1644 | every kind of update keeps the stream consistent |
| EventStream.StreamIsConsistent | crates/agents/src/glue.rs:1418-1729 | after any updates: numbers without a gap, one gate record that is proposed once and then lists what came before it, one message id, the published owner on all evidence, ids that fit their kind and position |
| StreamFacts.SequenceIsConsecutive | crates/agents/src/glue.rs:1722-1729 | events are numbered 1, 2, 3, ... |
| StreamFacts.GateListsTheRecord | crates/agents/src/glue.rs:1661-1720 | a gate lists exactly the ids recorded before it, each once, in first-occurrence order |
| StreamFacts.GateRequiresPatch | crates/agents/src/glue.rs:1707-1714 | a gate requires the patch first if and only if patch evidence was recorded before it, and then always the end of the turn, and nothing else |
| StreamFacts.GateIsTheTurns | crates/agents/src/glue.rs:1661-1705 | every gate has the published owner with the task of its session, or only that task; the first is proposed and undecided, a later one cites exactly what it lists and follows the evidence it adds |
| StreamFacts.FactsAreTheTurns | crates/agents/src/glue.rs:1418-1644 | text, parts, calls and evidence carry the message, session, task and owner of the turn |
| StreamFacts.EvidenceIsNamed | crates/agents/src/glue.rs:1503-1613 | evidence of calls, patches and ends of turn is named for the call or the session and the number of its event |
| StreamFacts.GatesGrow | crates/agents/src/glue.rs:1646-1705 | all gates of a turn are one gate, and an earlier list is a prefix of every later one |
| StreamFacts.NumberedOnce | crates/agents/src/glue.rs:1503-1524 | the decimal number after the last dash of an id is unique, whatever ids the agent chose |
| StreamFacts.EvidenceIdsDiffer | crates/agents/src/glue.rs:1503-1613 | evidence that is not content-addressed never shares an id with any other evidence of the turn |
| StreamFacts.ReplyIsWhatWasSaid | crates/agents/src/glue.rs:1437-1449 | the deltas joined give back every chunk, in order and once |
| StreamItems.StreamShowsWhatWasSent | crates/agents/src/glue.rs:1418-1644 | text, attachments, calls with their success and kinds of evidence appear exactly as the updates sent them, in order, each once |
| StreamItems.FinishedCallsAreGated | crates/agents/src/glue.rs:1525-1568 | the evidence a finished call carries is recorded right after it and listed by the gate that follows |
| Dedup.DistinctIsFirstOccurrences | crates/agents/src/glue.rs:1716-1720 | the deduplicated list has no repeats, the same members, and their first-occurrence order, which pins it down |
| PromptLoop.TurnOutput.AppendRuntimeEvents | crates/agents/src/glue.rs:1393-1416 | writes one line an event; a failed write leaves the lines before it and some beginning of its own, which may be the whole line without its break or stop inside a character |
| PromptLoop.TakeUpdate | crates/agents/src/acp.rs:1249-1271 | persists and publishes exactly the events the update added; a write that fails publishes none and leaves a beginning of their lines |
| PromptLoop.Pass | crates/agents/src/acp.rs:1153-1304 | one pass of the loop ends the run, or not, as its step says, and keeps file, sink and message in step with the events |
| PromptLoop.RunPrompt | crates/agents/src/acp.rs:1117-1316 | the run ends on the first step that ends it, and the cause of every status and of every failure is named: answer, cancel answer, end of the grace period or announced end, rejected prompt, unreadable line, unsent reply or cancel, broken write; file and sink hold exactly the stream of the updates taken and the message equals the joined deltas; only a failed write breaks this, and leaves some whole lines of it and a beginning of the next |
| PromptLoop.EndingIs | crates/agents/src/acp.rs:1153-1304 | when a step ends a run, and as what, in both directions |
| EventReplay.ReadAcpRuntimeEvents | crates/agents/src/glue.rs:1333-1345 | the reader with its seen set parses the first occurrences of the non-blank lines |
| EventReplay.WrittenReadsBack | crates/agents/src/glue.rs:1333-1416 | reading whatever was appended gives each event once, in the order first written |
| EventReplay.ReadingIsExact | crates/agents/src/glue.rs:1318-1332 | the reader is the identity exactly on files without a repeated event |
| EventReplay.DoubledBlockHeals | crates/agents/src/glue.rs:1318-1332 | a block appended twice is read once, with what came before and after it |
| EventReplay.HealingIsIdempotent | crates/agents/src/glue.rs:1333-1345 | healing a healed file changes nothing, whatever the file held |
| EventReplay.TurnHasNoRepeats | crates/agents/src/glue.rs:777-795 | start facts, any prefix of a stream and the closing fact are pairwise different |
| EventReplay.TurnReplaysExactly | crates/agents/src/glue.rs:1318-1345 | a single-writer file of whole lines loses nothing, even cut short, and a doubled file reads as the same turn |
| TurnReplay.RunLeaves | crates/agents/src/acp.rs:1249-1271 | however a run ends, its file holds what it held before and its whole stream, or, if a write broke off, a beginning of it and a beginning of the next line |
| TurnReplay.FileHoldsBeginning | crates/agents/src/acp.rs:1249-1271 | the file is the start facts, some whole lines of the stream and some characters of the next line; all of the stream if and only if no write failed |
| TurnReplay.WrittenTurnReadsBack | crates/agents/src/glue.rs:1318-1345 | without a failed write the whole turn is read back; after one, nothing if the file is no longer text, and else what was written whole, with the closing fact only if the last line was finished |
| TurnReplay.TurnReadsBack | crates/agents/src/glue.rs:1318-1345 | exactly what is read for every point a write may break off at, with and without a closing fact |
| TurnReplay.ClosingFactIsReadExactly | crates/agents/src/glue.rs:968-975 | the closing fact is read if and only if the last write before it left the file with its last line finished and as text |
| TurnReplay.ClosingFactMayBeLost | crates/agents/src/glue.rs:968-975 | one stray character of the opening gate, and the closing fact of the failed turn is not read |
| TurnReplay.SplitCharacterLosesTheTurn | crates/agents/src/glue.rs:1334-1336 | a write that stops inside a character leaves nothing to read |
| EventReplay.TornLineCostsOnlyItself | crates/agents/src/glue.rs:1333-1345 | an unreadable line cut off at the very end of a file costs only itself |
| EventReplay.UnfinishedLineTakesNextWithIt | crates/agents/src/glue.rs:1393-1416 | when events are written after an unfinished line, exactly the first of them is lost with it and every other event is read once |
| EventReplay.NextFactIsReadExactly | crates/agents/src/glue.rs:1393-1416 | a fact written after a broken-off write is read if and only if that write left no unfinished line |
| OwnerBackfill.BindEvent | crates/agents/src/glue.rs:1288-1304 | the map of bindings says what the replayed events show, and the event is bound as they say |
| OwnerBackfill.TrackedAgentJobRuntimeEvents | crates/agents/src/glue.rs:1277-1307 | the one-pass fold over artifacts and events equals the reference that looks each binding up in the history |
| OwnerBackfill.ReplayOnlyBinds | crates/agents/src/glue.rs:1268-1307 | every event stays in place and unchanged but for a missing gate session that is filled in; a published one is never overwritten |
| OwnerBackfill.MissingSessionIs | crates/agents/src/glue.rs:1288-1304 | a missing session becomes that of the latest bound event of the gate, or else its artifact's, or stays missing when there is neither |
| OwnerBackfill.BoundStaysBound | crates/agents/src/glue.rs:1288-1304 | no event of a gate is unbound after a bound one |
| OwnerBackfill.LegacyGateHasOneSession | crates/agents/src/glue.rs:1268-1276 | a gate whose facts never named a session is never split over two |
| OwnerBackfill.EventsComeInArtifactOrder | crates/agents/src/glue.rs:1277-1307 | the events of each artifact come after all of those before it, in place, with nothing changed but a missing gate session |
| OwnerBackfill.LegacyGateJoinsItsSession | crates/agents/src/glue.rs:1268-1307 | a gate without owners that the file of a session shows first belongs to that session in every turn that shows it |
| OwnerBackfill.BackfillIsIdempotent | crates/agents/src/glue.rs:1277-1307 | a second backfill finds nothing to do |
| Utf8.BoundarySplitsText | crates/agents/src/acp.rs:2731-2743 | in well-formed text the boundary test finds exactly the places where both sides are well-formed |
| Utf8.LossyIsText | crates/agents/src/acp.rs:2634-2643 | lossy decoding yields text, loses no bytes, and is the identity exactly on text |
| Utf8.EncodedIsText | crates/agents/src/acp.rs:2634-2643 | the encoding of every string is text, and its decoding the string |
| Utf8.TextIsEncoded | crates/agents/src/acp.rs:2634-2643 | every text is the encoding of its decoding, so text is exactly what strings encode to |
| TerminalOutput.TruncateTerminalOutput | crates/agents/src/acp.rs:2731-2743 | the loop that moves to the next boundary keeps what the reference keeps and reports a cut exactly when the length exceeds the limit |
| TerminalOutput.KeptIsLongestTextSuffix | crates/agents/src/acp.rs:2731-2743 | what is kept is the longest suffix within the limit that is well-formed text |
| TerminalOutput.KeptConcat | crates/agents/src/acp.rs:2634-2643 | truncating after each chunk equals truncating once, and the accumulated flag tells whether the total exceeds the limit |
| TerminalOutput.AcpTerminalRecord.AppendOutput | crates/agents/src/acp.rs:2634-2643 | after any appends the record holds one truncation of all that was written, and the exact flag |
| TerminalOutput.AcpTerminalRecord.DrainOutput | crates/agents/src/acp.rs:2615-2632 | draining appends standard output and then standard error, with read errors as text |
| TerminalOutput.ChunksSurviveDecoding | crates/agents/src/acp.rs:2634-2643 | decoding chunk by chunk reproduces the output exactly when no chunk ends inside a character |
| TerminalOutput.SplitCharacterIsCorrupted | crates/agents/src/acp.rs:2634-2643 | a two-byte character read one byte at a time is corrupted |
| PatchFiles.AcpPatchFiles | crates/agents/src/acp.rs:1700-1796 | the loop with its current file reports one file per section of the patch and the exact totals |
| PatchFiles.CountsAreConserved | crates/agents/src/acp.rs:1700-1796 | for every patch text and fallback path the per-file counts add up to the totals |
| PatchFiles.PrintedDiffCounts | crates/agents/src/acp.rs:1700-1796 | the lines of a printed diff get one report per file with its true hunk count, and its true additions and deletions exactly when no text imitates a file header |
| PatchFiles.PrintedPatchCounts | crates/agents/src/acp.rs:1700-1796 | the same for the patch text the counter reads, whatever its line ends, if each printed line holds no line feed |
| PatchFiles.PathComesBack | crates/agents/src/acp.rs:1806-1813 | the path of a path line comes back without its side if and only if it ends in neither whitespace nor a quote; `/dev/null` stays |
| PatchFiles.PrintedPathsAreReported | crates/agents/src/acp.rs:1713-1760 | old and new path of each file of a printed patch, created and deleted ones included, and the one it goes by |
| PatchFiles.PrintedRenameIsReported | crates/agents/src/acp.rs:1743-1751 | the same for a file without hunks, whose paths only its header names |
| PatchFiles.DisguisedAdditionRenames | crates/agents/src/acp.rs:1757-1761 | a file whose last added line is `++ ` and a path goes by that path |
| PatchFiles.DisguisedAdditionIsMissed | crates/agents/src/acp.rs:1758-1785 | one added line `++x` counts as none |
| StandingApprovals.RuleRoundTrip | crates/config/src/standing_approvals.rs:156-199 | an entry gives back its rule exactly when id and tool are named and the time fits a TOML integer |
| StandingApprovals.EveryEntryAnswered | crates/config/src/standing_approvals.rs:53-94 | on any array each entry is one rule or one diagnostic, ids in force are unique and exactly those offered |
| StandingApprovals.LoadEntries | crates/config/src/standing_approvals.rs:73-94 | the loading loop computes the rules in force and the diagnostics |
| StandingApprovals.InForceRetain | crates/config/src/standing_approvals.rs:99-111 | dropping every carrier of an id takes exactly that rule out of force |
| StandingApprovals.GrantTakesEffect | crates/config/src/standing_approvals.rs:99-111 | on any array a grant replaces the rule of its id and moves it to the end |
| StandingApprovals.RevokeTakesEffect | crates/config/src/standing_approvals.rs:115-130 | a revoke takes the rule out of force if and only if no readable entry repeats its id |
| StandingApprovals.RevokeReportsRuleInForce | crates/config/src/standing_approvals.rs:115-130 | a revoke reports the rule in force if and only if the first entry with the id can be read, or none can |
| StandingApprovals.RevokeMayRevealRepeat | crates/config/src/standing_approvals.rs:115-130 | of two readable entries of one id, a revoke brings the second into force |
| StandingApprovals.RevokeMayMissRule | crates/config/src/standing_approvals.rs:115-130 | behind an unreadable entry of its id, the rule in force stays there and is not reported |
| StandingApprovals.WithEntriesChangesOnlyEntries | crates/config/src/standing_approvals.rs:132-154 | storing the array changes nothing else in the document |
| StandingApprovals.EditRefines | crates/config/src/standing_approvals.rs:100-130 | one grant or revoke of a file that holds an ordered map is that edit of the map |
| StandingApprovals.RunsRefineOrderedMap | crates/config/src/standing_approvals.rs:53-130 | over every run of grants and revokes the file is an insertion-ordered map, and the rest of the file is unchanged |
| StandingApprovals.MissingFileHoldsNothing | crates/config/src/standing_approvals.rs:53-66 | a missing file holds the empty map, where those runs may start |
| StandingApprovals.SettingsFile.LoadUserStandingApprovals | crates/config/src/standing_approvals.rs:53-94 | answers the rules in force, or the error of an unreadable file |
| StandingApprovals.SettingsFile.GrantUserStandingApproval | crates/config/src/standing_approvals.rs:99-111 | rewrites the file as the grant says, or leaves it alone and says why |
| StandingApprovals.SettingsFile.RevokeUserStandingApproval | crates/config/src/standing_approvals.rs:115-130 | removes the first entry of the id and returns its rule, or leaves the file alone |
| UiAppearance.PatchedTableParses | crates/config/src/ui_preferences.rs:195-234 | a patched table reads as the patched profile, without complaint |
| UiAppearance.Resolve | crates/types/src/ui_preferences.rs:167-225 | the locale and mode rendered are those asked for, or the client's for `system`, or else English and dark; exactly amber and phosphor in the light are refused, for the built-in pair |
| UiLayout.CheckPatch | crates/types/src/frontend_services.rs:41-71 | the loop reports the complaint about the first bad name, after the bound |
| UiLayout.PatchIsAcceptedExactly | crates/types/src/frontend_services.rs:41-71 | accepted are exactly the lists of at most 16 names, each non-blank, of at most 64 bytes and without control characters; which complaint the others get |
| UiLayout.ParseHiddenSegments | crates/config/src/ui_layout.rs:197-223 | the loop keeps the names in order up to the bound and complains about each item that is none |
| UiLayout.WrittenLayoutParses | crates/config/src/ui_layout.rs:162-254 | a written record reads back as it was, without complaint, exactly when its list is within the bound |
| UiLayout.OneBadFieldCostsThatField | crates/config/src/ui_layout.rs:162-209 | a bad mode or a bad list falls back to its default and adds one diagnostic, and leaves the other field and what is said about it alone |
| UiLayout.OneBadItemCostsThatItem | crates/config/src/ui_layout.rs:210-223 | an item of the list that is no name costs that item and adds its diagnostic |
| UiStore.SavedLayoutResolves | crates/config/src/ui_layout.rs:45-108 | a saved layout is the one read back, with nothing left to complain about, whatever was stored before |
| UiStore.SavedAppearanceResolves | crates/config/src/ui_preferences.rs:38-56 | a saved appearance is the one read back and resolves as the save promised |
| UiStore.RecordsDoNotDisturbEachOther | crates/config/src/ui_layout.rs:11-17 | over any run of commands, from any file, each record is what its own commands alone would have made of it in a store of its own |
| UiStore.LayoutOpsOnAppearance | crates/config/src/ui_layout.rs:66-138 | layout commands leave the entries of the profile alone |
| UiStore.AppearanceOpsOnLayout | crates/config/src/ui_preferences.rs:90-113 | appearance commands, a reset included, leave the layout record alone |
| UiStore.OtherSectionsKept | crates/config/src/ui_preferences.rs:38-113 | no run of commands touches another section of the file |
| UiStore.ExtrasKept | crates/config/src/ui_preferences.rs:90-113 | a key of `[ui]` that belongs to neither record survives every command but a successful appearance reset |
| UiStore.ResetDropsUnknownKey | crates/config/src/ui_preferences.rs:90-113 | a key that such a reset drops |
| UiStore.SaveLayoutSucceedsExactly | crates/config/src/ui_layout.rs:66-108 | a valid patch is saved if and only if the file can be read and its root, its `[ui]` and its `[ui.layout]` are tables or absent |
| UiStore.OddLayoutReadsAsDefaults | crates/config/src/ui_layout.rs:158-173 | a layout record that is no table reads as the defaults without a diagnostic, and no patch is saved over it |
| UiStore.FailedSaveMayBeOnDisk | crates/config/src/ui_preferences.rs:255-297 | a save that reports an error and is on disk |
| UiStore.LayoutSaveKeepsProfile | crates/config/src/ui_layout.rs:66-108 | a layout save keeps the persisted profile if and only if the file had a `[ui]` |
| UiStore.LayoutSaveMakesProfile | crates/config/src/ui_layout.rs:66-108 | a layout save into a missing file makes the built-in profile appear |
| UiStore.BuiltInProfileShows | crates/types/src/ui_preferences.rs:167-195 | storing the built-in profile changes what is rendered exactly when the client's own skin, density or motion differs from it |
| UiStore.PreferenceFile.ResolveUserUiLayoutPreferences | crates/config/src/ui_layout.rs:45-59 | reads the record and its diagnostics |
| UiStore.PreferenceFile.SaveUserUiLayoutPreferences | crates/config/src/ui_layout.rs:66-108 | a refused patch leaves the file alone; a failed write is reported and the record applies |
| UiStore.PreferenceFile.ResetUserUiLayoutPreferences | crates/config/src/ui_layout.rs:112-138 | removes the layout record and answers the defaults |
| UiStore.PreferenceFile.SaveUserUiPreferences | crates/config/src/ui_preferences.rs:38-56 | writes the patched entries, or fails with the file unchanged unless only the directory sync failed |
| UiStore.PreferenceFile.ResetUserUiPreferences | crates/config/src/ui_preferences.rs:90-113 | drops the profile and carries the layout across |
| LexicalPath.LexicalNormalize | crates/config/src/lib.rs:851-870 | the push and pop loop computes the normal form |
| LexicalPath.NormalizeIsNormal | crates/config/src/lib.rs:851-870 | the result has no `.`, and `..` only as a leading run of a relative path |
| LexicalPath.NormalFormsAreFixed | crates/config/src/lib.rs:851-870 | a path is unchanged exactly when it has that shape |
| LexicalPath.NormalizeIsIdempotent | crates/config/src/lib.rs:851-870 | normalising twice is normalising once |
| LexicalPath.NormalizePreservesPlace | crates/config/src/lib.rs:851-870 | wherever a path leads, from any directory of any symlink-free tree, its normal form leads there too |
| LexicalPath.NormalFormMayReachMore | crates/config/src/lib.rs:851-870 | a path through a missing directory leads nowhere, its normal form may not |
| LexicalPath.NormalFormIsCanonical | crates/config/src/lib.rs:851-870 | two paths denote the same place from every directory if and only if their normal forms are equal |

## Left out

- Process spawning, signals, `ps` polling, pipes and deadlines: steps over an alive bit that never comes back; a termination may fail.
- Two commanders at once, a concurrent status render that writes the log, and a resumed turn overlapping the monitor of the previous one.
- Early `?` exits of the ACP runner before it decides what to do with its child, such as a failed write of the probe log.
- Other sessions in the turn protocol: `AcpTurnProtocol` follows one session's slot of the cache, `ResidentCache` the whole cache for one caller at a time.
- Cache keys are pairs of numbers with their order, not path and id strings; agent command and options are compared whole.
- Decoding of escaped values: the reader does not unescape, so a record with escaped characters reads back as `Seen` says, not as it was.
- The fallback for a missing baseline path is a parameter of the record parser.
- Failures while opening or writing the job log and the standing approvals file, and a failure of the write of the closing fact itself.
- Appends to the job log are taken as atomic: the line and its break are separate writes, so appends of two threads could interleave inside a line. So is the approver's reading of the job before it appends its status.
- Writing the marker is taken as atomic: the file is created before its text is written, and an empty marker reads as a cancel.
- Previews, summaries, patch metadata, tool-call summaries, token usage, wall-clock stamps and audit ids of events; the 64-bit wrap of the event counter.
- The lookups that find kind, text, part and patch in a wire update: an update is the record of what they return. Chunks that persist inline bytes do so before the update is handed over.
- Permission prompts and file or terminal requests of the agent: one step that is answered or fails to be.
- The live-only turn bracket (`TurnStarted`, `TurnFinished`).
- A sink that appends to the artifact: the production sink writes the completed row of each patch back to the same file in the middle of the turn, so the file of a turn with patches holds those rows too, besides its start facts, its stream and its closing fact.
- JSON and TOML text: the serialiser of events is any that is injective and writes one line each (`Lossless`), and, where writes break off, none of whose lines has a beginning that is an event, alone or before another line (`Delimited`), as is so for JSON objects. The document tree is the model for TOML.
- The JSON object reader of `JobJson` knows no insignificant space, nesting, fractions or numeric escapes, none of which is written.
- Listing and sorting artifact files: the reader takes them in the given order.
- Terminal exit status, signals and creation of terminals; what a reader thread sends is a list of chunks.
- `PathBuf` parsing, Windows prefixes, symlinks, canonicalisation, environment and command-line precedence of configuration.
- The appearance previews, which compute the same state as the save and reset without writing.
- Permission engine, providers, user interfaces, cost ledger and project validation.
- PromptLoop.Pass: the answer of an approver and the text of error messages are not part of the outcome.
