# Pernix: a verified model of its protocols

Pernix is an agent server. Most of its code is plumbing; what is hard in it is a handful of protocols with explicit
bounds, written because earlier versions looped, ran work twice, or lost data. This project models those protocols in
Dafny and proves what each of them keeps over every run. Verify it with `dafny verify dfyconfig.toml`.

How the model is built:

- One module a protocol. Code that changes things step by step is a `class` or a `method` with its loop, proved against a
  specification function of the same name and shape; the theorems are lemmas about those functions over all inputs, all
  oracles, or all interleavings.
- Outside parties are oracles: the model and its stream, the context compiler, the compactor, the failover ladder, the
  executor, the database rows, clocks, the file system's failures. A theorem about a run holds for every answer they give.
- A concurrent protocol is a transition system over an unbounded set of threads, one atomic step for each critical
  section; a crash is a run cut off after any file system step.
- `Common` and `Text` hold the shared types and Python's `strip` and `splitlines`.

The parts:

| module | of the repository | what it is about |
|---|---|---|
| `Compaction`, `Stuck`, `TurnLoop`, `TurnRecord` | `core/agent.py` | the tool loop of one turn, its compaction budget and its stuck detector; what its variables mean and how it ends |
| `CallGate` | `core/agent.py` | admission of tool calls, the cross-round cache, the transcript's pairing of calls and rows |
| `DatabaseGate`, `Maintenance` | `db/exclusive.py`, `maintenance.py` | the gate between writers and one claimant, and the daily tier that runs over it |
| `Snapshots`, `Rotation`, `Backup` | `scripts/backup.py` | names, retention and crash-safe publication of backups |
| `GateReuse`, `Verdict` | `core/gates.py`, `core/reflect.py` | reuse of gate failures, and the guards between a grade and the verdict acted on |
| `EventStream` | `api/streaming.py`, `core/events.py`, `sessions/state.py` | numbered events, dropped queues, and resuming with the last number seen |
| `WorkspaceScan` | `core/reflect.py` | the budgeted search for the newest workspace files |
| `Synthesis` | `core/synthesis.py` | folding post-mortems into signals |
| `EnvFile` | `config.py` | the `.env` reader and writer |

## Where the code does not do what is said of it

Each promise below fails on the input of the first lemma named, and the second one says exactly when it is kept.

- That the turn loop ends: `TurnLoop.EndlessSwitching` is a run that never does, in which the session's model is switched
  under every overflowing stream (api/routers/sessions.py:630-643 allows it at any time, and so does a change of the
  configured models or of the registry), so that each overflow compiles again and costs nothing. `TurnLoop.TurnHalts`: the
  loop ends if and only if that happens finitely often.
- That a renewal comes before the tools-disabled round, so that promising one is honest (core/agent.py:3713-3717):
  `TurnLoop.PromisedRenewalWithoutTools`. `TurnLoop.PromisedInVainExactly`: the promise goes out on a request without tools
  exactly when a renewal is left and either it is the window's last round, because no tool ran in the window or the renewal
  was refused, or it is the answer a loop break demands with at most two rounds to go. The reverse text ("LAST ROUND") is
  honest on every request of every run (`TurnLoop.RoundLedger`).
- That the compactor's refusal is sticky for the turn (core/agent.py:1431-1434): `TurnLoop.RefusalIsForgotten`.
  `TurnLoop.RefusalClearedExactly`: a pass clears it exactly when its request overflows, the compactor can still help, the
  model is still the one compiled for, and the compactor does not refuse again.
- That blank lines of the `.env` file survive a write (config.py:802-803): `EnvFile.FirstWriteEatsBlankLine`.
  `EnvFile.BlankLinesSurviveExactly`: they all do exactly when the write appends or what is kept does not end in a blank
  line. It is worse with two of them: the second write takes another one (`EnvFile.SecondWriteEatsBlankLine`), and writing
  twice is writing once exactly when what is kept does not end in two (`EnvFile.WritingTwice`).
- That the last number seen is a safe cursor: `EventStream.OutOfOrderCursorSkips` loses an event for good when the deliveries
  of two emitters cross. `EventStream.SafeForEverybodyExactly`: whoever joins, leaves and reads, it is safe if and only if the
  server delivers in order. In a run that does not, `EventStream.LastSentIsSafeExactly` says at which moments it is safe for a
  stream all the same: when nothing between its snapshot and that number still awaits delivery or waits in its queue.
- That a reused gate result is the gate's own: `GateReuse.NewDefinitionInheritsTheOldFailure`, for a gate re-registered in the
  middle of a turn, and `GateReuse.NewDirectoryInheritsTheOldFailure`, when all that changed is its directory.
  `GateReuse.ReportIsOwnExactly`: it is exactly when it is not reused, or the gate has kept the definition it was last really
  run under: command, scope and directory. The command in the gate's memory does not tell that
  (`GateReuse.RecordedCommandDoesNotTell`).
- That same-second names sort in order: `Snapshots.ThousandSortsBefore`. `Snapshots.CountersInOrderExactly`: exactly while the
  counter is below a thousand.
- That a session with retries writes one set of signals (core/synthesis.py:357-361, which promises it for a batch):
  `Synthesis.SplitSessionIsAttributedTwice`. `Synthesis.SessionAttributedPerWinningBatch`: one set for each batch that lists
  the session and whose latest row goes through.

The `complete` flag of a resume is not among them. It would be wrong for a negative cursor (`EventStream.CompleteExactly`, with
the input `EventStream.NegativeCursorReadsIncomplete`), but the endpoint passes none
(`EventStream.CompleteThroughTheEndpoint`).

## Model

| member | source | states |
|---|---|---|
| Compaction.CompactionController.ObserveSize | core/agent.py:1474-1480 | The first compile after a compaction is the only measurement, and the controller is stalled if and only if it is not below 95% of the size before. |
| Compaction.CompactionController.RunOnce | core/agent.py:1482-1534 | One run: a refusal costs no attempt, a fresh measurement is awaited, and only a failure on a path that does not restore leaves COMPACTING. |
| Stuck.HandlerLedger | core/agent.py:3231-3341 | Over every list of rounds the nudge count is the nudges given since the last calm round and at most three, recoveries at most two, loop breaks at most one. |
| Stuck.ActsExactly | core/agent.py:3231-3341 | After any list of rounds the next one is nudged, let run or stopped exactly as that list demands: stopped if and only if it is stuck, three nudges were spent since the last calm round, no recovery is left to use and no loop break is due. |
| Stuck.MutatesExactly | core/agent.py:461-489 | A success changes the workspace if and only if its tool may, and a bash command's only if its latest output before was another one or there was none. |
| Stuck.NoRepeatSurvivesAMutation | core/agent.py:228-238 | After a workspace change the identical-round count is at most the rounds that came after it. |
| Stuck.CountsOneQuietStretch | core/agent.py:228-238 | The count is the multiplicity of that call set in one stretch of the turn in which nothing mutated. |
| Stuck.StuckDetector.EvaluateCycle | core/agent.py:228-238 | The table keyed by epoch answers the count read off the whole log, and poll rounds count for nothing. |
| Stuck.StuckDetector.MarkSuccess | core/agent.py:461-489 | A bash rerun with an unchanged output is no mutation; the tables keep meaning what the log says. |
| Stuck.StuckDetector.HandleSignals | core/agent.py:3231-3341 | The branches in their order: loop break, calm, recovery, nudge, stop. |
| Stuck.StuckDetector.RecordResults | core/agent.py:3106-3118 | A round's results reach the detector in order, each as the success or failure it was. |
| TurnLoop.TurnHalts | core/agent.py:1790-2418 | The turn loop ends, for every model output, compile size, compaction result and failover, if and only if the model a request resolves to is switched under an overflowing stream only finitely often. |
| TurnLoop.SteadyRoutingHalts | core/agent.py:2048-2054 | It ends whenever the override, the configured models and the registry stand still during each stream from some pass on. |
| TurnLoop.EndlessSwitching | core/agent.py:2048-2054 | A run that never ends, with a switch under every stream. |
| TurnLoop.HaltsFrom | core/agent.py:1790-2418 | The measure that every continuing pass without such a switch lowers, an overflow whose compaction is refused included. |
| TurnLoop.PassKept | core/agent.py:1790-2418 | One pass from any state of the invariant keeps every ledger, lowers the measure or came back across a switch if it goes on, and stops in COMPACTING only as compaction_failed. |
| TurnLoop.TurnKept | core/agent.py:1888-1955 | In every reachable state the ledgers hold, and the session is left in COMPACTING only by a turn that reports compaction_failed. |
| TurnLoop.RoundLedger | core/agent.py:1807-1823 | Rounds spent are the window index plus whole windows granted, bounded by the allowance; rounds with tools are bounded too; "LAST ROUND" is sent only without tools. |
| TurnLoop.CompactionLedger | core/agent.py:1415-1534 | Over a whole turn at most three real compactions, at most one proactive one, and none on any path after a measured one did not shrink the context by more than 5%. |
| TurnLoop.CompleteMeansToolsWereOn | core/agent.py:1966-1982 | A turn reports complete only for an answer to a request that carried tools. |
| TurnLoop.PassPromisesExactly | core/agent.py:1807-1823 | A pass promises a renewal on a request without tools exactly under the guard: a renewal left, and the last round of a window without tools run or with the renewal refused, or a loop break's answer with two rounds to go. |
| TurnLoop.PromisedInVainExactly | core/agent.py:3730-3758 | Over every run that text went out if and only if some pass was under that guard. |
| TurnLoop.PromisedRenewalWithoutTools | core/agent.py:3744-3751 | A run in which the promise of a renewal goes out on a request without tools. |
| TurnLoop.RefusalClearedExactly | core/agent.py:1482-1534 | From any state with a refusal, a pass clears it exactly by an overflow that reaches the compactor and is not refused; the critical and proactive paths stay closed. |
| TurnLoop.RefusalIsForgotten | core/agent.py:1420-1435 | A run in which the refusal is set by one overflow and gone after the next. |
| TurnRecord.TurnMirrorsHistory | core/agent.py:1790-2418 | In every reachable state the turn's variables are what its history says: window index, renewals, flags, and each kind of extra round within its allowance. A request carried tools if and only if it was neither in the window's last round nor the answer a loop break demands, and was told exactly what the window had left. |
| TurnRecord.RecordIsKept | core/agent.py:2238-2382 | Over every run the stuck detector was told the calls of each round and the results of each round that ran, as the oracle answered them, and nothing else, and the handler stands where those readings put it. |
| TurnRecord.LoopBreaksExactly | core/agent.py:3233-3253 | A round is cut off as a loop if and only if it is at least the third with the same calls since the workspace changed, the session can ask the user, and no loop was cut off in the turn before. |
| TurnRecord.LoopBreakMeansRepetition | core/agent.py:3233-3253 | A loop break answers to three rounds with the same calls and no mutating success or changed bash output between them, in everything the oracle answered. |
| TurnRecord.EditsKeepRerunsApart | core/agent.py:461-489 | With fewer than two rounds of the same calls since a result that changed the workspace, one more is never cut off as a loop. |
| TurnRecord.TurnEndsExactly | core/agent.py:1790-2418 | Over every run each way of ending the turn is taken at exactly the passes at which the history and the oracle's answers call for it: cancelled, out of budget, compaction failed, stream failed, stuck, suspended, raised, or answered, and then for which reason. |
| TurnRecord.CompactsExactly | core/agent.py:1415-1534 | Over every run each of the three callers runs the compactor at exactly the passes at which it is due. |
| TurnRecord.FailsOverExactly | core/agent.py:1985-2012 | Over every run the turn goes over to its fallback at exactly the first request at which the ladder did, if that is another model than the request's, and stays there. |
| TurnLoop.RunAgent | core/agent.py:1790-2418 | The while loop over the controllers reports what the specified run reports, for an oracle that ends its switching under streams: its reason, and a final answer to be made if and only if tools ran and the loop was left without one for any reason but a failed compaction. |
| TurnLoop.RetryAfterOverflow | core/agent.py:2004-2064 | An overflow is retried by recompiling when the model resolved after the stream is another one and by compacting otherwise, and is fatal once the compactor cannot help. |
| CallGate.RememberAbstracts | core/agent.py:1092-1122 | One more success keeps the cache an abstraction of the whole success log, with its invalidations. |
| CallGate.CachedExactly | core/agent.py:1092-1122 | Over every list of successes a call is cached if and only if one of them still answers it: the latest of its key, of a tool that is not excluded, and, for bash, with no file change and no other bash call after it; what is cached is the beginning of that answer. |
| CallGate.ToolCallGate.RememberSuccess | core/agent.py:1092-1122 | The dictionary updated in place is the remembered cache. |
| CallGate.RefuseMarksOne | core/agent.py:1057-1072 | With distinct ids, refusing a call or its unwrapped copy marks exactly its own proposal. |
| CallGate.RefusePairs | core/agent.py:1057-1072 | Refusal keeps the pairing: a proposal is marked if and only if its call was refused. |
| CallGate.GroupingKeepsSlots | core/agent.py:1153-1173 | Grouping by tool name for semantic dedup loses no call and repeats none. |
| CallGate.ToolCallGate.UnwrapUseTool | core/agent.py:1175-1208 | Each proposal goes on, as itself or as the inner call, in its order, or is refused, exactly if it is a use_tool with no call inside. |
| CallGate.ToolCallGate.Dedup | core/agent.py:1124-1151 | Refuses exactly repeats within the round and cached calls of idempotent tools, and keeps the rest in order. |
| CallGate.ToolCallGate.CorrectNames | core/agent.py:1210-1251 | Exactly the calls whose corrected name is registered go on, in order and under that name, and nothing else about them changes. |
| CallGate.ToolCallGate.ParseAndValidate | core/agent.py:1253-1346 | Exactly the calls whose arguments are an object with every required parameter and fitting types go on, in order. |
| CallGate.ToolCallGate.SemanticDedup | core/agent.py:1153-1173 | Of an expensive tool exactly the calls that are near no earlier kept one go on, of other tools all; they come out grouped, tools in the order of their first calls. |
| CallGate.FreshAfterDedup | core/agent.py:1124-1151 | Dedup among the unwrapped calls is dedup among the proposals. |
| CallGate.ApartAfterThinning | core/agent.py:1153-1173 | What the semantic filter lets through are exactly the proposals that stand apart, judged on the model's own list. |
| CallGate.ToolCallGate.Admit | core/agent.py:1011-1033 | A proposal is admitted if and only if it asks for a call that no earlier one asks for, is not answered by the cache, is near none of its tool that stands apart before it, and has a registered corrected name and good arguments. It is admitted once, under that name, and the admitted calls of one tool keep the model's order; the others are refused, and with distinct ids the marks say so. |
| CallGate.EveryProposalAnsweredOnce | core/agent.py:2335-2394 | In every round, finished or aborted, each proposed id has exactly one tool row, after its assistant row, and a refusal row if and only if it is marked. |
| CallGate.ToolCallGate.RunRound | core/agent.py:2335-2394 | From the model's calls to the transcript: with distinct non-empty ids, each is named by the assistant row and answered by exactly one row after it, a refusal if and only if its proposal is marked rejected, which it is if and only if it is not admissible. |
| CallGate.ToolCallGate.WriteRound | core/agent.py:2335-2394 | The assistant row with every proposal, a row for each refusal, then one for each admitted call, or after an abort for each that has an id, in that order; the queue of refusals is empty after. |
| CallGate.ToolCallGate.FlushRejections | core/agent.py:1044-1055 | Every queued refusal becomes one row, in order. |
| CallGate.StubUnanswered | core/agent.py:2981-3004 | When execution raised, exactly the admitted calls that have an id get a stub row, one each and in order. |
| DatabaseGate.RunKeepsInv | db/exclusive.py:80-207 | Any threads, any interleaving: one claimant, tokens one-to-one with running writer bodies, no sleeper whose condition holds, no writer body beside exclusive work. |
| DatabaseGate.StepKeepsInv | db/exclusive.py:112-188 | The invariant is inductive, critical section by critical section. |
| DatabaseGate.NobodyAdmittedWhileHeld | db/exclusive.py:112-179 | From the claim through the drain to the release nobody is admitted: every writer there is was there before, and in exclusive work there is none. |
| DatabaseGate.SlotKeptUntilOwnRelease | db/exclusive.py:152-179 | Whoever holds the slot, a failed drain included, keeps it until its own release. |
| DatabaseGate.PlacesTakenExactly | db/exclusive.py:112-188 | Over every run and for every next move: a thread is admitted, gets its claim, is done draining, gives its drain up, goes to sleep or is through by its own move and exactly under the source's condition; a drain fails only when its time is up with a writer still there. |
| DatabaseGate.OthersOnlyWake | db/exclusive.py:128-179 | Nobody else's move does more to a thread than wake it. |
| DatabaseGate.Gate.TryEnterWrite | db/exclusive.py:112-126 | Admitted with the next token if and only if the slot is free, refused if it is held and time is up, put to sleep otherwise. |
| DatabaseGate.Gate.Claim | db/exclusive.py:134-151 | The claim step: granted if and only if nobody holds the slot. |
| DatabaseGate.Gate.TryDrain | db/exclusive.py:152-172 | The drain step: done if and only if no writer is left, given up if and only if one is and time is up, and asleep otherwise. |
| Maintenance.RunKeepsInv | maintenance.py:331-411 | Over all runs with timeouts, cancellations, late threads and restarts: one live thread a duty, attempts an hour apart, starts a day after the last stamp, stamps only for a body that succeeded and was not given up on. |
| Maintenance.VacuumRunsAlone | maintenance.py:421-431 | While the vacuum duty's own thread is in its body, no announced body (prune, checkpoint, snapshot) runs and no other duty is in its body, whatever its awaiter did. |
| Maintenance.StampedDutyDidItsWork | maintenance.py:421-456 | A stamped vacuum was at some moment of the run in exclusive work and a stamped prune in announced work, in that duty's thread. |
| Maintenance.DueUntilStamped | maintenance.py:265-294 | No event except its stamp makes a due duty not due. |
| Maintenance.NoSecondStartWhileItLives | maintenance.py:357-411 | Over every run a duty whose thread outlived its awaiter is not started again, by this tier or a later one, while that thread lives. |
| Maintenance.HeartbeatStartsExactly | maintenance.py:295-329 | Over every run the heartbeat starts the tier if and only if none is under way, some duty's last stamp is a day old and the last attempt, if any, an hour; otherwise it changes nothing. |
| Maintenance.TierListsExactly | maintenance.py:331-356 | The tier then goes through exactly the duties whose last stamp is a day old, each once. |
| Maintenance.NextDutyExactly | maintenance.py:357-400 | The tier ends when its list is done, passes over a duty that an older thread still has in hand, and hands any other to a new thread. |
| Maintenance.TierIsDone | maintenance.py:331-456 | A tier that nothing disturbs stamps every duty on its list and ends, the vacuum and the prunes through the gate. |
| Maintenance.UndisturbedTierLeavesNothingDue | maintenance.py:290-456 | From its start on such a tier leaves no duty due. |
| Maintenance.DisturbancesExactly | maintenance.py:357-411 | A duty is given up on if and only if it was awaited for five minutes, and the list goes on; a cancelled tier is gone; a restart leaves the stamps, the last attempt and the clock and nothing else. |
| Maintenance.DueHolds | maintenance.py:290-294 | The list of due duties holds exactly the due ones, each once. |
| Maintenance.MaintenanceRunner.FindDuties | maintenance.py:290-294 | The loop finds that list. |
| Maintenance.MaintenanceRunner.DailyTierDue | maintenance.py:295-329 | The tier starts when work is due and an hour has passed, and only then is the attempt recorded. |
| Maintenance.MaintenanceRunner.StartDuty | maintenance.py:357-400 | A duty in flight is not started again. |
| Snapshots.NamesPairUp | scripts/backup.py:331-350 | The three artifacts of a generation answer that generation, and only the snapshot is a snapshot. |
| Snapshots.SchemeExactly | scripts/backup.py:303-328 | A name is of a scheme if and only if it is that scheme's frame around a stamp of its kind. |
| Snapshots.GenerationExactly | scripts/backup.py:305 | A generation is a stamp, or a stamp, an underscore and at least one digit. |
| Snapshots.IsoStampExactly | scripts/backup.py:306-311 | The older stamps are a date with dashes, a separator and a clock's characters, or eight digits, T, six digits, Z. |
| Snapshots.CounterUsedExactly | scripts/backup.py:176-197 | The counters that names use up: zero for the plain one, else the number after the underscore, with or without the ending. |
| Snapshots.OnlyOwnSnapshotName | scripts/backup.py:302-345 | A recognized name that answers a generation is that generation's own snapshot name. |
| Snapshots.Unique | scripts/backup.py:166-197 | The counter is one past the highest in use and the name is not in the directory. |
| Snapshots.GenerationTextIsOne | scripts/backup.py:166-197 | A disambiguated name is still a recognized generation. |
| Snapshots.LaterSortsAfter | scripts/backup.py:171-197 | Below a thousand, a later same-second name sorts after the earlier ones. |
| Snapshots.ThousandSortsBefore | scripts/backup.py:195-197 | At a thousand it does not. |
| Snapshots.CountersInOrderExactly | scripts/backup.py:171-197 | The names of one second sort in the order they were given if and only if the counter stayed below a thousand. |
| Rotation.ListSnapshots | scripts/backup.py:389-429 | The listing holds every recognized snapshot file once, newest first by time and then by name. |
| Rotation.ListingIsUnique | scripts/backup.py:392-397 | There is one such listing, so a dry run and a real run see the same. |
| Rotation.SnapshotsBeyondKeep | scripts/backup.py:432-460 | One pass with a counter selects the specified entries. |
| Rotation.DroppedExactly | scripts/backup.py:432-460 | An entry is selected if and only if it is incomplete or has `keep` newer complete ones; incomplete ones take no slot; zero selects nothing. |
| Rotation.KeptCount | scripts/backup.py:432-460 | What is kept is min(keep, complete count), and all of it complete. |
| Rotation.CompleteExactly | scripts/backup.py:353-386 | A snapshot of the current scheme is complete if and only if the manifest beside it says so; without a readable one, and of the older schemes, if and only if it is not empty. |
| Rotation.Rotate | scripts/backup.py:463-492 | The report names exactly what was removed; a dry run reports what a run without failing unlinks removes and touches nothing. |
| Rotation.FreedExactly | scripts/backup.py:463-492 | The bytes reported as freed are exactly what the listed snapshots hold less afterwards. |
| Rotation.SurvivesExactly | scripts/backup.py:463-492 | After a rotation in which every unlink succeeds a snapshot is there if and only if it was complete with fewer than `keep` newer complete ones. |
| Backup.PublicationIsAtomic | scripts/backup.py:590-610 | A crash after any step of a publication shows the old set of complete snapshots, with the old contents; the last step adds the new one and nothing else. |
| Backup.FreshnessMovesWithTheSnapshot | scripts/backup.py:555-610 | Freshness is unchanged by every step before the last and moves to the new stamp with it. |
| Backup.NewestBackup | scripts/backup.py:555-587 | The loop over names finds the newest stamp of a complete snapshot, or that there is none. |
| Backup.RunIsSafe | scripts/backup.py:590-691 | No step of a whole run touches a companion of a live generation or writes over a live snapshot. |
| Backup.LiveReleasesAreWhole | scripts/backup.py:613-691 | Over any sequence of runs, each dying anywhere, every live snapshot a run released still has what was released with it, unchanged. |
| Backup.LiveReleasesAreFound | scripts/backup.py:613-691 | Over any runs and crashes, for every live generation a run released: the snapshot is the one that was copied, its manifest can be read and says complete, and names a corpus if and only if one was copied, which is then there as it was copied. |
| Backup.OwnCompanionsStay | scripts/backup.py:613-691 | A run's own manifest and corpus stay through its own retention. |
| Backup.NewestAreLeft | scripts/backup.py:678-691 | Of the snapshots there when a run's own has come out an undisturbed run leaves exactly those that are complete with fewer than `keep` newer complete ones. |
| Backup.StampIsRead | scripts/backup.py:555-587 | What is read as a backup's time is the stamp it was given, whatever its same-second counter. |
| Backup.NewestSurvive | scripts/backup.py:678-691 | A complete snapshot with fewer than `keep` newer complete ones outlives the run, intact and complete, wherever in its retention it dies. |
| Backup.CompanionsFollowSnapshots | scripts/backup.py:495-527 | After an undisturbed run every corpus and manifest belongs to a live snapshot or is no older than the run. |
| Backup.BackupDirectory.Publish | scripts/backup.py:590-610 | The calls in their order, cut off after any number of steps. |
| Backup.BackupDirectory.RotateCompanions | scripts/backup.py:495-527 | The sweep takes exactly the specified steps, trees that refuse half-way included. |
| Backup.BackupDirectory.RunBackup | scripts/backup.py:613-691 | A run is a possible run of the specification. At keep zero or less, nothing; a snapshot that is empty, no database or not sound, or a publication cut off, shows no new backup; and on success at most 90 are kept, the manifest says complete and names a corpus if and only if one was copied, and that is there. |
| GateReuse.ReuseRefinesRunning | core/gates.py:318-346 | Over any sequence of attempts, chains of reuse included, the state of a gate that kept its row is what running it would have given, if fingerprints settle what a command reports in a directory. |
| GateReuse.ReportedIsCarried | core/gates.py:318-346 | Every reported result carries over one real run of this turn made under the fingerprint seen now, in every detail but the reuse mark, the command and the scope. |
| GateReuse.ReportIsOwnExactly | core/gates.py:318-346 | The run behind a report was made under the gate's present row and the report is that run's if and only if it is not reused, or the gate kept the command, scope and directory it was last really run under. |
| GateReuse.RecordedCommandDoesNotTell | core/gates.py:322-344 | A run in which the remembered command is the gate's own and the remembered failure is not. |
| GateReuse.OnlyFailuresAreReused | core/gates.py:322-344 | A reused result is a failure, in the state of the real run behind it, from the third attempt on, for a gate that watches something. |
| GateReuse.NewDefinitionInheritsTheOldFailure | core/gates.py:322-344 | A run in which a re-registered gate reports its predecessor's failure and directory as its own. |
| GateReuse.NewDirectoryInheritsTheOldFailure | core/gates.py:322-344 | The same when only the directory changed, to one in which the gate would pass. |
| GateReuse.RunGates | core/gates.py:318-346 | The loop answers for each row in order: from the third attempt on with the prior failure's details if and only if what the gate watches is as it was at that failure, and otherwise with what running it reports. |
| GateReuse.GateHistory.Record | core/gates.py:567-570 | The memory after a sweep: the last result of each gate that watches something. |
| GateReuse.GateHistory.RunForTurn | core/gates.py:573-583 | A sweep: forget at a turn boundary, run, remember. |
| Verdict.ReflectResult.constructor | core/reflect.py:1368-1536 | The coercions and the floor as they rewrite the record in order. |
| Verdict.ReflectResult.SettleVerification | core/reflect.py:1539-1573 | What was stated outranks what a conversion recorded, which outranks what the grade implies. |
| Verdict.ReflectResult.Finish | core/reflect.py:2297-2387 | Ceiling guard, phantom guard, factual guard, clamp, receipts, in that order. |
| Verdict.CheckClaims | core/reflect.py:1245-1277 | The loop with its early exits supports a correction exactly when there are one to ten claims and each is attributable: quoted from two results about the subject, the later one not superseded. |
| Verdict.WhyExactly | core/reflect.py:1245-1277 | The reason left over: an earlier request if the scan ended at a claim with its requests the wrong way round, superseded if it passed one that was, and otherwise that nothing was attributable. |
| Verdict.AttributableExactly | core/reflect.py:1245-1277 | A claim counts if and only if it is backed up by different words of two results about its subject, each the last answer to its call, the expected one later, and nobody asked about the subject after that. |
| Verdict.ReadVerdictExactly | core/reflect.py:1375-1496 | A parsed grade passes if and only if it said pass, named the cause "none", or was explicitly less sure than the floor; else it escalates if and only if it said so, and retries if and only if it said that or nothing that is known. |
| Verdict.GuardedExactly | core/reflect.py:2297-2354 | What the three guards make of a grade, field by field, read off its data. |
| Verdict.FinalVerdictExactly | core/reflect.py:2297-2387 | Over every grade, evidence and gate list: pass if and only if no gate failed and the grade amounts to a pass, is a phantom or an unfounded correction; escalate if and only if none of that and it escalates or retries into a wall hit before; retry otherwise. |
| Verdict.FinalCauseExactly | core/reflect.py:1813-1824 | A final failure has the known cause the grade named unless a guard took its verdict away, else the task if the server forced the verdict, else none. |
| Verdict.LessonsExactly | core/reflect.py:1278-1291 | A withdrawn grade leaves no lesson and no confidence; any other keeps its own. |
| Verdict.FinalMissingExactly | core/reflect.py:2297-2382 | What a final grade says is missing: its own words unless it was withdrawn, else what the server asks for when it forces the verdict. |
| Verdict.FinalReasonExactly | core/reflect.py:1576-1623 | Why a final grade is filed as it is: the gates have the first word, then the guard that rewrote it, then the grade. |
| Verdict.FailedGateRules | core/reflect.py:2358-2387 | With a failed gate there is no pass, nothing verified, and a pass the guards left becomes a retry with a cause. |
| Verdict.FinalVerificationExactly | core/reflect.py:1539-1623 | When a final grade is filed as verified, partial or unknown: a guard that took the verdict away or a failed gate makes it unknown, a broken gate lowers verified to partial, passed gates raise unknown to partial and no more. |
| Verdict.ReadVerificationExactly | core/reflect.py:1539-1573 | When a parsed grade reads as verified, partial or unknown. |
| Verdict.ReadReasonExactly | core/reflect.py:1539-1573 | Why a parsed grade is filed as it is: what turned it into a pass, else its own reason if it states anything, else the first of what is wrong with it. |
| Verdict.ReceiptsNeverCertify | core/reflect.py:1576-1623 | Receipts never raise to verified, leave the verdict alone, and change nothing the second time. |
| Verdict.RepeatedWallRetriesExactly | core/reflect.py:2299-2332 | On a repeated loop wall the verdict is retry if and only if a failing gate clamps what the guards had passed. |
| Verdict.CauselessFailureExactly | core/reflect.py:1816-1824 | A final failure without a cause is one whose grade named no known cause and which neither guard nor clamp forced. |
| Verdict.DowngradesDoNotVerify | core/reflect.py:1422-1496 | A grade the server turned into a pass is filed as unknown unless the grade itself states a verification. |
| Verdict.ClampMustComeLast | core/reflect.py:2355-2382 | The guards and the clamp do not commute: in the other order a phantom grade passes over a failing gate. |
| EventStream.AgentSession.Append | sessions/state.py:383-399 | Numbering and buffering under the lock, the oldest event falling out of a full ring. |
| EventStream.AgentSession.Resume | api/streaming.py:109-123 | What a resuming stream reads in one look at the ring. |
| EventStream.CompleteExactly | api/streaming.py:114-123 | The flag is true if and only if the cursor is not negative and the backlog holds every event after it; so it says whether anything is missing exactly for those cursors and for backlogs with a gap. |
| EventStream.NegativeCursorReadsIncomplete | api/streaming.py:114-123 | An empty history, of which nothing is missing, answered as incomplete for a negative cursor. |
| EventStream.CompleteThroughTheEndpoint | api/routers/sessions.py:340-348 | Through the endpoint, which clamps the cursor, the flag is exact for every header value. |
| EventStream.JobEventBus.Deliver | core/events.py:127-137 | Each queue gets the event or is marked and detached, and what happens to it depends on no other queue. |
| EventStream.JobEventBus.Unsubscribe | core/events.py:145-150 | Removes that queue and no other. |
| EventStream.RunKeepsInv | api/streaming.py:96-177 | The stream invariant over any interleaving of emitters, deliveries, streams and disconnects. |
| EventStream.EverythingArrives | api/streaming.py:96-177 | Until it is dropped, a stream with a complete resume has sent, or still holds or awaits, every event after its cursor; without a cursor, every event since it joined. |
| EventStream.CatchesUp | api/streaming.py:94-177 | An attached stream that is read on sends the rest of its replay and then what waits in its queue, in order, and waits. |
| EventStream.EverythingIsSent | api/streaming.py:94-177 | Once every delivery is made, an attached stream that is read on has sent every event after its cursor, if its resume was complete, and every one since it joined. |
| EventStream.RepeatsAreFromTheReplay | api/streaming.py:94-140 | A number sent twice was in the replay, is not above the snapshot's, and came once from each source. |
| EventStream.DetachedForGood | core/events.py:127-137 | A dropped queue receives nothing more, whatever happens after. |
| EventStream.LastSentIsSafeExactly | api/streaming.py:94-177 | Over any run, however deliveries cross: the last number an attached stream sent is a safe cursor if and only if nothing between its snapshot and that number awaits delivery or waits in its queue. |
| EventStream.SafeExactly | api/streaming.py:94-177 | For any stream, dropped and closed ones too: if and only if everything between the snapshot and that number came out of its queue. |
| EventStream.LastSentIsASafeCursor | api/streaming.py:94-177 | With in-order delivery it always is. |
| EventStream.SafeForEverybodyExactly | sessions/state.py:383-411 | A server's schedule of emissions and deliveries leaves every stream anybody may weave into it with a safe cursor if and only if it delivers in order. |
| EventStream.ReconnectsLoseNothing | api/streaming.py:67-93 | Over any run that delivers in order, a client whose streams each began with what the one before had seen, all completely, was sent every event between its first cursor and its last number. |
| EventStream.OutOfOrderCursorSkips | sessions/state.py:394-411 | A run in which two deliveries cross, the client comes back with the last number seen, is told its resume is complete, and an event is lost. |
| WorkspaceScan.NewestWorkspaceFiles | core/reflect.py:833-865 | The walk ends with at most `limit` real non-hidden files, newest first; within the budget they are the newest of a full walk, folders left unread included. |
| WorkspaceScan.FoundIfComeTo | core/reflect.py:847-863 | A full walk finds every file it can come to through folders it can read and past nothing hidden. |
| WorkspaceScan.ComesToWhatIsFound | core/reflect.py:847-863 | And no other. |
| WorkspaceScan.CountedExactly | core/reflect.py:847-853 | What is counted against the budget are the entries that are not hidden, in folders the walk can read, each once. |
| WorkspaceScan.ReadFolder | core/reflect.py:847-863 | One folder moves its files to the found ones and its folders to the waiting ones, keyed by their time, and loses nothing, unless the budget breaks. |
| WorkspaceScan.PopFirst | core/reflect.py:845-846 | The heap gives the folder with the least key, the first met of them, and keeps the rest. |
| WorkspaceScan.NewestOfIsOne | core/reflect.py:864-865 | "The newest `limit` of these files" is one answer, whatever order they were found in. |
| Synthesis.RouteTotalsAreSums | core/synthesis.py:283-338 | A model route's tokens, wall time and count are the sums over its attributions that carried metrics. |
| Synthesis.OtherTotalsAreSumsSince | core/synthesis.py:303-321 | Any other kind's totals are the sums since its last attribution without metrics. |
| Synthesis.TotalsOverAllBatches | core/synthesis.py:283-338 | After any sequence of batches a route's totals are the sums over the upserts that went through in all of them, and any other kind's those since it last forgot. |
| Synthesis.SignalStore.ApplyAttributions | core/synthesis.py:283-338 | Upserts one by one, failing ones skipped, the count that of those that went through. |
| Synthesis.SignalStore.Run | core/synthesis.py:363-420 | A batch: group, sort, attribute the latest, mark the group, keep the statistics. |
| Synthesis.AttributedExactly | core/synthesis.py:375-387 | A row is attributed if and only if its attribution works and it is the last of its session in the batch. |
| Synthesis.BatchAttributesExactly | core/synthesis.py:363-387 | A batch attributes exactly the rows whose attribution does not raise and which no row of their session outranks by attempt, then time, then place. |
| Synthesis.AcceptedExactly | core/synthesis.py:294-337 | What was applied is what stands at the places whose upsert went through, in order. |
| Synthesis.MarkedExactly | core/synthesis.py:382-402 | A group is marked whole or not at all, by whether its latest row's attribution raised. |
| Synthesis.ExactlyOnce | core/synthesis.py:363-413 | Over any sequence of batches no post-mortem is attributed twice and each attributed one is marked. |
| Synthesis.SplitSessionIsAttributedTwice | core/synthesis.py:357-361 | Two batches that split a session attribute it twice. |
| Synthesis.SessionAttributedPerWinningBatch | core/synthesis.py:363-413 | Over any sequence of batches a session is attributed exactly once for each batch that lists it and whose latest row goes through; at most once if and only if there is at most one such batch. |
| EnvFile.ParseEnv | config.py:34-52 | The last line that sets a key wins, trimmed and without matching quotes; comments, blanks and lines without "=" say nothing. |
| EnvFile.LookupExactly | config.py:34-52 | A key is set if and only if some line sets it, to what the last such line gives. |
| EnvFile.PairExactly | config.py:38-47 | A line says nothing if and only if, trimmed, it is empty, a comment or without "="; otherwise its first "=" parts key from value. |
| EnvFile.LinesExactly | config.py:34-52 | The lines of a text, with the characters that end them, are the text. |
| EnvFile.WriteEnvVar | config.py:799-847 | The loop and the append give the specified file. |
| EnvFile.WriteThenRead | config.py:799-847 | After a write the key reads as the value a reader takes, and every other key as before. |
| EnvFile.RoundTrip | config.py:799-847 | The value comes back if and only if it is trimmed and not wrapped in matching quotes. |
| EnvFile.QuotesComeOff | config.py:34-52 | A value put in matching quotes comes back without them, whatever it holds. |
| EnvFile.RemoveThenRead | config.py:799-836 | Removal leaves the key unset and every other key as before. |
| EnvFile.OthersSurvive | config.py:802-836 | Every line that is neither blank nor about the key survives, in order and unchanged. |
| EnvFile.CommentsSurvive | config.py:818-820 | Every comment line survives every write, in order and unchanged. |
| EnvFile.BlankLinesSurviveExactly | config.py:802-847 | Every line not about the key survives, blank ones included, if and only if the write appends or what is kept does not end in a blank line. |
| EnvFile.FirstWriteEatsBlankLine | config.py:842-847 | A file whose one blank line the first write takes. |
| EnvFile.WritingTwice | config.py:799-847 | Writing twice is writing once if and only if what is kept does not end in two blank lines. |
| EnvFile.SecondWriteEatsBlankLine | config.py:842-847 | A file on which the second write differs from the first. |

## Left out

- Prompts, streaming, the failover ladder, the context compiler, the compactor's summaries, the tokenizer and the tool executor: oracles of the turn loop; the executor is taken to answer every admitted call once and in order, and saving a row to succeed.
- Text tests (claims of action, announced work, bad references, phantom evidence, factual wording, launch diagnostics): arbitrary answers of an oracle.
- Hashes of arguments, of watched files and of notes are taken to be injective.
- The stuck detector's other signals and the test for a recovery move: their verdicts are inputs of a round.
- The type checks and coercions inside argument validation and the notes they leave: one yes or no a call.
- Exact arithmetic stands for the floating point of the 95% and critical-size tests.
- PAUSE_REQUESTED and PROCESSING are one phase; events, metrics and log lines are not modelled.
- The database gate's condition variable is taken to deliver notify_all to every sleeper; fairness and wall-clock deadlines are not modelled, an expired wait is an event.
- Database write failures while stamping a duty, and the rest of the maintenance tick: retention sweeps and snooze depend on modules that are not part of this model.
- TurnLoop.RunAgent: takes an oracle that ends its switching of the model under streams, since the loop does not end otherwise (TurnLoop.TurnHalts).
- Maintenance.RunKeepsInv: starts from a clock of at least one day, because zero stands for "never" in the stamps.
- Staging directories and their sweep: no reader of backups looks inside them; another process publishing at the same time is not modelled.
- Backup.BackupDirectory.RunBackup: a call that would fail because a directory stands where a file must go (or the reverse) is covered only as a publication cut off at that step.
- Rotation.ListSnapshots: a file that `is_file` has just examined is taken to be examined once more with success (scripts/backup.py:409-416), so a snapshot of this directory is never skipped; and it inserts where the source sorts.
- The wording of a grade's reasoning, the digest, the experience and the retry exclusions; asking again for a grade that was a contentless pass.
- How a post-mortem's rows are turned into attributions, the success and failure deltas, and a crash inside a batch.
- Heartbeat and shutdown sentinels of a stream, and the text of its frames (section 9.2 of the WHATWG HTML Living Standard).
- Universal newlines on reading `.env`, clamping of unsafe settings, and loading into the process environment.
- HTTP routes, certificates, push, notifications and the user interface.
