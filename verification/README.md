# Verification of the benchmark control plane

This project models the part of the repository that keeps and accounts for a
benchmark run's record, and proves what that record can be relied on for.
Verify it with `dafny verify dfyconfig.toml`.

It covers seven areas:

- **The review ledger** (`Workspace`, `ReviewText`, `ReviewProtocol`,
  `ReviewSafety`, `ReviewRun`, `ReviewTheorems`, `ReviewHistory`, `ReviewEdits`,
  `ReviewCalls`, `ReviewScope`, `ReviewGate`, `ReviewLoss`, `ReviewRecovery`,
  `ReviewCrash`, `ReviewLedger`): rounds, calibrations, edits
  and gate commands over a workspace that anyone may write between two steps,
  with a live and a retained ledger and crashes at any point, also between the
  file operations of one write.
- **The Goal machine** (`Instruction`, `GoalState`, `GoalSession`, `Supervision`,
  `GoalMachine`, `GoalSafety`, `GoalEvents`, `GoalLaunch`, `GoalTheorems`,
  `GoalVerdicts`, `GoalMeasure`, `GoalGate`, `GoalReview`, `GoalResume`,
  `GoalDuty`, `GoalHonest`, `GoalProgress`, `GoalExactness`, `GoalScript`,
  `GoalPlans`, `GoalDrift`, `GoalFork`, `GoalStranding`, `GoalRunner`): a native
  thread driven Goal by Goal through launches, notifications, resumes, forks,
  kills, inspections and verdicts, over a plan that verdicts extend.
- **The validators** (`Validators`, `PlanAcceptance`, `PlanExactness`, `ResumeExactness`): the three
  separately written checks of a retained run, against what the machine retains.
- **The write-ahead queues** (`WriteAhead`): stream chunks and state snapshots.
- **Accounting** (`TokenUsage`, `ApiCost`, `Dashboard`, `DashboardTimes`,
  `CompletedTotals`, `GoalTimes`, `LineReader`, `SuspensionAudit`, `SuspensionTheorems`, `SuspensionReport`,
  `Sorting`, `Coverage`): prices, the report's stages, chunked log readers,
  suspension audits and the coverage composition.
- **Graph reduction** (`NodeId`, `GraphReduce`).
- **Small cores** (`ShellCommand`, `ShellReading`, `FanOut`).

Handlers that mutate shared objects appear twice: as functions on values, about
which the theorems over whole runs are proved, and as methods of a class
(`ReviewLedger.LedgerRunner`, `GoalRunner.Runner`, `WriteAhead.Streams`,
`FanOut.Lanes`) whose postconditions equate the new fields with those functions.
A loop of the original that updates variables is a method with a loop.

## What turned out

- `assertDry` looks at the last round and two commands, and that is enough:
  after any calls, crashes and foreign writes it returns exactly when the whole
  review history it is meant to certify is there (`GateCertifiesHistory`). And
  what is recorded happened: behind an open gate the run holds, in this order, the
  failing test, the passing one, the reading of every file as it is now, the dry
  verdict, the clean watch and the test that exited with zero (`GateTellsHistory`).
  So a run of either arm whose cursor got past its backend review got past it at an
  event at which the ledger's history had happened (`PassedIsReviewed`).
- A correction is recorded only for a round that found something (`RunFounded`),
  and the workspace changes only through licensed edits and roll-backs, or someone
  else (`EditsAreLicensed`, `WorkspaceTouchedOnly`).
- A break is not always undone after a crash. The snapshot is retained before
  the break is written, but the roll-back takes the manifest before and after it
  writes: if only the runner's own writes changed the reviewed files, the
  retained ledger rolls back exactly when no temporary file lies where the
  manifest lists and every configuration file exists (`CrashIsRecoverable`). So a
  crash inside a break is survived unless it falls between the temporary file and
  the rename in a listed directory, or behind the removal of a configuration file
  (`BreakCrashExactly`, `UndoCrashExactly`). Both happen (`LitterHappens`,
  `RemovalHappens`). After the first no calibration ever starts again and the gate
  never opens (`BarredIsTerminal`), after the second no call changes anything
  until someone else puts the file back (`MissingFileIsTerminal`).
- A rollback succeeds exactly when the manifest can be taken and is the sealed
  one, or becomes it with the snapshot put back (`RollbackExactly`); a correction
  made while an older calibration is still unresolved can make it fail, and a
  break outside the manifest is not rolled back because the manifest still matches.
- A dry round can be certified, while the reviewed files stay as they are, exactly
  when every final command recorded since it finished is known to have succeeded
  (`GateOpensExactly`). A final command that nobody observed to its end closes the
  gate for good (`LostGateIsTerminal`): a crash while the check-watch or the test
  runs does that, so does one between the command's end and the publication of
  that end, and so does an aborted call (`CrashLosesGate`). Runs from the empty
  ledger get there in either command (`GatesAreLost`).
- Token counters that arrive when no Goal record stands at the cursor move the
  thread total before the missing record is noticed. The next launch then starts
  a Goal where no Goal ended (`LaunchTaintsExactly`, `UnguardedLaunchTaints`).
  Over an honest thread, whose counters do not fall once it has completed a Goal
  of the run and which reports a Goal only after it was asked for it, that Goal is
  never begun: the completed prefix stays exact through any launches, crashes and
  resumes (`CompletedPrefixIsExact`). The price is that the run is stranded: its
  cursor never moves again (`DriftStrands`, and a run from nothing in which it
  happens, `DriftHappens`; operator warnings are not part of this model). A resume
  gets past a Goal not yet asked for exactly when the total is where the one before
  it ended (`ResumeBeginsExactly`).
- A run derived from another's completed first Goal can begin on a new thread at
  zero, or, by default, on a fork of the source's thread, which counts on from the
  source's total. The completion validator demands zero in both cases. So over an
  honest thread it accepts a run retained as completed exactly when the run was
  not derived for a fork; the next launch leaves an accepted run as it is, and
  marks the completed fork interrupted (`CompletedRunsExactly`). Every derived fork
  of the Evidence arm has an honest run that ends so (`ForkIsRefused`, and one with
  its source from nothing, `ForkHappens`), although the repository's documentation
  offers the fork as the way to go on from a run's first Goal
  (benchmarks/evidence/README.md:48). A run from nothing is completed and accepted
  in `EvidenceCompletes`.
- A process killed after its review pause was retained, before its exit was,
  leaves a verdict nobody can record, because the recorded process never ended
  cleanly (`CrashStrandsVerdict`, and a run that gets there,
  `KilledRunIsStranded`). A verdict whose file could not be stored can still be
  recorded exactly when its decision leads to the Final: a retry has placed its
  reminder already, and nothing decides the pause any more (`UnstoredVerdict`,
  `UnstoredRetryIsStranded`). `DecisionReachable` says exactly from which states
  a verdict can still be recorded.
- The limit of four reminders a scope is a bound that is reached: for any numbers of
  failed reviews within it some honest run from nothing is granted exactly their
  reminders and completes (`EveryPlanRuns`), with up to 20 objectives and 15 pauses
  (`LongestPlanRuns`).
- A stage of the report never counts a predecessor's time: the times of completed
  Goals add up to their thread's clock over every run (`TimesAreTheClock`,
  `RunTimesAreTheClock`).
- The audit takes the time of a log line that breaks off, the report does not. An
  audited log is therefore read as written exactly when it lies in the run as the
  report bounds it (`AuditIsReadable`), which holds where both ends of the log
  read alike (`AgreedAuditIsReadable`). After a writer was killed inside a line
  the report refuses the run for a suspension the audit recorded
  (`KilledRunIsRefused`, `SampleRunIsRefused`).
- A node id whose path starts with a single backslash gains one when escaped and
  unescaped (`RoundTrip`); the counts of a reduced graph add up exactly when no
  node is both external and ignored in a dump that keeps only externals
  (`CountsAddUp`).

## Model

| member | source | states |
|---|---|---|
| ReviewWorkspace.ManifestMembership | benchmarks/evidence/src/EvidenceBenchmarkReviewLedger.ts:969-1020 | an entry is in the manifest exactly when its path belongs to the entry's section and the workspace holds the entry's content there |
| ReviewWorkspace.ManifestRecords | benchmarks/evidence/src/EvidenceBenchmarkReviewLedger.ts:969-1020 | for every scoped path the manifest records what the workspace holds there, or its absence |
| ReviewWorkspace.ManifestDecidesScope | benchmarks/evidence/src/EvidenceBenchmarkReviewLedger.ts:969-996 | two workspaces have the same manifest exactly when they agree on every scoped file |
| ReviewWorkspace.RecordedDecidesManifest | benchmarks/evidence/src/EvidenceBenchmarkReviewLedger.ts:969-996 | a workspace has a given manifest exactly when every scoped file is what the manifest records |
| ReviewWorkspace.SortedPathsSorted | benchmarks/evidence/src/EvidenceBenchmarkReviewLedger.ts:1022-1037 | listed files come out in path order, whatever the set they are listed from |
| ReviewWorkspace.WriteEditEffect | benchmarks/evidence/src/EvidenceBenchmarkReviewLedger.ts:1555-1584 | a completed edit changes the one file it names and no other |
| ReviewWorkspace.WriteAtEffect | benchmarks/evidence/src/EvidenceBenchmarkReviewLedger.ts:1555-1584 | cut off at any stage, a write has changed only the file it names, or only added one temporary file beside it |
| ReviewWorkspace.TemporaryScoped | benchmarks/evidence/src/EvidenceBenchmarkReviewLedger.ts:1022-1037 | the manifest covers that temporary file exactly where it lists the directory of the file being written |
| ReviewWorkspace.ScopesDiffer | benchmarks/evidence/src/EvidenceBenchmarkReviewLedger.ts:1061-1099 | neither of manifest scope and editable scope contains the other |
| ReviewText.IndexOfMeaning | benchmarks/evidence/src/EvidenceBenchmarkReviewLedger.ts:1543-1553 | the index found is the first occurrence, and none is found exactly when there is none |
| ReviewText.CountOccurrences | benchmarks/evidence/src/EvidenceBenchmarkReviewLedger.ts:1543-1553 | the loop counts the occurrences found one after another without overlap |
| ReviewText.CountOneMeaning | benchmarks/evidence/src/EvidenceBenchmarkReviewLedger.ts:676-706 | a count of one holds exactly when there is an occurrence and every other one starts inside the first |
| ReviewText.OverlapIsCountedOnce | benchmarks/evidence/src/EvidenceBenchmarkReviewLedger.ts:1543-1553 | overlapping occurrences can count as one, so a count of one does not mean a unique position |
| ReviewText.ExpandLiteral | benchmarks/evidence/src/EvidenceBenchmarkReviewLedger.ts:676-706 | a replacement text without a dollar pattern is inserted as it is |
| ReviewText.ReplacementUndone | benchmarks/evidence/src/EvidenceBenchmarkReviewLedger.ts:676-706 | a literal replacement is undone by the reverse one where the new text lands as the first occurrence |
| ReviewSafety.StartRoundKeeps | benchmarks/evidence/src/EvidenceBenchmarkReviewLedger.ts:329-396 | starting a round, or refusing to, keeps the ledger invariant |
| ReviewSafety.ReadFileKeeps | benchmarks/evidence/src/EvidenceBenchmarkReviewLedger.ts:398-457 | a read keeps the invariant, among it that reads are an in-order prefix of the round's manifest |
| ReviewSafety.FinishRoundKeeps | benchmarks/evidence/src/EvidenceBenchmarkReviewLedger.ts:459-532 | finishing a round keeps the invariant; a round becomes dry only over the calibration the gate will need |
| ReviewSafety.StartCalibrationKeeps | benchmarks/evidence/src/EvidenceBenchmarkReviewLedger.ts:534-613 | sealing a calibration, after retiring an unresolved one, keeps the invariant |
| ReviewSafety.DecideEditKeeps | benchmarks/evidence/src/EvidenceBenchmarkReviewLedger.ts:615-740 | deciding an edit keeps the invariant, and an accepted edit is ready to be recorded |
| ReviewSafety.RecordEditKeeps | benchmarks/evidence/src/EvidenceBenchmarkReviewLedger.ts:741-772 | recording an edit keeps at most one break and one restore per calibration, on one path |
| ReviewSafety.BeginCommandKeeps | benchmarks/evidence/src/EvidenceBenchmarkReviewLedger.ts:774-860 | starting a command keeps the invariant, among it that the final commands are a check-watch and then a test |
| ReviewSafety.CompleteCommandKeeps | benchmarks/evidence/src/EvidenceBenchmarkReviewLedger.ts:861-941 | finishing a command, with its calibration outcome and rollback, keeps the invariant |
| ReviewTheorems.RunSafe | benchmarks/evidence/src/EvidenceBenchmarkReviewLedger.ts:202-227 | after any calls, publications, crashes and foreign writes both ledgers satisfy the invariant |
| ReviewTheorems.DryMeansCertified | benchmarks/evidence/src/EvidenceBenchmarkReviewLedger.ts:280-327 | the gate's few tests hold exactly when the certified history is there |
| ReviewTheorems.GateCertifiesHistory | benchmarks/evidence/src/EvidenceBenchmarkReviewLedger.ts:280-327 | over every run the gate opens exactly when: the last round read its manifest entry for entry and it is the workspace's now, a calibration of that baseline passed before with a failing test under another manifest ahead of a succeeding one, and the final commands since are a succeeded check-watch then a succeeded test |
| ReviewTheorems.LedgersKeepShape | benchmarks/evidence/src/EvidenceBenchmarkReviewLedger.ts:329-613 | only the last round may be reading or dry, every calibration but the last is passed or invalid, each has at most one break and one restore on one path, reads are in-order prefixes, and a restored manifest is the baseline |
| ReviewHistory.RecordsHappened | benchmarks/evidence/src/EvidenceBenchmarkReviewLedger.ts:774-941 | over every run both ledgers record what happened: each command, round, read and calibration stands at the tick of its own call, and a command succeeded exactly when its end reported a clean watch or exit code zero within bounds, failed as expected exactly when it reported a non-zero code of its own in the failing phase |
| ReviewHistory.GateTellsHistory | benchmarks/evidence/src/EvidenceBenchmarkReviewLedger.ts:280-327 | whenever the gate is open, the run holds in this order: a calibration call, a test that ended non-zero and unsignalled, one that ended with zero, a round whose reads are the present manifest entry for entry, its dry verdict, a watch that ended clean and a test that ended with zero, all within their bounds |
| ReviewEdits.RunFounded | benchmarks/evidence/src/EvidenceBenchmarkReviewLedger.ts:1232-1286 | over every run, in both ledgers, each correction belongs to a round that ended with findings, and each break and restore to a calibration of its own round |
| ReviewEdits.EditsAreLicensed | benchmarks/evidence/src/EvidenceBenchmarkReviewLedger.ts:615-772 | in every run an edit is recorded one at a time, by its own call or by the write of a break whose snapshot the disk holds; it was open then (for a correction: the last round found something and no later calibration is unresolved), and before and after are what the workspace held and holds |
| ReviewCalls.RoundBeginsExactly | benchmarks/evidence/src/EvidenceBenchmarkReviewLedger.ts:329-396 | a round is added exactly when none is under way or dry and, behind a clean one, its manifest changed or its own calibration passed; a changed workspace ends the round that counted; nothing else changes |
| ReviewCalls.ReadCreditsExactly | benchmarks/evidence/src/EvidenceBenchmarkReviewLedger.ts:398-457 | a read is credited exactly when it is the next file with its recorded content, and ends the round exactly when the workspace or that content changed |
| ReviewCalls.RoundEndsExactly | benchmarks/evidence/src/EvidenceBenchmarkReviewLedger.ts:459-532 | a verdict is taken exactly when it is proper, every file was read and, for dry, a calibration of the manifest passed before the round began |
| ReviewCalls.CalibrationStartsExactly | benchmarks/evidence/src/EvidenceBenchmarkReviewLedger.ts:534-613 | what the ledger is after a calibration call, in each case: sealed anew, retired by a roll-back and sealed, made invalid where the roll-back failed, or unchanged |
| ReviewCalls.CommandBeginsExactly | benchmarks/evidence/src/EvidenceBenchmarkReviewLedger.ts:774-860 | a command is registered exactly where its phase may run it over this manifest, and otherwise at most a changed round ends |
| ReviewCalls.CommandEndsExactly | benchmarks/evidence/src/EvidenceBenchmarkReviewLedger.ts:861-941 | the end of a command notes its result and changes exactly what its phase demands: the calibration it proves or spoils, or the dry round it invalidates |
| ReviewCalls.PhaseExactly | benchmarks/evidence/src/EvidenceBenchmarkReviewLedger.ts:1232-1286 | an edit phase is allowed exactly where the round, the calibration and its break and restore so far demand it |
| ReviewCalls.EditAcceptedExactly | benchmarks/evidence/src/EvidenceBenchmarkReviewLedger.ts:615-740 | an edit is accepted exactly when it is in phase, its path is editable and the file is what the operation expects, within the payload limits |
| ReviewCalls.RunRoundsFollow | benchmarks/evidence/src/EvidenceBenchmarkReviewLedger.ts:329-396 | over every run, in both ledgers, a round follows only one that is over, and a clean one only behind its own passed calibration or a changed manifest |
| ReviewCalls.WorkspaceTouchedOnly | benchmarks/evidence/src/EvidenceBenchmarkReviewLedger.ts:707-772 | in every run the workspace changes only through an accepted edit, the write of a stored break, a roll-back that retires its calibration, or someone else |
| ReviewScope.ValidStaysInside | benchmarks/evidence/src/EvidenceBenchmarkReviewLedger.ts:1061-1099 | a path is valid exactly when it is relative, with forward slashes, and no part of it leads upwards |
| ReviewScope.EditableExactly | benchmarks/evidence/src/EvidenceBenchmarkReviewLedger.ts:1061-1099 | a path is editable exactly when it is in the editable scope, valid, no directory, and its parent exists |
| ReviewScope.GeneratedIsClosed | benchmarks/evidence/src/EvidenceBenchmarkReviewLedger.ts:1061-1099 | generated database code is closed to edits, whatever it is called |
| ReviewScope.ReviewedIsEditable | benchmarks/evidence/src/EvidenceBenchmarkReviewLedger.ts:1061-1099 | every reviewed file but a requirement can be edited, generated code apart |
| ReviewGate.LostGateRefusesAll | benchmarks/evidence/src/EvidenceBenchmarkReviewLedger.ts:1173-1230 | behind a dry round with a final command not known to have succeeded the gate is closed and every tool call is refused without effect |
| ReviewGate.LostGateIsTerminal | benchmarks/evidence/src/EvidenceBenchmarkReviewLedger.ts:280-327 | while the workspace keeps the round's manifest no sequence of steps opens that gate again |
| ReviewGate.GateOpensExactly | benchmarks/evidence/src/EvidenceBenchmarkReviewLedger.ts:1173-1230 | from rest over an unchanged workspace some manifest-keeping steps open the gate of a dry round exactly when each of its recorded final commands succeeded |
| ReviewGate.CrashLosesGate | benchmarks/evidence/src/EvidenceBenchmarkReviewLedger.ts:830-860 | dying while a published final command runs, dying between its end and the publication of that end, and an aborted call once published, all lose the gate |
| ReviewLoss.GatesAreLost | benchmarks/evidence/src/EvidenceBenchmarkReviewLedger.ts:830-860 | over any two workspaces with different manifests a run from the empty ledger loses the gate in the check-watch, and another in the test |
| ReviewLoss.SamplesDiffer | benchmarks/evidence/src/EvidenceBenchmarkReviewLedger.ts:969-996 | such workspaces exist |
| ReviewRecovery.RunRecoverable | benchmarks/evidence/src/EvidenceBenchmarkReviewLedger.ts:707-740 | over every run, crashes inside a write among its steps, each snapshot holds what its sealed manifest records, and the retained ledger's snapshot covers whatever the break or its roll-back has written |
| ReviewRecovery.CrashIsRecoverable | benchmarks/evidence/src/EvidenceBenchmarkReviewLedger.ts:1138-1171 | cut off at any point, also inside a write: if only the runner's own writes changed the scoped files, the retained ledger rolls back exactly when no stray temporary file lies in the manifest's scope and every configuration file exists, and then the sealed manifest is back and no other file is touched |
| ReviewRecovery.RollbackExactly | benchmarks/evidence/src/EvidenceBenchmarkReviewLedger.ts:1138-1171 | in any workspace a rollback succeeds exactly when the manifest can be taken and is the sealed one, or the snapshot can be written and every scoped file, with it put back, is what the manifest records |
| ReviewRecovery.SnapshotUndoesBreak | benchmarks/evidence/src/EvidenceBenchmarkReviewLedger.ts:1127-1171 | in a listable workspace that differs from the sealed manifest at the snapshot's path alone, the rollback succeeds |
| ReviewCrash.BreakCrashExactly | benchmarks/evidence/src/EvidenceBenchmarkReviewLedger.ts:707-733 | after a crash at any stage of a break's write the retained ledger rolls back unless the write stood between its temporary file and the rename in a listed directory, or had removed a configuration file |
| ReviewCrash.UndoCrashExactly | benchmarks/evidence/src/EvidenceBenchmarkReviewLedger.ts:707-733 | after a crash at any stage of the write that undoes a break it rolls back unless a configuration file was removed and nothing of it is back |
| ReviewCrash.LitterHappens | benchmarks/evidence/src/EvidenceBenchmarkReviewLedger.ts:1571-1582 | a run from the empty ledger dies between temporary file and rename, and its next calibration fails and bars all later ones |
| ReviewCrash.RemovalHappens | benchmarks/evidence/src/EvidenceBenchmarkReviewLedger.ts:1560-1562 | a run from the empty ledger dies behind the removal of a configuration file, and the rollback fails with no manifest to take |
| ReviewCrash.BarredIsTerminal | benchmarks/evidence/src/EvidenceBenchmarkReviewLedger.ts:570-593 | behind a failed rollback no calls, writes or crashes lead to another calibration or an open gate |
| ReviewCrash.MissingFileIsTerminal | benchmarks/evidence/src/EvidenceBenchmarkReviewLedger.ts:969-1010 | while a configuration file is missing no call, crash or resume changes workspace or ledger, until someone else writes the workspace |
| ReviewLedger.LedgerRunner.StartRound | benchmarks/evidence/src/EvidenceBenchmarkReviewLedger.ts:329-396 | the handler changes the ledger and answers as the protocol says |
| ReviewLedger.LedgerRunner.ReadFile | benchmarks/evidence/src/EvidenceBenchmarkReviewLedger.ts:398-457 | likewise for a read |
| ReviewLedger.LedgerRunner.FinishRound | benchmarks/evidence/src/EvidenceBenchmarkReviewLedger.ts:459-532 | likewise for the end of a round |
| ReviewLedger.LedgerRunner.WriteFile | benchmarks/evidence/src/EvidenceBenchmarkReviewLedger.ts:1555-1584 | creating and filling, the temporary file with its rename, or the removal: every state in between is a stage of the specified write, and the last its completion |
| ReviewLedger.LedgerRunner.RollBack | benchmarks/evidence/src/EvidenceBenchmarkReviewLedger.ts:1127-1171 | likewise for a rollback, with the workspace it leaves and the stages it goes through |
| ReviewLedger.LedgerRunner.StartCalibration | benchmarks/evidence/src/EvidenceBenchmarkReviewLedger.ts:534-613 | likewise for a calibration, with the workspace its rollback leaves |
| ReviewLedger.LedgerRunner.FinalCommands | benchmarks/evidence/src/EvidenceBenchmarkReviewLedger.ts:1212-1217 | the filter keeps exactly the final commands since the round's end, in order |
| ReviewLedger.LedgerRunner.CommandAllowed | benchmarks/evidence/src/EvidenceBenchmarkReviewLedger.ts:1173-1230 | the early returns admit exactly the commands the protocol admits |
| ReviewLedger.LedgerRunner.BeginCommand | benchmarks/evidence/src/EvidenceBenchmarkReviewLedger.ts:774-860 | likewise for the start of a command |
| ReviewLedger.LedgerRunner.FinishCommand | benchmarks/evidence/src/EvidenceBenchmarkReviewLedger.ts:861-941 | likewise for its end |
| ReviewLedger.LedgerRunner.PhaseAllowed | benchmarks/evidence/src/EvidenceBenchmarkReviewLedger.ts:1232-1286 | the early returns, and the search for the calibration's first break and restore, admit exactly the edits the protocol admits |
| ReviewLedger.LedgerRunner.ReplacementsAllowed | benchmarks/evidence/src/EvidenceBenchmarkReviewLedger.ts:1320-1338 | the loops over the replacements find any that changes nothing and add up the payload |
| ReviewLedger.LedgerRunner.Replaced | benchmarks/evidence/src/EvidenceBenchmarkReviewLedger.ts:690-702 | replacing one anchor after the other, each counted first, gives the specified text or none |
| ReviewLedger.LedgerRunner.BeginEdit | benchmarks/evidence/src/EvidenceBenchmarkReviewLedger.ts:615-720 | the checks in the source's order decide an edit as the protocol does, and a break stores its snapshot before anything is written |
| ReviewLedger.LedgerRunner.WriteAccepted | benchmarks/evidence/src/EvidenceBenchmarkReviewLedger.ts:707-772 | an accepted edit is written and recorded, or undone and forgotten, and every workspace in between is a stage of that write or of its undoing |
| ReviewLedger.LedgerRunner.LastFinals | benchmarks/evidence/src/EvidenceBenchmarkReviewLedger.ts:305-317 | one pass over the commands keeps the last two that count |
| ReviewLedger.LedgerRunner.CheckDry | benchmarks/evidence/src/EvidenceBenchmarkReviewLedger.ts:280-327 | with the last round and those two the gate is decided as the protocol says, and so as the certified history demands |
| Instruction.StopIsBoundary | benchmarks/evidence/src/EvidenceBenchmarkInstruction.ts:141-160 | a stop of an adaptive plan is a review boundary followed by the next reminder of its scope or by the scope's Final |
| Instruction.BoundaryIsStop | benchmarks/evidence/src/EvidenceBenchmarkInstruction.ts:141-160 | the review boundaries of an adaptive plan are exactly its stops, and none is malformed |
| Instruction.InsertReminder | benchmarks/evidence/src/EvidenceBenchmarkSupervision.ts:242-257 | splicing the next reminder in at the cursor yields the adaptive plan with one reminder more |
| GoalSafety.AdvanceKeeps | benchmarks/evidence/src/EvidenceBenchmarkRunner.ts:494-638 | advancing keeps the machine's invariant and every Goal's start, and settles and measures each Goal it completes |
| GoalSafety.CrossShape | benchmarks/evidence/src/EvidenceBenchmarkRunner.ts:602-618 | moving the cursor past a review records the pause of exactly the plan's next stop |
| GoalEvents.NotifyKeeps | benchmarks/evidence/src/EvidenceBenchmarkRunner.ts:641-997 | every notification keeps the invariant and every Goal's start, in whatever order it comes |
| GoalEvents.ResumeKeeps | benchmarks/evidence/src/EvidenceBenchmarkRunner.ts:1232-1405 | so does every branch of a resume, with its replayed counters |
| GoalEvents.ThreadReadyKeeps | benchmarks/evidence/src/EvidenceBenchmarkRunner.ts:1150-1220 | so does a fresh, resumed or forked thread becoming known |
| GoalEvents.ActKeeps | benchmarks/evidence/src/EvidenceBenchmarkRunner.ts:471-1408 | so does every event of a live process |
| GoalLaunch.LaunchSound | benchmarks/evidence/src/EvidenceBenchmarkRunner.ts:68-175 | every launch leaves a state and a session that satisfy the invariant |
| GoalLaunch.EndRest | benchmarks/evidence/src/EvidenceBenchmarkRunner.ts:1540-1600 | the state an ended process leaves keeps the invariant, and one that awaits a verdict stands at exactly its undecided pause |
| GoalLaunch.ApplyRest | benchmarks/evidence/src/EvidenceBenchmarkSupervision.ts:195-291 | a decision keeps the invariant for the plan it extends, even where its verdict could not be stored |
| GoalLaunch.RetryShape | benchmarks/evidence/src/EvidenceBenchmarkSupervision.ts:242-257 | a retry's reminder makes the plan's next stop the same scope's next attempt and moves every later stop by one place |
| GoalLaunch.RunSound | benchmarks/evidence/src/EvidenceBenchmarkRunner.ts:55-1610 | over every run each completed Goal is settled and measured, the plan is its arm's base plan with consecutive reminders, and the pauses are the plan's stops behind the cursor with the verdicts their decisions earn |
| GoalTheorems.LiveEventsKeepExactness | benchmarks/evidence/src/EvidenceBenchmarkRunner.ts:471-1487 | no event of a live process makes an exact record inexact or an inexact one exact |
| GoalTheorems.LaunchTaintsExactly | benchmarks/evidence/src/EvidenceBenchmarkRunner.ts:184-228 | a launch loses exactness exactly when the thread total had moved while no record stood at the cursor |
| GoalTheorems.GuardedRunsAreExact | benchmarks/evidence/src/EvidenceBenchmarkRunner.ts:55-1610 | whatever the thread reports, in every run without such a launch each Goal, completed or not, starts where its predecessor ended, or with its own thread at the total the run began with |
| GoalTheorems.GuardedPrefixIsExact | benchmarks/evidence/src/EvidenceBenchmarkRunner.ts:1817-1864 | whatever the thread reports, in every run without such a launch each completed Goal is settled, has used tokens, starts where its predecessor ended or at the total the run began with, and its usage is its end minus its start |
| GoalTheorems.RunStartsAt | benchmarks/evidence/src/EvidenceBenchmarkRunner.ts:184-228 | over every run, derived ones included, the first Goal of its own thread starts at the total the run began with, through all launches and whatever the thread reports |
| GoalExactness.HonestRunsAreExact | benchmarks/evidence/src/EvidenceBenchmarkRunner.ts:55-1610 | over an honest thread, whatever its launches, every start behind the cursor is exact, counted from the total the run began with, and an inexact one at the cursor belongs to a Goal never asked for whose total has moved on |
| GoalExactness.CompletedPrefixIsExact | benchmarks/evidence/src/EvidenceBenchmarkRunner.ts:1817-1864 | over an honest thread, also a forked one, every completed Goal is complete, idle and measured at its terminal turn, starts where its predecessor ended or at the total the run's own thread began with, its usage is its end minus its start, and its counters are non-negative with a positive total |
| GoalExactness.CompletedRunsExactly | benchmarks/evidence/src/EvidenceBenchmarkRunner.ts:142-157 | over an honest thread the completion validator accepts a run retained as completed exactly when it was not derived for a fork; the next launch leaves an accepted run unchanged and marks a completed fork interrupted |
| GoalTheorems.RelaunchDecides | benchmarks/evidence/src/EvidenceBenchmarkRunner.ts:142-157 | the next launch of a run retained as completed changes nothing where the validator accepts it and otherwise marks it interrupted |
| GoalFork.DerivesInitial | benchmarks/evidence/src/executable/EvidenceBenchmarkCommandLine.ts:338-483 | from every state behind the first Goal of an honest run another run can be derived, for a new thread at zero or for a fork at the source's total |
| GoalFork.ForkIsRefused | benchmarks/evidence/src/EvidenceBenchmarkRunner.ts:1848-1852 | every run of the Evidence arm derived for a fork has an honest run retained as completed that the validator refuses and the next launch marks interrupted |
| GoalFork.ForkHappens | benchmarks/evidence/src/executable/EvidenceBenchmarkCommandLine.ts:455-482 | an honest source from nothing, the run derived from it for a fork, and its refused completion |
| GoalScript.EvidenceCompletes | benchmarks/evidence/src/EvidenceBenchmarkRunner.ts:1561-1576 | an honest run of the Evidence arm is retained as completed |
| GoalPlans.EveryPlanRuns | benchmarks/evidence/src/EvidenceBenchmarkSupervision.ts:242-257 | for any numbers of failed reviews up to four a scope there is an honest run from nothing that is granted exactly their reminders, is relaunched at every verdict and is retained as completed |
| GoalPlans.LongestPlanRuns | benchmarks/evidence/src/EvidenceBenchmarkSupervision.ts:242-257 | so the bounds of 20 objectives and 15 pauses are reached |
| GoalExactness.DriftStrands | benchmarks/evidence/src/EvidenceBenchmarkRunner.ts:1303-1334 | once the total has gone past where an unrequested Goal must start, no honest events, launches or resumes move the cursor or ask for another Goal |
| GoalExactness.ResumeBeginsExactly | benchmarks/evidence/src/EvidenceBenchmarkRunner.ts:1303-1343 | a Goal that waits to be asked for behind others can be begun by some launch over an honest thread exactly when the total is where its predecessor ended |
| GoalProgress.ActProgress | benchmarks/evidence/src/EvidenceBenchmarkRunner.ts:762-838 | behind the first Goal of the run's own thread no live event of an honest thread lowers the total, and the cursor moves only past a Goal that ends at the total |
| GoalTheorems.UsageTelescopes | benchmarks/evidence/src/EvidenceBenchmarkRunner.ts:1817-1864 | from the counters the run's own thread began with, the usages of its Goals add up to where its counters stand |
| GoalTheorems.CompletionAccepted | benchmarks/evidence/src/EvidenceBenchmarkRunner.ts:1796-1873 | the completion validator accepts a finished plan exactly when its own thread began at zero, every start is exact, the total is the last end and the process ended cleanly |
| GoalTheorems.RetainedCompletionsExactly | benchmarks/evidence/src/EvidenceBenchmarkRunner.ts:1561-1576 | whatever the thread reports, a run that retains a completed status passes that validator exactly when it began at a total of zero and its record is exact |
| GoalDrift.UnguardedLaunchTaints | benchmarks/evidence/src/EvidenceBenchmarkRunner.ts:826-833 | an honest run of the Evidence arm in which counters behind a failed checkpoint make the next launch start a Goal where none ended |
| GoalDrift.DriftHappens | benchmarks/evidence/src/EvidenceBenchmarkRunner.ts:1303-1334 | an honest run from nothing whose cursor stays behind its first Goal under every honest continuation |
| GoalDrift.InexactForever | benchmarks/evidence/src/EvidenceBenchmarkRunner.ts:1796-1873 | once a run is inexact on disk and in memory no events make it one the completion validator accepts |
| GoalVerdicts.RunsAreAccepted | benchmarks/evidence/src/EvidenceBenchmarkRunner.ts:1875-2090 | the report reads every reachable verdict history, and a resume accepts a reachable state exactly when its pending verdict was not interrupted |
| GoalVerdicts.RunsAreBounded | benchmarks/evidence/src/EvidenceBenchmarkInstruction.ts:28-54 | at most twenty objectives, fifteen pauses and three inspections of each in a Plain run; seven objectives and no pause in an Evidence run |
| GoalMeasure.RunsGoDown | benchmarks/evidence/src/EvidenceBenchmarkInstruction.ts:28-54 | over every run and event the remaining base entries and then the remaining reminders of the retained state are never negative, fall lexicographically with every Goal newly retained as done, and are kept by verdicts, inspections, crashes and resumes |
| GoalGate.ActPasses | benchmarks/evidence/src/EvidenceBenchmarkRunner.ts:494-638 | one live event completes at most the Goal at the cursor, at a total beyond its start and on a clock that has not fallen, a backend review only where the gate it comes with is open, and leaves every Goal behind the cursor alone |
| GoalGate.ReviewNeedsGate | benchmarks/evidence/src/EvidenceBenchmarkRunner.ts:507-525 | an event that moves the cursor past the backend review carries an open gate |
| GoalGate.ClosedGateHoldsRuns | benchmarks/evidence/src/EvidenceBenchmarkRunner.ts:507-525 | a run from nothing or a derived state in which no event carries an open gate never gets past cursor 1 |
| GoalGate.RunClocks | benchmarks/evidence/src/EvidenceBenchmarkRunner.ts:2093-2118 | over every run the clocks behind the cursor do not fall on each thread |
| GoalReview.PassedIsReviewed | benchmarks/evidence/src/EvidenceBenchmarkRunner.ts:507-525 | where the gate an event carries is the ledger's, a run that got past its backend review did so at an event at which the certified review history was there and had happened |
| GoalResume.TotalMovesOnly | benchmarks/evidence/src/EvidenceBenchmarkRunner.ts:693-838 | the total moves only by the report of a reconciled thread, or by a resume that adopts replayed counters for an unfinished Goal, proven by an uninterrupted tail of the turn history |
| GoalResume.ReplayRememberedOnly | benchmarks/evidence/src/EvidenceBenchmarkRunner.ts:693-838 | counters are remembered only while a resume reads, for an unfinished Goal, ahead of the total, and once |
| GoalResume.SnapshotShows | benchmarks/evidence/src/EvidenceBenchmarkRunner.ts:840-935 | a snapshot is taken only of what was retained, of its completion, or of the Goal asked for last |
| GoalResume.ResumeAcceptsOnly | benchmarks/evidence/src/EvidenceBenchmarkRunner.ts:1245-1405 | a resume goes on only where the thread holds the Goal at the cursor, the completed one before it, or none where none was asked for; everything else interrupts the run |
| GoalResume.NothingLeftWaiting | benchmarks/evidence/src/EvidenceBenchmarkRunner.ts:494-638 | no live event leaves a finished Goal waiting: it is completed, the run is over, or still busy with it |
| GoalDuty.FirstOutcomeStands | benchmarks/evidence/src/EvidenceBenchmarkRunner.ts:350-358 | no event replaces the outcome a process reached or the interruption it retained, or starts a Goal behind it |
| GoalDuty.AlarmsEnd | benchmarks/evidence/src/EvidenceBenchmarkRunner.ts:641-997 | every alarm ends the run, and so does a report without a thread or a record it could belong to |
| GoalDuty.OtherThreadEnds | benchmarks/evidence/src/EvidenceBenchmarkRunner.ts:1150-1220 | a thread that resumes as another one ends the run |
| GoalDuty.FactsRestOnReports | benchmarks/evidence/src/EvidenceBenchmarkRunner.ts:641-997 | a notification gives the record at the cursor no boundary fact but the one it reports |
| GoalDuty.ActGoesOn | benchmarks/evidence/src/EvidenceBenchmarkRunner.ts:602-638 | unless its process dies at the boundary, every event that completes a Goal leaves the run stopped where asked, awaiting a verdict behind a review, completed behind the last Goal, or asking for the next |
| GoalDuty.ForkRepeatsOnly | benchmarks/evidence/src/EvidenceBenchmarkRunner.ts:673-700 | until the source's Goal is cleared a forked thread may only repeat the retained boundary |
| GoalDuty.ReplayReadsExactly | benchmarks/evidence/src/EvidenceBenchmarkRunner.ts:693-838 | counters read by a resume prove the checkpoint, name a lost turn or are remembered, exactly as told; any others end the run |
| GoalDuty.EndKeepsOutcomeExactly | benchmarks/evidence/src/EvidenceBenchmarkRunner.ts:1540-1600 | the retained status is the outcome exactly when the process ended well and nothing failed behind it; otherwise the run is interrupted or nothing of its end is retained |
| GoalDuty.ConcludesExactly | benchmarks/evidence/src/EvidenceBenchmarkRunner.ts:142-157 | a finished plan is concluded by the next launch: accepted or interrupted, and an interruption stays unless a dead process was forced to end |
| GoalVerdicts.BoundaryAccepted | benchmarks/evidence/src/EvidenceBenchmarkSupervision.ts:407-448 | a reachable pending verdict is an exact undecided boundary exactly when the last process ended cleanly |
| GoalVerdicts.DecidedAccepted | benchmarks/evidence/src/EvidenceBenchmarkSupervision.ts:294-345 | a reachable decided boundary passes both checks a resume makes of it |
| GoalVerdicts.DecidedResumes | benchmarks/evidence/src/EvidenceBenchmarkRunner.ts:119-141 | it resumes at the next launch, marked once, with its plan unchanged |
| GoalVerdicts.ApplyDecides | benchmarks/evidence/src/EvidenceBenchmarkSupervision.ts:195-291 | a decision is recorded exactly when the process ended cleanly and the scope's Final comes next, and otherwise changes nothing |
| GoalVerdicts.DecisionReachable | benchmarks/evidence/src/EvidenceBenchmarkRunner.ts:97-118 | from rest a pending verdict can ever be recorded exactly when its state is resumable and decidable |
| GoalVerdicts.CrashStrandsVerdict | benchmarks/evidence/src/EvidenceBenchmarkSupervision.ts:419-444 | a process killed after its pause was retained leaves a verdict that stays undecided under every sequence of events |
| GoalStranding.KilledRunIsStranded | benchmarks/evidence/src/EvidenceBenchmarkSupervision.ts:419-444 | an honest run from nothing reaches such a pause and is killed there |
| GoalStranding.UnstoredVerdict | benchmarks/evidence/src/EvidenceBenchmarkSupervision.ts:242-291 | a pending verdict whose file could not be stored can ever be recorded exactly when its decision leads to the Final |
| GoalStranding.UnstoredRetryIsStranded | benchmarks/evidence/src/EvidenceBenchmarkSupervision.ts:242-291 | an honest run from nothing whose first review fails while its verdict cannot be stored waits forever |
| GoalRunner.Runner.PrepareGoal | benchmarks/evidence/src/EvidenceBenchmarkRunner.ts:184-228 | retains the record at the cursor or starts one at the thread total |
| GoalRunner.Runner.Begin | benchmarks/evidence/src/EvidenceBenchmarkRunner.ts:471-486 | resets the record's boundary fields and asks for its Goal |
| GoalRunner.Runner.Accept | benchmarks/evidence/src/EvidenceBenchmarkRunner.ts:487-493 | validates and retains the Goal the thread answers with |
| GoalRunner.Runner.CompleteCurrent | benchmarks/evidence/src/EvidenceBenchmarkRunner.ts:552-638 | measures the Goal, crosses it, pauses where a review ends, and stops or begins the next |
| GoalRunner.Runner.TryAdvance | benchmarks/evidence/src/EvidenceBenchmarkRunner.ts:494-551 | completes the Goal only once its terminal turn, idle state, counters and clock agree |
| GoalRunner.Runner.Measure | benchmarks/evidence/src/EvidenceBenchmarkRunner.ts:762-838 | moves the thread total before it looks the record up |
| GoalRunner.Runner.Update | benchmarks/evidence/src/EvidenceBenchmarkRunner.ts:950-972 | retains a validated Goal, and its terminal turn when complete |
| GoalRunner.Runner.FinishTurn | benchmarks/evidence/src/EvidenceBenchmarkRunner.ts:974-986 | confirms the terminal turn, or stops on a failed one |
| GoalRunner.Runner.Change | benchmarks/evidence/src/EvidenceBenchmarkRunner.ts:987-996 | follows the thread's idleness, or stops on an error |
| GoalRunner.Runner.Adopt | benchmarks/evidence/src/EvidenceBenchmarkRunner.ts:1411-1487 | adopts replayed counters only where the turn history proves them |
| GoalRunner.Runner.Decide | benchmarks/evidence/src/EvidenceBenchmarkSupervision.ts:195-291 | splices the reminder and sets the verdict as the decision function says |
| Validators.ValidatePlan | benchmarks/evidence/src/EvidenceBenchmarkRunner.ts:1898-1957 | the loop over the scopes with its supplement counter decides plan validity |
| PlanExactness.PlainPlansExactly | benchmarks/evidence/src/EvidenceBenchmarkRunner.ts:1898-1957 | a Plain plan is valid exactly when it is the base plan with consecutive reminders before its Finals, at most four each |
| PlanExactness.EvidencePlansExactly | benchmarks/evidence/src/EvidenceBenchmarkRunner.ts:1898-1957 | an Evidence plan is valid exactly when it is the base plan |
| PlanAcceptance.PlanAccepted | benchmarks/evidence/src/EvidenceBenchmarkRunner.ts:1875-1984 | a resume accepts a state of the machine exactly when it may wait for its pending verdict |
| PlanAcceptance.TransitionsAccepted | benchmarks/evidence/src/EvidenceBenchmarkRunner.ts:1986-2090 | the transition validator finds nothing wrong with the machine's pauses and verdicts beyond an interrupted pending one |
| PlanAcceptance.VerdictsReported | benchmarks/evidence/src/EvidenceBenchmarkDashboard.ts:532-632 | the report accepts every verdict the machine retains |
| PlanAcceptance.AttemptIsOrdinal | benchmarks/evidence/src/EvidenceBenchmarkDashboard.ts:535-546 | attempts of a scope are numbered from zero without a gap |
| PlanAcceptance.FinalIsLast | benchmarks/evidence/src/EvidenceBenchmarkDashboard.ts:566-572 | a verdict that leads to its Final is its scope's last |
| ResumeExactness.PlainResumesExactly | benchmarks/evidence/src/EvidenceBenchmarkRunner.ts:1875-2090 | on arbitrary states: a resume accepts a Plain state exactly when its plan is the base plan with consecutive reminders, its records are the plan's and complete behind the cursor, and its pauses are the plan's stops with the verdicts their places demand |
| ResumeExactness.EvidenceResumesExactly | benchmarks/evidence/src/EvidenceBenchmarkRunner.ts:1875-2090 | and an Evidence state exactly when its plan is the base plan, its records are the plan's and it never paused |
| ResumeExactness.CompletesExactly | benchmarks/evidence/src/EvidenceBenchmarkRunner.ts:1796-1873 | a state is accepted as completed exactly when each plan entry's record stands, the total is the last end and the process ended well |
| ResumeExactness.ReportDemands | benchmarks/evidence/src/EvidenceBenchmarkDashboard.ts:532-632 | the verdicts the report accepts are those of consecutive attempts, and only a scope's last one leads to its Final unless it passed |
| ResumeExactness.DecidesExactly | benchmarks/evidence/src/EvidenceBenchmarkSupervision.ts:195-291 | on arbitrary states: a decision changes a state exactly where its last pause is pending on a clean process before its Final; a failure below attempt 4 places the next reminder, and a stored verdict is retained with the pause |
| ResumeExactness.ActsExactly | benchmarks/evidence/src/EvidenceBenchmarkSupervision.ts:294-345 | a resume acts on a verdict exactly when pause, Goal, verdict and the next plan entry agree |
| GoalVerdicts.RunsKeepHistory | benchmarks/evidence/src/EvidenceBenchmarkSupervision.ts:237-257 | over every run a failure below the limit is followed by its scope's next reminder and next attempt, and any other verdict by the scope's Final and the first attempt of another scope |
| WriteAhead.RunOk | benchmarks/evidence/src/EvidenceBenchmarkRunner.ts:359-445 | under every scheduling chunks are handed over in sequence order, snapshots in publish order, and no snapshot before every chunk appended earlier unless output has failed |
| WriteAhead.DrainedDeliversAll | benchmarks/evidence/src/EvidenceBenchmarkRunner.ts:421-445 | a drained output queue without a failure has handed over every chunk once |
| WriteAhead.DrainedPublishesAll | benchmarks/evidence/src/EvidenceBenchmarkRunner.ts:363-374 | a drained publication queue has handed over every snapshot published, whatever failed |
| WriteAhead.MarksTell | benchmarks/evidence/src/EvidenceBenchmarkRunner.ts:359-445 | after any events the output is marked exactly when a handler failed, with the link of the first, and the publication exactly when one failed |
| WriteAhead.QueuedExactly | benchmarks/evidence/src/EvidenceBenchmarkRunner.ts:359-445 | every event queues exactly this: a chunk a link with its number until the output breaks, a publication or the break itself a snapshot behind all links so far until a publication fails |
| WriteAhead.Streams.PublishState | benchmarks/evidence/src/EvidenceBenchmarkRunner.ts:363-374 | a snapshot is queued behind every output link that exists |
| WriteAhead.Streams.AppendChunk | benchmarks/evidence/src/EvidenceBenchmarkRunner.ts:421-437 | a chunk takes its number and, unless output failed, a link |
| WriteAhead.Streams.RunChunk | benchmarks/evidence/src/EvidenceBenchmarkRunner.ts:432-439 | a link hands its chunk over once the one before has settled, unless output failed |
| WriteAhead.Streams.RunSnapshot | benchmarks/evidence/src/EvidenceBenchmarkRunner.ts:366-369 | a snapshot is handed over once the one before and every link it waits for have settled |
| WriteAhead.Streams.SnapshotReturned | benchmarks/evidence/src/EvidenceBenchmarkRunner.ts:369-373 | a failed publication stops later snapshots from being queued, not those queued already |
| WriteAhead.Streams.ChunkReturned | benchmarks/evidence/src/EvidenceBenchmarkRunner.ts:432-444 | a failing handler marks the output as failed and publishes the state |
| LineReader.LinesJoin | benchmarks/evidence/src/EvidenceBenchmarkApiCost.ts:257-294 | splitting a concatenation joins the last line of one part to the first of the next |
| LineReader.LastMatchMeaning | benchmarks/evidence/src/EvidenceBenchmarkDashboard.ts:757-790 | the last accepted line is accepted and no later one is |
| LineReader.ReadLast | benchmarks/evidence/src/EvidenceBenchmarkDashboard.ts:757-790 | the backward reader returns the last accepted line of the plain reading, for every file and chunk size, and offers each line at most once |
| LineReader.OfferBack | benchmarks/evidence/src/EvidenceBenchmarkSuspensionAudit.ts:365-396 | within a chunk the last accepted complete line is found |
| LineReader.ReadLastOutputEvents | benchmarks/evidence/src/EvidenceBenchmarkDashboard.ts:1179-1219 | the backward reader returns exactly the last event of each targeted process, also when it stops early, and offers each line at most once |
| LineReader.OfferEvents | benchmarks/evidence/src/EvidenceBenchmarkDashboard.ts:1195-1213 | within a chunk an event already found is never replaced by an older one |
| LineReader.ForEachLine | benchmarks/evidence/src/EvidenceBenchmarkApiCost.ts:257-294 | the forward reader reports the lines of the concatenated files, with a last unterminated one only when it is not empty |
| LineReader.ReportedEnds | benchmarks/evidence/src/EvidenceBenchmarkApiCost.ts:257-294 | a text that ends with a line's end reports the lines before it, and one that breaks off the broken line, too |
| ApiCost.Collect | benchmarks/evidence/src/EvidenceBenchmarkApiCost.ts:87-174 | the walk over the lines computes the specified price, or is refused or unavailable as strictness says |
| ApiCost.AcceptedAddUp | benchmarks/evidence/src/EvidenceBenchmarkApiCost.ts:99-165 | the accepted requests form a chain from the initial usage and add up to what was observed in six counters, in amount and in counts |
| ApiCost.ChargedBetween | benchmarks/evidence/src/EvidenceBenchmarkApiCost.ts:176-189 | what valid requests are charged lies between the short and the long rate of their sum |
| ApiCost.PriceIsOfTheDifference | benchmarks/evidence/src/EvidenceBenchmarkApiCost.ts:99-165 | a returned price is of requests that add up to expected minus initial, and lies between the two rates of that difference |
| ApiCost.ErasingRejected | benchmarks/evidence/src/EvidenceBenchmarkApiCost.ts:120-142 | erasing any set of rejected lines leaves usage, price and verdict unchanged |
| ApiCost.NothingAfterExpected | benchmarks/evidence/src/EvidenceBenchmarkApiCost.ts:109-113 | no line after the expected usage changes anything |
| ApiCost.PriceByContext | benchmarks/evidence/src/EvidenceBenchmarkApiCost.ts:139-141 | a returned price is the short-rate price of the requests below 272,000 input tokens together plus the long-rate price of the others together, and counts both; where all are of one kind it is that rate's price of the difference |
| ApiCost.PricedExactly | benchmarks/evidence/src/EvidenceBenchmarkApiCost.ts:99-165 | a price is returned exactly when the lines that carry one request each before the expected usage stands all add up in themselves and lead to it; it is of that many requests and counts the other updates as dropped |
| ApiCost.SamplePrices | benchmarks/evidence/src/EvidenceBenchmarkApiCost.ts:42-85 | what the published rates of each model make of a short and of a long request |
| Dashboard.InspectionByGoal | benchmarks/evidence/src/EvidenceBenchmarkDashboard.ts:939-964 | the map holds for every retained Goal exactly what judging it cost |
| DashboardConservation.InspectionsConserved | benchmarks/evidence/src/EvidenceBenchmarkDashboard.ts:966-984 | with unique indexes the stages' judging adds up to the cell's |
| DashboardConservation.StagesConserveTheCell | benchmarks/evidence/src/EvidenceBenchmarkDashboard.ts:798-937 | stage tokens and stage times add up to the cell's exactly when nothing is left over, or what is left over has a receiver |
| DashboardConservation.SharesAdd | benchmarks/evidence/src/EvidenceBenchmarkDashboard.ts:907-917 | the apportioned residual adds up to the whole residual, or to nothing where there is nothing to share it by |
| DashboardTimes.TimesAreTheClock | benchmarks/evidence/src/EvidenceBenchmarkDashboard.ts:1010-1035 | Goals whose clocks are retained and do not fall are given times that add up to the last clock times 1000 |
| DashboardTimes.UnclockedKeeps | benchmarks/evidence/src/EvidenceBenchmarkDashboard.ts:1010-1035 | a record at the cursor or behind it, one without a clock and one whose clock fell keep their own elapsed time |
| DashboardTimes.OwnTimesAreTheClock | benchmarks/evidence/src/EvidenceBenchmarkDashboard.ts:1010-1035 | with suspensions the own times add up to the clock without what is attributed to these Goals |
| DashboardTimes.StageMeaning | benchmarks/evidence/src/EvidenceBenchmarkDashboard.ts:861-930 | a stage has its record's tokens and own time, its judging, and of the rest all of it where it receives, nothing where another does, and otherwise a share in proportion to its own time |
| GoalTimes.RunTimesAreTheClock | benchmarks/evidence/src/EvidenceBenchmarkDashboard.ts:1010-1035 | over every run, whatever the thread reports, the completed Goals of the run's own thread are given times that add up to that thread's clock at the last of them |
| CompletedTotals.CompletedUsageIsAllGoals | benchmarks/evidence/src/EvidenceBenchmarkDashboard.ts:798-810 | for a run the completion validator accepts, the reported usage is that of all Goals in six counters exactly when inherited Goals are counted as such |
| CompletedTotals.ListedOnce | benchmarks/evidence/src/EvidenceBenchmarkRunner.ts:1800-1816 | as many records as indexes, one found for each, hold each index once in whatever order |
| SuspensionAudit.VerifiedIsOrdered | benchmarks/evidence/src/EvidenceBenchmarkSuspensionAudit.ts:319-339 | verified intervals are the given ones, positive, ordered and disjoint |
| SuspensionAudit.ObserveEventNeighbors | benchmarks/evidence/src/EvidenceBenchmarkSuspensionAudit.ts:239-258 | reading the log once observes every interval as reading it for each alone would |
| SuspensionAudit.ActiveInstructionMeaning | benchmarks/evidence/src/EvidenceBenchmarkSuspensionAudit.ts:260-280 | the active instruction exists, and none completed no earlier than the suspension has a lower index |
| SuspensionAudit.ActiveInstructionIs | benchmarks/evidence/src/EvidenceBenchmarkSuspensionAudit.ts:260-280 | it is the lowest of those completed no earlier than the suspension began; without one it is that at the cursor of an uncompleted run that has a record for it, and otherwise none |
| SuspensionAudit.AuditRun | benchmarks/evidence/src/EvidenceBenchmarkSuspensionAudit.ts:178-237 | reading the run's bounds and events from its file, the loop writes the specified log and counts its additions |
| SuspensionAudit.ScanRun | benchmarks/evidence/src/EvidenceBenchmarkSuspensionAudit.ts:347-396 | the first line's time and, read backwards in chunks, the last accepted one bound the run, with the fallbacks of the source |
| SuspensionAudit.PairRows | benchmarks/evidence/src/EvidenceBenchmarkSuspensionAudit.ts:306-316 | paired rows are positive intervals from a disconnection to a connection, and disjoint and already verified when the rows are in time order |
| SuspensionTheorems.SuspendedIsGap | benchmarks/evidence/src/EvidenceBenchmarkSuspensionAudit.ts:200-210 | in a time-ordered log an interval counts exactly when two consecutive events of one process enclose it |
| SuspensionTheorems.FirstAuditRecordsGaps | benchmarks/evidence/src/EvidenceBenchmarkSuspensionAudit.ts:178-237 | a first audit records exactly the intervals inside the run that lie in such a gap |
| SuspensionReport.ReadBounds | benchmarks/evidence/src/EvidenceBenchmarkDashboard.ts:364-387 | the report's bounds: the first line parsed as a whole, and read backwards in chunks the last line that parses with a time |
| SuspensionReport.ReadExactly | benchmarks/evidence/src/EvidenceBenchmarkDashboard.ts:291-362 | the report reads a log exactly when every entry has a process and Goal of the run and some length inside its bounds and no two overlap, whatever their order, and then shows the same entries by start |
| SuspensionReport.ReportExactly | benchmarks/evidence/src/EvidenceBenchmarkDashboard.ts:291-387 | and a run exactly when moreover its first line, as far as it is read, is empty or parses |
| SuspensionReport.AuditIsReadable | benchmarks/evidence/src/EvidenceBenchmarkDashboard.ts:291-323 | from the empty log, or any log drawn from the same intervals, the audited log is ordered and disjoint, and the report reads it as written when that log and every interval to be added lie in the report's bounds, and refuses it otherwise |
| SuspensionReport.AgreedAuditIsReadable | benchmarks/evidence/src/EvidenceBenchmarkDashboard.ts:757-790 | where the first line, and the last line the audit accepts, read alike for the report, it reads every audited log as written |
| SuspensionReport.KilledRunIsRefused | benchmarks/evidence/src/EvidenceBenchmarkDashboard.ts:779-784 | where the last line breaks off behind its time and process, the report refuses the run for an interval the audit recorded before that line |
| SuspensionReport.SampleRunIsRefused | benchmarks/evidence/src/EvidenceBenchmarkDashboard.ts:779-784 | so it does for lines at 0 and 100 and an interval from 20 to 80 |
| SuspensionTheorems.SecondAuditAddsNothing | benchmarks/evidence/src/EvidenceBenchmarkSuspensionAudit.ts:185-195 | a second audit with the same intervals adds nothing, whatever the log was |
| Sorting.SortedByKey | benchmarks/evidence/src/EvidenceBenchmarkSuspensionAudit.ts:228-234 | sorting orders by key and keeps exactly the elements |
| NodeId.UnescapePart | benchmarks/graph/src/TtscBenchmarkGraphReduce.ts:196-210 | the loop unescapes as specified |
| NodeId.GraphNodeIdHash | benchmarks/graph/src/TtscBenchmarkGraphReduce.ts:218-227 | the loop finds the first separator behind an even run of backslashes |
| NodeId.RoundTrip | benchmarks/graph/src/TtscBenchmarkGraphReduce.ts:192-216 | unescaping gives an escaped path back exactly when it does not start with a backslash before something else, and otherwise adds that backslash |
| NodeId.HashOfEscaped | benchmarks/graph/src/TtscBenchmarkGraphReduce.ts:218-227 | the separator behind an escaped path is found behind it, whatever follows |
| NodeId.RewriteIdempotent | benchmarks/graph/src/TtscBenchmarkGraphReduce.ts:182-190 | rewriting keeps everything from the separator on and changes nothing more a second time |
| GraphReduce.DegreeOf | benchmarks/graph/src/TtscBenchmarkGraphReduce.ts:357-367 | the loop counts for every given node the edge ends that meet it, and has no other key |
| GraphTheorems.CapKeepsTheHighest | benchmarks/graph/src/TtscBenchmarkGraphReduce.ts:300-308 | at most the cap survives, and no dropped node has a higher degree than a kept one |
| GraphTheorems.NoEdgeLost | benchmarks/graph/src/TtscBenchmarkGraphReduce.ts:310-336 | pruning orphans loses no edge between survivors and leaves no link dangling |
| GraphTheorems.NodeShownIffMet | benchmarks/graph/src/TtscBenchmarkGraphReduce.ts:292-336 | a node is shown, as it is in the dump, exactly when it survives and an edge between survivors meets it |
| GraphTheorems.SurvivesIffKept | benchmarks/graph/src/TtscBenchmarkGraphReduce.ts:292-308 | within the cap the survivors are exactly the nodes the options keep |
| GraphTheorems.CountsCount | benchmarks/graph/src/TtscBenchmarkGraphReduce.ts:338-354 | each count counts the externals, the ignored that are not external, and those beyond the cap |
| GraphTheorems.EdgeShownIffBetween | benchmarks/graph/src/TtscBenchmarkGraphReduce.ts:292-313 | an edge of the dump remains exactly when both its ends survive |
| GraphTheorems.DegreesAddUp | benchmarks/graph/src/TtscBenchmarkGraphReduce.ts:310-336 | with unique raw ids the shown degrees add up to twice the links, and at most the cap is shown |
| GraphTheorems.CountsAddUp | benchmarks/graph/src/TtscBenchmarkGraphReduce.ts:338-354 | raw nodes are external plus ignored plus capped plus kept exactly when no node is doubly marked in a dump that keeps only externals |
| FanOut.RunOk | benchmarks/graph/src/TtscBenchmarkGraphSuite.ts:355-372 | under every schedule finished and in-flight items are exactly those below the cursor, each held by one of at most the limit's lanes |
| FanOut.ClaimedOnce | benchmarks/graph/src/TtscBenchmarkGraphSuite.ts:363-366 | every item below the cursor was claimed once, every other one never |
| FanOut.WorkConserved | benchmarks/graph/src/TtscBenchmarkGraphSuite.ts:355-372 | effective steps and remaining work always add up to two per item and one per lane |
| FanOut.CompletionMapsAll | benchmarks/graph/src/TtscBenchmarkGraphSuite.ts:355-372 | a schedule completes the pool exactly when it has done all the work, and then the results map every item in order |
| FanOut.Lanes.Advance | benchmarks/graph/src/TtscBenchmarkGraphSuite.ts:361-370 | a lane's step on the shared variables is the specified one |
| Coverage.CoverageIsMonotone | benchmarks/evidence/src/EvidenceBenchmarkCoverage.ts:73-191 | over the same populations every score, wholeness and obligation is null or in [0,1] and never falls when more is reached |
| Coverage.ScoreMeasurable | benchmarks/evidence/src/EvidenceBenchmarkCoverage.ts:84-128 | the score is null exactly when no requirement has a population whose targets can be measured |
| Coverage.CoverageIsComposed | benchmarks/evidence/src/EvidenceBenchmarkCoverage.ts:73-130 | each rate is reached over eligible, each wholeness the chain or mean of chains its kind is traced by, each obligation a rate times a wholeness, and the score the mean of the measurable obligations |
| ShellCommand.ShellSegments | benchmarks/evidence/src/EvidenceBenchmarkReviewLedger.ts:1728-1749 | the loop splits as specified |
| ShellCommand.ShellTokens | benchmarks/evidence/src/EvidenceBenchmarkReviewLedger.ts:1751-1773 | the loop reads tokens as specified |
| ShellCommand.SkipCommandOptions | benchmarks/evidence/src/EvidenceBenchmarkReviewLedger.ts:1703-1719 | the loop skips options, and their values where they take one |
| ShellCommand.TokensFit | benchmarks/evidence/src/EvidenceBenchmarkReviewLedger.ts:1751-1773 | tokens with their joining spaces never exceed the segment, and none is empty |
| ShellCommand.InnerIsShorter | benchmarks/evidence/src/EvidenceBenchmarkReviewLedger.ts:1592-1683 | a wrapped command is strictly shorter than the segment it is taken from, so both tests end |
| ShellCommand.SegmentsStand | benchmarks/evidence/src/EvidenceBenchmarkReviewLedger.ts:1728-1749 | every segment, split again, is itself |
| ShellCommand.SegmentsFit | benchmarks/evidence/src/EvidenceBenchmarkReviewLedger.ts:1728-1749 | no segment is longer than the command |
| ShellCommand.RunsBySegment | benchmarks/evidence/src/EvidenceBenchmarkReviewLedger.ts:1592-1683 | a command runs something recognised exactly when one of its segments, run alone, does |
| ShellCommand.BackendTestsBySegment | benchmarks/evidence/src/EvidenceBenchmarkReviewLedger.ts:1592-1683 | a command drives the backend lifecycle, or a resident server, exactly when one of its segments, run alone, does |
| ShellReading.ScriptSegments | benchmarks/evidence/src/EvidenceBenchmarkReviewLedger.ts:1728-1749 | lines joined by `;`, `&` or a vertical bar come back as the segments they were, whatever is quoted or escaped in them |
| ShellReading.LineTokens | benchmarks/evidence/src/EvidenceBenchmarkReviewLedger.ts:1751-1773 | words come back as they were meant, in any mixture of bare, quoted and escaped characters |
| ShellReading.PlainLineRuns | benchmarks/evidence/src/EvidenceBenchmarkReviewLedger.ts:1592-1683 | a line that starts with no shell runs what its own words are recognised as |
| ShellReading.WrappedLineRuns | benchmarks/evidence/src/EvidenceBenchmarkReviewLedger.ts:1592-1683 | a shell that is given a command runs exactly what that command runs |
| ShellReading.IdleShell | benchmarks/evidence/src/EvidenceBenchmarkReviewLedger.ts:1592-1683 | a shell without one runs nothing |
| ShellReading.ProgramName | benchmarks/evidence/src/EvidenceBenchmarkReviewLedger.ts:1721-1726 | a program is known by its name, wherever it lies and with either file ending |
| ShellReading.OptionsDoNotMatter | benchmarks/evidence/src/EvidenceBenchmarkReviewLedger.ts:1703-1719 | options in front of a package manager's action, six of them with a value, do not matter |
| ShellReading.ManagerRuns | benchmarks/evidence/src/EvidenceBenchmarkReviewLedger.ts:1592-1683 | under four package managers a script drives the backend exactly when it is one of ten, and is a server exactly when it is `dev` |
| ShellReading.ScriptAlone | benchmarks/evidence/src/EvidenceBenchmarkReviewLedger.ts:1592-1683 | a script's name alone drives it, too |
| ShellReading.PlainAction | benchmarks/evidence/src/EvidenceBenchmarkReviewLedger.ts:1592-1683 | and `dev` alone is a server, and nothing else alone |
| ShellReading.ToolRuns | benchmarks/evidence/src/EvidenceBenchmarkReviewLedger.ts:1592-1683 | and a tool exactly when it is `ttsc`, a schema run of `ttsx`, `prisma generate` or `nestia all`, from any directory |
| ShellReading.LaunchedRuns | benchmarks/evidence/src/EvidenceBenchmarkReviewLedger.ts:1592-1683 | behind `exec`, `dlx`, `x` and `npx` as alone |

## Left out

- Digests: a digest is modelled as the content itself, so equal digests are equal contents.
- Clocks: ledger times are strictly increasing ticks; the original compares ISO strings, where two events may share one.
- Files: modes, symbolic links, path normalisation, UTF-8 and base64 are not modelled, and byte limits count characters. A manifest's refusal of a duplicate path cannot arise in the model because its sections are disjoint.
- Records: rounds, edits, commands, calibrations, Goals and pauses are values in sequence fields; the original's references to one shared record object are replaced by updates at its position. Findings keep no trimmed text.
- Native commands: the observation of commands the agent runs itself (`observeNativeCommand`) is not modelled; the two command tests it uses are, in `ShellCommand`, where case is folded for ASCII letters only.
- Objectives: the text of an objective is a value handed in; its composition, limits and line-ending comparison are not modelled.
- Timing of the launch: a notification that arrives while the launching flow dispatches a Goal or replays its backlog is handled after it, and one that arrives while a resume's own advance waits for its checkpoint likewise; a thread is assumed to answer the request that sets a Goal before it reports that Goal complete.
- Retained state after a failed last publication: what the run returns to its caller then is not retained, and only the retained state is modelled.
- Operator warnings: dropping a record and restarting it at the current total breaks the chain of starts, so this step is excluded.
- Older formats: legacy plans, derived states without their native start and the `quality-failed` status are not modelled.
- Deriving a run: the comparison with the source's cell and checkpoint and the restored workspace are not modelled, only the state they lead to. A derived state for which no thread was retained can be launched as a fork again here; the command line does that only the first time and starts a new thread afterwards.
- Process control: spawning, timeouts, kill trees, the JSON-RPC transport and home preparation appear only as events and outcomes.
- Prices: amounts are exact reals, without the original's rounding, and the sum of an inherited and a continued price is not modelled.
- Percentages, names and rendering in the report are not modelled, and neither is the choice of the latest runs.
- Audit times are whole milliseconds; the matching of a line's start, JSON, dates and trimming are functions handed in, and parsing of power logs is not modelled. An events file is assumed to exist.
- Roots: the search for a common root and the relative form of a path under it are not modelled; the reduction is proved for every rewriting of ids and files.
- Worker failures: an item whose function fails rejects the original's pool as a whole and is not modelled.
- NodeId.RewriteIdempotent: stated for a null root only, the form of current dumps.
- GoalTheorems.GuardedRunsAreExact: speaks of all Goals, so it excludes launches from a drifted total, which give the Goal at the cursor an inexact start (`GoalDrift.UnguardedLaunchTaints`, `GoalTheorems.LaunchTaintsExactly`); for completed Goals `GoalExactness.CompletedPrefixIsExact` has no such guard.
- Honest threads: `GoalHonest.HonestRun` assumes that counters do not fall below the total once the run's own thread has completed a Goal, and that, until the Goal at the cursor has been asked for, no report carries its objective, apart from the snapshot of a completed Goal with the same text, which names no turn. A thread that breaks this, for instance by completing a Goal it was never asked for, can complete one whose start is inexact, and then `GoalDrift.InexactForever` applies.
- Writes: within one write other processes do not write, a temporary name is free, and no file operation fails that its guard admits (a failing rename or a full disk); the metadata of files is not modelled.
- Interval identity: the audit's test whether an interval is recorded already compares times, where the source compares the written ISO strings, so an equal interval spelled differently would be added again.
- Supervision's retained verdict files and their hashes are not modelled; a verdict whose file cannot be stored is.
