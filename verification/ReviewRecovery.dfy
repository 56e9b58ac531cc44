/**
 Crash safety of calibrations. A break's snapshot reaches the disk before the
 break reaches the workspace. The roll-back takes the manifest before it writes
 and again behind it, so what the retained ledger can undo after a crash is
 decided by what the write left lying about.
 */
module ReviewRecovery {
  import opened Prelude
  import opened ReviewWorkspace
  import opened ReviewProtocol
  import opened ReviewSafety
  import opened ReviewRun
  import opened ReviewTheorems

  /** A snapshot of a scoped path holds exactly what the sealed manifest records there. */
  ghost predicate SnapshotSound(c: Calibration) {
    && IsManifest(c.baseline)
    && (c.snapshot.Some? && Scoped(c.snapshot.value.path) ==>
          c.snapshot.value.original == Recorded(c.baseline, c.snapshot.value.path))
  }

  ghost predicate SnapshotsSound(l: Ledger) {
    forall i | 0 <= i < |l.calibrations| :: SnapshotSound(l.calibrations[i])
  }

  /** An unfinished calibration's snapshot covers what its break changed. */
  ghost predicate Covers(l: Ledger, broken: set<string>) {
    l.calibrations != [] && Unresolved(Last(l.calibrations)) && broken != {} ==>
      && Last(l.calibrations).snapshot.Some?
      && broken == {Last(l.calibrations).snapshot.value.path}
      && Scoped(Last(l.calibrations).snapshot.value.path)
  }

  /** Between calls the live ledger is the retained one, and a running command has not touched a calibration. */
  predicate Synced(s: State) {
    && (s.pending == Idle ==> s.memory == s.disk)
    && (s.pending == CommandRunning ==> s.memory.calibrations == s.disk.calibrations)
  }

  ghost predicate Recoverable(s: State) {
    && Synced(s)
    && SnapshotsSound(s.memory) && SnapshotsSound(s.disk)
    && Covers(s.memory, s.broken) && Covers(s.disk, s.broken)
  }

  // ----- what a call does to the calibrations -----

  /** The last calibration keeps its snapshot or drops it, or a fresh one is sealed over a taken manifest. */
  ghost predicate CalibrationsMove(before: Ledger, after: Ledger) {
    || after.calibrations == before.calibrations
    || (&& before.calibrations != []
        && |after.calibrations| == |before.calibrations|
        && after.calibrations[..|after.calibrations| - 1] == before.calibrations[..|before.calibrations| - 1]
        && Last(after.calibrations).baseline == Last(before.calibrations).baseline
        && (Last(after.calibrations).snapshot.None? || Last(after.calibrations).snapshot == Last(before.calibrations).snapshot))
  }

  lemma MoveKeepsSound(before: Ledger, after: Ledger)
    requires SnapshotsSound(before) && CalibrationsMove(before, after)
    ensures SnapshotsSound(after)
  {
    forall i | 0 <= i < |after.calibrations| ensures SnapshotSound(after.calibrations[i]) {
      assert SnapshotSound(before.calibrations[i]);
      if i < |after.calibrations| - 1 {
        assert after.calibrations[i] == after.calibrations[..|after.calibrations| - 1][i];
        assert before.calibrations[i] == before.calibrations[..|before.calibrations| - 1][i];
      }
    }
  }

  lemma SealKeepsSound(before: Ledger, taken: Option<Manifest>, now: nat)
    requires SnapshotsSound(before)
    requires taken.Some? ==> IsManifest(taken.value)
    ensures SnapshotsSound(SealCalibration(before, taken, now).ledger)
  {
  }

  lemma TakenIsManifest(ws: Workspace)
    ensures ManifestOf(ws).Some? ==> IsManifest(ManifestOf(ws).value)
  {
  }

  lemma StartCalibrationSound(l: Ledger, taken: Option<Manifest>, rolledBack: bool, now: nat)
    requires SnapshotsSound(l) && (taken.Some? ==> IsManifest(taken.value))
    ensures SnapshotsSound(StartCalibration(l, taken, rolledBack, now).ledger)
  {
    if NeedsRollback(l, taken) {
      var previous := Last(l.calibrations);
      assert SnapshotSound(l.calibrations[|l.calibrations| - 1]);
      if rolledBack {
        var restored := WithLastCalibration(l, RecordRestore(previous).(status := InvalidCalibration));
        MoveKeepsSound(l, restored);
        SealKeepsSound(restored, Some(previous.baseline), now);
      } else {
        MoveKeepsSound(l, WithLastCalibration(l, previous.(status := InvalidCalibration)));
      }
    } else {
      SealKeepsSound(l, taken, now);
    }
  }

  lemma StartCalibrationCovers(l: Ledger, taken: Option<Manifest>, rolledBack: bool, now: nat, broken: set<string>)
    requires Covers(l, broken)
    ensures var answer := StartCalibration(l, taken, rolledBack, now);
      Covers(answer.ledger, if answer.reply == Success then {} else broken)
  {
  }

  lemma StoreSnapshotSound(l: Ledger, ws: Workspace, plan: EditPlan)
    requires SnapshotsSound(l) && l.calibrations != []
    requires ManifestOf(ws) == Some(Last(l.calibrations).baseline)
    requires plan.before == Lookup(ws, plan.path)
    ensures SnapshotsSound(StoreSnapshot(l, plan))
  {
    var after := StoreSnapshot(l, plan);
    assert SnapshotSound(l.calibrations[|l.calibrations| - 1]);
    if Scoped(plan.path) { ManifestRecords(ws, plan.path); }
    forall i | 0 <= i < |after.calibrations| ensures SnapshotSound(after.calibrations[i]) {
      if i < |l.calibrations| - 1 { assert SnapshotSound(l.calibrations[i]); }
    }
  }

  lemma AcceptedBreakMatchesBaseline(l: Ledger, ws: Workspace, request: EditRequest)
    requires var decision := DecideEdit(l, ManifestOf(ws), Editable(ws, request.path), Lookup(ws, request.path), request);
      decision.Accepted? && decision.plan.phase == Break
    ensures var plan := DecideEdit(l, ManifestOf(ws), Editable(ws, request.path), Lookup(ws, request.path), request).plan;
      && plan.path == request.path && plan.before == Lookup(ws, plan.path)
      && l.calibrations != [] && ManifestOf(ws) == Some(Last(l.calibrations).baseline)
  {
  }

  lemma CompleteCommandMoves(l: Ledger, now: nat, status: CommandStatus, rolledBack: bool)
    requires l.commands != []
    ensures CalibrationsMove(l, CompleteCommand(l, now, status, rolledBack).ledger)
  {
  }

  lemma CompleteCommandCovers(l: Ledger, now: nat, status: CommandStatus, rolledBack: bool, broken: set<string>)
    requires CommandReady(l) && Covers(l, broken)
    ensures Covers(CompleteCommand(l, now, status, rolledBack).ledger, if rolledBack then {} else broken)
  {
  }

  // ----- each step keeps recoverability -----

  lemma WriteMoves(s: State, plan: EditPlan)
    requires s.memory.rounds != []
    requires plan.phase != Correction ==> s.memory.calibrations != []
    ensures CalibrationsMove(s.memory, DoWrite(s, plan).memory) && DoWrite(s, plan).disk == s.disk
  {
    assert CalibrationsMove(s.memory, RejectEdit(s.memory, plan));
    assert CalibrationsMove(s.memory, RecordEdit(s.memory, plan));
  }

  lemma WriteRecoverable(s: State, plan: EditPlan)
    requires Recoverable(s) && s.memory.rounds != []
    requires plan.phase != Correction ==> s.memory.calibrations != []
    requires plan.phase == Break ==>
      && s.broken == {}
      && Last(s.memory.calibrations).snapshot == Some(Snapshot(plan.path, plan.before))
      && s.disk.calibrations != []
      && Last(s.disk.calibrations).snapshot == Some(Snapshot(plan.path, plan.before))
    ensures Recoverable(DoWrite(s, plan))
  {
    WriteMoves(s, plan);
    MoveKeepsSound(s.memory, DoWrite(s, plan).memory);
  }

  lemma EditRecoverable(s: State, request: EditRequest)
    requires Recoverable(s) && SafeState(s) && s.pending == Idle
    ensures Recoverable(DoEdit(s, request))
  {
    var before := Lookup(s.ws, request.path);
    var decision := DecideEdit(s.memory, ManifestOf(s.ws), Editable(s.ws, request.path), before, request);
    DecideEditKeeps(s.memory, ManifestOf(s.ws), s.clock, Editable(s.ws, request.path), before, request);
    match decision
    case Rejected(answer) => assert answer.ledger.calibrations == s.memory.calibrations;
    case Accepted(plan) =>
      if plan.phase == Break {
        AcceptedBreakMatchesBaseline(s.memory, s.ws, request);
        StoreSnapshotSound(s.memory, s.ws, plan);
      } else {
        WriteRecoverable(s, plan);
      }
  }

  lemma StartCalibrationRecoverable(s: State)
    requires Recoverable(s)
    ensures Recoverable(DoStartCalibration(s))
  {
    var taken := ManifestOf(s.ws);
    TakenIsManifest(s.ws);
    var rolledBack := Rollback(s, NeedsRollback(s.memory, taken)).Restored?;
    StartCalibrationSound(s.memory, taken, rolledBack, s.clock);
    StartCalibrationCovers(s.memory, taken, rolledBack, s.clock, s.broken);
  }

  lemma CommandFinishedRecoverable(s: State, result: ProcessResult)
    requires Recoverable(s) && PendingOk(s)
    ensures Recoverable(DoCommandFinished(s, result))
  {
    if s.pending == CommandRunning {
      var status := FinishedStatus(Last(s.memory.commands).tool, Last(s.memory.commands).phase, result);
      var rolledBack := Rollback(s, BreakUndetected(s.memory, status)).Restored?;
      var after := CompleteCommand(s.memory, s.clock, status, rolledBack).ledger;
      CompleteCommandMoves(s.memory, s.clock, status, rolledBack);
      MoveKeepsSound(s.memory, after);
      CompleteCommandCovers(s.memory, s.clock, status, rolledBack, s.broken);
    }
  }

  /** The calls that leave every calibration alone. */
  lemma RoundCallsLeaveCalibrations(l: Ledger, taken: Option<Manifest>, now: nat)
    ensures StartRound(l, taken, now).ledger.calibrations == l.calibrations
    ensures forall path, observed :: ReadFile(l, taken, now, path, observed).ledger.calibrations == l.calibrations
    ensures forall verdict, findings :: FinishRound(l, taken, now, verdict, findings).ledger.calibrations == l.calibrations
    ensures forall tool, phase :: BeginCommand(l, taken, now, tool, phase).ledger.calibrations == l.calibrations
  {
  }

  lemma CallRecoverable(s: State, action: Action)
    requires Recoverable(s) && SafeState(s) && s.pending == Idle
    ensures Recoverable(DoCall(s, action))
  {
    match action
    case CallStartCalibration => StartCalibrationRecoverable(s);
    case CallEdit(request) => EditRecoverable(s, request);
    case _ =>
      RoundCallsLeaveCalibrations(s.memory, ManifestOf(s.ws), s.clock);
      var after := DoCall(s, action);
      assert after.memory.calibrations == s.memory.calibrations && after.disk == s.disk && after.broken == s.broken;
  }

  /** The steps between calls that write no workspace of their own. */
  lemma QuietStepRecoverable(s: State, action: Action)
    requires Recoverable(s) && SafeState(s)
    requires action.Environment? || action.Crash? || action.Publish? || action.CallAborted?
    ensures Recoverable(Step(s, action))
  {
  }

  lemma TornCovered(s: State, during: Action)
    requires Recoverable(s) && PendingOk(s)
    ensures Covers(s.disk, TornBreak(s, during))
  {
  }

  /** A crash inside a write of a break, an edit or a roll-back. */
  lemma CrashWritingRecoverable(s: State, during: Action, undoing: bool, stage: WriteStage)
    requires Recoverable(s) && PendingOk(s)
    ensures Recoverable(DoCrashWriting(s, during, undoing, stage))
  {
    TornCovered(s, during);
  }

  lemma StepRecoverable(s: State, action: Action)
    requires Recoverable(s) && SafeState(s)
    ensures Recoverable(Step(s, action))
  {
    if action.Environment? || action.Crash? || action.Publish? || action.CallAborted? {
      QuietStepRecoverable(s, action);
    } else if action.CrashWriting? {
      CrashWritingRecoverable(s, action.during, action.undoing, action.stage);
    } else if action.WriteBreak? {
      if s.pending.BreakPrepared? && s.pending.published { WriteRecoverable(s, s.pending.plan); }
    } else if action.CommandFinished? {
      CommandFinishedRecoverable(s, action.result);
    } else if s.pending == Idle {
      CallRecoverable(s, action);
    }
  }

  lemma {:induction false} RunRecoverable(ws: Workspace, actions: seq<Action>)
    ensures Recoverable(Run(Initial(ws), actions))
    decreases |actions|
  {
    if actions != [] {
      var init := actions[..|actions| - 1];
      RunRecoverable(ws, init);
      RunSafe(ws, init);
      StepRecoverable(Run(Initial(ws), init), Last(actions));
    }
  }

  // ----- what a roll-back can do -----

  lemma ConfigurationScoped(i: nat)
    requires i < CONFIGURATION_COUNT
    ensures Scoped(ConfigurationPath(i))
  {
    assert InSection(Configuration, ConfigurationPath(i));
  }

  predicate DirectoriesStand(ws: Workspace) {
    forall section: Section | section != Configuration :: DirectoryOf(section) in ws.directories
  }

  lemma BaselineIsListable(ws: Workspace, baseline: Manifest)
    requires IsManifest(baseline) && DirectoriesStand(ws)
    requires forall p | Scoped(p) :: Lookup(ws, p) == Recorded(baseline, p)
    ensures ManifestOf(ws) == Some(baseline)
  {
    RecordedDecidesManifest(ws, baseline);
    var origin :| Listable(origin) && baseline == Entries(origin);
    forall i | 0 <= i < CONFIGURATION_COUNT ensures ConfigurationPath(i) in ws.files {
      var p := ConfigurationPath(i);
      ConfigurationScoped(i);
      ManifestRecords(origin, p);
      assert Lookup(ws, p) == Lookup(origin, p);
    }
  }

  /** What a workspace holds once a snapshot is put back. */
  ghost predicate MatchesWithSnapshot(ws: Workspace, c: Calibration, snapshot: Snapshot) {
    forall p | Scoped(p) ::
      (if p == snapshot.path then snapshot.original else Lookup(ws, p)) == Recorded(c.baseline, p)
  }

  lemma SnapshotMatches(ws: Workspace, c: Calibration, snapshot: Snapshot)
    requires IsManifest(c.baseline) && DirectoriesStand(ws)
    requires WriteEdit(ws, snapshot.path, snapshot.original).Some?
    ensures ManifestOf(WriteEdit(ws, snapshot.path, snapshot.original).value) == Some(c.baseline)
       <==> MatchesWithSnapshot(ws, c, snapshot)
  {
    var written := WriteEdit(ws, snapshot.path, snapshot.original).value;
    if MatchesWithSnapshot(ws, c, snapshot) {
      forall p | Scoped(p) ensures Lookup(written, p) == Recorded(c.baseline, p) { }
      BaselineIsListable(written, c.baseline);
    }
    if ManifestOf(written) == Some(c.baseline) {
      RecordedDecidesManifest(written, c.baseline);
      forall p | Scoped(p)
        ensures (if p == snapshot.path then snapshot.original else Lookup(ws, p)) == Recorded(c.baseline, p)
      {
        assert Lookup(written, p) == Recorded(c.baseline, p);
      }
    }
  }

  /**
   A roll-back succeeds exactly when the manifest can be taken as the workspace
   is, and either is the baseline already or becomes it in every scoped file once
   the snapshot is put back. So a missing configuration file, a file the baseline
   does not record and a later correction to another reviewed file each defeat it.
   */
  lemma RollbackExactly(ws: Workspace, c: Calibration)
    requires IsManifest(c.baseline)
    ensures RestoreCalibration(ws, c).Restored? <==>
      && Listable(ws)
      && (Entries(ws) == c.baseline
          || (&& c.snapshot.Some? && Editable(ws, c.snapshot.value.path)
              && WriteEdit(ws, c.snapshot.value.path, c.snapshot.value.original).Some?
              && MatchesWithSnapshot(ws, c, c.snapshot.value)))
  {
    if Listable(ws) && c.snapshot.Some? && WriteEdit(ws, c.snapshot.value.path, c.snapshot.value.original).Some? {
      SnapshotMatches(ws, c, c.snapshot.value);
    }
  }

  /** A roll-back that succeeds leaves the sealed manifest and has touched no file but the snapshot's. */
  lemma RestoredEffect(ws: Workspace, c: Calibration)
    requires RestoreCalibration(ws, c).Restored?
    ensures ManifestOf(RestoreCalibration(ws, c).ws) == Some(c.baseline)
    ensures forall p | c.snapshot.None? || p != c.snapshot.value.path :: Lookup(RestoreCalibration(ws, c).ws, p) == Lookup(ws, p)
    ensures Listable(ws)
  {
  }

  // ----- the theorem -----

  /** The path of the break an unfinished calibration can put back. */
  predicate PutBack(c: Calibration, p: string) {
    c.snapshot.Some? && p == c.snapshot.value.path
  }

  /** A temporary file the sealed manifest does not record. */
  predicate Stray(ws: Workspace, baseline: Manifest, p: string) {
    Scoped(p) && IsTemporary(p) && Lookup(ws, p) != Recorded(baseline, p)
  }

  /**
   Apart from what the runner's own break wrote and the temporary files it left,
   the scoped files are as they were sealed; the directories stand, and the
   break's file can still be edited.
   */
  ghost predicate OnlyRunnerDiffers(ws: Workspace, c: Calibration, broken: set<string>) {
    && DirectoriesStand(ws)
    && (c.snapshot.Some? ==> Editable(ws, c.snapshot.value.path))
    && forall p | Scoped(p) && p !in broken && !IsTemporary(p) :: Lookup(ws, p) == Recorded(c.baseline, p)
  }

  /** Nothing lies about that the manifest lists, and every file it requires exists. */
  ghost predicate Tidy(ws: Workspace, c: Calibration) {
    && (forall p | Stray(ws, c.baseline, p) :: PutBack(c, p))
    && forall i | 0 <= i < CONFIGURATION_COUNT :: ConfigurationPath(i) in ws.files
  }

  lemma SnapshotUndoesBreak(ws: Workspace, c: Calibration)
    requires SnapshotSound(c) && Listable(ws) && ManifestOf(ws) != Some(c.baseline)
    requires c.snapshot.Some? ==> Editable(ws, c.snapshot.value.path)
    requires forall p | Scoped(p) && !PutBack(c, p) :: Lookup(ws, p) == Recorded(c.baseline, p)
    ensures RestoreCalibration(ws, c).Restored?
  {
    RecordedDecidesManifest(ws, c.baseline);
    var p :| Scoped(p) && Lookup(ws, p) != Recorded(c.baseline, p);
    assert PutBack(c, p);
    RollbackExactly(ws, c);
  }

  lemma TidyRestores(ws: Workspace, c: Calibration, broken: set<string>)
    requires SnapshotSound(c) && OnlyRunnerDiffers(ws, c, broken) && Tidy(ws, c)
    requires forall p | p in broken :: PutBack(c, p)
    ensures RestoreCalibration(ws, c).Restored?
  {
    if ManifestOf(ws) != Some(c.baseline) {
      forall p | Scoped(p) && !PutBack(c, p) ensures Lookup(ws, p) == Recorded(c.baseline, p) {
        assert p !in broken;
        if IsTemporary(p) { assert !Stray(ws, c.baseline, p); }
      }
      SnapshotUndoesBreak(ws, c);
    }
  }

  lemma RestoredIsTidy(ws: Workspace, c: Calibration)
    requires IsManifest(c.baseline) && RestoreCalibration(ws, c).Restored?
    ensures Tidy(ws, c)
  {
    RestoredEffect(ws, c);
    RecordedDecidesManifest(RestoreCalibration(ws, c).ws, c.baseline);
    forall p | Stray(ws, c.baseline, p) ensures PutBack(c, p) {
      if !PutBack(c, p) {
        assert Lookup(RestoreCalibration(ws, c).ws, p) == Recorded(c.baseline, p);
      }
    }
  }

  lemma RecoveryDecided(l: Ledger, ws: Workspace, broken: set<string>)
    requires SnapshotsSound(l) && Covers(l, broken) && l.calibrations != [] && Unresolved(Last(l.calibrations))
    requires OnlyRunnerDiffers(ws, Last(l.calibrations), broken)
    ensures RestoreCalibration(ws, Last(l.calibrations)).Restored? <==> Tidy(ws, Last(l.calibrations))
  {
    var c := Last(l.calibrations);
    assert SnapshotSound(l.calibrations[|l.calibrations| - 1]);
    if Tidy(ws, c) {
      TidyRestores(ws, c, broken);
    }
    if RestoreCalibration(ws, c).Restored? {
      RestoredIsTidy(ws, c);
    }
  }

  /**
   Wherever a run is cut off, inside a write or between two steps: if nothing but
   the runner's own writes changed the scoped files, the retained ledger rolls an
   unfinished calibration back exactly when the write has left no temporary file
   the manifest would list and every configuration file exists. Then the sealed
   manifest is back and no other file is touched.
   */
  lemma CrashIsRecoverable(ws: Workspace, actions: seq<Action>)
    ensures var s := Run(Initial(ws), actions);
      s.disk.calibrations != [] ==>
        var c := Last(s.disk.calibrations);
        Unresolved(c) && OnlyRunnerDiffers(s.ws, c, s.broken) ==>
          && (RestoreCalibration(s.ws, c).Restored? <==> Tidy(s.ws, c))
          && (RestoreCalibration(s.ws, c).Restored? ==>
                && ManifestOf(RestoreCalibration(s.ws, c).ws) == Some(c.baseline)
                && forall p | !PutBack(c, p) :: Lookup(RestoreCalibration(s.ws, c).ws, p) == Lookup(s.ws, p))
  {
    RunRecoverable(ws, actions);
    var s := Run(Initial(ws), actions);
    if s.disk.calibrations != [] && Unresolved(Last(s.disk.calibrations)) {
      var c := Last(s.disk.calibrations);
      if OnlyRunnerDiffers(s.ws, c, s.broken) {
        RecoveryDecided(s.disk, s.ws, s.broken);
        if RestoreCalibration(s.ws, c).Restored? { RestoredEffect(s.ws, c); }
      }
    }
  }
}
