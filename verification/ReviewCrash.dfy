/**
 A crash inside the write of a break: exactly which of them the next roll-back
 survives, runs that end in the others, and what those cost.
 */
module ReviewCrash {
  import opened Prelude
  import opened ReviewWorkspace
  import opened ReviewText
  import opened ReviewProtocol
  import opened ReviewSafety
  import opened ReviewRun
  import opened ReviewTheorems
  import opened ReviewRecovery
  import opened ReviewGate
  import opened ReviewLoss

  // ----- the condition on the call -----

  /** A break whose snapshot is retained and which is about to be written over the sealed files. */
  ghost predicate AboutToBreak(s: State) {
    && SafeState(s) && Recoverable(s)
    && s.pending.BreakPrepared? && s.pending.published
    && ManifestOf(s.ws) == Some(Last(s.disk.calibrations).baseline)
    && Editable(s.ws, s.pending.plan.path) && Lookup(s.ws, s.pending.plan.path) == s.pending.plan.before
    && (s.pending.plan.after.None? ==> s.pending.plan.path in s.ws.files)
  }

  /** Whether the retained ledger rolls the workspace back. */
  predicate RollsBackFrom(s: State) {
    s.disk.calibrations != [] && RestoreCalibration(s.ws, Last(s.disk.calibrations)).Restored?
  }

  /** The workspace misses a configuration file. */
  lemma MissingConfiguration(ws: Workspace, c: Calibration, path: string)
    requires IsConfiguration(path) && path !in ws.files
    ensures ManifestOf(ws).None? && !RestoreCalibration(ws, c).Restored?
  {
    var i :| 0 <= i < CONFIGURATION_COUNT && ConfigurationPath(i) == path;
    assert ConfigurationPath(i) !in ws.files;
  }

  lemma StrayDefeats(before: Workspace, c: Calibration, path: string, content: Option<string>, stage: WriteStage)
    requires SnapshotSound(c) && ManifestOf(before) == Some(c.baseline) && c.snapshot.Some? && c.snapshot.value.path == path
    requires InTemporary(before, path, content, stage) && Listed(path)
    ensures !RestoreCalibration(WriteAt(before, path, content, stage), c).Restored?
  {
    var left := WriteAt(before, path, content, stage);
    TemporaryScoped(stage.temporary, path);
    ManifestRecords(before, stage.temporary);
    assert Stray(left, c.baseline, stage.temporary);
    if RestoreCalibration(left, c).Restored? {
      RestoredIsTidy(left, c);
      assert false;
    }
  }

  lemma SealedFiles(ws: Workspace, c: Calibration)
    requires ManifestOf(ws) == Some(c.baseline)
    ensures forall p | Scoped(p) :: Lookup(ws, p) == Recorded(c.baseline, p)
  {
    forall p | Scoped(p) ensures Lookup(ws, p) == Recorded(c.baseline, p) {
      ManifestRecords(ws, p);
    }
  }

  /** Away from its own path the file system is as it was, and the required files are there. */
  lemma OwnPathRestores(before: Workspace, left: Workspace, c: Calibration, path: string)
    requires SnapshotSound(c) && ManifestOf(before) == Some(c.baseline) && c.snapshot.Some? && c.snapshot.value.path == path
    requires Editable(before, path) && left.directories == before.directories
    requires forall p | Scoped(p) && p != path :: Lookup(left, p) == Lookup(before, p)
    requires IsConfiguration(path) ==> path in left.files
    ensures RestoreCalibration(left, c).Restored?
  {
    SealedFiles(before, c);
    forall i | 0 <= i < CONFIGURATION_COUNT ensures ConfigurationPath(i) in left.files {
      ConfigurationScoped(i);
      if ConfigurationPath(i) != path {
        assert Lookup(left, ConfigurationPath(i)) == Lookup(before, ConfigurationPath(i));
      }
    }
    if ManifestOf(left) != Some(c.baseline) {
      SnapshotUndoesBreak(left, c);
    }
  }

  lemma WriteSurvives(before: Workspace, c: Calibration, path: string, content: Option<string>, stage: WriteStage)
    requires SnapshotSound(c) && ManifestOf(before) == Some(c.baseline) && c.snapshot.Some? && c.snapshot.value.path == path
    requires Editable(before, path) && (content.None? ==> path in before.files)
    requires !(InTemporary(before, path, content, stage) && Listed(path))
    requires !(stage.Complete? && content.None? && IsConfiguration(path))
    ensures RestoreCalibration(WriteAt(before, path, content, stage), c).Restored?
  {
    var left := WriteAt(before, path, content, stage);
    WriteAtEffect(before, path, content, stage);
    if InTemporary(before, path, content, stage) {
      TemporaryScoped(stage.temporary, path);
    }
    assert IsConfiguration(path) ==> path in left.files by {
      if i :| 0 <= i < CONFIGURATION_COUNT && ConfigurationPath(i) == path {
        assert ConfigurationPath(i) in before.files;
      }
    }
    OwnPathRestores(before, left, c, path);
  }

  lemma BreakSnapshot(s: State)
    requires AboutToBreak(s)
    ensures s.disk.calibrations != [] && SnapshotSound(Last(s.disk.calibrations))
    ensures Last(s.disk.calibrations).snapshot == Some(Snapshot(s.pending.plan.path, s.pending.plan.before))
    ensures s.memory.rounds != [] && s.memory.calibrations != []
  {
    assert SnapshotSound(s.disk.calibrations[|s.disk.calibrations| - 1]);
  }

  lemma BreakStands(ws: Workspace, plan: EditPlan)
    requires Listable(ws) && (plan.after.None? ==> plan.path in ws.files && !IsConfiguration(plan.path))
    ensures WritePlan(ws, plan, None).Written?
  {
    var left := WriteAt(ws, plan.path, plan.after, Complete);
    forall i | 0 <= i < CONFIGURATION_COUNT ensures ConfigurationPath(i) in left.files {
      assert ConfigurationPath(i) in ws.files;
    }
    assert Listable(left);
  }

  /** A snapshot of what a break is about to destroy in the sealed files. */
  ghost predicate Snapped(ws: Workspace, plan: EditPlan, c: Calibration) {
    && SnapshotSound(c) && ManifestOf(ws) == Some(c.baseline)
    && c.snapshot == Some(Snapshot(plan.path, plan.before))
    && Editable(ws, plan.path) && Lookup(ws, plan.path) == plan.before
    && (plan.after.None? ==> plan.path in ws.files)
  }

  lemma WriteDecided(ws: Workspace, plan: EditPlan, c: Calibration, stage: WriteStage)
    requires Snapped(ws, plan, c)
    ensures RestoreCalibration(PlanAt(ws, plan, None, false, stage), c).Restored? <==>
      && !(InTemporary(ws, plan.path, plan.after, stage) && Listed(plan.path))
      && !(stage.Complete? && plan.after.None? && IsConfiguration(plan.path))
  {
    if InTemporary(ws, plan.path, plan.after, stage) && Listed(plan.path) {
      StrayDefeats(ws, c, plan.path, plan.after, stage);
    } else if stage.Complete? && plan.after.None? && IsConfiguration(plan.path) {
      MissingConfiguration(WriteAt(ws, plan.path, plan.after, stage), c, plan.path);
    } else {
      WriteSurvives(ws, c, plan.path, plan.after, stage);
    }
  }

  lemma RemovalUndone(ws: Workspace, plan: EditPlan, c: Calibration, stage: WriteStage)
    requires Snapped(ws, plan, c) && plan.after.None? && IsConfiguration(plan.path)
    ensures RestoreCalibration(PlanAt(ws, plan, None, true, stage), c).Restored? <==> !stage.Untouched?
  {
    var left := WriteAt(ws, plan.path, plan.after, Complete);
    MissingConfiguration(left, c, plan.path);
    assert !WritePlan(ws, plan, None).Written?;
    if !stage.Untouched? {
      WriteAtEffect(ws, plan.path, plan.after, Complete);
      WriteAtEffect(left, plan.path, plan.before, stage);
      OwnPathRestores(ws, WriteAt(left, plan.path, plan.before, stage), c, plan.path);
    }
  }

  lemma UndoDecided(ws: Workspace, plan: EditPlan, c: Calibration, stage: WriteStage)
    requires Snapped(ws, plan, c)
    ensures RestoreCalibration(PlanAt(ws, plan, None, true, stage), c).Restored? <==>
      !(stage.Untouched? && plan.after.None? && IsConfiguration(plan.path))
  {
    if plan.after.None? && IsConfiguration(plan.path) {
      RemovalUndone(ws, plan, c, stage);
    } else {
      BreakStands(ws, plan);
      WriteSurvives(ws, c, plan.path, plan.after, Complete);
    }
  }

  lemma TornStep(s: State, undoing: bool, stage: WriteStage)
    requires s.pending.BreakPrepared? && s.pending.published && s.memory.rounds != [] && s.memory.calibrations != []
    ensures var after := Step(s, CrashWriting(WriteBreak, undoing, stage));
      && after.ws == PlanAt(s.ws, s.pending.plan, None, undoing, stage)
      && after.disk == s.disk && after.memory == s.disk && after.pending == Idle
  {
  }

  lemma BreakSnapped(s: State)
    requires AboutToBreak(s)
    ensures s.disk.calibrations != [] && Snapped(s.ws, s.pending.plan, Last(s.disk.calibrations))
    ensures s.memory.rounds != [] && s.memory.calibrations != []
  {
    BreakSnapshot(s);
  }

  /**
   After a crash inside a break's write the retained ledger rolls back unless
   the write stood between its temporary file and the rename, in a directory the
   manifest lists, or had removed a configuration file.
   */
  lemma BreakCrashExactly(s: State, stage: WriteStage)
    requires AboutToBreak(s)
    ensures var plan := s.pending.plan;
      RollsBackFrom(Step(s, CrashWriting(WriteBreak, false, stage))) <==>
        && !(InTemporary(s.ws, plan.path, plan.after, stage) && Listed(plan.path))
        && !(stage.Complete? && plan.after.None? && IsConfiguration(plan.path))
  {
    BreakSnapped(s);
    TornStep(s, false, stage);
    WriteDecided(s.ws, s.pending.plan, Last(s.disk.calibrations), stage);
  }

  /** A break is undone at once only where it removed a configuration file, and then every stage but the first is safe. */
  lemma UndoCrashExactly(s: State, stage: WriteStage)
    requires AboutToBreak(s)
    ensures var plan := s.pending.plan;
      RollsBackFrom(Step(s, CrashWriting(WriteBreak, true, stage))) <==>
        !(stage.Untouched? && plan.after.None? && IsConfiguration(plan.path))
  {
    BreakSnapped(s);
    TornStep(s, true, stage);
    UndoDecided(s.ws, s.pending.plan, Last(s.disk.calibrations), stage);
  }

  // ----- runs that end there -----

  /** A round with a finding and a sealed calibration over an untouched workspace. */
  predicate SealedOver(s: State, ws: Workspace) {
    && Quiet(s) && s.ws == ws
    && |s.memory.rounds| == 1 && s.memory.rounds[0].status == Findings
    && |s.memory.calibrations| == 1 && s.memory.calibrations[0].status == Sealed
    && ManifestOf(ws) == Some(s.memory.calibrations[0].baseline)
    && s.memory.calibrations[0].startedAt >= FinishedOrFirst(s.memory.rounds[0])
    && s.memory.calibrations[0].index == 1 && s.memory.calibrations[0].restored.None? && s.memory.edits == []
  }

  lemma SealReached(ws: Workspace) returns (t: State)
    requires ManifestOf(ws).Some?
    ensures Reaches(Initial(ws), t) && SealedOver(t, ws)
  {
    var m := ManifestOf(ws).value;
    var read := RoundRuns(Initial(ws), ws, m, Findings);
    CalibrationSeals(read, ws, m);
    t := FirstSealed(read, m);
    ReachesTrans(Initial(ws), read, t);
  }

  /** A break request the tool accepts over the sealed workspace. */
  predicate Breaks(ws: Workspace, request: EditRequest, after: Option<string>) {
    && request.phase == Break && Editable(ws, request.path)
    && EditArgumentsAllowed(request.operation, Lookup(ws, request.path))
    && EditedContent(request.operation, Lookup(ws, request.path)) == Some(after)
  }

  lemma BreakAccepted(s: State, ws: Workspace, request: EditRequest, after: Option<string>)
    requires SealedOver(s, ws) && Breaks(ws, request, after)
    ensures var plan := EditPlan(Break, request.path, Lookup(ws, request.path), after);
      && DecideEdit(s.memory, ManifestOf(ws), Editable(ws, request.path), Lookup(ws, request.path), request) == Accepted(plan)
      && Step(Step(s, CallEdit(request)), Publish)
           == Kept(s, StoreSnapshot(s.memory, plan)).(pending := BreakPrepared(plan, true), broken := {})
  {
    assert Last(s.memory.rounds) == s.memory.rounds[0] && Last(s.memory.calibrations) == s.memory.calibrations[0];
    assert EditPhaseAllowed(s.memory, ManifestOf(ws).value, Break, request.path);
  }

  lemma ReachesRecoverable(ws: Workspace, t: State)
    requires Reaches(Initial(ws), t)
    ensures SafeState(t) && Recoverable(t)
  {
    var actions :| Run(Initial(ws), actions) == t;
    RunSafe(ws, actions);
    RunRecoverable(ws, actions);
  }

  lemma DeletesExisting(ws: Workspace, request: EditRequest, after: Option<string>)
    requires Breaks(ws, request, after) && after.None?
    ensures request.path in ws.files
  {
  }

  lemma BreakReached(ws: Workspace, request: EditRequest, after: Option<string>) returns (t: State)
    requires ManifestOf(ws).Some? && Breaks(ws, request, after)
    ensures Reaches(Initial(ws), t) && AboutToBreak(t) && t.ws == ws
    ensures t.pending.plan == EditPlan(Break, request.path, Lookup(ws, request.path), after)
    ensures |t.disk.calibrations| == 1 && t.disk.calibrations[0].status == Sealed && t.disk.calibrations[0].restored.None?
    ensures |t.disk.rounds| == 1 && t.disk.rounds[0].status == Findings
  {
    var sealed := SealReached(ws);
    BreakAccepted(sealed, ws, request, after);
    ReachesStep(Initial(ws), sealed, CallEdit(request));
    ReachesStep(Initial(ws), Step(sealed, CallEdit(request)), Publish);
    t := Step(Step(sealed, CallEdit(request)), Publish);
    ReachesRecoverable(ws, t);
    if after.None? { DeletesExisting(ws, request, after); }
  }

  /** A configuration file is gone and the calibration whose break removed it is open. */
  predicate Removed(s: State, ws: Workspace, path: string) {
    && Quiet(s) && s.ws == ws.(files := ws.files - {path})
    && s.disk.calibrations != [] && Unresolved(Last(s.disk.calibrations))
    && ManifestOf(s.ws).None? && !RollsBackFrom(s)
  }

  /** The runner dies between removing a configuration file and taking the manifest. */
  lemma RemovalReached(ws: Workspace, request: EditRequest) returns (actions: seq<Action>)
    requires ManifestOf(ws).Some? && Breaks(ws, request, None) && IsConfiguration(request.path)
    ensures Removed(Run(Initial(ws), actions), ws, request.path)
  {
    var t := BreakReached(ws, request, None);
    BreakSnapped(t);
    TornStep(t, false, Complete);
    ReachesStep(Initial(ws), t, CrashWriting(WriteBreak, false, Complete));
    var s := Step(t, CrashWriting(WriteBreak, false, Complete));
    MissingConfiguration(s.ws, Last(s.disk.calibrations), request.path);
    actions :| Run(Initial(ws), actions) == s;
  }

  /** A temporary file lies in a listed directory and the calibration whose break left it is open. */
  predicate Littered(s: State, ws: Workspace, temporary: string, bytes: string) {
    && Quiet(s) && s.ws == ws.(files := ws.files[temporary := bytes]) && ManifestOf(s.ws).Some?
    && |s.disk.calibrations| == 1 && s.disk.calibrations[0].status == Sealed && s.disk.calibrations[0].restored.None?
    && |s.disk.rounds| == 1 && s.disk.rounds[0].status == Findings
    && !RollsBackFrom(s)
  }

  lemma LitterReached(ws: Workspace, request: EditRequest, content: string, temporary: string) returns (t: State)
    requires ManifestOf(ws).Some? && Breaks(ws, request, Some(content))
    requires request.path in ws.files && Listed(request.path) && FreshBeside(ws, temporary, request.path)
    ensures Reaches(Initial(ws), t) && Littered(t, ws, temporary, content)
  {
    var ready := BreakReached(ws, request, Some(content));
    var stage := Partial(temporary, content);
    BreakSnapped(ready);
    TornStep(ready, false, stage);
    BreakCrashExactly(ready, stage);
    ReachesStep(Initial(ws), ready, CrashWriting(WriteBreak, false, stage));
    t := Step(ready, CrashWriting(WriteBreak, false, stage));
    assert t.ws == ws.(files := ws.files[temporary := content]);
    assert Listable(t.ws);
  }

  // ----- what they cost -----

  /** No manifest, nothing under way. */
  predicate Unlistable(s: State) {
    ManifestOf(s.ws).None? && s.memory == s.disk && (s.pending == Idle || s.pending == Settling)
  }

  lemma UnlistableCall(s: State, action: Action)
    requires Unlistable(s) && s.pending == Idle
    ensures DoCall(s, action) == s || DoCall(s, action) == s.(pending := Settling)
  {
  }

  lemma UnlistableTearsNothing(s: State, during: Action, undoing: bool, stage: WriteStage)
    requires Unlistable(s)
    ensures DoCrashWriting(s, during, undoing, stage) == s.(pending := Idle)
  {
    assert PlanOf(s, during).None? && !RollsBack(s, during);
  }

  lemma UnlistableStep(s: State, action: Action)
    requires Unlistable(s) && !action.Environment?
    ensures var after := Step(s, action); Unlistable(after) && after.ws == s.ws && after.disk == s.disk
  {
    if action.CrashWriting? {
      UnlistableTearsNothing(s, action.during, action.undoing, action.stage);
    } else if s.pending == Idle {
      UnlistableCall(s, action);
    }
  }

  /** Until someone else puts the missing file back, no call, crash or resume changes the workspace or the ledger any more. */
  lemma {:induction false} MissingFileIsTerminal(s: State, actions: seq<Action>)
    requires Unlistable(s) && forall i | 0 <= i < |actions| :: !actions[i].Environment?
    ensures var after := Run(s, actions); Unlistable(after) && after.ws == s.ws && after.disk == s.disk
    decreases |actions|
  {
    if actions != [] {
      MissingFileIsTerminal(s, actions[..|actions| - 1]);
      UnlistableStep(Run(s, actions[..|actions| - 1]), Last(actions));
    }
  }

  /** The last calibration failed without a proven roll-back, and no dry round stands. */
  predicate BarredLedger(l: Ledger) {
    && l.calibrations != []
    && Last(l.calibrations).status == InvalidCalibration && Last(l.calibrations).restored.None?
    && !IsDry(l)
  }

  predicate Barred(s: State) {
    && BarredLedger(s.memory) && BarredLedger(s.disk)
    && !s.pending.BreakPrepared?
    && (s.pending == CommandRunning ==>
          && s.memory.commands != []
          && (Last(s.memory.commands).phase == CorrectionRun || Last(s.memory.commands).phase == FinalGate))
  }

  lemma BarredRound(l: Ledger, taken: Option<Manifest>, now: nat)
    requires BarredLedger(l)
    ensures BarredLedger(StartRound(l, taken, now).ledger)
    ensures forall path, observed :: BarredLedger(ReadFile(l, taken, now, path, observed).ledger)
    ensures forall verdict, findings :: BarredLedger(FinishRound(l, taken, now, verdict, findings).ledger)
  {
  }

  lemma BarredCalibration(l: Ledger, taken: Option<Manifest>, rolledBack: bool, now: nat)
    requires BarredLedger(l)
    ensures BarredLedger(StartCalibration(l, taken, rolledBack, now).ledger) && !NeedsRollback(l, taken)
    ensures StartCalibration(l, taken, rolledBack, now).reply != Success
  {
  }

  lemma BarredCommand(l: Ledger, taken: Option<Manifest>, now: nat, tool: Tool, phase: CommandPhase)
    requires BarredLedger(l)
    ensures BarredLedger(BeginCommand(l, taken, now, tool, phase).ledger)
    ensures BeginCommand(l, taken, now, tool, phase).reply == Success ==>
      && phase == CorrectionRun && Last(BeginCommand(l, taken, now, tool, phase).ledger.commands).phase == phase
  {
  }

  lemma BarredEdit(l: Ledger, taken: Option<Manifest>, editable: bool, before: Option<string>, request: EditRequest)
    requires BarredLedger(l)
    ensures var decision := DecideEdit(l, taken, editable, before, request);
      match decision
      case Rejected(answer) => BarredLedger(answer.ledger)
      case Accepted(plan) => plan.phase == Correction && l.rounds != [] && BarredLedger(RecordEdit(l, plan)) && RejectEdit(l, plan) == l
  {
  }

  lemma BarredCall(s: State, action: Action)
    requires Barred(s) && s.pending == Idle
    ensures BarredLedger(DoCall(s, action).memory) && DoCall(s, action).disk == s.disk && Barred(DoCall(s, action))
  {
    var taken := ManifestOf(s.ws);
    match action
    case CallStartCalibration => BarredCalibration(s.memory, taken, Rollback(s, NeedsRollback(s.memory, taken)).Restored?, s.clock);
    case CallCommand(tool, phase) => BarredCommand(s.memory, taken, s.clock, tool, phase);
    case CallEdit(request) =>
      BarredEdit(s.memory, taken, Editable(s.ws, request.path), Lookup(s.ws, request.path), request);
    case _ => BarredRound(s.memory, taken, s.clock);
  }

  lemma BarredFinish(s: State, result: ProcessResult)
    requires Barred(s)
    ensures Barred(DoCommandFinished(s, result))
  {
  }

  lemma BarredStep(s: State, action: Action)
    requires Barred(s)
    ensures Barred(Step(s, action))
  {
    if action.CommandFinished? {
      BarredFinish(s, action.result);
    } else if s.pending == Idle && !action.CrashWriting? {
      BarredCall(s, action);
    }
  }

  /**
   A calibration that failed without a proven roll-back is the last one: whatever
   is called, written or crashed afterwards, no other is started and the
   completion gate never opens.
   */
  lemma {:induction false} BarredIsTerminal(s: State, actions: seq<Action>)
    requires Barred(s)
    ensures var after := Run(s, actions);
      Barred(after) && !AssertDry(after.memory, ManifestOf(after.ws))
    decreases |actions|
  {
    if actions != [] {
      BarredIsTerminal(s, actions[..|actions| - 1]);
      BarredStep(Run(s, actions[..|actions| - 1]), Last(actions));
    }
  }

  lemma FailedRollbackBars(s: State, ws: Workspace, temporary: string, bytes: string)
    requires Littered(s, ws, temporary, bytes)
    ensures Barred(Step(Step(s, CallStartCalibration), Publish))
  {
    var c := Last(s.memory.calibrations);
    assert c == s.memory.calibrations[0] && Last(s.memory.rounds) == s.memory.rounds[0];
    assert NeedsRollback(s.memory, ManifestOf(s.ws));
  }

  /**
   The runner dies between the temporary file and the rename, and is resumed:
   its next calibration fails to roll the break back, which bars every later one.
   */
  lemma LitterBars(ws: Workspace, request: EditRequest, content: string, temporary: string) returns (actions: seq<Action>)
    requires ManifestOf(ws).Some? && Breaks(ws, request, Some(content))
    requires request.path in ws.files && Listed(request.path) && FreshBeside(ws, temporary, request.path)
    ensures Barred(Run(Initial(ws), actions))
  {
    var s := LitterReached(ws, request, content, temporary);
    FailedRollbackBars(s, ws, temporary, content);
    ReachesStep(Initial(ws), s, CallStartCalibration);
    ReachesStep(Initial(ws), Step(s, CallStartCalibration), Publish);
    actions :| Run(Initial(ws), actions) == Step(Step(s, CallStartCalibration), Publish);
  }

  // ----- such workspaces and requests exist -----

  lemma {:induction false} NoSlashParent(path: string)
    requires '/' !in path
    ensures Parent(path) == "" && FileName(path) == path
  {
    if path != "" {
      NoSlashParent(path[..|path| - 1]);
      assert path == path[..|path| - 1] + [path[|path| - 1]];
    }
  }

  lemma {:induction false} ParentOf(directory: string, name: string)
    requires '/' !in name
    ensures Parent(directory + "/" + name) == directory && FileName(directory + "/" + name) == name
  {
    var path := directory + "/" + name;
    if name == "" {
      assert path == directory + "/" && path[..|path| - 1] == directory;
    } else {
      var front := name[..|name| - 1];
      assert path[..|path| - 1] == directory + "/" + front;
      ParentOf(directory, front);
      assert name == front + [name[|name| - 1]];
    }
  }

  /** A text that holds another one anywhere holds each of its characters. */
  lemma HeldCharacter(s: string, needle: string, k: nat)
    requires k < |needle|
    ensures StartsWith(s, needle) || EndsWith(s, needle) || Contains(s, needle) ==> needle[k] in s
  {
    if StartsWith(s, needle) {
      assert needle[k] == s[..|needle|][k] == s[k];
    }
    if EndsWith(s, needle) {
      assert needle[k] == s[|s| - |needle|..][k] == s[|s| - |needle| + k];
    }
    if i :| 0 <= i <= |s| - |needle| && OccursAt(s, needle, i) {
      assert needle[k] == s[i..i + |needle|][k] == s[i + k];
    }
  }

  lemma DotlessValid(path: string)
    requires path != "" && path[0] != '/' && '\\' !in path && '.' !in path
    ensures ValidRelative(path)
  {
    HeldCharacter(path, "../", 0);
    HeldCharacter(path, "/..", 1);
    HeldCharacter(path, "/../", 1);
    assert "../"[0] == "/.."[1] == "/../"[1] == ".."[0] == '.';
  }

  lemma SlashlessValid(path: string)
    requires path != "" && '/' !in path && '\\' !in path && path != ".."
    ensures ValidRelative(path)
  {
    HeldCharacter(path, "../", 2);
    HeldCharacter(path, "/..", 0);
    HeldCharacter(path, "/../", 0);
    assert "../"[2] == "/.."[0] == "/../"[0] == '/';
  }

  function Deletion(): EditRequest {
    EditRequest(DeleteFile("a"), Break, "package.json")
  }

  lemma SampleListable()
    ensures ManifestOf(Sample("a")).Some?
  {
  }

  lemma PackageIsConfiguration()
    ensures IsConfiguration("package.json")
  {
    assert ConfigurationPath(4) == "package.json";
  }

  lemma DeletionAllowed(ws: Workspace)
    requires "package.json" !in ws.directories
    ensures Editable(ws, "package.json")
  {
    PackageIsConfiguration();
    NoSlashParent("package.json");
    SlashlessValid("package.json");
  }

  lemma DirectoryHasSlash(section: Section)
    requires section != Configuration
    ensures '/' in DirectoryOf(section)
  {
    assert if section == Requirements then DirectoryOf(section)[4] == '/' else DirectoryOf(section)[8] == '/';
  }

  lemma PackageNoDirectory()
    ensures "package.json" !in Sample("a").directories
  {
    forall section: Section | section != Configuration ensures DirectoryOf(section) != "package.json" {
      DirectoryHasSlash(section);
    }
  }

  lemma SampleHolds(i: nat)
    requires i < CONFIGURATION_COUNT
    ensures Lookup(Sample("a"), ConfigurationPath(i)) == Some("a")
  {
    assert ConfigurationPath(i) in ConfigurationPaths();
  }

  lemma DeletionBreaks()
    ensures ManifestOf(Sample("a")).Some? && IsConfiguration(Deletion().path) && Breaks(Sample("a"), Deletion(), None)
  {
    SampleListable();
    PackageIsConfiguration();
    PackageNoDirectory();
    DeletionAllowed(Sample("a"));
    SampleHolds(4);
  }

  function TestFile(): string { "packages/backend/test/a" }

  function Temporary(): string { "packages/backend/test/.benchmark-edit-.tmp" }

  /** The sample with one test file. */
  function WithTest(): Workspace {
    Sample("a").(files := Sample("a").files[TestFile() := "a"])
  }

  function Replacing(): EditRequest {
    EditRequest(ReplaceText("a", [Replacement("a", "b")]), Break, TestFile())
  }

  lemma DirectoryLength(section: Section)
    requires section != Configuration
    ensures |DirectoryOf(section)| != |TestFile()| && |DirectoryOf(section)| != |Temporary()|
  {
  }

  lemma NoDirectory()
    ensures TestFile() !in WithTest().directories && Temporary() !in WithTest().directories
  {
    forall section: Section | section != Configuration
      ensures DirectoryOf(section) != TestFile() && DirectoryOf(section) != Temporary()
    {
      DirectoryLength(section);
    }
  }

  lemma TestFileNamed()
    ensures Parent(TestFile()) == "packages/backend/test" && StartsWith(TestFile(), "packages/backend/test/")
  {
    assert TestFile() == "packages/backend/test" + "/" + "a";
    ParentOf("packages/backend/test", "a");
    assert TestFile()[..22] == "packages/backend/test/";
  }

  lemma TestFileAllowed()
    ensures AllowedEdit(TestFile()) && ValidRelative(TestFile()) && Listed(TestFile())
  {
    TestFileNamed();
    DotlessValid(TestFile());
    assert InSection(Tests, TestFile());
  }

  lemma TestFileEditable()
    ensures Editable(WithTest(), TestFile()) && Listed(TestFile())
  {
    TestFileNamed();
    TestFileAllowed();
    assert DirectoryOf(Tests) in Sample("a").directories;
    NoDirectory();
  }

  lemma TemporaryNamed()
    ensures IsTemporary(Temporary()) && Parent(Temporary()) == "packages/backend/test"
  {
    var name := ".benchmark-edit-.tmp";
    assert Temporary() == "packages/backend/test" + "/" + name;
    ParentOf("packages/backend/test", name);
    assert name[..16] == ".benchmark-edit-" && name[16..] == ".tmp";
  }

  lemma TemporaryFree()
    ensures Temporary() !in WithTest().files && Temporary() != TestFile()
  {
    TemporaryNamed();
    TemporaryIsNoConfiguration(Temporary());
    assert |Temporary()| != |TestFile()|;
  }

  lemma TemporaryFresh()
    ensures FreshBeside(WithTest(), Temporary(), TestFile())
  {
    TemporaryNamed();
    TemporaryFree();
    TestFileNamed();
    NoDirectory();
  }

  lemma ReplacedOnce()
    ensures ApplyReplacements("a", [Replacement("a", "b")]) == Some("b")
  {
    assert IndexOf("a", "a", 0) == 0 && Occurrences("a", "a", 0) == 1;
    assert ReplaceFirst("a", "a", "b") == "b";
  }

  lemma WithTestListable()
    ensures ManifestOf(WithTest()).Some? && Lookup(WithTest(), TestFile()) == Some("a")
  {
    SampleListable();
  }

  lemma ReplacingBreaks()
    ensures ManifestOf(WithTest()).Some? && Breaks(WithTest(), Replacing(), Some("b"))
  {
    WithTestListable();
    TestFileEditable();
    ReplacedOnce();
    OneReplacement();
  }

  lemma OneReplacement()
    ensures EditArgumentsAllowed(Replacing().operation, Some("a"))
  {
    var replacements := [Replacement("a", "b")];
    assert replacements[1..] == [] && PayloadSize(replacements) == 2;
  }

  /** A run that removes a configuration file and never gets to put it back. */
  lemma RemovalHappens() returns (actions: seq<Action>)
    ensures Removed(Run(Initial(Sample("a")), actions), Sample("a"), "package.json")
    ensures Unlistable(Run(Initial(Sample("a")), actions))
  {
    DeletionBreaks();
    actions := RemovalReached(Sample("a"), Deletion());
  }

  /** A run that leaves a temporary file between the tests and can never calibrate again. */
  lemma LitterHappens() returns (actions: seq<Action>)
    ensures Barred(Run(Initial(WithTest()), actions))
  {
    ReplacingBreaks();
    TestFileEditable();
    TemporaryFresh();
    actions := LitterBars(WithTest(), Replacing(), "b", Temporary());
  }
}
