/** The review protocol's guarantees over every run. */
module ReviewTheorems {
  import opened Prelude
  import opened ReviewWorkspace
  import opened ReviewProtocol
  import opened ReviewSafety
  import opened ReviewRun

  // ----- the ledger invariant over runs -----

  ghost predicate PendingOk(s: State) {
    match s.pending
    case CommandRunning => CommandReady(s.memory)
    case BreakPrepared(plan, published) =>
      && plan.phase == Break
      && PlanReady(s.memory, plan)
      && Last(s.memory.calibrations).snapshot == Some(Snapshot(plan.path, plan.before))
      && s.broken == {}
      && (published ==>
            && s.disk.calibrations != []
            && Last(s.disk.calibrations).snapshot == Some(Snapshot(plan.path, plan.before)))
    case _ => true
  }

  ghost predicate SafeState(s: State) {
    LedgerOk(s.memory, s.clock) && LedgerOk(s.disk, s.clock) && PendingOk(s)
  }

  lemma StartCalibrationSafe(s: State)
    requires SafeState(s)
    ensures LedgerOk(DoStartCalibration(s).memory, s.clock + 1) && DoStartCalibration(s).pending == Settling
  {
    var taken := ManifestOf(s.ws);
    StartCalibrationKeeps(s.memory, taken, Rollback(s, NeedsRollback(s.memory, taken)).Restored?, s.clock);
  }

  lemma WriteSafe(s: State, plan: EditPlan)
    requires LedgerOk(s.memory, s.clock) && PlanReady(s.memory, plan)
    ensures LedgerOk(DoWrite(s, plan).memory, s.clock + 1) && DoWrite(s, plan).pending == Settling
  {
    LedgerOkLater(s.memory, s.clock, s.clock + 1);
    RejectEditKeeps(s.memory, s.clock + 1, plan);
    RecordEditKeeps(s.memory, s.clock + 1, plan);
  }

  lemma EditSafe(s: State, request: EditRequest)
    requires SafeState(s)
    ensures var after := DoEdit(s, request); LedgerOk(after.memory, s.clock + 1) && PendingOk(after)
  {
    var before := Lookup(s.ws, request.path);
    DecideEditKeeps(s.memory, ManifestOf(s.ws), s.clock, Editable(s.ws, request.path), before, request);
    match DecideEdit(s.memory, ManifestOf(s.ws), Editable(s.ws, request.path), before, request)
    case Rejected(answer) =>
    case Accepted(plan) =>
      if plan.phase == Break {
        LedgerOkLater(s.memory, s.clock, s.clock + 1);
        StoreSnapshotKeeps(s.memory, s.clock + 1, plan);
      } else {
        WriteSafe(s, plan);
      }
  }

  lemma CommandFinishedSafe(s: State, result: ProcessResult)
    requires SafeState(s) && s.pending == CommandRunning
    ensures LedgerOk(DoCommandFinished(s, result).memory, s.clock + 1) && DoCommandFinished(s, result).pending == Settling
  {
    var status := FinishedStatus(Last(s.memory.commands).tool, Last(s.memory.commands).phase, result);
    CompleteCommandKeeps(s.memory, s.clock, status, Rollback(s, BreakUndetected(s.memory, status)).Restored?);
  }

  lemma CommandSafe(s: State, tool: Tool, phase: CommandPhase)
    requires SafeState(s)
    ensures LedgerOk(DoCommand(s, tool, phase).memory, s.clock + 1) && PendingOk(DoCommand(s, tool, phase))
  {
    var taken := ManifestOf(s.ws);
    BeginCommandKeeps(s.memory, taken, s.clock, tool, phase);
    if BeginCommand(s.memory, taken, s.clock, tool, phase).reply == Success {
      BeginCommandReady(s.memory, taken, s.clock, tool, phase);
    }
  }

  lemma RoundCallSafe(s: State, action: Action)
    requires LedgerOk(s.memory, s.clock)
    requires action.CallStartRound? || action.CallReadFile? || action.CallFinishRound?
    ensures LedgerOk(DoCall(s, action).memory, s.clock + 1) && DoCall(s, action).pending == Settling
  {
    var taken := ManifestOf(s.ws);
    match action
    case CallStartRound => StartRoundKeeps(s.memory, taken, s.clock);
    case CallReadFile(path, observed) => ReadFileKeeps(s.memory, taken, s.clock, path, observed);
    case CallFinishRound(verdict, findings) => FinishRoundKeeps(s.memory, taken, s.clock, verdict, findings);
  }

  lemma CallSafe(s: State, action: Action)
    requires SafeState(s) && s.pending == Idle
    ensures LedgerOk(DoCall(s, action).memory, s.clock + 1) && PendingOk(DoCall(s, action))
  {
    if action.CallStartRound? || action.CallReadFile? || action.CallFinishRound? {
      RoundCallSafe(s, action);
    } else if action.CallStartCalibration? {
      StartCalibrationSafe(s);
    } else if action.CallEdit? {
      EditSafe(s, action.request);
    } else if action.CallCommand? {
      CommandSafe(s, action.tool, action.phase);
    } else {
      LedgerOkLater(s.memory, s.clock, s.clock + 1);
    }
  }

  lemma ActKeepsDisk(s: State, action: Action)
    requires action != Publish
    ensures Act(s, action).disk == s.disk
  {
  }

  lemma PublishSafe(s: State)
    requires SafeState(s)
    ensures SafeState(Step(s, Publish))
  {
    LedgerOkLater(s.memory, s.clock, s.clock + 1);
  }

  /** The runner dies, or nothing of it moves. */
  lemma QuietActSafe(s: State, action: Action)
    requires SafeState(s)
    requires action.Environment? || action.Crash? || action.CrashWriting? || action.CallAborted?
    ensures LedgerOk(Act(s, action).memory, s.clock + 1) && PendingOk(Act(s, action))
  {
    LedgerOkLater(s.memory, s.clock, s.clock + 1);
    LedgerOkLater(s.disk, s.clock, s.clock + 1);
  }

  lemma ActSafe(s: State, action: Action)
    requires SafeState(s) && action != Publish
    ensures LedgerOk(Act(s, action).memory, s.clock + 1) && PendingOk(Act(s, action))
  {
    LedgerOkLater(s.memory, s.clock, s.clock + 1);
    if action.Environment? || action.Crash? || action.CrashWriting? || action.CallAborted? {
      QuietActSafe(s, action);
    } else if action.WriteBreak? {
      if s.pending.BreakPrepared? { WriteSafe(s, s.pending.plan); }
    } else if action.CommandFinished? {
      if s.pending == CommandRunning { CommandFinishedSafe(s, action.result); }
    } else if s.pending == Idle {
      CallSafe(s, action);
    }
  }

  /** One step of time later the disk is what it was. */
  lemma StepParts(s: State, action: Action)
    requires action != Publish
    ensures var after := Step(s, action);
      && after.memory == Act(s, action).memory && after.disk == s.disk
      && after.pending == Act(s, action).pending && after.clock == s.clock + 1
  {
    ActKeepsDisk(s, action);
  }

  lemma PendingLater(s: State, clock: nat)
    requires PendingOk(s)
    ensures PendingOk(s.(clock := clock))
  {
  }

  lemma StepSafe(s: State, action: Action)
    requires SafeState(s)
    ensures SafeState(Step(s, action))
  {
    if action == Publish {
      PublishSafe(s);
    } else {
      ActSafe(s, action);
      StepParts(s, action);
      PendingLater(Act(s, action), s.clock + 1);
      LedgerOkLater(s.disk, s.clock, s.clock + 1);
    }
  }

  /** Every reachable state, through any calls, crashes and foreign writes, is safe. */
  lemma {:induction false} RunSafe(ws: Workspace, actions: seq<Action>)
    ensures SafeState(Run(Initial(ws), actions))
    decreases |actions|
  {
    if actions != [] {
      RunSafe(ws, actions[..|actions| - 1]);
      StepSafe(Run(Initial(ws), actions[..|actions| - 1]), Last(actions));
    }
  }

  // ----- what the completion gate certifies -----

  /** The review history a completed Goal stands on. */
  ghost predicate Certified(l: Ledger, current: Manifest) {
    && l.rounds != []
    && var round := Last(l.rounds);
    && round.status == Dry
    && round.finishedAt.Some?
    // every file of the present workspace was read, in order, as it is now
    && round.manifest == current
    && |round.credited| == |current|
    && (forall j | 0 <= j < |current| ::
          round.credited[j].path == current[j].path && round.credited[j].content == current[j].content)
    // a calibration of this very manifest had failed broken and passed restored before the round began
    && (exists c, failed, passed ::
          && c in l.calibrations && failed in l.commands && passed in l.commands
          && CalibratedBy(c, failed, passed, current, round.startedAt))
    // since the round finished, exactly a clean watch and then a passing test ran, on this manifest
    && var finals := FinalsSince(l.commands, round.finishedAt.value);
    && |finals| == 2
    && finals[0].tool == CheckWatch && finals[0].status == Succeeded && finals[0].manifest == current
    && finals[1].tool == Test && finals[1].status == Succeeded && finals[1].manifest == current
  }

  ghost predicate CalibratedBy(c: Calibration, failed: Command, passed: Command, m: Manifest, before: nat) {
    && c.status == Passed && c.baseline == m
    && failed.tool == Test && failed.phase == CalibrationFail && failed.status == ExpectedFailure && failed.manifest != m && failed.finishedAt.Some?
    && passed.tool == Test && passed.phase == CalibrationPass && passed.status == Succeeded && passed.manifest == m && passed.finishedAt.Some?
    && c.startedAt < failed.startedAt < failed.finishedAt.value < passed.startedAt < passed.finishedAt.value < before
  }

  lemma PassEvidenceCalibrates(l: Ledger, clock: nat, before: nat)
    requires CommandsOk(l, clock)
    requires l.calibrations != []
    requires var c := Last(l.calibrations);
      c.status == Passed && PassEvidence(l.commands, c) && FinishedBefore(l.commands[c.passCommand.value - 1], before)
    ensures var c := Last(l.calibrations);
      CalibratedBy(c, l.commands[c.failureCommand.value - 1], l.commands[c.passCommand.value - 1], c.baseline, before)
  {
    var c := Last(l.calibrations);
    assert CommandOk(l.commands[c.failureCommand.value - 1], c.failureCommand.value - 1, clock);
    assert CommandOk(l.commands[c.passCommand.value - 1], c.passCommand.value - 1, clock);
    assert FinishedBefore(l.commands[c.failureCommand.value - 1], l.commands[c.passCommand.value - 1].startedAt);
  }

  lemma DryMeansCertified(l: Ledger, clock: nat, taken: Option<Manifest>)
    requires LedgerOk(l, clock)
    ensures AssertDry(l, taken) <==> taken.Some? && Certified(l, taken.value)
  {
    if l.rounds != [] && Last(l.rounds).status == Dry && taken == Some(Last(l.rounds).manifest) {
      var round := Last(l.rounds);
      assert RoundOk(round, |l.rounds| - 1, clock);
      var finals := FinalsSince(l.commands, round.finishedAt.value);
      MatchingFinalsAll(finals, round.manifest);
      var c := Last(l.calibrations);
      PassEvidenceCalibrates(l, clock, round.startedAt);
      assert c in l.calibrations;
    }
  }

  /**
   In every reachable state the completion gate, which inspects one round and
   two commands, passes exactly when the whole review history is certified.
   */
  lemma GateCertifiesHistory(ws: Workspace, actions: seq<Action>)
    ensures var s := Run(Initial(ws), actions);
      AssertDry(s.memory, ManifestOf(s.ws)) <==> ManifestOf(s.ws).Some? && Certified(s.memory, ManifestOf(s.ws).value)
  {
    RunSafe(ws, actions);
    var s := Run(Initial(ws), actions);
    DryMeansCertified(s.memory, s.clock, ManifestOf(s.ws));
  }

  // ----- the shape of a ledger -----

  ghost predicate WellShaped(l: Ledger) {
    && (forall i | 0 <= i < |l.rounds| ::
          && l.rounds[i].index == i + 1
          && (i < |l.rounds| - 1 ==> l.rounds[i].status != Reading && l.rounds[i].status != Dry)
          && CreditedPrefix(l.rounds[i]))
    && (forall i | 0 <= i < |l.calibrations| ::
          && l.calibrations[i].index == i + 1
          && (i < |l.calibrations| - 1 ==> l.calibrations[i].status == Passed || l.calibrations[i].status == InvalidCalibration)
          && (l.calibrations[i].restored.Some? ==> l.calibrations[i].restored.value == l.calibrations[i].baseline))
    && (forall c | c in l.calibrations ::
          && |CalibrationEdits(l.edits, c.index, Break)| <= 1
          && |CalibrationEdits(l.edits, c.index, Restore)| <= |CalibrationEdits(l.edits, c.index, Break)|
          && (CalibrationEdits(l.edits, c.index, Restore) != [] ==>
                CalibrationEdits(l.edits, c.index, Restore)[0].path == CalibrationEdits(l.edits, c.index, Break)[0].path))
  }

  ghost predicate CreditedPrefix(r: Round) {
    && |r.credited| <= |r.manifest|
    && forall j | 0 <= j < |r.credited| ::
         r.credited[j].path == r.manifest[j].path && r.credited[j].content == r.manifest[j].content
  }

  predicate EditFor(e: Edit, index: nat, phase: EditPhase) {
    e.calibrationIndex == Some(index) && e.phase == phase
  }

  /** Two edits of one phase for one calibration would stand at two positions. */
  lemma {:induction false} TwoEditsTwoPositions(edits: seq<Edit>, index: nat, phase: EditPhase) returns (i: nat, j: nat)
    requires CalibrationEdits(edits, index, phase) != []
    ensures j < |edits| && edits[j] == Last(CalibrationEdits(edits, index, phase)) && EditFor(edits[j], index, phase)
    ensures |CalibrationEdits(edits, index, phase)| >= 2 ==> i < j && EditFor(edits[i], index, phase)
  {
    var init := edits[..|edits| - 1];
    if EditFor(Last(edits), index, phase) {
      j := |edits| - 1;
      i := j;
      if CalibrationEdits(init, index, phase) != [] {
        var ignored;
        ignored, i := TwoEditsTwoPositions(init, index, phase);
      }
    } else {
      i, j := TwoEditsTwoPositions(init, index, phase);
    }
  }

  lemma AtMostOneEdit(l: Ledger, index: nat, phase: EditPhase)
    requires EditsOk(l)
    ensures |CalibrationEdits(l.edits, index, phase)| <= 1
  {
    if |CalibrationEdits(l.edits, index, phase)| >= 2 {
      var i, j := TwoEditsTwoPositions(l.edits, index, phase);
      assert SameCalibration(l.edits[i], l.edits[j]);
      assert false;
    }
  }

  lemma CalibrationEditsShape(l: Ledger, index: nat)
    requires EditsOk(l)
    ensures var broken, restored := CalibrationEdits(l.edits, index, Break), CalibrationEdits(l.edits, index, Restore);
      && |broken| <= 1
      && |restored| <= |broken|
      && (restored != [] ==> restored[0].path == broken[0].path)
  {
    AtMostOneEdit(l, index, Break);
    AtMostOneEdit(l, index, Restore);
    if CalibrationEdits(l.edits, index, Restore) != [] {
      var ignored, j := TwoEditsTwoPositions(l.edits, index, Restore);
      var i :| 0 <= i < j && SameCalibration(l.edits[i], l.edits[j]);
      CalibrationEditsMember(l.edits, index, Break);
      assert l.edits[i] in l.edits;
    }
  }

  lemma LedgerIsWellShaped(l: Ledger, clock: nat)
    requires LedgerOk(l, clock)
    ensures WellShaped(l)
  {
    forall i | 0 <= i < |l.rounds|
      ensures l.rounds[i].index == i + 1 && CreditedPrefix(l.rounds[i])
      ensures i < |l.rounds| - 1 ==> l.rounds[i].status != Reading && l.rounds[i].status != Dry
    {
      assert RoundOk(l.rounds[i], i, clock);
      if i < |l.rounds| - 1 { assert ClosedRound(l.rounds[i]); }
    }
    forall i | 0 <= i < |l.calibrations|
      ensures l.calibrations[i].index == i + 1
      ensures i < |l.calibrations| - 1 ==> l.calibrations[i].status == Passed || l.calibrations[i].status == InvalidCalibration
      ensures l.calibrations[i].restored.Some? ==> l.calibrations[i].restored.value == l.calibrations[i].baseline
    {
      assert CalibrationOk(l.commands, l.calibrations[i], i, clock);
      if i < |l.calibrations| - 1 { assert !Unresolved(l.calibrations[i]); }
    }
    forall c | c in l.calibrations
      ensures |CalibrationEdits(l.edits, c.index, Break)| <= 1
      ensures |CalibrationEdits(l.edits, c.index, Restore)| <= |CalibrationEdits(l.edits, c.index, Break)|
      ensures CalibrationEdits(l.edits, c.index, Restore) != [] ==>
        CalibrationEdits(l.edits, c.index, Restore)[0].path == CalibrationEdits(l.edits, c.index, Break)[0].path
    {
      CalibrationEditsShape(l, c.index);
    }
  }

  /** Both the live and the retained ledger keep their shape over every run. */
  lemma LedgersKeepShape(ws: Workspace, actions: seq<Action>)
    ensures var s := Run(Initial(ws), actions); WellShaped(s.memory) && WellShaped(s.disk)
  {
    RunSafe(ws, actions);
    var s := Run(Initial(ws), actions);
    LedgerIsWellShaped(s.memory, s.clock);
    LedgerIsWellShaped(s.disk, s.clock);
  }
}
