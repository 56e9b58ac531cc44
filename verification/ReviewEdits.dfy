/** Which edits a ledger can come to hold, and what each of them did to the workspace. */
module ReviewEdits {
  import opened Prelude
  import opened ReviewWorkspace
  import opened ReviewText
  import opened ReviewProtocol
  import opened ReviewSafety
  import opened ReviewRun
  import opened ReviewTheorems

  // ----- what a recorded edit goes by -----

  /**
   A correction belongs to a round that found something. A break or a restore
   belongs to a calibration that was sealed after its round had finished.
   */
  predicate EditFounded(l: Ledger, e: Edit) {
    && 1 <= e.roundIndex <= |l.rounds|
    && var round := l.rounds[e.roundIndex - 1];
    && round.finishedAt.Some?
    && (e.phase == Correction ==> round.status == Findings)
    && (e.phase != Correction ==>
          && e.calibrationIndex.Some? && 1 <= e.calibrationIndex.value <= |l.calibrations|
          && l.calibrations[e.calibrationIndex.value - 1].startedAt >= round.finishedAt.value)
  }

  predicate EditsFounded(l: Ledger) {
    forall i | 0 <= i < |l.edits| :: EditFounded(l, l.edits[i])
  }

  /** What a finding round found stands, and what has finished or was sealed keeps its time. */
  predicate Keeps(l: Ledger, after: Ledger) {
    && |l.rounds| <= |after.rounds| && |l.calibrations| <= |after.calibrations|
    && (forall i | 0 <= i < |l.rounds| ::
          && (l.rounds[i].status == Findings ==> after.rounds[i].status == Findings)
          && (l.rounds[i].finishedAt.Some? ==> after.rounds[i].finishedAt == l.rounds[i].finishedAt))
    && (forall i | 0 <= i < |l.calibrations| :: after.calibrations[i].startedAt == l.calibrations[i].startedAt)
  }

  lemma FoundedStays(l: Ledger, after: Ledger)
    requires EditsFounded(l) && Keeps(l, after) && after.edits == l.edits
    ensures EditsFounded(after)
  {
    forall i | 0 <= i < |after.edits| ensures EditFounded(after, after.edits[i]) {
      assert EditFounded(l, l.edits[i]);
    }
  }

  lemma CallsKeep(l: Ledger, taken: Option<Manifest>, now: nat)
    requires LedgerOk(l, now)
    ensures var after := StartRound(l, taken, now).ledger; Keeps(l, after) && after.edits == l.edits
    ensures forall path, observed ::
      var after := ReadFile(l, taken, now, path, observed).ledger; Keeps(l, after) && after.edits == l.edits
    ensures forall tool, phase ::
      var after := BeginCommand(l, taken, now, tool, phase).ledger; Keeps(l, after) && after.edits == l.edits
  {
  }

  lemma FinishKeeps(l: Ledger, taken: Option<Manifest>, now: nat, verdict: RoundStatus, findings: seq<string>)
    requires LedgerOk(l, now)
    ensures var after := FinishRound(l, taken, now, verdict, findings).ledger; Keeps(l, after) && after.edits == l.edits
  {
    if l.rounds != [] { assert RoundOk(Last(l.rounds), |l.rounds| - 1, now); }
  }

  lemma StartCalibrationKeepsEdits(l: Ledger, taken: Option<Manifest>, rolledBack: bool, now: nat)
    ensures var after := StartCalibration(l, taken, rolledBack, now).ledger; Keeps(l, after) && after.edits == l.edits
  {
  }

  lemma CompleteKeeps(l: Ledger, now: nat, status: CommandStatus, rolledBack: bool)
    requires l.commands != []
    ensures var after := CompleteCommand(l, now, status, rolledBack).ledger; Keeps(l, after) && after.edits == l.edits
  {
  }

  lemma SnapshotKeeps(l: Ledger, plan: EditPlan)
    requires l.calibrations != []
    ensures Keeps(l, StoreSnapshot(l, plan)) && StoreSnapshot(l, plan).edits == l.edits
    ensures Keeps(l, RejectEdit(l, plan)) && RejectEdit(l, plan).edits == l.edits
  {
  }

  /** What a call of the edit tool refuses leaves the edits alone. */
  lemma RejectedKeeps(
    l: Ledger, taken: Option<Manifest>, now: nat, editable: bool, before: Option<string>, request: EditRequest)
    requires LedgerOk(l, now) && DecideEdit(l, taken, editable, before, request).Rejected?
    ensures var after := DecideEdit(l, taken, editable, before, request).answer.ledger; Keeps(l, after) && after.edits == l.edits
  {
  }

  lemma RecordFounded(l: Ledger, plan: EditPlan, clock: nat)
    requires LedgerOk(l, clock) && EditsFounded(l) && PlanReady(l, plan)
    ensures EditsFounded(RecordEdit(l, plan))
  {
    var after := RecordEdit(l, plan);
    var round := Last(l.rounds);
    assert RoundOk(round, |l.rounds| - 1, clock);
    if l.calibrations != [] {
      assert CalibrationOk(l.commands, Last(l.calibrations), |l.calibrations| - 1, clock);
    }
    assert Keeps(l, after);
    forall i | 0 <= i < |after.edits| ensures EditFounded(after, after.edits[i]) {
      if i < |l.edits| { assert EditFounded(l, l.edits[i]); }
    }
  }

  lemma WriteFounded(s: State, plan: EditPlan)
    requires LedgerOk(s.memory, s.clock) && EditsFounded(s.memory) && PlanReady(s.memory, plan)
    ensures EditsFounded(DoWrite(s, plan).memory)
  {
    RecordFounded(s.memory, plan, s.clock);
    if s.memory.calibrations != [] {
      SnapshotKeeps(s.memory, plan);
    }
    FoundedStays(s.memory, RejectEdit(s.memory, plan));
  }

  lemma EditCallFounded(s: State, request: EditRequest)
    requires SafeState(s) && EditsFounded(s.memory)
    ensures EditsFounded(DoEdit(s, request).memory)
  {
    var taken, editable, before := ManifestOf(s.ws), Editable(s.ws, request.path), Lookup(s.ws, request.path);
    DecideEditKeeps(s.memory, taken, s.clock, editable, before, request);
    match DecideEdit(s.memory, taken, editable, before, request)
    case Rejected(answer) =>
      RejectedKeeps(s.memory, taken, s.clock, editable, before, request);
      FoundedStays(s.memory, answer.ledger);
    case Accepted(plan) =>
      if plan.phase == Break {
        SnapshotKeeps(s.memory, plan);
        FoundedStays(s.memory, StoreSnapshot(s.memory, plan));
      } else {
        WriteFounded(s, plan);
      }
  }

  lemma CallFounded(s: State, action: Action)
    requires SafeState(s) && EditsFounded(s.memory) && s.pending == Idle
    ensures EditsFounded(DoCall(s, action).memory)
  {
    var l, taken := s.memory, ManifestOf(s.ws);
    if action.CallEdit? {
      EditCallFounded(s, action.request);
    } else {
      CallsKeep(l, taken, s.clock);
      if action.CallFinishRound? { FinishKeeps(l, taken, s.clock, action.verdict, action.findings); }
      StartCalibrationKeepsEdits(l, taken, Rollback(s, NeedsRollback(l, taken)).Restored?, s.clock);
      var after := DoCall(s, action).memory;
      assert Keeps(l, after) && after.edits == l.edits;
      FoundedStays(l, after);
    }
  }

  lemma CommandFounded(s: State, result: ProcessResult)
    requires EditsFounded(s.memory)
    ensures EditsFounded(DoCommandFinished(s, result).memory)
  {
    if s.pending == CommandRunning && s.memory.commands != [] {
      var running := Last(s.memory.commands);
      var status := FinishedStatus(running.tool, running.phase, result);
      var rolledBack := Rollback(s, BreakUndetected(s.memory, status)).Restored?;
      CompleteKeeps(s.memory, s.clock, status, rolledBack);
      FoundedStays(s.memory, CompleteCommand(s.memory, s.clock, status, rolledBack).ledger);
    }
  }

  lemma ActFounded(s: State, action: Action)
    requires SafeState(s) && EditsFounded(s.memory) && EditsFounded(s.disk)
    ensures EditsFounded(Act(s, action).memory)
  {
    if action.WriteBreak? {
      if s.pending.BreakPrepared? { WriteFounded(s, s.pending.plan); }
    } else if action.CommandFinished? {
      CommandFounded(s, action.result);
    } else if s.pending == Idle && !action.CrashWriting? {
      CallFounded(s, action);
    }
  }

  /** Over every run, in both ledgers, each correction belongs to a round that found something, and each break and restore to a calibration of its round. */
  lemma {:induction false} RunFounded(ws: Workspace, actions: seq<Action>)
    ensures var s := Run(Initial(ws), actions); EditsFounded(s.memory) && EditsFounded(s.disk)
    decreases |actions|
  {
    if actions != [] {
      var front := actions[..|actions| - 1];
      RunFounded(ws, front);
      RunSafe(ws, front);
      var s := Run(Initial(ws), front);
      ActFounded(s, Last(actions));
      if Last(actions) != Publish { StepParts(s, Last(actions)); }
    }
  }

  // ----- what it takes to record one -----

  /** The ledger as it is when an edit is recorded licenses it. */
  predicate Licensed(l: Ledger, e: Edit) {
    && l.rounds != [] && e.roundIndex == |l.rounds|
    && var round := Last(l.rounds);
    && round.finishedAt.Some?
    && match e.phase
       case Correction =>
         && round.status == Findings
         && e.calibrationIndex.None?
         && forall i | 0 <= i < |l.calibrations| ::
              l.calibrations[i].startedAt >= round.finishedAt.value ==> !Unresolved(l.calibrations[i])
       case Break =>
         && (round.status == Findings || round.status == Clean)
         && l.calibrations != [] && e.calibrationIndex == Some(|l.calibrations|)
         && Last(l.calibrations).startedAt >= round.finishedAt.value && Last(l.calibrations).status == Sealed
         && Last(l.calibrations).snapshot == Some(Snapshot(e.path, e.before))
       case Restore =>
         && (round.status == Findings || round.status == Clean)
         && l.calibrations != [] && e.calibrationIndex == Some(|l.calibrations|)
         && Last(l.calibrations).startedAt >= round.finishedAt.value && Last(l.calibrations).status == FailureProven
  }

  /** A correction is closed by any calibration of its round but one that failed. */
  predicate Open(l: Ledger) {
    l.calibrations != [] && l.rounds != [] && Last(l.calibrations).startedAt >= FinishedOrFirst(Last(l.rounds)) ==>
      Last(l.calibrations).status == InvalidCalibration
  }

  /** What the call asked for. */
  predicate AsRequested(request: EditRequest, e: Edit) {
    && e.phase == request.phase && e.path == request.path
    && match request.operation
       case CreateFile(content) => e.before.None? && e.after == Some(content)
       case DeleteFile(expected) => e.before == Some(expected) && e.after.None?
       case ReplaceText(expected, replacements) =>
         && 1 <= |replacements| <= 32 && (forall r | r in replacements :: r.oldText != "" && r.oldText != r.newText)
         && e.before == Some(expected) && e.after.Some? && e.after == ApplyReplacements(expected, replacements)
  }

  lemma PlanLicensed(l: Ledger, plan: EditPlan, clock: nat)
    requires LedgerOk(l, clock) && PlanReady(l, plan)
    requires plan.phase == Break ==> Last(l.calibrations).snapshot == Some(Snapshot(plan.path, plan.before))
    ensures RecordEdit(l, plan).edits == l.edits + [Last(RecordEdit(l, plan).edits)]
    ensures var e := Last(RecordEdit(l, plan).edits);
      && Licensed(l, e) && (plan.phase == Correction ==> Open(l))
      && e.phase == plan.phase && e.path == plan.path && e.before == plan.before && e.after == plan.after
  {
    assert RoundOk(Last(l.rounds), |l.rounds| - 1, clock);
    if l.calibrations != [] {
      assert CalibrationOk(l.commands, Last(l.calibrations), |l.calibrations| - 1, clock);
    }
  }

  /** How an edit came to be recorded: by its own call, or by the write its retained snapshot was stored for. */
  predicate Recorded(s: State, action: Action, t: State, e: Edit) {
    && Lookup(t.ws, e.path) == e.after && ManifestOf(t.ws).Some?
    && (e.phase == Restore ==> s.memory.calibrations != [] && ManifestOf(t.ws) == Some(Last(s.memory.calibrations).baseline))
    && match action
       case CallEdit(request) =>
         && e.phase != Break && AsRequested(request, e)
         && Editable(s.ws, e.path) && Lookup(s.ws, e.path) == e.before
       case WriteBreak =>
         && e.phase == Break
         && s.disk.calibrations != [] && Last(s.disk.calibrations).snapshot == Some(Snapshot(e.path, e.before))
       case _ => false
  }

  lemma WriteRecorded(s: State, plan: EditPlan)
    requires LedgerOk(s.memory, s.clock) && PlanReady(s.memory, plan)
    requires plan.phase == Break ==> Last(s.memory.calibrations).snapshot == Some(Snapshot(plan.path, plan.before))
    requires |DoWrite(s, plan).memory.edits| > |s.memory.edits|
    ensures DoWrite(s, plan).memory == RecordEdit(s.memory, plan)
    ensures var t := DoWrite(s, plan);
      && Lookup(t.ws, plan.path) == plan.after && ManifestOf(t.ws).Some?
      && (plan.phase == Restore ==> ManifestOf(t.ws) == Some(Last(s.memory.calibrations).baseline))
  {
  }

  lemma RequestedPlan(s: State, request: EditRequest)
    requires DecideEdit(
      s.memory, ManifestOf(s.ws), Editable(s.ws, request.path), Lookup(s.ws, request.path), request).Accepted?
    ensures var plan := DecideEdit(
        s.memory, ManifestOf(s.ws), Editable(s.ws, request.path), Lookup(s.ws, request.path), request).plan;
      && plan.phase == request.phase && plan.path == request.path && plan.before == Lookup(s.ws, plan.path)
      && Editable(s.ws, plan.path)
      && match request.operation
         case CreateFile(content) => plan.before.None? && plan.after == Some(content)
         case DeleteFile(expected) => plan.before == Some(expected) && plan.after.None?
         case ReplaceText(expected, replacements) =>
           && 1 <= |replacements| <= 32 && (forall r | r in replacements :: r.oldText != "" && r.oldText != r.newText)
           && plan.before == Some(expected) && plan.after.Some? && plan.after == ApplyReplacements(expected, replacements)
  {
  }

  lemma CallRecords(s: State, request: EditRequest)
    requires SafeState(s) && |DoEdit(s, request).memory.edits| > |s.memory.edits|
    ensures var t := DoEdit(s, request);
      && t.memory.edits == s.memory.edits + [Last(t.memory.edits)]
      && Licensed(s.memory, Last(t.memory.edits)) && Recorded(s, CallEdit(request), t, Last(t.memory.edits))
      && (request.phase == Correction ==> Open(s.memory))
  {
    var taken, editable, before := ManifestOf(s.ws), Editable(s.ws, request.path), Lookup(s.ws, request.path);
    DecideEditKeeps(s.memory, taken, s.clock, editable, before, request);
    if DecideEdit(s.memory, taken, editable, before, request).Rejected? {
      RejectedKeeps(s.memory, taken, s.clock, editable, before, request);
      assert false;
    }
    var plan := DecideEdit(s.memory, taken, editable, before, request).plan;
    RequestedPlan(s, request);
    WriteRecorded(s, plan);
    PlanLicensed(s.memory, plan, s.clock);
  }

  lemma BreakRecords(s: State)
    requires SafeState(s) && |DoWriteBreak(s).memory.edits| > |s.memory.edits|
    ensures var t := DoWriteBreak(s);
      && t.memory.edits == s.memory.edits + [Last(t.memory.edits)]
      && Licensed(s.memory, Last(t.memory.edits)) && Recorded(s, WriteBreak, t, Last(t.memory.edits))
  {
    WriteRecorded(s, s.pending.plan);
    PlanLicensed(s.memory, s.pending.plan, s.clock);
  }

  lemma OthersRecordNothing(s: State, action: Action)
    requires SafeState(s) && !action.CallEdit? && !action.WriteBreak? && !action.Crash? && !action.CrashWriting?
    ensures Act(s, action).memory.edits == s.memory.edits
  {
    if action.CommandFinished? {
      if s.pending == CommandRunning {
        var running := Last(s.memory.commands);
        var status := FinishedStatus(running.tool, running.phase, action.result);
        CompleteKeeps(s.memory, s.clock, status, Rollback(s, BreakUndetected(s.memory, status)).Restored?);
      }
    } else if s.pending == Idle {
      CallsKeep(s.memory, ManifestOf(s.ws), s.clock);
      if action.CallFinishRound? { FinishKeeps(s.memory, ManifestOf(s.ws), s.clock, action.verdict, action.findings); }
      StartCalibrationKeepsEdits(
        s.memory, ManifestOf(s.ws), Rollback(s, NeedsRollback(s.memory, ManifestOf(s.ws))).Restored?, s.clock);
    }
  }

  lemma ActRecords(s: State, action: Action)
    requires SafeState(s) && !action.Crash? && !action.CrashWriting? && |Act(s, action).memory.edits| > |s.memory.edits|
    ensures var t := Act(s, action);
      && t.memory.edits == s.memory.edits + [Last(t.memory.edits)]
      && Licensed(s.memory, Last(t.memory.edits)) && Recorded(s, action, t, Last(t.memory.edits))
      && (Last(t.memory.edits).phase == Correction ==> Open(s.memory))
  {
    if action.CallEdit? {
      CallRecords(s, action.request);
    } else if action.WriteBreak? {
      BreakRecords(s);
    } else {
      OthersRecordNothing(s, action);
      assert false;
    }
  }

  lemma ActForgetsNothing(s: State, action: Action)
    requires SafeState(s) && !action.Crash? && !action.CrashWriting?
    ensures |Act(s, action).memory.edits| >= |s.memory.edits|
  {
    if action.CallEdit? {
      var taken, editable, before := ManifestOf(s.ws), Editable(s.ws, action.request.path), Lookup(s.ws, action.request.path);
      DecideEditKeeps(s.memory, taken, s.clock, editable, before, action.request);
      if DecideEdit(s.memory, taken, editable, before, action.request).Rejected? {
        RejectedKeeps(s.memory, taken, s.clock, editable, before, action.request);
      }
    } else if !action.WriteBreak? {
      OthersRecordNothing(s, action);
    }
  }

  lemma {:induction false} DiskHasNoMore(ws: Workspace, actions: seq<Action>)
    ensures var s := Run(Initial(ws), actions); |s.disk.edits| <= |s.memory.edits|
    decreases |actions|
  {
    if actions != [] {
      var front, action := actions[..|actions| - 1], Last(actions);
      DiskHasNoMore(ws, front);
      RunSafe(ws, front);
      var s := Run(Initial(ws), front);
      if action != Publish { StepParts(s, action); }
      if !action.Crash? && !action.CrashWriting? { ActForgetsNothing(s, action); }
    }
  }

  /**
   In every run an edit is recorded by its own call, or by the write of a break
   whose snapshot the disk already holds, one at a time. The ledger licenses it
   then, and the workspace held what the edit says it changed and now holds what
   it says it wrote.
   */
  lemma EditsAreLicensed(ws: Workspace, actions: seq<Action>, action: Action)
    requires |Step(Run(Initial(ws), actions), action).memory.edits| > |Run(Initial(ws), actions).memory.edits|
    ensures var s := Run(Initial(ws), actions);
      var t := Step(s, action);
      && t.memory.edits == s.memory.edits + [Last(t.memory.edits)]
      && Licensed(s.memory, Last(t.memory.edits)) && Recorded(s, action, t, Last(t.memory.edits))
      && (Last(t.memory.edits).phase == Correction ==> Open(s.memory))
  {
    RunSafe(ws, actions);
    DiskHasNoMore(ws, actions);
    var s := Run(Initial(ws), actions);
    assert Step(s, action).memory == Act(s, action).memory && Step(s, action).ws == Act(s, action).ws;
    ActRecords(s, action);
  }
}
