/**
 What a ledger's entries say happened: every stamp is the tick of the call or
 the event that made the entry, and every outcome is what that event reported.
 */
module ReviewHistory {
  import opened Prelude
  import opened ReviewWorkspace
  import opened ReviewText
  import opened ReviewProtocol
  import opened ReviewSafety
  import opened ReviewRun
  import opened ReviewTheorems

  // ----- what happened at a tick -----

  /** The clock starts at one and every step takes one tick. */
  predicate HappenedAt(actions: seq<Action>, at: nat) {
    1 <= at <= |actions|
  }

  function Happened(actions: seq<Action>, at: nat): Action
    requires HappenedAt(actions, at)
  {
    actions[at - 1]
  }

  /** It ended in time and within its output limit. */
  predicate Bounded(result: ProcessResult) {
    !result.timedOut && !result.outputLimited
  }

  /** A watch that came out clean, or a process that exited with zero. */
  predicate Passes(tool: Tool, result: ProcessResult) {
    && Bounded(result)
    && if tool == CheckWatch then result.watchClean && !result.watchErrors else result.exitCode == Some(0)
  }

  /** A process that ran to an end of its own and reported failure. */
  predicate FailsProperly(result: ProcessResult) {
    Bounded(result) && !result.signalled && result.exitCode.Some? && result.exitCode.value != 0
  }

  /** The status a command's result earns it. */
  predicate Earned(c: Command, result: ProcessResult) {
    && c.status != Running
    && (c.status == TimedOut <==> result.timedOut)
    && (c.status == Succeeded <==> c.phase != CalibrationFail && Passes(c.tool, result))
    && (c.status == ExpectedFailure <==> c.phase == CalibrationFail && FailsProperly(result))
  }

  predicate CommandHappened(c: Command, actions: seq<Action>) {
    && HappenedAt(actions, c.startedAt) && Happened(actions, c.startedAt) == CallCommand(c.tool, c.phase)
    && match c.finishedAt
       case None => c.status == Running
       case Some(at) =>
         && HappenedAt(actions, at) && Happened(actions, at).CommandFinished?
         && Earned(c, Happened(actions, at).result)
  }

  predicate ReadHappened(read: Read, actions: seq<Action>) {
    HappenedAt(actions, read.readAt) && Happened(actions, read.readAt) == CallReadFile(read.path, read.content)
  }

  /** Reads follow the round's start and one another. */
  predicate ReadsFollow(r: Round) {
    forall j | 0 <= j < |r.credited| :: FollowsAt(r, j)
  }

  predicate FollowsAt(r: Round, j: nat)
    requires j < |r.credited|
  {
    (if j == 0 then r.startedAt else r.credited[j - 1].readAt) < r.credited[j].readAt
  }

  predicate RoundHappened(r: Round, actions: seq<Action>) {
    && HappenedAt(actions, r.startedAt) && Happened(actions, r.startedAt) == CallStartRound
    && (forall j | 0 <= j < |r.credited| :: ReadHappened(r.credited[j], actions))
    && ReadsFollow(r)
    && match r.finishedAt
       case None => r.status == Reading || r.status == InvalidRound
       case Some(at) =>
         && HappenedAt(actions, at) && Happened(actions, at).CallFinishRound?
         && (r.status == InvalidRound || r.status == Happened(actions, at).verdict)
         && (Happened(actions, at).verdict == Findings <==> Happened(actions, at).findings != [])
         && forall j | 0 <= j < |r.credited| :: r.credited[j].readAt < at
  }

  predicate CalibrationHappened(c: Calibration, actions: seq<Action>) {
    HappenedAt(actions, c.startedAt) && Happened(actions, c.startedAt) == CallStartCalibration
  }

  predicate LedgerHappened(l: Ledger, actions: seq<Action>) {
    && (forall i | 0 <= i < |l.commands| :: CommandHappened(l.commands[i], actions))
    && (forall i | 0 <= i < |l.rounds| :: RoundHappened(l.rounds[i], actions))
    && (forall i | 0 <= i < |l.calibrations| :: CalibrationHappened(l.calibrations[i], actions))
  }

  // ----- what happened stays so -----

  lemma HappenedStays(l: Ledger, actions: seq<Action>, action: Action)
    requires LedgerHappened(l, actions)
    ensures LedgerHappened(l, actions + [action])
  {
    var more := actions + [action];
    assert forall at | HappenedAt(actions, at) :: HappenedAt(more, at) && Happened(more, at) == Happened(actions, at);
    forall i | 0 <= i < |l.commands| ensures CommandHappened(l.commands[i], more) {
      assert CommandHappened(l.commands[i], actions);
    }
    forall i | 0 <= i < |l.rounds| ensures RoundHappened(l.rounds[i], more) {
      assert RoundHappened(l.rounds[i], actions);
    }
    forall i | 0 <= i < |l.calibrations| ensures CalibrationHappened(l.calibrations[i], more) {
      assert CalibrationHappened(l.calibrations[i], actions);
    }
  }

  lemma RoundStays(r: Round, actions: seq<Action>, action: Action)
    requires RoundHappened(r, actions)
    ensures RoundHappened(r, actions + [action])
  {
    var more := actions + [action];
    assert forall at | HappenedAt(actions, at) :: HappenedAt(more, at) && Happened(more, at) == Happened(actions, at);
    forall j | 0 <= j < |r.credited| ensures ReadHappened(r.credited[j], more) {
      assert ReadHappened(r.credited[j], actions);
    }
  }

  lemma RoundInvalidated(r: Round, actions: seq<Action>)
    requires RoundHappened(r, actions)
    ensures RoundHappened(r.(status := InvalidRound), actions)
  {
    var after := r.(status := InvalidRound);
    forall j | 0 <= j < |after.credited| ensures FollowsAt(after, j) { assert FollowsAt(r, j); }
  }

  lemma RoundReplaced(l: Ledger, round: Round, actions: seq<Action>)
    requires LedgerHappened(l, actions) && l.rounds != [] && RoundHappened(round, actions)
    ensures LedgerHappened(WithLastRound(l, round), actions)
  {
  }

  lemma InvalidateHappened(l: Ledger, actions: seq<Action>)
    requires LedgerHappened(l, actions) && l.rounds != []
    ensures LedgerHappened(InvalidateLastRound(l), actions)
  {
    RoundInvalidated(Last(l.rounds), actions);
    RoundReplaced(l, Last(l.rounds).(status := InvalidRound), actions);
  }

  lemma CalibrationReplaced(l: Ledger, c: Calibration, actions: seq<Action>)
    requires LedgerHappened(l, actions) && l.calibrations != [] && c.startedAt == Last(l.calibrations).startedAt
    ensures LedgerHappened(WithLastCalibration(l, c), actions)
  {
    assert CalibrationHappened(Last(l.calibrations), actions);
  }

  // ----- each call leaves entries that happened -----

  lemma StartRoundHappened(l: Ledger, taken: Option<Manifest>, actions: seq<Action>)
    requires LedgerHappened(l, actions)
    ensures LedgerHappened(StartRound(l, taken, |actions| + 1).ledger, actions + [CallStartRound])
  {
    var more := actions + [CallStartRound];
    HappenedStays(l, actions, CallStartRound);
    if l.rounds != [] { InvalidateHappened(l, more); }
    var after := StartRound(l, taken, |actions| + 1).ledger;
    if |after.rounds| == |l.rounds| + 1 {
      assert RoundHappened(Last(after.rounds), more);
    }
  }

  lemma ReadFileHappened(l: Ledger, taken: Option<Manifest>, path: string, observed: string, actions: seq<Action>)
    requires LedgerHappened(l, actions) && RoundsOk(l, |actions| + 1)
    ensures LedgerHappened(ReadFile(l, taken, |actions| + 1, path, observed).ledger, actions + [CallReadFile(path, observed)])
  {
    var more := actions + [CallReadFile(path, observed)];
    HappenedStays(l, actions, CallReadFile(path, observed));
    if l.rounds != [] {
      InvalidateHappened(l, more);
      var round := Last(l.rounds);
      assert RoundHappened(round, actions) && RoundHappened(round, more) && RoundOk(round, |l.rounds| - 1, |actions| + 1);
      if round.status == Reading {
        var read := round.(credited := round.credited + [Read(path, observed, |actions| + 1)]);
        ReadAppended(round, path, observed, actions);
        RoundReplaced(l, read, more);
      }
    }
  }

  lemma ReadAppended(round: Round, path: string, observed: string, actions: seq<Action>)
    requires RoundHappened(round, actions) && round.status == Reading && round.finishedAt.None?
    ensures RoundHappened(
      round.(credited := round.credited + [Read(path, observed, |actions| + 1)]), actions + [CallReadFile(path, observed)])
  {
    var more := actions + [CallReadFile(path, observed)];
    var read := round.(credited := round.credited + [Read(path, observed, |actions| + 1)]);
    RoundStays(round, actions, CallReadFile(path, observed));
    forall j | 0 <= j < |read.credited|
      ensures ReadHappened(read.credited[j], more)
      ensures FollowsAt(read, j)
    {
      if j < |round.credited| {
        assert ReadHappened(round.credited[j], actions) && FollowsAt(round, j);
      } else if j > 0 {
        assert ReadHappened(round.credited[j - 1], actions);
      }
    }
  }

  lemma FinishedHappened(round: Round, verdict: RoundStatus, findings: seq<string>, actions: seq<Action>)
    requires RoundHappened(round, actions) && (verdict == Findings <==> findings != [])
    ensures RoundHappened(
      round.(status := verdict, finishedAt := Some(|actions| + 1)), actions + [CallFinishRound(verdict, findings)])
  {
    RoundStays(round, actions, CallFinishRound(verdict, findings));
    assert forall j | 0 <= j < |round.credited| :: ReadHappened(round.credited[j], actions);
    var finished := round.(status := verdict, finishedAt := Some(|actions| + 1));
    forall j | 0 <= j < |finished.credited| ensures FollowsAt(finished, j) {
      assert FollowsAt(round, j);
    }
  }

  lemma FinishRoundHappened(l: Ledger, taken: Option<Manifest>, verdict: RoundStatus, findings: seq<string>, actions: seq<Action>)
    requires LedgerHappened(l, actions)
    ensures LedgerHappened(
      FinishRound(l, taken, |actions| + 1, verdict, findings).ledger, actions + [CallFinishRound(verdict, findings)])
  {
    var more := actions + [CallFinishRound(verdict, findings)];
    HappenedStays(l, actions, CallFinishRound(verdict, findings));
    if l.rounds != [] {
      InvalidateHappened(l, more);
      var round := Last(l.rounds);
      assert RoundHappened(round, actions) && RoundHappened(round, more);
      if FinishRound(l, taken, |actions| + 1, verdict, findings).reply == Success {
        FinishedHappened(round, verdict, findings, actions);
        RoundReplaced(l, round.(status := verdict, finishedAt := Some(|actions| + 1)), more);
      }
    }
  }

  lemma SealHappened(l: Ledger, taken: Option<Manifest>, actions: seq<Action>)
    requires LedgerHappened(l, actions + [CallStartCalibration])
    ensures LedgerHappened(SealCalibration(l, taken, |actions| + 1).ledger, actions + [CallStartCalibration])
  {
    var after := SealCalibration(l, taken, |actions| + 1).ledger;
    if after != l {
      assert CalibrationHappened(Last(after.calibrations), actions + [CallStartCalibration]);
    }
  }

  lemma StartCalibrationHappened(l: Ledger, taken: Option<Manifest>, rolledBack: bool, actions: seq<Action>)
    requires LedgerHappened(l, actions)
    ensures LedgerHappened(StartCalibration(l, taken, rolledBack, |actions| + 1).ledger, actions + [CallStartCalibration])
  {
    var more := actions + [CallStartCalibration];
    HappenedStays(l, actions, CallStartCalibration);
    if l.rounds != [] { InvalidateHappened(l, more); }
    SealHappened(l, taken, actions);
    if l.calibrations != [] {
      var c := Last(l.calibrations);
      CalibrationReplaced(l, c.(status := InvalidCalibration), more);
      CalibrationReplaced(l, RecordRestore(c).(status := InvalidCalibration), more);
      SealHappened(WithLastCalibration(l, RecordRestore(c).(status := InvalidCalibration)), Some(c.baseline), actions);
    }
  }

  lemma RecordHappened(l: Ledger, plan: EditPlan, actions: seq<Action>)
    requires LedgerHappened(l, actions) && l.rounds != [] && (plan.phase != Correction ==> l.calibrations != [])
    ensures LedgerHappened(RecordEdit(l, plan), actions) && LedgerHappened(RejectEdit(l, plan), actions)
    ensures plan.phase == Break ==> LedgerHappened(StoreSnapshot(l, plan), actions)
  {
    if l.calibrations != [] {
      var c := Last(l.calibrations);
      CalibrationReplaced(l, RecordRestore(c), actions);
      CalibrationReplaced(l, c.(snapshot := None), actions);
      CalibrationReplaced(l, c.(snapshot := Some(Snapshot(plan.path, plan.before))), actions);
    }
  }

  lemma BeginCommandHappened(l: Ledger, taken: Option<Manifest>, tool: Tool, phase: CommandPhase, actions: seq<Action>)
    requires LedgerHappened(l, actions)
    ensures LedgerHappened(BeginCommand(l, taken, |actions| + 1, tool, phase).ledger, actions + [CallCommand(tool, phase)])
  {
    var more := actions + [CallCommand(tool, phase)];
    HappenedStays(l, actions, CallCommand(tool, phase));
    if l.rounds != [] { InvalidateHappened(l, more); }
    var after := BeginCommand(l, taken, |actions| + 1, tool, phase).ledger;
    if |after.commands| == |l.commands| + 1 {
      assert CommandHappened(Last(after.commands), more);
    }
  }

  lemma StatusEarned(c: Command, now: nat, result: ProcessResult)
    ensures Earned(c.(status := FinishedStatus(c.tool, c.phase, result), finishedAt := Some(now)), result)
  {
  }

  lemma ResultHappened(l: Ledger, result: ProcessResult, actions: seq<Action>)
    requires LedgerHappened(l, actions) && l.commands != []
    ensures var running := Last(l.commands);
      LedgerHappened(
        WithResult(l, |actions| + 1, FinishedStatus(running.tool, running.phase, result)),
        actions + [CommandFinished(result)])
  {
    var more, running := actions + [CommandFinished(result)], Last(l.commands);
    HappenedStays(l, actions, CommandFinished(result));
    StatusEarned(running, |actions| + 1, result);
    assert CommandHappened(running, actions);
    var done := WithResult(l, |actions| + 1, FinishedStatus(running.tool, running.phase, result));
    assert CommandHappened(Last(done.commands), more);
  }

  lemma CompleteCommandHappened(l: Ledger, result: ProcessResult, rolledBack: bool, actions: seq<Action>)
    requires LedgerHappened(l, actions) && l.commands != []
    ensures var running := Last(l.commands);
      LedgerHappened(
        CompleteCommand(l, |actions| + 1, FinishedStatus(running.tool, running.phase, result), rolledBack).ledger,
        actions + [CommandFinished(result)])
  {
    var more, running := actions + [CommandFinished(result)], Last(l.commands);
    ResultHappened(l, result, actions);
    var done := WithResult(l, |actions| + 1, FinishedStatus(running.tool, running.phase, result));
    if l.rounds != [] { InvalidateHappened(done, more); }
    if l.calibrations != [] {
      var c := Last(l.calibrations);
      CalibrationReplaced(done, c.(status := InvalidCalibration), more);
      CalibrationReplaced(done, RecordRestore(c).(status := InvalidCalibration), more);
      CalibrationReplaced(done, c.(status := FailureProven, failureCommand := Some(running.index)), more);
      CalibrationReplaced(done, c.(status := Passed, passCommand := Some(running.index)), more);
    }
  }

  // ----- over runs -----

  ghost predicate StateHappened(s: State, actions: seq<Action>) {
    s.clock == |actions| + 1 && LedgerHappened(s.memory, actions) && LedgerHappened(s.disk, actions)
  }

  lemma WriteHappened(s: State, plan: EditPlan, actions: seq<Action>)
    requires LedgerHappened(s.memory, actions) && s.memory.rounds != []
    requires plan.phase != Correction ==> s.memory.calibrations != []
    ensures LedgerHappened(DoWrite(s, plan).memory, actions)
  {
    RecordHappened(s.memory, plan, actions);
  }

  lemma EditHappened(s: State, request: EditRequest, actions: seq<Action>)
    requires SafeState(s) && s.clock == |actions| + 1 && LedgerHappened(s.memory, actions)
    ensures LedgerHappened(DoEdit(s, request).memory, actions + [CallEdit(request)])
  {
    var more := actions + [CallEdit(request)];
    HappenedStays(s.memory, actions, CallEdit(request));
    if s.memory.rounds != [] { InvalidateHappened(s.memory, more); }
    var before := Lookup(s.ws, request.path);
    DecideEditKeeps(s.memory, ManifestOf(s.ws), s.clock, Editable(s.ws, request.path), before, request);
    match DecideEdit(s.memory, ManifestOf(s.ws), Editable(s.ws, request.path), before, request)
    case Rejected(answer) =>
    case Accepted(plan) =>
      RecordHappened(s.memory, plan, more);
      if plan.phase != Break { WriteHappened(s, plan, more); }
  }

  lemma CallHappened(s: State, action: Action, actions: seq<Action>)
    requires SafeState(s) && s.clock == |actions| + 1 && LedgerHappened(s.memory, actions) && s.pending == Idle
    ensures LedgerHappened(DoCall(s, action).memory, actions + [action])
  {
    var taken := ManifestOf(s.ws);
    match action
    case CallStartRound => StartRoundHappened(s.memory, taken, actions);
    case CallReadFile(path, observed) => ReadFileHappened(s.memory, taken, path, observed, actions);
    case CallFinishRound(verdict, findings) => FinishRoundHappened(s.memory, taken, verdict, findings, actions);
    case CallStartCalibration =>
      StartCalibrationHappened(s.memory, taken, Rollback(s, NeedsRollback(s.memory, taken)).Restored?, actions);
    case CallEdit(request) => EditHappened(s, request, actions);
    case CallCommand(tool, phase) => BeginCommandHappened(s.memory, taken, tool, phase, actions);
    case _ => HappenedStays(s.memory, actions, action);
  }

  lemma FinishHappened(s: State, result: ProcessResult, actions: seq<Action>)
    requires SafeState(s) && s.clock == |actions| + 1 && LedgerHappened(s.memory, actions)
    ensures LedgerHappened(DoCommandFinished(s, result).memory, actions + [CommandFinished(result)])
  {
    HappenedStays(s.memory, actions, CommandFinished(result));
    if s.pending == CommandRunning {
      var running := Last(s.memory.commands);
      var status := FinishedStatus(running.tool, running.phase, result);
      CompleteCommandHappened(s.memory, result, Rollback(s, BreakUndetected(s.memory, status)).Restored?, actions);
    }
  }

  lemma ActHappened(s: State, action: Action, actions: seq<Action>)
    requires SafeState(s) && StateHappened(s, actions)
    ensures LedgerHappened(Act(s, action).memory, actions + [action])
  {
    HappenedStays(s.memory, actions, action);
    HappenedStays(s.disk, actions, action);
    if action.WriteBreak? {
      if s.pending.BreakPrepared? { WriteHappened(s, s.pending.plan, actions + [action]); }
    } else if action.CommandFinished? {
      FinishHappened(s, action.result, actions);
    } else if s.pending == Idle && IsCall(action) {
      CallHappened(s, action, actions);
    }
  }

  predicate IsCall(action: Action) {
    action.CallStartRound? || action.CallReadFile? || action.CallFinishRound? || action.CallStartCalibration?
    || action.CallEdit? || action.CallCommand?
  }

  lemma StepHappened(s: State, action: Action, actions: seq<Action>)
    requires SafeState(s) && StateHappened(s, actions)
    ensures StateHappened(Step(s, action), actions + [action])
  {
    ActHappened(s, action, actions);
    HappenedStays(s.memory, actions, action);
    HappenedStays(s.disk, actions, action);
    if action != Publish { StepParts(s, action); }
  }

  /**
   Over every run, crashes and resumes among its steps, both ledgers record what
   happened: each entry carries the tick of the call that made it, and each
   outcome is what the event at its finishing tick reported.
   */
  lemma {:induction false} RecordsHappened(ws: Workspace, actions: seq<Action>)
    ensures StateHappened(Run(Initial(ws), actions), actions)
    decreases |actions|
  {
    if actions != [] {
      var front := actions[..|actions| - 1];
      RecordsHappened(ws, front);
      RunSafe(ws, front);
      StepHappened(Run(Initial(ws), front), Last(actions), front);
      assert actions == front + [Last(actions)];
    }
  }

  // ----- what the completion gate stands on -----

  /** The ticks at which a certified review history happened. */
  datatype Story = Story(
    sealed: nat, failBegun: nat, failEnded: nat, passBegun: nat, passEnded: nat,
    roundBegun: nat, readTicks: seq<nat>, roundEnded: nat, watchBegun: nat, watchEnded: nat, testBegun: nat, testEnded: nat)

  predicate ReadInOrder(t: Story, j: nat)
    requires j < |t.readTicks|
  {
    (if j == 0 then t.roundBegun else t.readTicks[j - 1]) < t.readTicks[j] < t.roundEnded
  }

  predicate ReadsInOrder(t: Story) {
    forall j | 0 <= j < |t.readTicks| :: ReadInOrder(t, j)
  }

  predicate InOrder(t: Story) {
    && 1 <= t.sealed < t.failBegun < t.failEnded < t.passBegun < t.passEnded < t.roundBegun < t.roundEnded
    && ReadsInOrder(t)
    && t.roundEnded < t.watchBegun < t.watchEnded < t.testBegun < t.testEnded
  }

  predicate Ran(actions: seq<Action>, tool: Tool, phase: CommandPhase, begun: nat, ended: nat) {
    && HappenedAt(actions, begun) && Happened(actions, begun) == CallCommand(tool, phase)
    && HappenedAt(actions, ended) && Happened(actions, ended).CommandFinished?
  }

  predicate Calibrated(actions: seq<Action>, t: Story) {
    && HappenedAt(actions, t.sealed) && Happened(actions, t.sealed) == CallStartCalibration
    && Ran(actions, Test, CalibrationFail, t.failBegun, t.failEnded)
    && Ran(actions, Test, CalibrationPass, t.passBegun, t.passEnded)
    && var failed, passed := Happened(actions, t.failEnded).result, Happened(actions, t.passEnded).result;
    && failed.exitCode.Some? && failed.exitCode.value != 0 && !failed.signalled && !failed.timedOut && !failed.outputLimited
    && passed.exitCode == Some(0) && !passed.timedOut && !passed.outputLimited
  }

  predicate ReadThrough(actions: seq<Action>, m: Manifest, t: Story) {
    && HappenedAt(actions, t.roundBegun) && Happened(actions, t.roundBegun) == CallStartRound
    && HappenedAt(actions, t.roundEnded) && Happened(actions, t.roundEnded) == CallFinishRound(Dry, [])
    && |t.readTicks| == |m|
    && forall j | 0 <= j < |m| ::
         HappenedAt(actions, t.readTicks[j]) && Happened(actions, t.readTicks[j]) == CallReadFile(m[j].path, m[j].content)
  }

  predicate Proven(actions: seq<Action>, t: Story) {
    && Ran(actions, CheckWatch, FinalGate, t.watchBegun, t.watchEnded)
    && Ran(actions, Test, FinalGate, t.testBegun, t.testEnded)
    && var watch, test := Happened(actions, t.watchEnded).result, Happened(actions, t.testEnded).result;
    && watch.watchClean && !watch.watchErrors && !watch.timedOut && !watch.outputLimited
    && test.exitCode == Some(0) && !test.timedOut && !test.outputLimited
  }

  predicate Told(actions: seq<Action>, m: Manifest, t: Story) {
    InOrder(t) && Calibrated(actions, t) && ReadThrough(actions, m, t) && Proven(actions, t)
  }

  /** Two final commands stand in the order they were run in. */
  lemma {:induction false} FinalsInOrder(commands: seq<Command>, since: nat) returns (i: nat, j: nat)
    requires FinalsSince(commands, since) != []
    ensures j < |commands| && commands[j] == Last(FinalsSince(commands, since))
    ensures commands[j].phase == FinalGate && commands[j].startedAt >= since
    ensures |FinalsSince(commands, since)| >= 2 ==>
      && i < j && commands[i] == FinalsSince(commands, since)[|FinalsSince(commands, since)| - 2]
      && commands[i].phase == FinalGate && commands[i].startedAt >= since
  {
    var front := commands[..|commands| - 1];
    if Last(commands).phase == FinalGate && Last(commands).startedAt >= since {
      j := |commands| - 1;
      i := j;
      if FinalsSince(front, since) != [] {
        var ignored;
        ignored, i := FinalsInOrder(front, since);
      }
    } else {
      i, j := FinalsInOrder(front, since);
    }
  }

  lemma CommandEarned(l: Ledger, actions: seq<Action>, c: Command)
    requires LedgerHappened(l, actions) && c in l.commands && c.status != Running
    ensures c.finishedAt.Some? && Ran(actions, c.tool, c.phase, c.startedAt, c.finishedAt.value)
    ensures Earned(c, Happened(actions, c.finishedAt.value).result)
  {
    var i :| 0 <= i < |l.commands| && l.commands[i] == c;
    assert CommandHappened(l.commands[i], actions);
  }

  /** The calibration, its two tests and the round a dry ledger stands on. */
  lemma DryStands(l: Ledger, clock: nat) returns (failed: Command, passed: Command)
    requires LedgerOk(l, clock) && l.rounds != [] && Last(l.rounds).status == Dry
    ensures l.calibrations != [] && failed in l.commands && passed in l.commands
    ensures CalibratedBy(Last(l.calibrations), failed, passed, Last(l.calibrations).baseline, Last(l.rounds).startedAt)
    ensures Last(l.rounds).finishedAt.Some? && |Last(l.rounds).credited| == |Last(l.rounds).manifest|
    ensures Last(l.rounds).startedAt < Last(l.rounds).finishedAt.value
    ensures CreditedPrefix(Last(l.rounds))
  {
    var c := Last(l.calibrations);
    assert RoundOk(Last(l.rounds), |l.rounds| - 1, clock);
    PassEvidenceCalibrates(l, clock, Last(l.rounds).startedAt);
    failed, passed := l.commands[c.failureCommand.value - 1], l.commands[c.passCommand.value - 1];
  }

  lemma CalibrationTold(l: Ledger, actions: seq<Action>, failed: Command, passed: Command) returns (t: Story)
    requires LedgerHappened(l, actions) && l.rounds != [] && l.calibrations != [] && failed in l.commands && passed in l.commands
    requires CalibratedBy(Last(l.calibrations), failed, passed, Last(l.calibrations).baseline, Last(l.rounds).startedAt)
    ensures Calibrated(actions, t) && 1 <= t.sealed < t.failBegun < t.failEnded < t.passBegun < t.passEnded < Last(l.rounds).startedAt
  {
    var c := Last(l.calibrations);
    CommandEarned(l, actions, failed);
    CommandEarned(l, actions, passed);
    assert CalibrationHappened(c, actions);
    t := Story(c.startedAt, failed.startedAt, failed.finishedAt.value, passed.startedAt, passed.finishedAt.value, 0, [], 0, 0, 0, 0, 0);
  }

  lemma RoundTold(l: Ledger, actions: seq<Action>, t: Story) returns (u: Story)
    requires LedgerHappened(l, actions) && l.rounds != [] && Last(l.rounds).status == Dry
    requires Last(l.rounds).finishedAt.Some? && |Last(l.rounds).credited| == |Last(l.rounds).manifest|
    requires CreditedPrefix(Last(l.rounds)) && Last(l.rounds).startedAt < Last(l.rounds).finishedAt.value
    ensures ReadThrough(actions, Last(l.rounds).manifest, u)
    ensures u == t.(roundBegun := Last(l.rounds).startedAt, readTicks := u.readTicks, roundEnded := FinishedOrFirst(Last(l.rounds)))
    ensures u.roundBegun < u.roundEnded
    ensures ReadsInOrder(u)
  {
    var round := Last(l.rounds);
    assert RoundHappened(round, actions);
    var readTicks := seq(|round.credited|, j requires 0 <= j < |round.credited| => round.credited[j].readAt);
    u := t.(roundBegun := round.startedAt, readTicks := readTicks, roundEnded := FinishedOrFirst(round));
    forall j | 0 <= j < |round.manifest|
      ensures HappenedAt(actions, readTicks[j])
      ensures Happened(actions, readTicks[j]) == CallReadFile(round.manifest[j].path, round.manifest[j].content)
      ensures ReadInOrder(u, j)
    {
      assert ReadHappened(round.credited[j], actions) && FollowsAt(round, j);
    }
  }

  lemma FinalsTold(l: Ledger, actions: seq<Action>, clock: nat, t: Story) returns (u: Story)
    requires LedgerHappened(l, actions) && LedgerOk(l, clock) && l.rounds != [] && Last(l.rounds).status == Dry
    requires AssertDry(l, Some(Last(l.rounds).manifest))
    ensures Proven(actions, u) && FinishedOrFirst(Last(l.rounds)) < u.watchBegun < u.watchEnded < u.testBegun < u.testEnded
    ensures u == t.(watchBegun := u.watchBegun, watchEnded := u.watchEnded, testBegun := u.testBegun, testEnded := u.testEnded)
  {
    var round := Last(l.rounds);
    var finals := FinalsSince(l.commands, FinishedOrFirst(round));
    MatchingFinalsAll(finals, round.manifest);
    var i, j := FinalsInOrder(l.commands, FinishedOrFirst(round));
    var watch, test := l.commands[i], l.commands[j];
    CommandEarned(l, actions, watch);
    CommandEarned(l, actions, test);
    assert CommandOk(watch, i, clock) && CommandOk(test, j, clock) && FinishedBefore(watch, test.startedAt);
    assert RoundHappened(round, actions);
    u := t.(watchBegun := watch.startedAt, watchEnded := watch.finishedAt.value,
            testBegun := test.startedAt, testEnded := test.finishedAt.value);
  }

  lemma LedgerTells(l: Ledger, actions: seq<Action>, clock: nat, m: Manifest) returns (t: Story)
    requires LedgerHappened(l, actions) && LedgerOk(l, clock) && AssertDry(l, Some(m))
    ensures Told(actions, m, t)
  {
    var failed, passed := DryStands(l, clock);
    var a := CalibrationTold(l, actions, failed, passed);
    var b := RoundTold(l, actions, a);
    t := FinalsTold(l, actions, clock, b);
    TellsAll(actions, m, a, b, t);
  }

  lemma TellsAll(actions: seq<Action>, m: Manifest, a: Story, b: Story, t: Story)
    requires Calibrated(actions, a) && 1 <= a.sealed < a.failBegun < a.failEnded < a.passBegun < a.passEnded < b.roundBegun
    requires b == a.(roundBegun := b.roundBegun, readTicks := b.readTicks, roundEnded := b.roundEnded)
    requires ReadThrough(actions, m, b) && ReadsInOrder(b) && b.roundBegun < b.roundEnded
    requires t == b.(watchBegun := t.watchBegun, watchEnded := t.watchEnded, testBegun := t.testBegun, testEnded := t.testEnded)
    requires Proven(actions, t) && b.roundEnded < t.watchBegun < t.watchEnded < t.testBegun < t.testEnded
    ensures Told(actions, m, t)
  {
    assert forall j | 0 <= j < |t.readTicks| :: ReadInOrder(b, j) ==> ReadInOrder(t, j);
  }

  /**
   Whenever the gate is open, this is what happened, in this order: a calibration
   was sealed, a test was run that failed, and one that passed; a round was begun,
   every file of the present manifest was read as it is, and the round was declared
   dry; then a watch came out clean and a test exited with zero.
   */
  lemma GateTellsHistory(ws: Workspace, actions: seq<Action>) returns (t: Story)
    requires var s := Run(Initial(ws), actions); AssertDry(s.memory, ManifestOf(s.ws))
    ensures ManifestOf(Run(Initial(ws), actions).ws).Some?
    ensures Told(actions, ManifestOf(Run(Initial(ws), actions).ws).value, t)
  {
    RunSafe(ws, actions);
    RecordsHappened(ws, actions);
    var s := Run(Initial(ws), actions);
    t := LedgerTells(s.memory, actions, s.clock, Last(s.memory.rounds).manifest);
  }
}
