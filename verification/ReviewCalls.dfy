/**
 When each tool call is granted, what it then changes, and what it notices: the
 exact conditions, and what they make of a whole run.
 */
module ReviewCalls {
  import opened Prelude
  import opened ReviewWorkspace
  import opened ReviewText
  import opened ReviewProtocol
  import opened ReviewSafety
  import opened ReviewRun
  import opened ReviewTheorems
  import opened ReviewHistory

  // ----- one call -----

  /** The last round is over because the workspace is no longer what it was about. */
  predicate Ended(l: Ledger, after: Ledger) {
    l.rounds != [] && after == l.(rounds := l.rounds[..|l.rounds| - 1] + [Last(l.rounds).(status := InvalidRound)])
  }

  /** The calibration that lets a clean round be followed by another. */
  predicate Unlocks(c: Calibration, round: Round, m: Manifest) {
    c.status == Passed && c.baseline == m == round.manifest && round.finishedAt.Some? && round.finishedAt.value <= c.startedAt
  }

  predicate MayBegin(l: Ledger, m: Manifest) {
    l.rounds == [] || (
      var round := Last(l.rounds);
      || round.status == Findings || round.status == InvalidRound
      || (round.status == Clean && l.calibrations != [] && Unlocks(Last(l.calibrations), round, m)))
  }

  /** The workspace has changed under a round that still counts. */
  predicate Changed(l: Ledger, taken: Option<Manifest>) {
    l.rounds != [] && taken.Some? && Last(l.rounds).manifest != taken.value
  }

  lemma RoundBeginsExactly(l: Ledger, taken: Option<Manifest>, now: nat)
    requires RoundsOk(l, now)
    ensures var after := StartRound(l, taken, now).ledger;
      if taken.Some? && MayBegin(l, taken.value)
      then after == l.(rounds := l.rounds + [Round(|l.rounds| + 1, now, taken.value, [], Reading, None)])
      else if Changed(l, taken) then Ended(l, after)
      else after == l
  {
    if l.rounds != [] { assert RoundOk(Last(l.rounds), |l.rounds| - 1, now); }
  }

  /** The next file the round has to read, as the manifest has it. */
  predicate IsNext(round: Round, path: string, observed: string) {
    && |round.credited| < |round.manifest|
    && round.manifest[|round.credited|].path == path && round.manifest[|round.credited|].content == observed
  }

  lemma ReadCreditsExactly(l: Ledger, taken: Option<Manifest>, now: nat, path: string, observed: string)
    ensures var after := ReadFile(l, taken, now, path, observed).ledger;
      if l.rounds == [] || Last(l.rounds).status != Reading || taken.None? then after == l
      else
        var round := Last(l.rounds);
        if taken.value != round.manifest then Ended(l, after)
        else if IsNext(round, path, observed)
        then after == l.(rounds := l.rounds[..|l.rounds| - 1] + [round.(credited := round.credited + [Read(path, observed, now)])])
        else if |round.credited| < |round.manifest| && round.manifest[|round.credited|].path == path then Ended(l, after)
        else after == l
  {
  }

  /** A verdict that names its findings, or says that there are none. */
  predicate ProperVerdict(verdict: RoundStatus, findings: seq<string>) {
    && (verdict == Findings || verdict == Clean || verdict == Dry)
    && (forall i | 0 <= i < |findings| :: !Blank(findings[i]))
    && (verdict == Findings <==> findings != [])
  }

  /** A calibration of this manifest had passed before the round began. */
  predicate CalibratedBefore(l: Ledger, round: Round) {
    && l.calibrations != [] && Last(l.calibrations).status == Passed && Last(l.calibrations).passCommand.Some?
    && Last(l.calibrations).baseline == round.manifest && Last(l.calibrations).startedAt < round.startedAt
  }

  lemma RoundEndsExactly(l: Ledger, taken: Option<Manifest>, now: nat, verdict: RoundStatus, findings: seq<string>)
    ensures var after := FinishRound(l, taken, now, verdict, findings).ledger;
      if !ProperVerdict(verdict, findings) || l.rounds == [] || Last(l.rounds).status != Reading || taken.None?
        || |Last(l.rounds).credited| != |Last(l.rounds).manifest|
      then after == l
      else
        var round := Last(l.rounds);
        if taken.value != round.manifest then Ended(l, after)
        else if verdict == Dry && !CalibratedBefore(l, round) then after == l
        else after == l.(rounds := l.rounds[..|l.rounds| - 1] + [round.(status := verdict, finishedAt := Some(now))])
  {
  }

  /** A round that may be calibrated behind. */
  predicate Calibratable(l: Ledger, m: Manifest) {
    l.rounds != [] && (Last(l.rounds).status == Findings || (Last(l.rounds).status == Clean && Last(l.rounds).manifest == m))
  }

  /** The calibration before it is over, with the sealed workspace back. */
  predicate Resolved(l: Ledger) {
    l.calibrations == [] || (
      var c := Last(l.calibrations);
      c.status == Passed || (c.status == InvalidCalibration && c.restored == Some(c.baseline)))
  }

  lemma CalibrationStartsExactly(l: Ledger, taken: Option<Manifest>, rolledBack: bool, now: nat)
    requires CalibrationsOk(l, now)
    ensures var after := StartCalibration(l, taken, rolledBack, now).ledger;
      if taken.Some? && Calibratable(l, taken.value) then
        if Resolved(l) then
          after == l.(calibrations := l.calibrations + [Calibration(|l.calibrations| + 1, now, taken.value, Sealed, None, None, None, None)])
        else
          var c, front := Last(l.calibrations), l.calibrations[..|l.calibrations| - 1];
          if !Unresolved(c) then after == l
          else if rolledBack then
            after == l.(calibrations := front
              + [c.(restored := Some(c.baseline), snapshot := None, status := InvalidCalibration)]
              + [Calibration(|l.calibrations| + 1, now, c.baseline, Sealed, None, None, None, None)])
          else after == l.(calibrations := front + [c.(status := InvalidCalibration)])
      else if l.rounds != [] && Last(l.rounds).status == Clean && Changed(l, taken) then Ended(l, after)
      else after == l
  {
    if l.calibrations != [] { assert CalibrationOk(l.commands, Last(l.calibrations), |l.calibrations| - 1, now); }
  }

  /** The final gate's own order: a clean watch first, and one test behind it. */
  predicate NextFinal(finals: seq<Command>, tool: Tool) {
    || (finals == [] && tool == CheckWatch)
    || (|finals| == 1 && finals[0].tool == CheckWatch && finals[0].status == Succeeded && tool == Test)
  }

  predicate MayRun(l: Ledger, m: Manifest, tool: Tool, phase: CommandPhase) {
    match phase
    case CorrectionRun => l.rounds != [] && Last(l.rounds).status == Findings
    case CalibrationFail =>
      tool == Test && l.calibrations != [] && Last(l.calibrations).status == Sealed && m != Last(l.calibrations).baseline
    case CalibrationPass =>
      tool == Test && l.calibrations != [] && Last(l.calibrations).status == FailureProven && m == Last(l.calibrations).baseline
    case FinalGate =>
      && l.rounds != [] && Last(l.rounds).status == Dry && m == Last(l.rounds).manifest
      && NextFinal(FinalsSince(l.commands, FinishedOrFirst(Last(l.rounds))), tool)
  }

  lemma CommandBeginsExactly(l: Ledger, taken: Option<Manifest>, now: nat, tool: Tool, phase: CommandPhase)
    ensures var after := BeginCommand(l, taken, now, tool, phase).ledger;
      if l.rounds != [] && Last(l.rounds).status == Reading then
        if Changed(l, taken) then Ended(l, after) else after == l
      else if taken.Some? && MayRun(l, taken.value, tool, phase)
      then after == l.(commands := l.commands + [Command(|l.commands| + 1, tool, phase, now, taken.value, Running, None)])
      else after == l
  {
  }

  // ----- what a command's end does -----

  /** The running command's result, and everything else as it was. */
  predicate Noted(l: Ledger, after: Ledger, now: nat, result: ProcessResult)
    requires l.commands != []
  {
    && |after.commands| == |l.commands|
    && var done := Last(after.commands);
    && after.commands[..|l.commands| - 1] == l.commands[..|l.commands| - 1]
    && done == Last(l.commands).(status := done.status, finishedAt := Some(now)) && Earned(done, result)
    && after.edits == l.edits
  }

  /** What the outcome makes of the round and the calibration it was run for. */
  predicate Judged(l: Ledger, after: Ledger, result: ProcessResult, rolledBack: bool)
    requires l.commands != []
  {
    var running := Last(l.commands);
    match running.phase
    case CorrectionRun => after.rounds == l.rounds && after.calibrations == l.calibrations
    case CalibrationFail =>
      && after.rounds == l.rounds
      && (l.calibrations != [] ==>
            var c := Last(l.calibrations);
            after.calibrations == l.calibrations[..|l.calibrations| - 1]
              + [if FailsProperly(result) then c.(status := FailureProven, failureCommand := Some(running.index))
                 else if rolledBack then c.(restored := Some(c.baseline), snapshot := None, status := InvalidCalibration)
                 else c.(status := InvalidCalibration)])
    case CalibrationPass =>
      && after.rounds == l.rounds
      && (l.calibrations != [] ==>
            var c := Last(l.calibrations);
            after.calibrations == l.calibrations[..|l.calibrations| - 1]
              + [if Passes(running.tool, result) then c.(status := Passed, passCommand := Some(running.index))
                 else c.(status := InvalidCalibration)])
    case FinalGate =>
      && after.calibrations == l.calibrations
      && (if l.rounds != [] && Last(l.rounds).status == Dry && !Passes(running.tool, result)
          then after.rounds == l.rounds[..|l.rounds| - 1] + [Last(l.rounds).(status := InvalidRound)]
          else after.rounds == l.rounds)
  }

  lemma CommandEndsExactly(l: Ledger, now: nat, result: ProcessResult, rolledBack: bool)
    requires l.commands != []
    ensures var running := Last(l.commands);
      var after := CompleteCommand(l, now, FinishedStatus(running.tool, running.phase, result), rolledBack).ledger;
      Noted(l, after, now, result) && Judged(l, after, result, rolledBack)
  {
    StatusEarned(Last(l.commands), now, result);
  }

  // ----- when an edit is accepted -----

  /** What the tool can do to the file as it is. */
  predicate Feasible(operation: EditOperation, before: Option<string>) {
    match operation
    case CreateFile(content) => before.None? && |content| <= 4 * 1024 * 1024
    case DeleteFile(expected) => before == Some(expected)
    case ReplaceText(expected, replacements) =>
      && before == Some(expected) && 1 <= |replacements| <= 32
      && (forall r | r in replacements :: r.oldText != "" && r.oldText != r.newText)
      && Payload(replacements) <= 1024 * 1024
      && ApplyReplacements(expected, replacements).Some?
      && |ApplyReplacements(expected, replacements).value| <= 4 * 1024 * 1024
  }

  function Payload(replacements: seq<Replacement>): nat {
    if replacements == [] then 0
    else Payload(replacements[..|replacements| - 1]) + |Last(replacements).oldText| + |Last(replacements).newText|
  }

  lemma {:induction false} PayloadMore(replacements: seq<Replacement>, r: Replacement)
    ensures PayloadSize(replacements + [r]) == PayloadSize(replacements) + |r.oldText| + |r.newText|
  {
    if replacements == [] {
      assert ([] + [r])[1..] == [];
    } else {
      assert (replacements + [r])[1..] == replacements[1..] + [r];
      PayloadMore(replacements[1..], r);
    }
  }

  lemma {:induction false} PayloadIsSum(replacements: seq<Replacement>)
    ensures PayloadSize(replacements) == Payload(replacements)
  {
    if replacements != [] {
      PayloadIsSum(replacements[..|replacements| - 1]);
      PayloadMore(replacements[..|replacements| - 1], Last(replacements));
      assert replacements == replacements[..|replacements| - 1] + [Last(replacements)];
    }
  }

  /** The phase of the review an edit belongs to is the one it is in. */
  predicate InPhase(l: Ledger, m: Manifest, request: EditRequest) {
    && l.rounds != [] && (Last(l.rounds).status == Findings || Last(l.rounds).status == Clean)
    && var calibrated := l.calibrations != [] && Last(l.calibrations).startedAt >= FinishedOrFirst(Last(l.rounds));
    match request.phase
    case Correction =>
      Last(l.rounds).status == Findings && (calibrated ==> Last(l.calibrations).status == InvalidCalibration)
    case Break =>
      && calibrated && Last(l.calibrations).status == Sealed && m == Last(l.calibrations).baseline
      && !exists i | 0 <= i < |l.edits| :: EditFor(l.edits[i], Last(l.calibrations).index, Break)
    case Restore =>
      && calibrated && Last(l.calibrations).status == FailureProven
      && (exists i | 0 <= i < |l.edits| ::
            EditFor(l.edits[i], Last(l.calibrations).index, Break) && l.edits[i].path == request.path)
      && !exists i | 0 <= i < |l.edits| :: EditFor(l.edits[i], Last(l.calibrations).index, Restore)
  }

  lemma EditsFound(l: Ledger, index: nat, phase: EditPhase)
    ensures CalibrationEdits(l.edits, index, phase) == [] <==> !exists i | 0 <= i < |l.edits| :: EditFor(l.edits[i], index, phase)
  {
    var found := CalibrationEdits(l.edits, index, phase);
    CalibrationEditsMember(l.edits, index, phase);
    if found != [] {
      assert found[0] in found && found[0] in l.edits;
      var i :| 0 <= i < |l.edits| && l.edits[i] == found[0];
      assert EditFor(l.edits[i], index, phase);
    }
    if i :| 0 <= i < |l.edits| && EditFor(l.edits[i], index, phase) {
      assert l.edits[i] in l.edits && l.edits[i] in found;
    }
  }

  /** There is at most one break, so its path is the first one's. */
  lemma BreakFound(l: Ledger, index: nat, path: string)
    requires EditsOk(l)
    ensures var broken := CalibrationEdits(l.edits, index, Break);
      broken != [] && broken[0].path == path <==>
        exists i | 0 <= i < |l.edits| :: EditFor(l.edits[i], index, Break) && l.edits[i].path == path
  {
    var broken := CalibrationEdits(l.edits, index, Break);
    EditsFound(l, index, Break);
    CalibrationEditsMember(l.edits, index, Break);
    AtMostOneEdit(l, index, Break);
    if broken != [] {
      assert broken[0] in broken && broken[0] in l.edits;
      var i :| 0 <= i < |l.edits| && l.edits[i] == broken[0];
      assert EditFor(l.edits[i], index, Break);
      if k :| 0 <= k < |l.edits| && EditFor(l.edits[k], index, Break) && l.edits[k].path == path {
        assert l.edits[k] in l.edits && l.edits[k] in broken;
      }
    }
  }

  lemma PhaseExactly(l: Ledger, m: Manifest, request: EditRequest)
    requires EditsOk(l)
    ensures EditPhaseAllowed(l, m, request.phase, request.path) <==> InPhase(l, m, request)
  {
    if l.calibrations != [] {
      EditsFound(l, Last(l.calibrations).index, Break);
      EditsFound(l, Last(l.calibrations).index, Restore);
      BreakFound(l, Last(l.calibrations).index, request.path);
    }
  }

  lemma EditAcceptedExactly(l: Ledger, taken: Option<Manifest>, editable: bool, before: Option<string>, request: EditRequest)
    requires EditsOk(l)
    ensures var decision := DecideEdit(l, taken, editable, before, request);
      && (decision.Accepted? <==>
            taken.Some? && InPhase(l, taken.value, request) && editable && Feasible(request.operation, before))
      && (decision.Rejected? ==>
            if l.rounds != [] && Last(l.rounds).status == Reading && Changed(l, taken) then Ended(l, decision.answer.ledger)
            else decision.answer.ledger == l)
  {
    if taken.Some? { PhaseExactly(l, taken.value, request); }
    if request.operation.ReplaceText? { PayloadIsSum(request.operation.replacements); }
  }

  // ----- over runs: how rounds follow one another -----

  /** A clean round is followed by another only once a calibration of its own, unchanged manifest has passed. */
  ghost predicate Followed(l: Ledger, i: nat)
    requires i + 1 < |l.rounds|
  {
    && (l.rounds[i].status == Findings || l.rounds[i].status == InvalidRound || l.rounds[i].status == Clean)
    && (l.rounds[i].status == Clean ==>
          && l.rounds[i + 1].manifest == l.rounds[i].manifest
          && exists c | c in l.calibrations :: Unlocks(c, l.rounds[i], l.rounds[i].manifest) && c.startedAt < l.rounds[i + 1].startedAt)
  }

  ghost predicate RoundsFollow(l: Ledger) {
    forall i | 0 <= i < |l.rounds| - 1 :: Followed(l, i)
  }

  /** What a call leaves of the rounds and calibrations there were. */
  predicate Preserves(l: Ledger, after: Ledger) {
    && |l.rounds| <= |after.rounds| && |l.calibrations| <= |after.calibrations|
    && (forall i | 0 <= i < |l.rounds| - 1 :: after.rounds[i] == l.rounds[i])
    && (l.rounds != [] ==>
          var last := |l.rounds| - 1;
          after.rounds[last].manifest == l.rounds[last].manifest && after.rounds[last].startedAt == l.rounds[last].startedAt)
    && forall i | 0 <= i < |l.calibrations| && l.calibrations[i].status == Passed :: after.calibrations[i] == l.calibrations[i]
  }

  lemma FollowsOn(l: Ledger, after: Ledger)
    requires RoundsFollow(l) && Preserves(l, after) && |after.rounds| == |l.rounds|
    ensures RoundsFollow(after)
  {
    forall i | 0 <= i < |after.rounds| - 1 ensures Followed(after, i) {
      assert Followed(l, i);
      if l.rounds[i].status == Clean {
        var c :| c in l.calibrations && Unlocks(c, l.rounds[i], l.rounds[i].manifest) && c.startedAt < l.rounds[i + 1].startedAt;
        var k :| 0 <= k < |l.calibrations| && l.calibrations[k] == c;
        assert after.calibrations[k] == c;
      }
    }
  }

  lemma StartFollows(l: Ledger, taken: Option<Manifest>, now: nat)
    requires LedgerOk(l, now) && RoundsFollow(l)
    ensures RoundsFollow(StartRound(l, taken, now).ledger)
  {
    RoundBeginsExactly(l, taken, now);
    var after := StartRound(l, taken, now).ledger;
    if taken.Some? && MayBegin(l, taken.value) {
      forall i | 0 <= i < |after.rounds| - 1 ensures Followed(after, i) {
        if i < |l.rounds| - 1 {
          assert Followed(l, i);
        } else if Last(l.rounds).status == Clean {
          assert CalibrationOk(l.commands, Last(l.calibrations), |l.calibrations| - 1, now);
          assert Last(l.calibrations) in after.calibrations;
        }
      }
    } else if Changed(l, taken) {
      FollowsOn(l, after);
    }
  }

  lemma ReadPreserves(l: Ledger, taken: Option<Manifest>, now: nat, path: string, observed: string)
    ensures var after := ReadFile(l, taken, now, path, observed).ledger; Preserves(l, after) && |after.rounds| == |l.rounds|
  {
  }

  lemma FinishPreserves(l: Ledger, taken: Option<Manifest>, now: nat, verdict: RoundStatus, findings: seq<string>)
    ensures var after := FinishRound(l, taken, now, verdict, findings).ledger; Preserves(l, after) && |after.rounds| == |l.rounds|
  {
  }

  lemma CalibrationPreserves(l: Ledger, taken: Option<Manifest>, rolledBack: bool, now: nat)
    ensures var after := StartCalibration(l, taken, rolledBack, now).ledger; Preserves(l, after) && |after.rounds| == |l.rounds|
  {
  }

  lemma BeginPreserves(l: Ledger, taken: Option<Manifest>, now: nat, tool: Tool, phase: CommandPhase)
    ensures var after := BeginCommand(l, taken, now, tool, phase).ledger; Preserves(l, after) && |after.rounds| == |l.rounds|
  {
  }

  lemma CompletePreserves(l: Ledger, now: nat, status: CommandStatus, rolledBack: bool)
    requires CommandReady(l)
    ensures var after := CompleteCommand(l, now, status, rolledBack).ledger; Preserves(l, after) && |after.rounds| == |l.rounds|
  {
  }

  lemma WritePreserves(l: Ledger, plan: EditPlan)
    requires PlanReady(l, plan)
    ensures Preserves(l, RecordEdit(l, plan)) && RecordEdit(l, plan).rounds == l.rounds
    ensures Preserves(l, RejectEdit(l, plan)) && RejectEdit(l, plan).rounds == l.rounds
    ensures plan.phase == Break ==> Preserves(l, StoreSnapshot(l, plan)) && StoreSnapshot(l, plan).rounds == l.rounds
  {
  }

  lemma EditFollows(s: State, request: EditRequest)
    requires SafeState(s) && RoundsFollow(s.memory)
    ensures RoundsFollow(DoEdit(s, request).memory)
  {
    var taken, editable, before := ManifestOf(s.ws), Editable(s.ws, request.path), Lookup(s.ws, request.path);
    DecideEditKeeps(s.memory, taken, s.clock, editable, before, request);
    EditAcceptedExactly(s.memory, taken, editable, before, request);
    match DecideEdit(s.memory, taken, editable, before, request)
    case Rejected(answer) => FollowsOn(s.memory, answer.ledger);
    case Accepted(plan) => WriteFollows(s, plan);
  }

  lemma WriteFollows(s: State, plan: EditPlan)
    requires RoundsFollow(s.memory) && PlanReady(s.memory, plan)
    ensures RoundsFollow(DoWrite(s, plan).memory)
    ensures plan.phase == Break ==> RoundsFollow(StoreSnapshot(s.memory, plan))
  {
    WritePreserves(s.memory, plan);
    FollowsOn(s.memory, RecordEdit(s.memory, plan));
    FollowsOn(s.memory, RejectEdit(s.memory, plan));
    if plan.phase == Break { FollowsOn(s.memory, StoreSnapshot(s.memory, plan)); }
  }

  lemma CallFollows(s: State, action: Action)
    requires SafeState(s) && RoundsFollow(s.memory) && s.pending == Idle
    ensures RoundsFollow(DoCall(s, action).memory)
  {
    var l, taken := s.memory, ManifestOf(s.ws);
    match action
    case CallStartRound => StartFollows(l, taken, s.clock);
    case CallReadFile(path, observed) =>
      ReadPreserves(l, taken, s.clock, path, observed);
      FollowsOn(l, ReadFile(l, taken, s.clock, path, observed).ledger);
    case CallFinishRound(verdict, findings) =>
      FinishPreserves(l, taken, s.clock, verdict, findings);
      FollowsOn(l, FinishRound(l, taken, s.clock, verdict, findings).ledger);
    case CallStartCalibration =>
      var rolledBack := Rollback(s, NeedsRollback(l, taken)).Restored?;
      CalibrationPreserves(l, taken, rolledBack, s.clock);
      FollowsOn(l, StartCalibration(l, taken, rolledBack, s.clock).ledger);
    case CallEdit(request) => EditFollows(s, request);
    case CallCommand(tool, phase) =>
      BeginPreserves(l, taken, s.clock, tool, phase);
      FollowsOn(l, BeginCommand(l, taken, s.clock, tool, phase).ledger);
    case _ =>
  }

  lemma ActFollowsOn(s: State, action: Action)
    requires SafeState(s) && RoundsFollow(s.memory) && RoundsFollow(s.disk)
    ensures RoundsFollow(Act(s, action).memory)
  {
    if action.WriteBreak? {
      if s.pending.BreakPrepared? { WriteFollows(s, s.pending.plan); }
    } else if action.CommandFinished? {
      if s.pending == CommandRunning {
        var running := Last(s.memory.commands);
        var status := FinishedStatus(running.tool, running.phase, action.result);
        var rolledBack := Rollback(s, BreakUndetected(s.memory, status)).Restored?;
        CompletePreserves(s.memory, s.clock, status, rolledBack);
        FollowsOn(s.memory, CompleteCommand(s.memory, s.clock, status, rolledBack).ledger);
      }
    } else if s.pending == Idle && IsCall(action) {
      CallFollows(s, action);
    }
  }

  /** Over every run, in both ledgers, a round follows only one that is over, and a clean one only behind its passed calibration. */
  lemma {:induction false} RunRoundsFollow(ws: Workspace, actions: seq<Action>)
    ensures var s := Run(Initial(ws), actions); RoundsFollow(s.memory) && RoundsFollow(s.disk)
    decreases |actions|
  {
    if actions != [] {
      var front := actions[..|actions| - 1];
      RunRoundsFollow(ws, front);
      RunSafe(ws, front);
      ActFollowsOn(Run(Initial(ws), front), Last(actions));
      if Last(actions) != Publish { StepParts(Run(Initial(ws), front), Last(actions)); }
    }
  }

  // ----- over runs: who touches the workspace -----

  ghost predicate OnlyFile(ws: Workspace, after: Workspace, path: string) {
    after.directories == ws.directories && forall p | p != path :: Lookup(after, p) == Lookup(ws, p)
  }

  lemma PlanTouchesItsFile(ws: Workspace, plan: EditPlan, mustMatch: Option<Manifest>)
    ensures OnlyFile(ws, WritePlan(ws, plan, mustMatch).ws, plan.path)
  {
  }

  lemma RestoreTouchesItsFile(ws: Workspace, c: Calibration)
    ensures RestoreCalibration(ws, c).ws == ws || (c.snapshot.Some? && OnlyFile(ws, RestoreCalibration(ws, c).ws, c.snapshot.value.path))
  {
  }

  /** What the runner itself may change, and on whose behalf. */
  ghost predicate Touches(s: State, action: Action, t: State) {
    match action
    case CallEdit(request) =>
      && s.pending == Idle && ManifestOf(s.ws).Some? && InPhase(s.memory, ManifestOf(s.ws).value, request) && request.phase != Break
      && Editable(s.ws, request.path) && OnlyFile(s.ws, t.ws, request.path)
    case WriteBreak =>
      s.pending.BreakPrepared? && s.pending.published && OnlyFile(s.ws, t.ws, s.pending.plan.path)
    case CallStartCalibration =>
      && s.pending == Idle && s.memory.calibrations != [] && Unresolved(Last(s.memory.calibrations))
      && |t.memory.calibrations| >= |s.memory.calibrations|
      && t.memory.calibrations[|s.memory.calibrations| - 1].status == InvalidCalibration
      && Last(s.memory.calibrations).snapshot.Some? && OnlyFile(s.ws, t.ws, Last(s.memory.calibrations).snapshot.value.path)
    case CommandFinished(result) =>
      && s.pending == CommandRunning && s.memory.commands != [] && Last(s.memory.commands).phase == CalibrationFail
      && !FailsProperly(result) && s.memory.calibrations != []
      && Last(s.memory.calibrations).snapshot.Some? && OnlyFile(s.ws, t.ws, Last(s.memory.calibrations).snapshot.value.path)
    case CrashWriting(_, _, _) => true
    case Environment(_) => true
    case _ => false
  }

  lemma EditTouches(s: State, request: EditRequest)
    requires SafeState(s) && s.pending == Idle && DoEdit(s, request).ws != s.ws
    ensures Touches(s, CallEdit(request), DoEdit(s, request))
  {
    var taken, editable, before := ManifestOf(s.ws), Editable(s.ws, request.path), Lookup(s.ws, request.path);
    DecideEditKeeps(s.memory, taken, s.clock, editable, before, request);
    EditAcceptedExactly(s.memory, taken, editable, before, request);
    if DecideEdit(s.memory, taken, editable, before, request).Accepted? {
      var plan := DecideEdit(s.memory, taken, editable, before, request).plan;
      PlanTouchesItsFile(s.ws, plan, if plan.phase == Restore then Some(Last(s.memory.calibrations).baseline) else None);
    }
  }

  lemma CalibrationTouches(s: State)
    requires SafeState(s) && s.pending == Idle && DoStartCalibration(s).ws != s.ws
    ensures Touches(s, CallStartCalibration, DoStartCalibration(s))
  {
    var taken := ManifestOf(s.ws);
    var rolledBack := Rollback(s, NeedsRollback(s.memory, taken)).Restored?;
    CalibrationStartsExactly(s.memory, taken, rolledBack, s.clock);
    RestoreTouchesItsFile(s.ws, Last(s.memory.calibrations));
  }

  lemma CommandTouches(s: State, result: ProcessResult)
    requires SafeState(s) && DoCommandFinished(s, result).ws != s.ws
    ensures Touches(s, CommandFinished(result), DoCommandFinished(s, result))
  {
    var running := Last(s.memory.commands);
    StatusEarned(running, s.clock, result);
    RestoreTouchesItsFile(s.ws, Last(s.memory.calibrations));
  }

  /** In every run the workspace changes only through an accepted edit, the write of a stored break, a roll-back that retires its calibration, or someone else. */
  lemma WorkspaceTouchedOnly(ws: Workspace, actions: seq<Action>, action: Action)
    requires Step(Run(Initial(ws), actions), action).ws != Run(Initial(ws), actions).ws
    ensures Touches(Run(Initial(ws), actions), action, Step(Run(Initial(ws), actions), action))
  {
    RunSafe(ws, actions);
    var s := Run(Initial(ws), actions);
    assert Step(s, action).ws == Act(s, action).ws && Step(s, action).memory == Act(s, action).memory;
    if action.CallEdit? {
      EditTouches(s, action.request);
    } else if action.CallStartCalibration? {
      CalibrationTouches(s);
    } else if action.CommandFinished? {
      CommandTouches(s, action.result);
    } else if action.WriteBreak? {
      PlanTouchesItsFile(s.ws, s.pending.plan, None);
    }
  }
}
