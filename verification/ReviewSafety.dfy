/**
 What every step of the review protocol keeps, and what that makes the
 completion gate certify. The gate reads one round and two commands; the
 invariant below is the history those stand for.
 */
module ReviewSafety {
  import opened Prelude
  import opened ReviewWorkspace
  import opened ReviewText
  import opened ReviewProtocol

  // ----- the invariant of one ledger -----

  ghost predicate RoundOk(r: Round, position: nat, clock: nat) {
    && r.index == position + 1
    && r.startedAt < clock
    && |r.credited| <= |r.manifest|
    && (forall j | 0 <= j < |r.credited| ::
          r.credited[j].path == r.manifest[j].path && r.credited[j].content == r.manifest[j].content)
    && (r.status == Reading ==> r.finishedAt.None?)
    && (r.status == Findings || r.status == Clean || r.status == Dry ==>
          r.finishedAt.Some? && |r.credited| == |r.manifest|)
    && (r.finishedAt.Some? ==> r.startedAt < r.finishedAt.value < clock)
  }

  predicate ClosedRound(r: Round) {
    r.status == Findings || r.status == Clean || r.status == InvalidRound
  }

  ghost predicate RoundsOk(l: Ledger, clock: nat) {
    && (forall i | 0 <= i < |l.rounds| :: RoundOk(l.rounds[i], i, clock))
    && (forall i | 0 <= i < |l.rounds| - 1 :: ClosedRound(l.rounds[i]))
  }

  ghost predicate CommandOk(c: Command, position: nat, clock: nat) {
    && c.index == position + 1
    && c.startedAt < clock
    && (c.finishedAt.Some? ==> c.startedAt < c.finishedAt.value < clock)
    && (c.status != Running ==> c.finishedAt.Some?)
  }

  predicate FinishedBefore(c: Command, at: nat) {
    c.startedAt < at && (c.finishedAt.Some? ==> c.finishedAt.value < at)
  }

  ghost predicate CommandsOk(l: Ledger, clock: nat) {
    && (forall i | 0 <= i < |l.commands| :: CommandOk(l.commands[i], i, clock))
    && (forall i, j | 0 <= i < j < |l.commands| :: FinishedBefore(l.commands[i], l.commands[j].startedAt))
  }

  /** The test that failed while the reviewed behaviour was broken. */
  ghost predicate FailureEvidence(commands: seq<Command>, c: Calibration) {
    && c.failureCommand.Some?
    && 1 <= c.failureCommand.value <= |commands|
    && var failed := commands[c.failureCommand.value - 1];
    && failed.tool == Test && failed.phase == CalibrationFail && failed.status == ExpectedFailure
    && failed.manifest != c.baseline
    && c.startedAt < failed.startedAt
  }

  /** The later test that succeeded on the exact baseline. */
  ghost predicate PassEvidence(commands: seq<Command>, c: Calibration) {
    && FailureEvidence(commands, c)
    && c.passCommand.Some?
    && c.failureCommand.value < c.passCommand.value <= |commands|
    && var passed := commands[c.passCommand.value - 1];
    && passed.tool == Test && passed.phase == CalibrationPass && passed.status == Succeeded
    && passed.manifest == c.baseline
  }

  ghost predicate CalibrationOk(commands: seq<Command>, c: Calibration, position: nat, clock: nat) {
    && c.index == position + 1
    && c.startedAt < clock
    && (c.restored.Some? ==> c.restored.value == c.baseline)
    && (c.status == FailureProven ==> FailureEvidence(commands, c))
    && (c.status == Passed ==> PassEvidence(commands, c))
  }

  ghost predicate CalibrationsOk(l: Ledger, clock: nat) {
    && (forall i | 0 <= i < |l.calibrations| :: CalibrationOk(l.commands, l.calibrations[i], i, clock))
    && (forall i | 0 <= i < |l.calibrations| - 1 :: !Unresolved(l.calibrations[i]))
  }

  ghost predicate SameCalibration(a: Edit, b: Edit) {
    a.calibrationIndex.Some? && a.calibrationIndex == b.calibrationIndex
  }

  ghost predicate EditsOk(l: Ledger) {
    && (forall i | 0 <= i < |l.edits| ::
          && l.edits[i].index == i + 1
          && (l.edits[i].phase == Correction) == l.edits[i].calibrationIndex.None?
          && (l.edits[i].calibrationIndex.Some? ==> 1 <= l.edits[i].calibrationIndex.value <= |l.calibrations|))
    && (forall i, j | 0 <= i < j < |l.edits| && SameCalibration(l.edits[i], l.edits[j]) ::
          l.edits[i].phase == Break && l.edits[j].phase == Restore && l.edits[i].path == l.edits[j].path)
    && (forall j | 0 <= j < |l.edits| && l.edits[j].phase == Restore ::
          exists i :: 0 <= i < j && SameCalibration(l.edits[i], l.edits[j]))
  }

  ghost predicate FinalsOk(finals: seq<Command>, m: Manifest) {
    && |finals| <= 2
    && (forall i | 0 <= i < |finals| :: finals[i].manifest == m)
    && (|finals| >= 1 ==> finals[0].tool == CheckWatch)
    && (|finals| == 2 ==> finals[0].status == Succeeded && finals[1].tool == Test)
  }

  ghost predicate LatestRoundOk(l: Ledger) {
    l.rounds != [] ==>
      var round := Last(l.rounds);
      && (round.status == Reading ==> forall i | 0 <= i < |l.commands| :: FinishedBefore(l.commands[i], round.startedAt))
      && (round.status == Dry ==>
            && l.calibrations != []
            && var c := Last(l.calibrations);
            && c.status == Passed
            && c.baseline == round.manifest
            && c.startedAt < round.startedAt
            && PassEvidence(l.commands, c)
            && FinishedBefore(l.commands[c.passCommand.value - 1], round.startedAt)
            && FinalsOk(FinalsSince(l.commands, FinishedOrFirst(round)), round.manifest))
  }

  ghost predicate LedgerOk(l: Ledger, clock: nat) {
    && RoundsOk(l, clock)
    && CommandsOk(l, clock)
    && CalibrationsOk(l, clock)
    && EditsOk(l)
    && LatestRoundOk(l)
  }

  lemma LedgerOkLater(l: Ledger, clock: nat, later: nat)
    requires LedgerOk(l, clock) && clock <= later
    ensures LedgerOk(l, later)
  {
    assert RoundsOk(l, later);
    assert CommandsOk(l, later);
    assert CalibrationsOk(l, later);
  }

  // ----- readers of the ledger -----

  lemma {:induction false} FinalsSinceMember(commands: seq<Command>, since: nat)
    ensures forall c | c in FinalsSince(commands, since) :: c in commands && c.phase == FinalGate && c.startedAt >= since
    ensures (forall c | c in commands :: c.startedAt < since) ==> FinalsSince(commands, since) == []
  {
    if commands != [] {
      FinalsSinceMember(commands[..|commands| - 1], since);
      assert Last(commands) in commands;
    }
  }

  lemma {:induction false} MatchingFinalsAll(commands: seq<Command>, m: Manifest)
    requires forall i | 0 <= i < |commands| :: commands[i].manifest == m
    ensures MatchingFinals(commands, m) == commands
  {
    if commands != [] {
      MatchingFinalsAll(commands[..|commands| - 1], m);
      assert commands == commands[..|commands| - 1] + [Last(commands)];
    }
  }

  lemma {:induction false} CalibrationEditsMember(edits: seq<Edit>, index: nat, phase: EditPhase)
    ensures forall e | e in CalibrationEdits(edits, index, phase) ::
      e in edits && e.calibrationIndex == Some(index) && e.phase == phase
    ensures forall e | e in edits && e.calibrationIndex == Some(index) && e.phase == phase ::
      e in CalibrationEdits(edits, index, phase)
  {
    if edits != [] {
      CalibrationEditsMember(edits[..|edits| - 1], index, phase);
      assert edits == edits[..|edits| - 1] + [Last(edits)];
    }
  }

  // ----- rounds keep it -----

  lemma InvalidateKeeps(l: Ledger, clock: nat)
    requires LedgerOk(l, clock) && l.rounds != []
    ensures LedgerOk(InvalidateLastRound(l), clock)
  {
    var after := InvalidateLastRound(l);
    assert RoundOk(Last(l.rounds), |l.rounds| - 1, clock);
    assert RoundsOk(after, clock);
  }

  lemma AllFinishedBefore(l: Ledger, clock: nat)
    requires CommandsOk(l, clock)
    ensures forall i | 0 <= i < |l.commands| :: FinishedBefore(l.commands[i], clock)
  {
    forall i | 0 <= i < |l.commands| ensures FinishedBefore(l.commands[i], clock) {
      assert CommandOk(l.commands[i], i, clock);
    }
  }

  lemma AppendRoundKeeps(l: Ledger, round: Round, clock: nat)
    requires LedgerOk(l, clock)
    requires RoundOk(round, |l.rounds|, clock) && round.status == Reading
    requires l.rounds != [] ==> ClosedRound(Last(l.rounds))
    requires forall i | 0 <= i < |l.commands| :: FinishedBefore(l.commands[i], round.startedAt)
    ensures LedgerOk(l.(rounds := l.rounds + [round]), clock)
  {
    var after := l.(rounds := l.rounds + [round]);
    assert RoundsOk(after, clock);
    assert LatestRoundOk(after);
  }

  lemma ReplaceRoundKeeps(l: Ledger, round: Round, clock: nat)
    requires LedgerOk(l, clock) && l.rounds != []
    requires RoundOk(round, |l.rounds| - 1, clock)
    requires LatestRoundOk(WithLastRound(l, round))
    ensures LedgerOk(WithLastRound(l, round), clock)
  {
    assert RoundsOk(WithLastRound(l, round), clock);
  }

  lemma StartRoundSucceeds(l: Ledger, taken: Option<Manifest>, now: nat)
    requires LedgerOk(l, now) && StartRound(l, taken, now).reply == Success
    ensures taken.Some? && (l.rounds != [] ==> ClosedRound(Last(l.rounds)))
    ensures StartRound(l, taken, now).ledger
         == l.(rounds := l.rounds + [Round(|l.rounds| + 1, now, taken.value, [], Reading, None)])
  {
    if l.rounds != [] {
      assert RoundOk(Last(l.rounds), |l.rounds| - 1, now);
    }
  }

  lemma StartRoundFails(l: Ledger, taken: Option<Manifest>, now: nat)
    requires StartRound(l, taken, now).reply != Success
    ensures StartRound(l, taken, now).ledger == l || (l.rounds != [] && StartRound(l, taken, now).ledger == InvalidateLastRound(l))
  {
  }

  lemma StartRoundKeeps(l: Ledger, taken: Option<Manifest>, now: nat)
    requires LedgerOk(l, now)
    ensures LedgerOk(StartRound(l, taken, now).ledger, now + 1)
  {
    LedgerOkLater(l, now, now + 1);
    if StartRound(l, taken, now).reply == Success {
      StartRoundSucceeds(l, taken, now);
      AllFinishedBefore(l, now);
      AppendRoundKeeps(l, Round(|l.rounds| + 1, now, taken.value, [], Reading, None), now + 1);
    } else {
      StartRoundFails(l, taken, now);
      if l.rounds != [] { InvalidateKeeps(l, now + 1); }
    }
  }

  lemma ReadFileKeeps(l: Ledger, taken: Option<Manifest>, now: nat, path: string, observed: string)
    requires LedgerOk(l, now)
    ensures LedgerOk(ReadFile(l, taken, now, path, observed).ledger, now + 1)
  {
    LedgerOkLater(l, now, now + 1);
    var answer := ReadFile(l, taken, now, path, observed);
    if answer.reply == Fatal {
      InvalidateKeeps(l, now + 1);
    } else if answer.reply == Success {
      var round := Last(l.rounds);
      assert RoundOk(round, |l.rounds| - 1, now + 1);
      var read := round.(credited := round.credited + [Read(path, observed, now)]);
      assert LatestRoundOk(WithLastRound(l, read));
      ReplaceRoundKeeps(l, read, now + 1);
    }
  }

  lemma FinishedRoundOk(l: Ledger, round: Round, now: nat)
    requires LedgerOk(l, now) && l.rounds != []
    requires round.finishedAt == Some(now) && round.status != Reading
    requires round.status == Dry ==> CalibrationQualifies(l, round) && Last(l.rounds).status == Reading
    requires round.startedAt == Last(l.rounds).startedAt
    ensures LatestRoundOk(WithLastRound(l, round))
  {
    if round.status == Dry {
      assert CalibrationOk(l.commands, Last(l.calibrations), |l.calibrations| - 1, now);
      AllFinishedBefore(l, now);
      FinalsSinceMember(l.commands, now);
    }
  }

  lemma FinishRoundKeeps(l: Ledger, taken: Option<Manifest>, now: nat, verdict: RoundStatus, findings: seq<string>)
    requires LedgerOk(l, now)
    ensures LedgerOk(FinishRound(l, taken, now, verdict, findings).ledger, now + 1)
  {
    LedgerOkLater(l, now, now + 1);
    var answer := FinishRound(l, taken, now, verdict, findings);
    if answer.reply == Fatal {
      InvalidateKeeps(l, now + 1);
    } else if answer.reply == Success {
      var round := Last(l.rounds);
      assert RoundOk(round, |l.rounds| - 1, now);
      var finished := round.(status := verdict, finishedAt := Some(now));
      FinishedRoundOk(l, finished, now);
      ReplaceRoundKeeps(l, finished, now + 1);
    }
  }

  // ----- calibrations keep it -----

  /** Replacing the last calibration by one as sound keeps a ledger whose latest round is not dry. */
  lemma ReplaceCalibrationKeeps(l: Ledger, c: Calibration, clock: nat)
    requires LedgerOk(l, clock) && l.calibrations != []
    requires CalibrationOk(l.commands, c, |l.calibrations| - 1, clock)
    requires l.rounds != [] ==> Last(l.rounds).status != Dry
    ensures LedgerOk(WithLastCalibration(l, c), clock)
  {
    var after := WithLastCalibration(l, c);
    assert CalibrationsOk(after, clock);
    assert EditsOk(after);
  }

  lemma SealKeeps(l: Ledger, taken: Option<Manifest>, now: nat)
    requires LedgerOk(l, now + 1)
    requires l.calibrations != [] ==> !Unresolved(Last(l.calibrations))
    requires l.rounds != [] ==> Last(l.rounds).status != Dry
    ensures LedgerOk(SealCalibration(l, taken, now).ledger, now + 1)
  {
    var after := SealCalibration(l, taken, now).ledger;
    if after != l {
      if l.calibrations != [] {
        assert CalibrationOk(l.commands, Last(l.calibrations), |l.calibrations| - 1, now + 1);
      }
      assert CalibrationOk(l.commands, Last(after.calibrations), |l.calibrations|, now + 1);
      assert CalibrationsOk(after, now + 1);
      assert EditsOk(after);
    }
  }

  /** An unresolved calibration is retired before the next one is sealed. */
  lemma RetireKeeps(l: Ledger, rolledBack: bool, now: nat)
    requires LedgerOk(l, now + 1) && l.calibrations != [] && Unresolved(Last(l.calibrations))
    requires l.rounds != [] ==> Last(l.rounds).status != Dry
    ensures var previous := Last(l.calibrations);
      if rolledBack
      then LedgerOk(SealCalibration(WithLastCalibration(l, RecordRestore(previous).(status := InvalidCalibration)), Some(previous.baseline), now).ledger, now + 1)
      else LedgerOk(WithLastCalibration(l, previous.(status := InvalidCalibration)), now + 1)
  {
    var previous := Last(l.calibrations);
    assert CalibrationOk(l.commands, previous, |l.calibrations| - 1, now + 1);
    if rolledBack {
      var restored := RecordRestore(previous).(status := InvalidCalibration);
      ReplaceCalibrationKeeps(l, restored, now + 1);
      SealKeeps(WithLastCalibration(l, restored), Some(previous.baseline), now);
    } else {
      ReplaceCalibrationKeeps(l, previous.(status := InvalidCalibration), now + 1);
    }
  }

  lemma StartCalibrationKeeps(l: Ledger, taken: Option<Manifest>, rolledBack: bool, now: nat)
    requires LedgerOk(l, now)
    ensures LedgerOk(StartCalibration(l, taken, rolledBack, now).ledger, now + 1)
  {
    LedgerOkLater(l, now, now + 1);
    if l.rounds != [] {
      InvalidateKeeps(l, now + 1);
      if Last(l.rounds).status == Findings || Last(l.rounds).status == Clean {
        if l.calibrations == [] || !Unresolved(Last(l.calibrations)) {
          SealKeeps(l, taken, now);
        } else {
          RetireKeeps(l, rolledBack, now);
        }
      }
    }
  }

  // ----- edits keep it -----

  lemma DecideEditKeeps(
    l: Ledger, taken: Option<Manifest>, now: nat, editable: bool, before: Option<string>, request: EditRequest)
    requires LedgerOk(l, now)
    ensures var decision := DecideEdit(l, taken, editable, before, request);
      if decision.Rejected? then LedgerOk(decision.answer.ledger, now + 1) else PlanReady(l, decision.plan)
  {
    LedgerOkLater(l, now, now + 1);
    if l.rounds != [] { InvalidateKeeps(l, now + 1); }
  }

  /** What an accepted plan still needs when it is finally written. */
  ghost predicate PlanReady(l: Ledger, plan: EditPlan) {
    && l.rounds != []
    && (Last(l.rounds).status == Findings || Last(l.rounds).status == Clean)
    && (plan.phase == Correction ==>
          && Last(l.rounds).status == Findings
          && (l.calibrations == [] || Last(l.calibrations).startedAt < FinishedOrFirst(Last(l.rounds))
              || Last(l.calibrations).status == InvalidCalibration))
    && (plan.phase != Correction ==>
          && l.calibrations != []
          && Last(l.calibrations).startedAt >= FinishedOrFirst(Last(l.rounds))
          && var c := Last(l.calibrations);
          && (plan.phase == Break ==> c.status == Sealed && CalibrationEdits(l.edits, c.index, Break) == [])
          && (plan.phase == Restore ==>
                && c.status == FailureProven
                && CalibrationEdits(l.edits, c.index, Restore) == []
                && CalibrationEdits(l.edits, c.index, Break) != []
                && CalibrationEdits(l.edits, c.index, Break)[0].path == plan.path))
  }

  lemma BreakEditFits(l: Ledger, index: nat, entry: Edit)
    requires EditsOk(l) && CalibrationEdits(l.edits, index, Break) == []
    requires entry.calibrationIndex == Some(index)
    ensures forall i | 0 <= i < |l.edits| :: !SameCalibration(l.edits[i], entry)
  {
    CalibrationEditsMember(l.edits, index, Break);
    forall i | 0 <= i < |l.edits| ensures l.edits[i].calibrationIndex == Some(index) ==> l.edits[i].phase != Break {
      assert l.edits[i] in l.edits;
    }
    forall i | 0 <= i < |l.edits| ensures !SameCalibration(l.edits[i], entry) {
      assert l.edits[i].phase == Restore ==> exists k :: 0 <= k < i && SameCalibration(l.edits[k], l.edits[i]);
    }
  }

  lemma RestoreEditFits(l: Ledger, index: nat, entry: Edit)
    requires EditsOk(l)
    requires CalibrationEdits(l.edits, index, Restore) == [] && CalibrationEdits(l.edits, index, Break) != []
    requires CalibrationEdits(l.edits, index, Break)[0].path == entry.path
    requires entry.calibrationIndex == Some(index)
    ensures exists k :: 0 <= k < |l.edits| && SameCalibration(l.edits[k], entry)
    ensures forall i | 0 <= i < |l.edits| && SameCalibration(l.edits[i], entry) ::
      l.edits[i].phase == Break && l.edits[i].path == entry.path
  {
    CalibrationEditsMember(l.edits, index, Break);
    CalibrationEditsMember(l.edits, index, Restore);
    var first := CalibrationEdits(l.edits, index, Break)[0];
    assert first in CalibrationEdits(l.edits, index, Break);
    var k :| 0 <= k < |l.edits| && l.edits[k] == first;
    assert SameCalibration(l.edits[k], entry);
    forall i | 0 <= i < |l.edits| && SameCalibration(l.edits[i], entry)
      ensures l.edits[i].phase == Break && l.edits[i].path == entry.path
    {
      assert l.edits[i] in l.edits;
      assert SameCalibration(l.edits[i], l.edits[k]) && SameCalibration(l.edits[k], l.edits[i]);
    }
  }

  lemma AppendEditKeeps(l: Ledger, entry: Edit)
    requires EditsOk(l)
    requires entry.index == |l.edits| + 1
    requires (entry.phase == Correction) == entry.calibrationIndex.None?
    requires entry.calibrationIndex.Some? ==> 1 <= entry.calibrationIndex.value <= |l.calibrations|
    requires forall i | 0 <= i < |l.edits| && SameCalibration(l.edits[i], entry) ::
      l.edits[i].phase == Break && entry.phase == Restore && l.edits[i].path == entry.path
    requires entry.phase == Restore ==> exists k :: 0 <= k < |l.edits| && SameCalibration(l.edits[k], entry)
    ensures EditsOk(l.(edits := l.edits + [entry]))
  {
    var edits := l.edits + [entry];
    forall j | 0 <= j < |edits| && edits[j].phase == Restore
      ensures exists i :: 0 <= i < j && SameCalibration(edits[i], edits[j])
    {
      if j < |l.edits| {
        var i :| 0 <= i < j && SameCalibration(l.edits[i], l.edits[j]);
        assert SameCalibration(edits[i], edits[j]);
      } else {
        var i :| 0 <= i < |l.edits| && SameCalibration(l.edits[i], entry);
        assert SameCalibration(edits[i], edits[j]);
      }
    }
  }

  lemma RejectEditKeeps(l: Ledger, clock: nat, plan: EditPlan)
    requires LedgerOk(l, clock) && PlanReady(l, plan)
    ensures LedgerOk(RejectEdit(l, plan), clock)
  {
    if plan.phase == Break {
      var c := Last(l.calibrations);
      assert CalibrationOk(l.commands, c, |l.calibrations| - 1, clock);
      ReplaceCalibrationKeeps(l, c.(snapshot := None), clock);
    }
  }

  lemma RecordEditKeeps(l: Ledger, clock: nat, plan: EditPlan)
    requires LedgerOk(l, clock) && PlanReady(l, plan)
    ensures LedgerOk(RecordEdit(l, plan), clock)
  {
    var entry := Last(RecordEdit(l, plan).edits);
    var proven := if plan.phase == Restore then WithLastCalibration(l, RecordRestore(Last(l.calibrations))) else l;
    if plan.phase != Correction {
      var c := Last(l.calibrations);
      assert CalibrationOk(l.commands, c, |l.calibrations| - 1, clock);
      if plan.phase == Break {
        BreakEditFits(l, c.index, entry);
      } else {
        RestoreEditFits(l, c.index, entry);
        ReplaceCalibrationKeeps(l, RecordRestore(c), clock);
      }
    }
    AppendEditKeeps(proven, entry);
    assert RecordEdit(l, plan) == proven.(edits := l.edits + [entry]);
  }

  lemma StoreSnapshotKeeps(l: Ledger, clock: nat, plan: EditPlan)
    requires LedgerOk(l, clock) && PlanReady(l, plan) && plan.phase == Break
    ensures LedgerOk(StoreSnapshot(l, plan), clock)
  {
    var c := Last(l.calibrations);
    assert CalibrationOk(l.commands, c, |l.calibrations| - 1, clock);
    ReplaceCalibrationKeeps(l, c.(snapshot := Some(Snapshot(plan.path, plan.before))), clock);
  }

  // ----- commands keep it -----

  lemma EvidencePersists(before: seq<Command>, after: seq<Command>, c: Calibration)
    requires |before| <= |after|
    requires forall i | 0 <= i < |before| && before[i].status != Running :: after[i] == before[i]
    ensures FailureEvidence(before, c) ==> FailureEvidence(after, c)
    ensures PassEvidence(before, c) ==> PassEvidence(after, c)
  {
  }

  /** Finished commands stay as they are when one is appended or the running one is finished. */
  ghost predicate Extends(before: seq<Command>, after: seq<Command>) {
    && |before| <= |after|
    && forall i | 0 <= i < |before| && before[i].status != Running :: after[i] == before[i]
  }

  lemma CalibrationsPersist(l: Ledger, commands: seq<Command>, clock: nat)
    requires CalibrationsOk(l, clock) && Extends(l.commands, commands)
    ensures CalibrationsOk(l.(commands := commands), clock)
  {
    forall i | 0 <= i < |l.calibrations| ensures CalibrationOk(commands, l.calibrations[i], i, clock) {
      assert CalibrationOk(l.commands, l.calibrations[i], i, clock);
      EvidencePersists(l.commands, commands, l.calibrations[i]);
    }
  }

  lemma LatestRoundPersists(l: Ledger, commands: seq<Command>)
    requires LatestRoundOk(l) && Extends(l.commands, commands)
    requires l.rounds != [] ==> Last(l.rounds).status != Reading
    requires l.rounds != [] && Last(l.rounds).status == Dry ==>
      FinalsOk(FinalsSince(commands, FinishedOrFirst(Last(l.rounds))), Last(l.rounds).manifest)
    ensures LatestRoundOk(l.(commands := commands))
  {
    if l.rounds != [] && Last(l.rounds).status == Dry {
      var c := Last(l.calibrations);
      EvidencePersists(l.commands, commands, c);
      assert commands[c.passCommand.value - 1] == l.commands[c.passCommand.value - 1];
    }
  }

  /** Evidence never names a running command, so appending or finishing one disturbs nothing. */
  lemma CommandsChangeKeeps(l: Ledger, commands: seq<Command>, clock: nat)
    requires LedgerOk(l, clock) && Extends(l.commands, commands)
    requires CommandsOk(l.(commands := commands), clock)
    requires l.rounds != [] ==> Last(l.rounds).status != Reading
    requires l.rounds != [] && Last(l.rounds).status == Dry ==>
      FinalsOk(FinalsSince(commands, FinishedOrFirst(Last(l.rounds))), Last(l.rounds).manifest)
    ensures LedgerOk(l.(commands := commands), clock)
  {
    CalibrationsPersist(l, commands, clock);
    LatestRoundPersists(l, commands);
    assert RoundsOk(l.(commands := commands), clock) && EditsOk(l.(commands := commands));
  }

  lemma AppendCommandKeeps(l: Ledger, entry: Command, now: nat)
    requires LedgerOk(l, now)
    requires CommandOk(entry, |l.commands|, now + 1) && entry.startedAt == now
    requires l.rounds != [] ==> Last(l.rounds).status != Reading
    requires l.rounds != [] && Last(l.rounds).status == Dry && entry.phase == FinalGate ==>
      FinalsOk(FinalsSince(l.commands, FinishedOrFirst(Last(l.rounds))) + [entry], Last(l.rounds).manifest)
    ensures LedgerOk(l.(commands := l.commands + [entry]), now + 1)
  {
    LedgerOkLater(l, now, now + 1);
    AllFinishedBefore(l, now);
    var commands := l.commands + [entry];
    assert commands[..|commands| - 1] == l.commands;
    assert CommandsOk(l.(commands := commands), now + 1);
    CommandsChangeKeeps(l, commands, now + 1);
  }

  lemma BegunCommandReady(l: Ledger, current: Manifest, now: nat, tool: Tool, phase: CommandPhase)
    requires RoundsOk(l, now) && CalibrationsOk(l, now) && LatestRoundOk(l)
    requires l.rounds != [] ==> Last(l.rounds).status != Reading
    requires CommandPhaseAllowed(l, current, tool, phase)
    ensures CommandReady(l.(commands := l.commands + [Command(|l.commands| + 1, tool, phase, now, current, Running, None)]))
  {
    if l.calibrations != [] {
      assert CalibrationOk(l.commands, Last(l.calibrations), |l.calibrations| - 1, now);
    }
    if l.rounds != [] {
      assert RoundOk(Last(l.rounds), |l.rounds| - 1, now);
    }
  }

  lemma BeginCommandKeeps(l: Ledger, taken: Option<Manifest>, now: nat, tool: Tool, phase: CommandPhase)
    requires LedgerOk(l, now)
    ensures LedgerOk(BeginCommand(l, taken, now, tool, phase).ledger, now + 1)
  {
    LedgerOkLater(l, now, now + 1);
    var answer := BeginCommand(l, taken, now, tool, phase);
    if answer.reply == Fatal {
      if l.rounds != [] { InvalidateKeeps(l, now + 1); }
    } else if answer.reply == Success {
      var entry := Command(|l.commands| + 1, tool, phase, now, taken.value, Running, None);
      AppendCommandKeeps(l, entry, now);
    }
  }

  lemma BeginCommandReady(l: Ledger, taken: Option<Manifest>, now: nat, tool: Tool, phase: CommandPhase)
    requires LedgerOk(l, now) && BeginCommand(l, taken, now, tool, phase).reply == Success
    ensures CommandReady(BeginCommand(l, taken, now, tool, phase).ledger)
  {
    BegunCommandReady(l, taken.value, now, tool, phase);
  }

  /** What the running command's completion relies on. */
  ghost predicate CommandReady(l: Ledger) {
    && l.commands != []
    && var running := Last(l.commands);
    && running.status == Running
    && (l.rounds != [] ==> Last(l.rounds).status != Reading)
    && (l.rounds != [] && Last(l.rounds).status == Dry ==>
          running.phase == FinalGate && running.startedAt >= FinishedOrFirst(Last(l.rounds)))
    && (running.phase == CalibrationFail ==>
          && l.calibrations != [] && Last(l.calibrations).status == Sealed
          && running.tool == Test
          && running.manifest != Last(l.calibrations).baseline
          && Last(l.calibrations).startedAt < running.startedAt)
    && (running.phase == CalibrationPass ==>
          && l.calibrations != [] && Last(l.calibrations).status == FailureProven
          && running.tool == Test
          && running.manifest == Last(l.calibrations).baseline)
  }

  lemma FinishedFinals(commands: seq<Command>, since: nat, done: Command, m: Manifest)
    requires commands != [] && FinalsOk(FinalsSince(commands, since), m)
    requires done == Last(commands).(status := done.status, finishedAt := done.finishedAt)
    requires Last(commands).status == Running
    ensures FinalsOk(FinalsSince(SetLast(commands, done), since), m)
  {
    var n := |commands| - 1;
    assert SetLast(commands, done)[..n] == commands[..n];
  }

  lemma FinishedCommands(l: Ledger, now: nat, status: CommandStatus)
    requires LedgerOk(l, now) && CommandReady(l) && status != Running
    ensures CommandsOk(l.(commands := SetLast(l.commands, Last(l.commands).(status := status, finishedAt := Some(now)))), now + 1)
  {
    LedgerOkLater(l, now, now + 1);
    assert CommandOk(Last(l.commands), |l.commands| - 1, now);
  }

  lemma WithResultKeeps(l: Ledger, now: nat, status: CommandStatus)
    requires LedgerOk(l, now) && CommandReady(l) && status != Running
    ensures LedgerOk(WithResult(l, now, status), now + 1)
  {
    LedgerOkLater(l, now, now + 1);
    var done := Last(l.commands).(status := status, finishedAt := Some(now));
    var commands := SetLast(l.commands, done);
    FinishedCommands(l, now, status);
    if l.rounds != [] && Last(l.rounds).status == Dry {
      FinishedFinals(l.commands, FinishedOrFirst(Last(l.rounds)), done, Last(l.rounds).manifest);
    }
    CommandsChangeKeeps(l, commands, now + 1);
  }

  lemma CompleteFailKeeps(l: Ledger, now: nat, status: CommandStatus, rolledBack: bool)
    requires LedgerOk(l, now) && CommandReady(l) && status != Running
    requires Last(l.commands).phase == CalibrationFail
    ensures LedgerOk(CompleteCommand(l, now, status, rolledBack).ledger, now + 1)
  {
    var done := WithResult(l, now, status);
    WithResultKeeps(l, now, status);
    var running := Last(l.commands);
    assert CommandOk(running, |l.commands| - 1, now);
    var c := Last(l.calibrations);
    assert CalibrationOk(done.commands, c, |l.calibrations| - 1, now + 1);
    var judged := Last(CompleteCommand(l, now, status, rolledBack).ledger.calibrations);
    assert status == ExpectedFailure ==> FailureEvidence(done.commands, judged);
    ReplaceCalibrationKeeps(done, judged, now + 1);
  }

  lemma CompletePassKeeps(l: Ledger, now: nat, status: CommandStatus, rolledBack: bool)
    requires LedgerOk(l, now) && CommandReady(l) && status != Running
    requires Last(l.commands).phase == CalibrationPass
    ensures LedgerOk(CompleteCommand(l, now, status, rolledBack).ledger, now + 1)
  {
    var done := WithResult(l, now, status);
    WithResultKeeps(l, now, status);
    var running := Last(l.commands);
    assert CommandOk(running, |l.commands| - 1, now);
    var c := Last(l.calibrations);
    assert CalibrationOk(done.commands, c, |l.calibrations| - 1, now + 1);
    var judged := Last(CompleteCommand(l, now, status, rolledBack).ledger.calibrations);
    assert done.commands[c.failureCommand.value - 1].phase == CalibrationFail;
    assert status == Succeeded ==> PassEvidence(done.commands, judged);
    ReplaceCalibrationKeeps(done, judged, now + 1);
  }

  lemma CompleteCommandKeeps(l: Ledger, now: nat, status: CommandStatus, rolledBack: bool)
    requires LedgerOk(l, now) && CommandReady(l) && status != Running
    ensures LedgerOk(CompleteCommand(l, now, status, rolledBack).ledger, now + 1)
  {
    match Last(l.commands).phase
    case CalibrationFail => CompleteFailKeeps(l, now, status, rolledBack);
    case CalibrationPass => CompletePassKeeps(l, now, status, rolledBack);
    case _ =>
      WithResultKeeps(l, now, status);
      if l.rounds != [] { InvalidateKeeps(WithResult(l, now, status), now + 1); }
  }
}
