/**
 When a dry round can still be certified. A final command that was recorded but
 never observed to its end closes the gate for good while the reviewed files
 stay as they are; nothing else does.
 */
module ReviewGate {
  import opened Prelude
  import opened ReviewWorkspace
  import opened ReviewProtocol
  import opened ReviewSafety
  import opened ReviewRun
  import opened ReviewTheorems

  /** The final commands recorded since the last round finished. */
  function Finals(l: Ledger): seq<Command>
    requires l.rounds != []
  {
    FinalsSince(l.commands, FinishedOrFirst(Last(l.rounds)))
  }

  predicate IsDry(l: Ledger) {
    l.rounds != [] && Last(l.rounds).status == Dry
  }

  predicate AllSucceeded(commands: seq<Command>) {
    forall i | 0 <= i < |commands| :: commands[i].status == Succeeded
  }

  /** A dry round with a final command that was not seen to succeed. */
  predicate GateLost(l: Ledger) {
    IsDry(l) && !AllSucceeded(Finals(l))
  }

  predicate KeepsManifest(action: Action, m: Manifest) {
    action.Environment? ==> ManifestOf(action.after) == Some(m)
  }

  predicate KeepManifest(actions: seq<Action>, m: Manifest) {
    forall i | 0 <= i < |actions| :: KeepsManifest(actions[i], m)
  }

  /** Nothing is pending and the live ledger is the retained one. */
  predicate Quiet(s: State) {
    s.pending == Idle && s.memory == s.disk
  }

  /** A dry round over the workspace as it is. */
  predicate AtDry(s: State) {
    IsDry(s.memory) && ManifestOf(s.ws) == Some(Last(s.memory.rounds).manifest)
  }

  // ----- a lost gate stays shut -----

  lemma LostGateIsShut(l: Ledger, clock: nat, taken: Option<Manifest>)
    requires LedgerOk(l, clock) && GateLost(l)
    ensures !AssertDry(l, taken)
  {
    MatchingFinalsAll(Finals(l), Last(l.rounds).manifest);
  }

  lemma LostGateRefusesCommands(l: Ledger, clock: nat, taken: Option<Manifest>, tool: Tool, phase: CommandPhase)
    requires LedgerOk(l, clock) && GateLost(l) && taken.Some?
    ensures BeginCommand(l, taken, clock, tool, phase) == Answer(l, Refused)
  {
    assert FinalsOk(Finals(l), Last(l.rounds).manifest);
    assert !CommandPhaseAllowed(l, taken.value, tool, phase);
  }

  /** While the workspace keeps the round's manifest, a dry round admits no other call in any case. */
  lemma DryRefusesCalls(l: Ledger, clock: nat, taken: Option<Manifest>)
    requires IsDry(l) && taken == Some(Last(l.rounds).manifest)
    ensures StartRound(l, taken, clock) == Answer(l, Refused)
    ensures forall path, observed :: ReadFile(l, taken, clock, path, observed) == Answer(l, Refused)
    ensures forall verdict, findings :: FinishRound(l, taken, clock, verdict, findings) == Answer(l, Refused)
    ensures forall rolledBack :: StartCalibration(l, taken, rolledBack, clock) == Answer(l, Refused)
    ensures !NeedsRollback(l, taken)
    ensures forall editable, before, request ::
      DecideEdit(l, taken, editable, before, request) == Rejected(Answer(l, Refused))
  {
  }

  /** A lost gate is shut, and every tool call is refused without effect. */
  lemma LostGateRefusesAll(l: Ledger, clock: nat, taken: Option<Manifest>)
    requires LedgerOk(l, clock) && GateLost(l) && taken == Some(Last(l.rounds).manifest)
    ensures !AssertDry(l, taken)
    ensures StartRound(l, taken, clock) == Answer(l, Refused)
    ensures forall path, observed :: ReadFile(l, taken, clock, path, observed) == Answer(l, Refused)
    ensures forall verdict, findings :: FinishRound(l, taken, clock, verdict, findings) == Answer(l, Refused)
    ensures forall rolledBack :: StartCalibration(l, taken, rolledBack, clock) == Answer(l, Refused)
    ensures !NeedsRollback(l, taken)
    ensures forall editable, before, request ::
      DecideEdit(l, taken, editable, before, request) == Rejected(Answer(l, Refused))
    ensures forall tool, phase :: BeginCommand(l, taken, clock, tool, phase) == Answer(l, Refused)
  {
    LostGateIsShut(l, clock, taken);
    DryRefusesCalls(l, clock, taken);
    forall tool, phase ensures BeginCommand(l, taken, clock, tool, phase) == Answer(l, Refused) {
      LostGateRefusesCommands(l, clock, taken, tool, phase);
    }
  }

  lemma LostGateCall(s: State, action: Action)
    requires SafeState(s) && GateLost(s.memory) && AtDry(s) && s.pending == Idle
    ensures DoCall(s, action) == s || DoCall(s, action) == s.(pending := Settling)
  {
    LostGateRefusesAll(s.memory, s.clock, ManifestOf(s.ws));
  }

  /** At a dry round no step is about to write anything. */
  lemma DryTearsNothing(s: State, during: Action, undoing: bool, stage: WriteStage)
    requires AtDry(s) && (s.pending == Idle || s.pending == Settling)
    ensures DoCrashWriting(s, during, undoing, stage) == s.(memory := s.disk, pending := Idle)
  {
    DryRefusesCalls(s.memory, s.clock, ManifestOf(s.ws));
    assert PlanOf(s, during).None? && !RollsBack(s, during);
  }

  /** The gate stays lost, in memory and on disk, with nothing under way. */
  predicate StaysLost(s: State, l: Ledger) {
    && s.memory == l && s.disk == l && (s.pending == Idle || s.pending == Settling)
    && AtDry(s)
  }

  lemma LostGateRests(s: State, action: Action)
    requires StaysLost(s, s.memory) && !action.CrashWriting?
    requires s.pending == Settling || DoCall(s, action) == s || DoCall(s, action) == s.(pending := Settling)
    requires KeepsManifest(action, Last(s.memory.rounds).manifest)
    ensures StaysLost(Step(s, action), s.memory)
  {
  }

  lemma LostGateStep(s: State, action: Action)
    requires SafeState(s) && GateLost(s.memory) && StaysLost(s, s.memory)
    requires KeepsManifest(action, Last(s.memory.rounds).manifest)
    ensures StaysLost(Step(s, action), s.memory)
  {
    if action.CrashWriting? {
      DryTearsNothing(s, action.during, action.undoing, action.stage);
    } else {
      if s.pending == Idle {
        LostGateCall(s, action);
      }
      LostGateRests(s, action);
    }
  }

  /**
   Once a final command of a dry round is lost, no sequence of calls,
   publications and further crashes ever completes the Goal while the reviewed
   files stay as they are.
   */
  lemma {:induction false} LostGateIsTerminal(s: State, actions: seq<Action>)
    requires SafeState(s) && GateLost(s.memory) && Quiet(s) && AtDry(s)
    requires KeepManifest(actions, Last(s.memory.rounds).manifest)
    ensures var after := Run(s, actions);
      && SafeState(after) && StaysLost(after, s.memory)
      && !AssertDry(after.memory, ManifestOf(after.ws))
    decreases |actions|
  {
    if actions != [] {
      var init := actions[..|actions| - 1];
      LostGateIsTerminal(s, init);
      var before := Run(s, init);
      StepSafe(before, Last(actions));
      LostGateStep(before, Last(actions));
    }
    var after := Run(s, actions);
    LostGateRefusesAll(after.memory, after.clock, ManifestOf(after.ws));
  }

  // ----- any other dry round can be certified -----

  /** What a gate command reports when all is well. */
  function Fine(): ProcessResult {
    ProcessResult(Some(0), false, false, false, true, false)
  }

  lemma FinalsAppend(commands: seq<Command>, since: nat, entry: Command)
    requires entry.phase == FinalGate && entry.startedAt >= since
    ensures FinalsSince(commands + [entry], since) == FinalsSince(commands, since) + [entry]
  {
    assert (commands + [entry])[..|commands|] == commands;
  }

  /** The ledger after a final command began and succeeded. */
  function WithFinal(l: Ledger, tool: Tool, clock: nat): Ledger
    requires l.rounds != []
  {
    l.(commands := l.commands +
      [Command(|l.commands| + 1, tool, FinalGate, clock, Last(l.rounds).manifest, Succeeded, Some(clock + 1))])
  }

  lemma FinalRuns(s: State, tool: Tool)
    requires Quiet(s) && AtDry(s)
    requires CommandPhaseAllowed(s.memory, Last(s.memory.rounds).manifest, tool, FinalGate)
    ensures Step(Step(s, CallCommand(tool, FinalGate)), CommandFinished(Fine()))
         == s.(memory := WithFinal(s.memory, tool, s.clock), pending := Settling, clock := s.clock + 2)
  {
    var l := s.memory;
    var entry := Command(|l.commands| + 1, tool, FinalGate, s.clock, Last(l.rounds).manifest, Running, None);
    var begun := Step(s, CallCommand(tool, FinalGate));
    assert begun == s.(memory := l.(commands := l.commands + [entry]), pending := CommandRunning, clock := s.clock + 1);
    assert FinishedStatus(tool, FinalGate, Fine()) == Succeeded;
  }

  lemma WithFinalFinals(l: Ledger, tool: Tool, clock: nat)
    requires IsDry(l) && clock >= FinishedOrFirst(Last(l.rounds))
    ensures Finals(WithFinal(l, tool, clock)) == Finals(l) + [Last(WithFinal(l, tool, clock).commands)]
  {
    FinalsAppend(l.commands, FinishedOrFirst(Last(l.rounds)), Last(WithFinal(l, tool, clock).commands));
  }

  /** With a succeeded check-watch and a succeeded test over the round's manifest the gate is open. */
  lemma TwoFinalsOpen(s: State)
    requires SafeState(s) && AtDry(s) && |Finals(s.memory)| == 2 && AllSucceeded(Finals(s.memory))
    ensures AssertDry(s.memory, ManifestOf(s.ws))
  {
    MatchingFinalsAll(Finals(s.memory), Last(s.memory.rounds).manifest);
  }

  lemma RoundFinishedBefore(s: State)
    requires SafeState(s) && IsDry(s.memory)
    ensures s.clock > FinishedOrFirst(Last(s.memory.rounds))
  {
    assert RoundOk(Last(s.memory.rounds), |s.memory.rounds| - 1, s.clock);
  }

  lemma RunNext(s: State, actions: seq<Action>, action: Action)
    ensures Run(s, actions + [action]) == Step(Run(s, actions), action)
  {
    assert (actions + [action])[..|actions|] == actions;
  }

  lemma RunTwice(s: State, first: Action, second: Action)
    ensures Run(s, [first, second]) == Step(Step(s, first), second)
  {
    RunNext(s, [], first);
    RunNext(s, [first], second);
    assert [] + [first] == [first] && [first] + [second] == [first, second];
  }

  lemma {:induction false} RunJoined(s: State, a: seq<Action>, b: seq<Action>)
    ensures Run(s, a + b) == Run(Run(s, a), b)
    decreases |b|
  {
    if b == [] {
      assert a + b == a;
    } else {
      assert (a + b)[..|a + b| - 1] == a + b[..|b| - 1];
      RunJoined(s, a, b[..|b| - 1]);
    }
  }

  lemma RunThrice(s: State, first: Action, second: Action, third: Action)
    ensures Run(s, [first, second, third]) == Step(Step(Step(s, first), second), third)
  {
    RunTwice(s, first, second);
    RunNext(s, [first, second], third);
    assert [first, second] + [third] == [first, second, third];
  }

  lemma {:induction false} SafeAfter(s: State, actions: seq<Action>)
    requires SafeState(s)
    ensures SafeState(Run(s, actions))
    decreases |actions|
  {
    if actions != [] {
      SafeAfter(s, actions[..|actions| - 1]);
      StepSafe(Run(s, actions[..|actions| - 1]), Last(actions));
    }
  }

  /** The call of one final command and its success. */
  function FinalActions(tool: Tool): seq<Action> {
    [CallCommand(tool, FinalGate), CommandFinished(Fine())]
  }

  lemma FinalActionsRun(s: State, tool: Tool)
    requires Quiet(s) && AtDry(s)
    requires CommandPhaseAllowed(s.memory, Last(s.memory.rounds).manifest, tool, FinalGate)
    ensures Run(s, FinalActions(tool)) == s.(memory := WithFinal(s.memory, tool, s.clock), pending := Settling, clock := s.clock + 2)
  {
    FinalRuns(s, tool);
    RunTwice(s, CallCommand(tool, FinalGate), CommandFinished(Fine()));
  }

  /** After the check-watch succeeded the test opens the gate. */
  lemma TestOpens(s: State)
    requires SafeState(s) && Quiet(s) && AtDry(s) && |Finals(s.memory)| == 1 && AllSucceeded(Finals(s.memory))
    ensures var after := Run(s, FinalActions(Test)); AssertDry(after.memory, ManifestOf(after.ws))
  {
    FinalActionsRun(s, Test);
    SafeAfter(s, FinalActions(Test));
    RoundFinishedBefore(s);
    WithFinalFinals(s.memory, Test, s.clock);
    TwoFinalsOpen(Run(s, FinalActions(Test)));
  }

  function WatchActions(): seq<Action> {
    [CallCommand(CheckWatch, FinalGate), CommandFinished(Fine()), Publish]
  }

  lemma WatchRuns(s: State)
    requires Quiet(s) && AtDry(s) && Finals(s.memory) == []
    ensures var watched := WithFinal(s.memory, CheckWatch, s.clock);
      Run(s, WatchActions()) == s.(memory := watched, disk := watched, clock := s.clock + 3)
  {
    FinalRuns(s, CheckWatch);
    RunThrice(s, CallCommand(CheckWatch, FinalGate), CommandFinished(Fine()), Publish);
  }

  lemma WatchSucceeds(s: State)
    requires SafeState(s) && Quiet(s) && AtDry(s) && Finals(s.memory) == []
    ensures var after := Run(s, WatchActions());
      && SafeState(after) && Quiet(after) && AtDry(after)
      && |Finals(after.memory)| == 1 && AllSucceeded(Finals(after.memory))
  {
    WatchRuns(s);
    SafeAfter(s, WatchActions());
    RoundFinishedBefore(s);
    WithFinalFinals(s.memory, CheckWatch, s.clock);
  }

  /** The gate can be opened without touching the reviewed files. */
  ghost predicate CanOpen(s: State) {
    exists actions :: Opens(s, actions)
  }

  ghost predicate Opens(s: State, actions: seq<Action>) {
    && IsDry(s.memory) && KeepManifest(actions, Last(s.memory.rounds).manifest)
    && AssertDry(Run(s, actions).memory, ManifestOf(Run(s, actions).ws))
  }

  lemma CallsKeepManifest(m: Manifest)
    ensures KeepManifest(FinalActions(Test), m) && KeepManifest(WatchActions() + FinalActions(Test), m)
  {
  }

  lemma BothOpen(s: State)
    requires SafeState(s) && Quiet(s) && AtDry(s) && Finals(s.memory) == []
    ensures var after := Run(s, WatchActions() + FinalActions(Test)); AssertDry(after.memory, ManifestOf(after.ws))
  {
    WatchSucceeds(s);
    TestOpens(Run(s, WatchActions()));
    RunJoined(s, WatchActions(), FinalActions(Test));
  }

  lemma AtMostTwoFinals(s: State)
    requires SafeState(s) && IsDry(s.memory)
    ensures |Finals(s.memory)| <= 2
  {
  }

  lemma SucceededFinalsOpen(s: State)
    requires SafeState(s) && Quiet(s) && AtDry(s) && AllSucceeded(Finals(s.memory))
    ensures CanOpen(s)
  {
    AtMostTwoFinals(s);
    CallsKeepManifest(Last(s.memory.rounds).manifest);
    var actions :=
      if Finals(s.memory) == [] then WatchActions() + FinalActions(Test)
      else if |Finals(s.memory)| == 1 then FinalActions(Test)
      else [];
    if Finals(s.memory) == [] {
      BothOpen(s);
    } else if |Finals(s.memory)| == 1 {
      TestOpens(s);
    } else {
      TwoFinalsOpen(s);
    }
    assert Opens(s, actions);
  }

  /**
   From rest over an unchanged workspace a dry round can be certified exactly
   when every final command recorded since it finished is known to have
   succeeded.
   */
  lemma GateOpensExactly(s: State)
    requires SafeState(s) && Quiet(s) && AtDry(s)
    ensures CanOpen(s) <==> AllSucceeded(Finals(s.memory))
  {
    if AllSucceeded(Finals(s.memory)) {
      SucceededFinalsOpen(s);
    } else {
      forall actions ensures !Opens(s, actions) {
        if KeepManifest(actions, Last(s.memory.rounds).manifest) {
          LostGateIsTerminal(s, actions);
        }
      }
    }
  }

  // ----- how a gate is lost -----

  lemma RunningIsLost(l: Ledger)
    requires CommandReady(l) && IsDry(l)
    ensures GateLost(l)
  {
    var front, entry := l.commands[..|l.commands| - 1], Last(l.commands);
    assert l.commands == front + [entry];
    FinalsAppend(front, FinishedOrFirst(Last(l.rounds)), entry);
    assert Finals(l)[|Finals(l)| - 1].status != Succeeded;
  }

  lemma FinishedKeepsDisk(s: State, result: ProcessResult)
    ensures Step(s, CommandFinished(result)).disk == s.disk
  {
  }

  lemma CrashRestores(s: State)
    ensures Step(s, Crash).memory == s.disk
  {
  }

  lemma AbortPublishes(s: State)
    requires s.pending == CommandRunning
    ensures Step(Step(s, CallAborted), Publish) == s.(disk := s.memory, pending := Idle, clock := s.clock + 2)
  {
  }

  /**
   While a published final command of a dry round runs, the gate is lost by a
   crash, by a crash between its end and the publication of that end, and by an
   abort of the call that is then published.
   */
  lemma CrashLosesGate(s: State, result: ProcessResult)
    requires SafeState(s) && s.pending == CommandRunning && s.disk == s.memory && IsDry(s.memory)
    ensures GateLost(Step(s, Crash).memory)
    ensures GateLost(Step(Step(s, CommandFinished(result)), Crash).memory)
    ensures GateLost(Step(Step(s, CallAborted), Publish).memory)
  {
    RunningIsLost(s.memory);
    CrashRestores(s);
    FinishedKeepsDisk(s, result);
    CrashRestores(Step(s, CommandFinished(result)));
    AbortPublishes(s);
  }
}
