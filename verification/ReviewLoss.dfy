/**
 That gates are lost: runs from the empty ledger, over any two workspaces whose
 manifests differ, that end in a dry round nothing can certify any more.
 */
module ReviewLoss {
  import opened Prelude
  import opened ReviewWorkspace
  import opened ReviewProtocol
  import opened ReviewSafety
  import opened ReviewRun
  import opened ReviewTheorems
  import opened ReviewGate

  // ----- reachability -----

  ghost predicate Reaches(s: State, t: State) {
    exists actions :: Run(s, actions) == t
  }

  lemma ReachesSelf(s: State)
    ensures Reaches(s, s)
  {
    assert Run(s, []) == s;
  }

  lemma ReachesStep(s: State, t: State, action: Action)
    requires Reaches(s, t)
    ensures Reaches(s, Step(t, action))
  {
    var actions :| Run(s, actions) == t;
    RunNext(s, actions, action);
  }

  lemma ReachesTrans(s: State, t: State, u: State)
    requires Reaches(s, t) && Reaches(t, u)
    ensures Reaches(s, u)
  {
    var a :| Run(s, a) == t;
    var b :| Run(t, b) == u;
    RunJoined(s, a, b);
  }

  lemma ReachesSafe(s: State, t: State)
    requires SafeState(s) && Reaches(s, t)
    ensures SafeState(t)
  {
    var actions :| Run(s, actions) == t;
    SafeAfter(s, actions);
  }

  /** At rest over a workspace whose manifest is `m`. */
  predicate Stands(s: State, ws: Workspace, m: Manifest) {
    Quiet(s) && s.ws == ws && ManifestOf(ws) == Some(m)
  }

  /** The state after a call left this ledger and it was published. */
  function Kept(s: State, l: Ledger): State {
    s.(memory := l, disk := l, clock := s.clock + 2)
  }

  /** A call that settles on a ledger, and its publication. */
  lemma CallKept(s: State, action: Action, l: Ledger)
    requires s.pending == Idle && Act(s, action) == s.(memory := l, pending := Settling)
    ensures Reaches(s, Kept(s, l))
  {
    ReachesSelf(s);
    ReachesStep(s, s, action);
    ReachesStep(s, Step(s, action), Publish);
    assert Step(Step(s, action), Publish) == Kept(s, l);
  }

  // ----- a round read to its end -----

  function Opened(s: State, m: Manifest): Ledger {
    var index := if s.memory.rounds == [] then 1 else Last(s.memory.rounds).index + 1;
    s.memory.(rounds := s.memory.rounds + [Round(index, s.clock, m, [], Reading, None)])
  }

  lemma RoundOpens(s: State, ws: Workspace, m: Manifest)
    requires Stands(s, ws, m) && StartRound(s.memory, Some(m), s.clock) == Answer(Opened(s, m), Success)
    ensures Reaches(s, Kept(s, Opened(s, m)))
  {
    CallKept(s, CallStartRound, Opened(s, m));
  }

  predicate ReadingOf(l: Ledger, m: Manifest) {
    l.rounds != [] && Last(l.rounds).status == Reading && Last(l.rounds).manifest == m
  }

  lemma EntryRead(s: State, ws: Workspace, m: Manifest) returns (t: State)
    requires Stands(s, ws, m) && ReadingOf(s.memory, m) && |Last(s.memory.rounds).credited| < |m|
    ensures Reaches(s, t) && Stands(t, ws, m) && t.clock > s.clock
    ensures var round := Last(s.memory.rounds); exists credited ::
      && t.memory == WithLastRound(s.memory, round.(credited := credited))
      && |credited| == |round.credited| + 1
  {
    var round := Last(s.memory.rounds);
    var entry := m[|round.credited|];
    var credited := round.credited + [Read(entry.path, entry.content, s.clock)];
    var l := WithLastRound(s.memory, round.(credited := credited));
    assert ReadFile(s.memory, Some(m), s.clock, entry.path, entry.content) == Answer(l, Success);
    CallKept(s, CallReadFile(entry.path, entry.content), l);
    t := Kept(s, l);
  }

  lemma {:induction false} RestRead(s: State, ws: Workspace, m: Manifest) returns (t: State)
    requires Stands(s, ws, m) && ReadingOf(s.memory, m) && |Last(s.memory.rounds).credited| <= |m|
    ensures Reaches(s, t) && Stands(t, ws, m) && t.clock >= s.clock
    ensures exists credited ::
      t.memory == WithLastRound(s.memory, Last(s.memory.rounds).(credited := credited)) && |credited| == |m|
    decreases |m| - |Last(s.memory.rounds).credited|
  {
    var round := Last(s.memory.rounds);
    if |round.credited| == |m| {
      t := s;
      ReachesSelf(s);
      assert t.memory == WithLastRound(s.memory, round.(credited := round.credited));
    } else {
      var next := EntryRead(s, ws, m);
      t := RestRead(next, ws, m);
      ReachesTrans(s, next, t);
      var credited :| t.memory == WithLastRound(next.memory, Last(next.memory.rounds).(credited := credited)) && |credited| == |m|;
      assert t.memory == WithLastRound(s.memory, round.(credited := credited));
    }
  }

  predicate Finishes(l: Ledger, m: Manifest, verdict: RoundStatus) {
    && ReadingOf(l, m) && |Last(l.rounds).credited| == |m|
    && (verdict == Clean || verdict == Findings || (verdict == Dry && CalibrationQualifies(l, Last(l.rounds))))
  }

  /** One finding where the verdict needs any. */
  function FindingsFor(verdict: RoundStatus): seq<string> {
    if verdict == Findings then ["a"] else []
  }

  lemma RoundEnds(s: State, ws: Workspace, m: Manifest, verdict: RoundStatus)
    requires Stands(s, ws, m) && Finishes(s.memory, m, verdict)
    ensures Reaches(s, Kept(s, WithLastRound(s.memory, Last(s.memory.rounds).(status := verdict, finishedAt := Some(s.clock)))))
  {
    assert !Blank("a") by { assert !IsSpace("a"[0]); }
    CallKept(s, CallFinishRound(verdict, FindingsFor(verdict)),
             WithLastRound(s.memory, Last(s.memory.rounds).(status := verdict, finishedAt := Some(s.clock))));
  }

  /** A last round that has ended in this verdict over this manifest. */
  predicate Ended(r: Round, m: Manifest, verdict: RoundStatus, since: nat, clock: nat) {
    r.status == verdict && r.manifest == m && r.finishedAt.Some? && since <= r.startedAt && r.finishedAt.value < clock
  }

  /** The last calibration passed on this manifest, and began before `before`. */
  predicate CalibratedOn(l: Ledger, m: Manifest, before: nat) {
    && l.calibrations != []
    && var c := Last(l.calibrations);
    && c.status == Passed && c.baseline == m && c.passCommand.Some? && c.startedAt < before
  }

  /** One more round over an unchanged workspace, from its start to its verdict. */
  lemma RoundRuns(s: State, ws: Workspace, m: Manifest, verdict: RoundStatus) returns (t: State)
    requires Stands(s, ws, m) && StartRound(s.memory, Some(m), s.clock) == Answer(Opened(s, m), Success)
    requires verdict == Clean || verdict == Findings || (verdict == Dry && CalibratedOn(s.memory, m, s.clock))
    ensures Reaches(s, t) && Stands(t, ws, m)
    ensures t.memory.rounds != [] && Ended(Last(t.memory.rounds), m, verdict, s.clock, t.clock)
    ensures t.memory == s.memory.(rounds := s.memory.rounds + [Last(t.memory.rounds)])
  {
    RoundOpens(s, ws, m);
    var begun := Kept(s, Opened(s, m));
    var read := RestRead(begun, ws, m);
    ReachesTrans(s, begun, read);
    RoundEnds(read, ws, m, verdict);
    t := Kept(read, WithLastRound(read.memory, Last(read.memory.rounds).(status := verdict, finishedAt := Some(read.clock))));
    ReachesTrans(s, read, t);
  }

  // ----- a calibration proven by a failing and a passing test -----

  function Failing(): ProcessResult {
    ProcessResult(Some(1), false, false, false, false, false)
  }

  lemma EnvironmentReaches(s: State, after: Workspace)
    ensures Reaches(s, s.(ws := after, clock := s.clock + 1))
  {
    ReachesSelf(s);
    ReachesStep(s, s, Environment(after));
  }

  function Begun(s: State, m: Manifest, tool: Tool, phase: CommandPhase): Ledger {
    s.memory.(commands := s.memory.commands + [Command(|s.memory.commands| + 1, tool, phase, s.clock, m, Running, None)])
  }

  /** A command under way: begun, and retained as running. */
  function Underway(s: State, m: Manifest, tool: Tool, phase: CommandPhase): State {
    Kept(s, Begun(s, m, tool, phase)).(pending := CommandRunning)
  }

  lemma CommandStarts(s: State, ws: Workspace, m: Manifest, tool: Tool, phase: CommandPhase)
    requires Stands(s, ws, m) && BeginCommand(s.memory, Some(m), s.clock, tool, phase) == Answer(Begun(s, m, tool, phase), Success)
    ensures Reaches(s, Underway(s, m, tool, phase))
  {
    ReachesSelf(s);
    ReachesStep(s, s, CallCommand(tool, phase));
    ReachesStep(s, Step(s, CallCommand(tool, phase)), Publish);
    assert Step(Step(s, CallCommand(tool, phase)), Publish) == Underway(s, m, tool, phase);
  }

  /** A command's end when no rollback is due, and its publication. */
  lemma CommandEnds(s: State, result: ProcessResult)
    requires s.pending == CommandRunning && s.memory.commands != []
    requires var status := FinishedStatus(Last(s.memory.commands).tool, Last(s.memory.commands).phase, result);
      !BreakUndetected(s.memory, status)
    ensures var status := FinishedStatus(Last(s.memory.commands).tool, Last(s.memory.commands).phase, result);
      Reaches(s, Kept(s, CompleteCommand(s.memory, s.clock, status, false).ledger).(pending := Idle))
  {
    var status := FinishedStatus(Last(s.memory.commands).tool, Last(s.memory.commands).phase, result);
    var l := CompleteCommand(s.memory, s.clock, status, false).ledger;
    ReachesSelf(s);
    ReachesStep(s, s, CommandFinished(result));
    assert Step(s, CommandFinished(result)) == s.(memory := l, pending := Settling, clock := s.clock + 1);
    ReachesStep(s, Step(s, CommandFinished(result)), Publish);
    assert Step(Step(s, CommandFinished(result)), Publish) == Kept(s, l).(pending := Idle);
  }

  predicate NoFinals(commands: seq<Command>) {
    forall i | 0 <= i < |commands| :: commands[i].phase != FinalGate
  }

  lemma {:induction false} NoFinalsSince(commands: seq<Command>, since: nat)
    requires NoFinals(commands)
    ensures FinalsSince(commands, since) == []
  {
    if commands != [] {
      NoFinalsSince(commands[..|commands| - 1], since);
    }
  }

  function Sealing(s: State, m: Manifest): Calibration {
    Calibration(1, s.clock, m, Sealed, None, None, None, None)
  }

  /** The state after the first calibration was sealed and published. */
  function FirstSealed(s: State, m: Manifest): State {
    Kept(s, s.memory.(calibrations := [Sealing(s, m)])).(broken := {})
  }

  lemma CalibrationSeals(s: State, ws: Workspace, m: Manifest)
    requires Stands(s, ws, m) && s.memory.calibrations == []
    requires s.memory.rounds != [] && Last(s.memory.rounds).manifest == m
    requires Last(s.memory.rounds).status == Clean || Last(s.memory.rounds).status == Findings
    ensures Reaches(s, FirstSealed(s, m))
  {
    ReachesSelf(s);
    ReachesStep(s, s, CallStartCalibration);
    ReachesStep(s, Step(s, CallStartCalibration), Publish);
    assert Step(Step(s, CallStartCalibration), Publish) == FirstSealed(s, m);
  }

  /** The test fails on the broken files. */
  lemma BreakDetected(s: State, broken: Workspace, x: Manifest) returns (t: State)
    requires Stands(s, broken, x) && s.memory.commands == [] && |s.memory.calibrations| == 1
    requires s.memory.rounds != [] && Last(s.memory.rounds).status == Clean
    requires s.memory.calibrations[0].status == Sealed && s.memory.calibrations[0].baseline != x
    ensures Reaches(s, t) && Stands(t, broken, x)
    ensures |t.memory.commands| == 1 && t.memory.commands[0].phase == CalibrationFail
    ensures t.memory.rounds == s.memory.rounds && t.clock > s.clock
    ensures t.memory.calibrations == [s.memory.calibrations[0].(status := FailureProven, failureCommand := Some(1))]
  {
    CommandStarts(s, broken, x, Test, CalibrationFail);
    var running := Underway(s, x, Test, CalibrationFail);
    CommandEnds(running, Failing());
    t := Kept(running, CompleteCommand(running.memory, running.clock, ExpectedFailure, false).ledger).(pending := Idle);
    ReachesTrans(s, running, t);
  }

  /** The test passes on the restored files. */
  lemma RestoreConfirmed(s: State, ws: Workspace, m: Manifest) returns (t: State)
    requires Stands(s, ws, m) && |s.memory.calibrations| == 1
    requires |s.memory.commands| == 1 && s.memory.commands[0].phase == CalibrationFail
    requires s.memory.rounds != [] && Last(s.memory.rounds).status == Clean
    requires s.memory.calibrations[0].status == FailureProven && s.memory.calibrations[0].baseline == m
    ensures Reaches(s, t) && Stands(t, ws, m) && NoFinals(t.memory.commands)
    ensures t.memory.rounds == s.memory.rounds && t.clock > s.clock
    ensures t.memory.calibrations == [s.memory.calibrations[0].(status := Passed, passCommand := Some(2))]
  {
    CommandStarts(s, ws, m, Test, CalibrationPass);
    var running := Underway(s, m, Test, CalibrationPass);
    CommandEnds(running, Fine());
    t := Kept(running, CompleteCommand(running.memory, running.clock, Succeeded, false).ledger).(pending := Idle);
    ReachesTrans(s, running, t);
  }

  lemma Calibrates(s: State, ws: Workspace, m: Manifest, broken: Workspace, x: Manifest) returns (t: State)
    requires Stands(s, ws, m) && s.memory.commands == [] && s.memory.calibrations == []
    requires s.memory.rounds != [] && Last(s.memory.rounds).status == Clean && Last(s.memory.rounds).manifest == m
    requires ManifestOf(broken) == Some(x) && x != m
    ensures Reaches(s, t) && Stands(t, ws, m) && t.memory.rounds == s.memory.rounds
    ensures NoFinals(t.memory.commands)
    ensures CalibratedOn(t.memory, m, t.clock) && Last(t.memory.calibrations).startedAt == s.clock
  {
    CalibrationSeals(s, ws, m);
    var done := FirstSealed(s, m);
    EnvironmentReaches(done, broken);
    ReachesTrans(s, done, done.(ws := broken, clock := done.clock + 1));
    var proven := BreakDetected(done.(ws := broken, clock := done.clock + 1), broken, x);
    ReachesTrans(s, done.(ws := broken, clock := done.clock + 1), proven);
    EnvironmentReaches(proven, ws);
    ReachesTrans(s, proven, proven.(ws := ws, clock := proven.clock + 1));
    t := RestoreConfirmed(proven.(ws := ws, clock := proven.clock + 1), ws, m);
    ReachesTrans(s, proven.(ws := ws, clock := proven.clock + 1), t);
  }

  // ----- the dry round -----

  /** Two workspaces whose manifests differ. */
  predicate Differ(ws: Workspace, broken: Workspace) {
    ManifestOf(ws).Some? && ManifestOf(broken).Some? && ManifestOf(ws) != ManifestOf(broken)
  }

  /** A run from the empty ledger to a dry round without final commands. */
  lemma DryRoundReached(ws: Workspace, broken: Workspace) returns (t: State)
    requires Differ(ws, broken)
    ensures Reaches(Initial(ws), t) && SafeState(t) && Quiet(t) && AtDry(t) && t.ws == ws && Finals(t.memory) == []
  {
    var m := ManifestOf(ws).value;
    var clean := RoundRuns(Initial(ws), ws, m, Clean);
    var passed := Calibrates(clean, ws, m, broken, ManifestOf(broken).value);
    ReachesTrans(Initial(ws), clean, passed);
    t := RoundRuns(passed, ws, m, Dry);
    NoFinalsSince(t.memory.commands, FinishedOrFirst(Last(t.memory.rounds)));
    ReachesTrans(Initial(ws), passed, t);
    RunSafe(ws, []);
    assert Run(Initial(ws), []) == Initial(ws);
    ReachesSafe(Initial(ws), t);
  }

  // ----- losing the gate -----

  /** At rest behind a lost gate whose last command never ended. */
  predicate Lost(s: State, tool: Tool) {
    && Quiet(s) && AtDry(s) && GateLost(s.memory)
    && s.memory.commands != [] && Last(s.memory.commands).tool == tool && Last(s.memory.commands).status == Running
  }

  lemma UnderwayDies(s: State, m: Manifest, tool: Tool)
    requires Quiet(s)
    ensures Step(Underway(s, m, tool, FinalGate), Crash)
         == Underway(s, m, tool, FinalGate).(pending := Idle, clock := s.clock + 3)
  {
  }

  lemma UnderwayIsLost(s: State, m: Manifest, tool: Tool)
    requires AtDry(s) && SafeState(Underway(s, m, tool, FinalGate))
    ensures Lost(Underway(s, m, tool, FinalGate).(pending := Idle, clock := s.clock + 3), tool)
  {
    RunningIsLost(Begun(s, m, tool, FinalGate));
  }

  lemma FinalStarts(s: State, tool: Tool)
    requires Quiet(s) && AtDry(s)
    requires CommandPhaseAllowed(s.memory, Last(s.memory.rounds).manifest, tool, FinalGate)
    ensures Reaches(s, Underway(s, Last(s.memory.rounds).manifest, tool, FinalGate))
  {
    CommandStarts(s, s.ws, Last(s.memory.rounds).manifest, tool, FinalGate);
  }

  /** The runner dies while a final command runs. */
  lemma DiesInFinal(s: State, tool: Tool) returns (t: State)
    requires SafeState(s) && Quiet(s) && AtDry(s)
    requires CommandPhaseAllowed(s.memory, Last(s.memory.rounds).manifest, tool, FinalGate)
    ensures Reaches(s, t) && SafeState(t) && Lost(t, tool) && t.ws == s.ws
  {
    var m := Last(s.memory.rounds).manifest;
    FinalStarts(s, tool);
    ReachesSafe(s, Underway(s, m, tool, FinalGate));
    ReachesStep(s, Underway(s, m, tool, FinalGate), Crash);
    UnderwayDies(s, m, tool);
    UnderwayIsLost(s, m, tool);
    t := Underway(s, m, tool, FinalGate).(pending := Idle, clock := s.clock + 3);
    ReachesSafe(s, t);
  }

  /** A run to where the check-watch, or behind it the test, may begin. */
  lemma FinalReady(ws: Workspace, broken: Workspace, tool: Tool) returns (t: State)
    requires Differ(ws, broken) && (tool == CheckWatch || tool == Test)
    ensures Reaches(Initial(ws), t) && SafeState(t) && Quiet(t) && AtDry(t) && t.ws == ws
    ensures CommandPhaseAllowed(t.memory, Last(t.memory.rounds).manifest, tool, FinalGate)
  {
    t := DryRoundReached(ws, broken);
    if tool == Test {
      var dry := t;
      WatchSucceeds(dry);
      WatchRuns(dry);
      t := Run(dry, WatchActions());
      ReachesTrans(Initial(ws), dry, t);
      FinalsBegin(t);
    }
  }

  lemma FinalsBegin(s: State)
    requires SafeState(s) && AtDry(s) && |Finals(s.memory)| == 1 && AllSucceeded(Finals(s.memory))
    ensures CommandPhaseAllowed(s.memory, Last(s.memory.rounds).manifest, Test, FinalGate)
  {
  }

  /**
   Over any two workspaces with different manifests there are runs from the
   empty ledger that lose the gate in the check-watch, and ones that lose it in
   the test; no steps that keep the reviewed files open it afterwards.
   */
  lemma GatesAreLost(ws: Workspace, broken: Workspace, tool: Tool) returns (actions: seq<Action>)
    requires Differ(ws, broken) && (tool == CheckWatch || tool == Test)
    ensures var s := Run(Initial(ws), actions); s.ws == ws && Lost(s, tool) && !CanOpen(s)
  {
    var ready := FinalReady(ws, broken, tool);
    var lost := DiesInFinal(ready, tool);
    ReachesTrans(Initial(ws), ready, lost);
    GateOpensExactly(lost);
    actions :| Run(Initial(ws), actions) == lost;
  }

  // ----- such workspaces exist -----

  function ConfigurationPaths(): set<string> {
    set i | 0 <= i < CONFIGURATION_COUNT :: ConfigurationPath(i)
  }

  /** The required files, all with this content, and the required directories. */
  function Sample(content: string): Workspace {
    Workspace(map p | p in ConfigurationPaths() :: content,
              set section: Section | section != Configuration :: DirectoryOf(section))
  }

  lemma SamplesDiffer(a: string, b: string)
    requires a != b
    ensures Differ(Sample(a), Sample(b))
  {
    var p := ConfigurationPath(0);
    assert p in ConfigurationPaths();
    assert InSection(Configuration, p);
    assert Lookup(Sample(a), p) == Some(a) && Lookup(Sample(b), p) == Some(b);
    ManifestDecidesScope(Sample(a), Sample(b));
  }
}
