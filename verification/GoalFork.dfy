/**
 Runs derived from another run's completed first Goal: for a new thread, or for
 a fork of the source's thread. A fork counts on from the source's total, which
 the completion validator never accepts.
 */
module GoalFork {
  import opened Prelude
  import opened TokenUsage
  import opened Instruction
  import opened GoalState
  import opened Validators
  import opened Supervision
  import opened GoalSession
  import opened GoalMachine
  import opened GoalSafety
  import opened GoalEvents
  import opened GoalLaunch
  import opened PlanAcceptance
  import opened GoalTheorems
  import opened GoalHonest
  import opened GoalScript
  import opened GoalExactness

  // ----- deriving a run -----

  /** The state a run derived from a source's first Goal begins with. */
  function Derive(source: RunState, fork: bool): RunState
    requires source.goals != []
  {
    var start := source.goals[0];
    Create(source.arm).(
      cursor := 1, nativeStart := 1, goals := [start],
      thread := if fork && start.end.Some? then start.end.value else Zero())
  }

  lemma PlanBegins(s: RunState)
    requires Sound(s)
    ensures s.plan != [] && BasePlan(s.arm) != [] && s.plan[0] == BasePlan(s.arm)[0]
  {
  }

  /** The first Goal of any run begins at zero: its own thread's, or the one it inherited. */
  lemma FirstStart(m: Machine, s: RunState)
    requires Initial(m) && GoalsOk(s) && ExactBehind(s) && s.cursor >= 1
    requires ThreadStart(s) == m.disk.thread && s.nativeStart == m.disk.nativeStart
    ensures s.goals[0].start == Zero()
  {
  }

  lemma DerivedIs(source: RunState, fork: bool)
    requires GoalsOk(source) && source.cursor >= 1 && source.goals[0].start == Zero()
    requires source.plan != [] && BasePlan(source.arm) != [] && source.plan[0] == BasePlan(source.arm)[0]
    ensures var s := Derive(source, fork); Inherited(s) && Initial(AtRest(s)) && (Forkable(s) <==> fork)
  {
    assert GoalFits(source, 0);
  }

  lemma SourceStarts(m: Machine, events: seq<Event>)
    requires Initial(m) && HonestRun(m, {}, events) && Run(m, events).disk.cursor >= 1
    ensures var source := Run(m, events).disk; Sound(source) && source.goals != [] && source.goals[0].start == Zero()
  {
    var source := Run(m, events).disk;
    HonestRunsAreExact(m, events);
    RunStartsAt(m, events);
    SoundGoals(source);
    FirstStart(m, source);
  }

  /** From every state behind the first Goal of an honest run another run can be derived, for a new thread or for a fork. */
  lemma DerivesInitial(m: Machine, events: seq<Event>, fork: bool)
    requires Initial(m) && HonestRun(m, {}, events) && Run(m, events).disk.cursor >= 1
    ensures Run(m, events).disk.goals != []
    ensures var s := Derive(Run(m, events).disk, fork); Initial(AtRest(s)) && (Forkable(s) <==> fork)
  {
    SourceStarts(m, events);
    SoundGoals(Run(m, events).disk);
    PlanBegins(Run(m, events).disk);
    DerivedIs(Run(m, events).disk, fork);
  }

  // ----- a fork to its first own Goal -----

  function Forks(): Options {
    Plainly().(fork := true)
  }

  /** What a run derived for a fork begins with. */
  predicate ForkStart(s: RunState) {
    Initial(AtRest(s)) && Forkable(s)
  }

  function Origins(s: RunState): Origin {
    Origin(AtRest(s), {})
  }

  function Started(s: RunState): Work {
    Work(Prepared(s, ""), NewSession(s, Forks()))
  }

  /** The forked thread is named. */
  function Forked(s: RunState): Work {
    var w := Started(s);
    Work(w.state.(sessionId := Some(1), goals := Rethreaded(w.state.goals, w.state.cursor, 1)), w.session.(phase := Clearing))
  }

  /** Its source's Goal is cleared. */
  function Cleared(s: RunState): Work {
    Work(Forked(s).state, Forked(s).session.(snapshotPending := false, reconciled := true, phase := Dispatching))
  }

  function Begins(s: RunState): Work {
    Work(Cleared(s).state, Cleared(s).session.(phase := Running, beginning := Some(1)))
  }

  lemma ForkLaunches(s: RunState)
    requires ForkStart(s)
    ensures LaunchFrom(s, Forks()) == Attached(s, Started(s))
  {
    InitialSound(AtRest(s));
    PlanAccepted(s);
  }

  /** The record at the cursor is new and starts at the source's total; the one before it is renamed to the new thread. */
  lemma ForkedRecords(s: RunState)
    requires ForkStart(s)
    ensures var goals := Forked(s).state.goals;
      |goals| == 2 && goals[0] == RethreadedGoal(s.goals[0], 1, 1) && goals[1] == NewGoal(s, "")
    ensures Forked(s).state.cursor == 1 && Forked(s).state.thread == s.thread && Forked(s).state.plan == s.plan
    ensures |s.plan| > 1 && s.arm == Forked(s).state.arm
  {
    FoundAt(s, 1);
  }

  lemma ForkReached(s: RunState)
    requires ForkStart(s)
    ensures Reaches(Origins(s), {}, Attached(s, Cleared(s)))
  {
    var o := Origins(s);
    ReachesSelf(o);
    ReachesOther(o, {}, o.m, Launch(Forks()));
    ForkLaunches(s);
    ReachesAct(o, {}, s, Started(s), ThreadAnswered(1, true));
    ReachesAct(o, {}, s, Forked(s), ForkReset);
  }

  lemma BeginsFork(s: RunState, r: Reminders)
    requires ForkStart(s) && WorkOk(Cleared(s), r)
    ensures Act(Cleared(s), Continued(Anyhow())) == Begins(s)
  {
    ForkedRecords(s);
    var running := Work(Cleared(s).state, Cleared(s).session.(phase := Running));
    PhaseMoves(Cleared(s), Running, r);
    FreshBegins(running, r);
  }

  lemma ForkRequested(s: RunState) returns (r: Reminders)
    requires ForkStart(s)
    ensures Reaches(Origins(s), {}, Attached(s, Begins(s))) && |Begins(s).state.goals| == 2
    ensures Requested(Begins(s), Begins(s).state.goals[1], r)
  {
    ForkReached(s);
    ReachesOk(Origins(s), {}, Attached(s, Cleared(s)));
    r :| WorkOk(Cleared(s), r);
    BeginsFork(s, r);
    ReachesAct(Origins(s), {}, s, Cleared(s), Continued(Anyhow()));
    ContinuedOk(s, r);
    ForkedRecords(s);
  }

  lemma ContinuedOk(s: RunState, r: Reminders)
    requires ForkStart(s) && WorkOk(Cleared(s), r)
    ensures WorkOk(Begins(s), r)
  {
    BeginsFork(s, r);
    ActKeeps(Cleared(s), Continued(Anyhow()), r);
  }

  // ----- to its completion, and behind it -----

  lemma ForkCompletes(s: RunState) returns (asked: set<nat>, t: RunState)
    requires ForkStart(s) && s.arm == EvidenceArm
    ensures Reaches(Origins(s), asked, AtRest(t)) && t.status == Completed && t.cursor == |t.plan|
  {
    var r := ForkRequested(s);
    var w := Begins(s);
    ForkedRecords(s);
    var left, over;
    asked, left, over := EvidenceRuns(Origins(s), {}, s, w, w.state.goals[1], r);
    EndsCompleted(Origins(s), asked, left, over);
    t := over.state.(status := Completed, processes := SetLast(over.state.processes, Exited()));
  }

  /**
   Every run of the Evidence arm derived for a fork has an honest run that is
   retained as completed. The completion validator refuses it, and the next
   launch marks it interrupted.
   */
  lemma ForkIsRefused(s: RunState, options: Options) returns (events: seq<Event>)
    requires ForkStart(s) && s.arm == EvidenceArm
    ensures HonestRun(AtRest(s), {}, events)
    ensures var t := Run(AtRest(s), events).disk;
      && t.status == Completed && t.cursor == |t.plan| && !ValidateCompletedState(t)
      && LaunchFrom(t, options) == AtRest(t.(status := Interrupted, interruption := Some(OtherFailure)))
  {
    var asked, t := ForkCompletes(s);
    events :| HonestRun(AtRest(s), {}, events) && Run(AtRest(s), events) == AtRest(t) && asked <= Asked(AtRest(s), {}, events);
    CompletedRunsExactly(AtRest(s), events, options);
  }

  lemma MadePlan(m: Machine, events: seq<Event>)
    requires Initial(m) && Run(m, events).disk.cursor == |Run(m, events).disk.plan|
    ensures Run(m, events).disk.cursor >= 1
  {
    RunSound(m, events);
    CompletionLength(Run(m, events).disk);
  }

  /** An honest run from nothing that others can be derived from. */
  lemma SourceHappens() returns (source: seq<Event>)
    ensures var m := AtRest(Create(EvidenceArm));
      && HonestRun(m, {}, source) && Run(m, source).disk.goals != []
      && ForkStart(Derive(Run(m, source).disk, true)) && Run(m, source).disk.arm == EvidenceArm
  {
    var asked, made := EvidenceCompletes();
    var m := AtRest(Create(EvidenceArm));
    source :| HonestRun(m, {}, source) && Run(m, source) == AtRest(made) && asked <= Asked(m, {}, source);
    MadePlan(m, source);
    DerivesInitial(m, source, true);
  }

  /** A source from nothing, the run derived from it for a fork, and its completion that is refused. */
  lemma ForkHappens(options: Options) returns (source: seq<Event>, events: seq<Event>)
    ensures var m := AtRest(Create(EvidenceArm));
      && HonestRun(m, {}, source) && Run(m, source).disk.goals != []
      && var s := Derive(Run(m, source).disk, true);
      && ForkStart(s) && HonestRun(AtRest(s), {}, events)
      && var t := Run(AtRest(s), events).disk;
      && t.status == Completed && !ValidateCompletedState(t) && LaunchFrom(t, options).disk.status == Interrupted
  {
    source := SourceHappens();
    events := ForkIsRefused(Derive(Run(AtRest(Create(EvidenceArm)), source).disk, true), options);
  }
}
