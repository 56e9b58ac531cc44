/**
 Why a launch can strand a run: an honest run of the Evidence arm in which
 counters that arrive behind a boundary move the total, so that the next launch
 starts a Goal elsewhere than its predecessor ended and can never have it begun.
 */
module GoalDrift {
  import opened Prelude
  import opened TokenUsage
  import opened Instruction
  import opened GoalState
  import opened Validators
  import opened Supervision
  import opened GoalSession
  import opened GoalMachine
  import opened GoalSafety
  import opened GoalEvents
  import opened GoalLaunch
  import opened PlanAcceptance
  import opened GoalTheorems
  import opened GoalHonest
  import opened GoalScript
  import opened GoalExactness

  function Fresh(): Origin {
    New(EvidenceArm)
  }

  // ----- counters behind a boundary -----

  /** The first Goal is crossed, and its process is waiting for what it published. */
  lemma FirstGoalCrossed() returns (disk: RunState, w: Work, r: Reminders)
    ensures Reaches(Fresh(), {0}, Attached(disk, w))
    ensures JustCrossed(w, NotReview, r) && w.session.reconciled && w.session.phase == Running
    ensures w.state.arm == EvidenceArm && w.state.sessionId == Some(1) && w.state.interruption.None?
    ensures w.state.cursor == 1 && w.state.nativeStart == 0 && w.state.goals[0].end == Some(w.state.thread)
  {
    var begun;
    begun, r := NewRequested(EvidenceArm);
    var g := begun.state.goals[0];
    Asks(Fresh(), {}, Create(EvidenceArm), begun);
    assert {} + {0} == {0};
    disk := begun.state;
    GoalCompletes(Fresh(), {0}, disk, begun, g, r, 7, AtBoundary);
    EndIsReady(begun, g, r, 7);
    RunDies(AtEnd(begun, g, 7), Ran(g, Answer(begun, g, Complete), 7, true), r);
    w := Behind(AtEnd(begun, g, 7), Ran(g, Answer(begun, g, Complete), 7, true));
  }

  /** The publication fails: the handler is done and the run over. */
  function Failed(w: Work): Work {
    Work(w.state.(interruption := Some(OtherFailure)), w.session.(outcome := Some(RunInterrupted)))
  }

  lemma Fails(w: Work, boundary: Boundary, r: Reminders)
    requires JustCrossed(w, boundary, r) && w.state.interruption.None?
    ensures Act(w, Disturbed) == Failed(w)
  {
  }

  /** Only then is the next notification handled: it finds no record, after it has moved the total. */
  lemma LateTokens(w: Work, boundary: Boundary, r: Reminders, turn: nat, usage: Usage)
    requires JustCrossed(w, boundary, r) && w.session.reconciled && w.session.phase == Running && w.state.sessionId.Some?
    ensures Act(Failed(w), Notified(TokensUpdated(Some(turn), Some(usage)), Anyhow()))
         == Work(Failed(w).state.(thread := usage), Failed(w).session)
  {
    FoundAt(w.state, w.state.cursor);
    assert Current(Failed(w).state.(thread := usage)).None?;
  }

  /** The process exits and the interrupted run is retained. */
  function Left(s: RunState): RunState
    requires s.processes != []
  {
    s.(status := Interrupted, processes := SetLast(s.processes, Exited()))
  }

  lemma EndsInterrupted(o: Origin, known: set<nat>, disk: RunState, w: Work)
    requires Reaches(o, known, Attached(disk, w)) && w.session.outcome == Some(RunInterrupted) && w.state.interruption.Some?
    requires w.state.processes != []
    ensures Reaches(o, known, AtRest(Left(w.state)))
  {
    ReachesEnded(o, known, disk, w, Ended(Exited(), false, true, InspectionFailed));
  }

  /** A retained run one Goal into its plan whose total has moved since that Goal ended. */
  predicate Torn(s: RunState) {
    && s.arm == EvidenceArm && s.status == Interrupted && s.sessionId == Some(1)
    && s.cursor == 1 == |s.goals| && s.nativeStart == 0
    && s.goals[0].end.Some? && s.thread == Ahead(s.goals[0].end.value)
  }

  lemma TornReached() returns (s: RunState)
    ensures Reaches(Fresh(), {0}, AtRest(s)) && Torn(s) && Sound(s)
  {
    var disk, w, r := FirstGoalCrossed();
    var late := Ahead(w.state.thread);
    Fails(w, NotReview, r);
    ReachesAct(Fresh(), {0}, disk, w, Disturbed);
    LateTokens(w, NotReview, r, 8, late);
    ReachesAct(Fresh(), {0}, disk, Failed(w), Notified(TokensUpdated(Some(8), Some(late)), Anyhow()));
    var over := Work(Failed(w).state.(thread := late), Failed(w).session);
    EndsInterrupted(Fresh(), {0}, disk, over);
    s := Left(over.state);
    ReachesOk(Fresh(), {0}, AtRest(s));
  }

  // ----- the next launch -----

  function Relaunched(s: RunState): Work {
    Work(Prepared(s, ""), NewSession(s, Plainly()))
  }

  lemma Relaunches(o: Origin, known: set<nat>, s: RunState)
    requires Reaches(o, known, AtRest(s)) && Sound(s) && s.arm == EvidenceArm && s.status == Interrupted && s.cursor < |s.plan|
    ensures Reaches(o, known, Attached(s, Relaunched(s)))
  {
    PlanAccepted(s);
    ReachesOther(o, known, AtRest(s), Launch(Plainly()));
  }

  lemma TornPlan(s: RunState)
    requires Sound(s) && s.arm == EvidenceArm
    ensures |s.plan| == 7 && s.pauses == [] && GoalsOk(s)
  {
  }

  /** Without the guard exactness fails: this honest run starts its second Goal at a total nobody was measured for. */
  lemma UnguardedLaunchTaints() returns (s: RunState)
    ensures Reaches(Fresh(), {0}, AtRest(s)) && Torn(s) && Reaches(Fresh(), {0}, Attached(s, Relaunched(s)))
    ensures var live := Relaunched(s).state;
      && |live.goals| == 2 && live.goals[0] == s.goals[0] && live.goals[1] == NewGoal(s, "")
      && live.goals[0].end != Some(live.goals[1].start)
      && !Exact(live)
  {
    s := TornReached();
    TornPlan(s);
    Relaunches(Fresh(), {0}, s);
    var live := Relaunched(s).state;
    FoundAt(s, 1);
    assert live.goals[1].start != ExpectedStart(live, 1);
  }

  lemma TornStuck(s: RunState, asked: set<nat>)
    requires Torn(s) && 1 !in asked
    ensures Stuck(s, asked)
  {
  }

  /** That Goal is never begun: over an honest thread nothing moves the run past its first Goal any more. */
  lemma DriftHappens() returns (events: seq<Event>)
    ensures var m := AtRest(Create(EvidenceArm));
      var s, asked := Run(m, events).disk, Asked(m, {}, events);
      && HonestRun(m, {}, events) && Run(m, events) == AtRest(s) && Torn(s)
      && forall more :: HonestRun(AtRest(s), asked, more) ==> Run(AtRest(s), more).disk.cursor == 1
  {
    var m := AtRest(Create(EvidenceArm));
    var s := TornReached();
    events :| HonestRun(m, {}, events) && Run(m, events) == AtRest(s) && {0} <= Asked(m, {}, events);
    HonestRunsAreExact(m, events);
    TornStuck(s, Asked(m, {}, events));
    forall more | HonestRun(AtRest(s), Asked(m, {}, events), more) ensures Run(AtRest(s), more).disk.cursor == 1 {
      DriftStrands(s, Asked(m, {}, events), more);
    }
  }

  // ----- once inexact, always inexact -----

  predicate InexactMachine(m: Machine) {
    !Exact(m.disk) && !Exact(m.live)
  }

  lemma ActInexact(m: Machine, session: Session, e: Event)
    requires m.session == Some(session) && LiveOk(Work(m.live, session)) && InexactMachine(m)
    requires !e.Ended? && !e.Launch? && !e.Decided? && !e.Published? && !e.Killed?
    ensures InexactMachine(Step(m, e))
  {
    LiveEventsKeepExactness(Work(m.live, session), e);
    assert Step(m, e) == Attached(m.disk, Act(Work(m.live, session), e));
  }

  lemma LiveStepInexact(m: Machine, session: Session, e: Event)
    requires m.session == Some(session) && LiveOk(Work(m.live, session)) && InexactMachine(m)
    ensures InexactMachine(Step(m, e))
  {
    if e.Ended? {
      EndStepExact(m, session, e);
    } else if !e.Launch? && !e.Decided? && !e.Published? && !e.Killed? {
      ActInexact(m, session, e);
    }
  }

  lemma StepInexact(m: Machine, e: Event)
    requires MachineOk(m) && InexactMachine(m)
    ensures InexactMachine(Step(m, e))
  {
    if m.session.Some? {
      LiveStepInexact(m, m.session.value, e);
    } else if e.Launch? {
      LaunchTaintsExactly(m.disk, e.options);
      LaunchAtRest(m.disk, e.options);
    } else if e.Decided? {
      InspectRecords(m.disk, InspectionFailed, e.decision, true);
      SameRecordsExact(m.disk, Apply(m.disk, e.decision, true));
    }
  }

  /** No event ever repairs a start: a run that is inexact on disk and in memory is never accepted as complete. */
  lemma {:induction false} InexactForever(m: Machine, events: seq<Event>)
    requires MachineOk(m) && InexactMachine(m)
    ensures MachineOk(Run(m, events)) && InexactMachine(Run(m, events))
    ensures !ValidateCompletedState(Run(m, events).disk)
  {
    if events != [] {
      InexactForever(m, events[..|events| - 1]);
      var before := Run(m, events[..|events| - 1]);
      StepInexact(before, events[|events| - 1]);
      StepSound(before, events[|events| - 1]);
    }
    NeverValid(Run(m, events).disk);
  }

  lemma NeverValid(s: RunState)
    requires Sound(s) && !Exact(s)
    ensures !ValidateCompletedState(s)
  {
    if s.cursor == |s.plan| {
      CompletionAccepted(s);
    }
  }
}
