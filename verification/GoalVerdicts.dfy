/** What verdicts a run can reach, and what the validators say of them. */
module GoalVerdicts {
  import opened Prelude
  import opened TokenUsage
  import opened Instruction
  import opened GoalState
  import opened Validators
  import opened Supervision
  import opened GoalSession
  import opened GoalMachine
  import opened GoalSafety
  import opened GoalLaunch
  import opened PlanAcceptance

  /** Every reachable retained state is readable by the report, and resumable unless its pending verdict was interrupted. */
  lemma RunsAreAccepted(m: Machine, events: seq<Event>)
    requires Initial(m)
    ensures var s := Run(m, events).disk;
      && CollectReviewVerdicts(s)
      && (ValidateInstructionPlan(s) <==> Resumable(s))
  {
    RunSound(m, events);
    PlanAccepted(Run(m, events).disk);
    VerdictsReported(Run(m, events).disk);
  }

  /** Over every run each recorded verdict is followed by exactly what its decision earns. */
  lemma RunsKeepHistory(m: Machine, events: seq<Event>, j: nat)
    requires Initial(m) && j < |Run(m, events).disk.pauses| && Run(m, events).disk.pauses[j].verdict.Some?
    ensures PlanFollows(Run(m, events).disk, j) && PauseFollows(Run(m, events).disk, j)
  {
    RunSound(m, events);
    VerdictFollows(Run(m, events).disk, j);
  }

  // ----- bounds -----

  predicate WithinBounds(s: RunState) {
    && |s.goals| <= |s.plan|
    && |s.plan| <= (if s.arm == PlainArm then 20 else 7)
    && |s.pauses| <= (if s.arm == PlainArm then 15 else 0)
    && forall j | 0 <= j < |s.pauses| :: s.pauses[j].inspections <= 3 && s.pauses[j].attempt <= 4
  }

  lemma SoundIsBounded(s: RunState)
    requires Sound(s)
    ensures WithinBounds(s)
  {
    var r :| RestOk(s, r);
    forall j | 0 <= j < |s.pauses|
      ensures s.pauses[j].inspections <= 3 && s.pauses[j].attempt <= 4
    {
      assert PauseFits(s, r, j);
      StopIsBoundary(r, j);
    }
  }

  /** Every run executes at most twenty objectives, pauses at most fifteen times, and inspects each pause at most three times. */
  lemma RunsAreBounded(m: Machine, events: seq<Event>)
    requires Initial(m)
    ensures WithinBounds(Run(m, events).disk)
  {
    RunSound(m, events);
    SoundIsBounded(Run(m, events).disk);
  }

  // ----- deciding -----

  /** The pending verdict can be recorded: its process ended cleanly and its scope's Final comes next. */
  predicate Decidable(s: RunState) {
    s.pauses != [] && s.processes != [] && CleanProcess(Last(s.processes)) && NextIsFinal(s, Last(s.pauses).scope)
  }

  /** The last pause is its plan entry's boundary, behind the cursor. */
  lemma LastBoundary(s: RunState, r: Reminders)
    requires Shape(s, r) && AtPause(s)
    ensures s.arm == PlainArm && 0 < s.cursor < |s.plan|
    ensures var pause, entry := Last(s.pauses), s.plan[s.cursor - 1];
      BoundaryOf(entry) == ReviewBoundary(pause.scope, pause.attempt) && entry.name == pause.afterGoal
  {
    LastPause(s, r);
    StopIsBoundary(r, |s.pauses| - 1);
  }

  /** The last Goal is the settled one the pause belongs to. */
  lemma LastGoal(s: RunState, r: Reminders)
    requires Shape(s, r) && AtPause(s)
    ensures s.arm == PlainArm && 0 < s.cursor < |s.plan| && s.goals != []
    ensures var pause, goal, entry := Last(s.pauses), Last(s.goals), s.plan[s.cursor - 1];
      && BoundaryOf(entry) == ReviewBoundary(pause.scope, pause.attempt)
      && goal.index == pause.goalIndex && goal.index == s.cursor - 1
      && goal.name == pause.afterGoal && goal.name == entry.name && goal.path == entry.path
      && Settled(goal) && Some(goal.native.value.thread) == s.sessionId
      && FindGoal(s.goals, s.cursor - 1) == Some(goal)
  {
    LastBoundary(s, r);
    assert GoalFits(s, s.cursor - 1);
    FoundAt(s, s.cursor - 1);
  }

  lemma BoundaryAccepted(s: RunState)
    requires Sound(s) && s.status == AwaitingVerdict && Undecided(s)
    ensures UndecidedBoundary(s) <==> s.processes != [] && CleanProcess(Last(s.processes))
  {
    var r :| RestOk(s, r);
    LastGoal(s, r);
  }

  /** The verdict retained with the last pause is the one its decision earns on its Goal. */
  lemma LastVerdict(s: RunState, r: Reminders)
    requires Shape(s, r) && AtPause(s) && Last(s.pauses).verdict.Some?
    ensures var pause, verdict := Last(s.pauses), Last(s.pauses).verdict.value;
      && s.goals != []
      && verdict == Verdict(pause.scope, pause.attempt, verdict.decision, ContinuationOf(verdict.decision, pause.attempt),
                            pause.goalIndex, verdict.terminalTurn, None)
      && Some(verdict.terminalTurn) == Last(s.goals).terminalTurn
      && (verdict.continuation == Retry <==> pause.attempt < Count(r, pause.scope))
  {
    LastPause(s, r);
  }

  /** The plan goes on with the reminder of a retry, or with the scope's Final. */
  lemma LastContinuation(s: RunState, r: Reminders)
    requires Shape(s, r) && AtPause(s)
    ensures var pause := Last(s.pauses);
      && s.cursor < |s.plan|
      && s.plan[s.cursor] == (if pause.attempt < Count(r, pause.scope) then Reminder(pause.scope, pause.attempt + 1)
                              else BaseEntry(PlainArm, Final(pause.scope)))
  {
    LastPause(s, r);
    StopIsBoundary(r, |s.pauses| - 1);
    assert s.plan[s.cursor] == EntryAt(r, s.cursor);
  }

  /** A decided pending pause is exactly what the resume's own checks demand. */
  lemma DecidedAccepted(s: RunState)
    requires Sound(s) && s.status == AwaitingVerdict && !Undecided(s)
    ensures DecidedBoundary(s) && ResumeMatches(s)
  {
    var r :| RestOk(s, r);
    LastGoal(s, r);
    LastVerdict(s, r);
    LastContinuation(s, r);
  }

  lemma DecidedLaunch(s: RunState, options: Options)
    requires ValidateInstructionPlan(s) && s.status == AwaitingVerdict && !Undecided(s)
    requires DecidedBoundary(s) && ResumeMatches(s)
    ensures LaunchFrom(s, options) == Attach(s, MarkResumed(s), options)
  {
  }

  lemma DecidedAttach(s: RunState, options: Options)
    requires s.pauses != [] && s.cursor < |s.plan| && !options.fork
    ensures var m := Attach(s, MarkResumed(s), options);
      m.session.Some? && m.live.plan == s.plan && m.live.pauses == MarkResumed(s).pauses && m.live.cursor == s.cursor
  {
  }

  /** A decided boundary resumes: the next launch attaches a process whose plan goes on as the verdict chose. */
  lemma DecidedResumes(s: RunState, options: Options)
    requires Sound(s) && s.status == AwaitingVerdict && !Undecided(s) && !options.fork
    ensures var m := LaunchFrom(s, options);
      && m.session.Some? && m.live.plan == s.plan && m.live.cursor == s.cursor
      && s.pauses != [] && m.live.pauses == SetLast(s.pauses, Last(s.pauses).(resumed := true))
  {
    PlanAccepted(s);
    DecidedAccepted(s);
    DecidedLaunch(s, options);
    var r :| RestOk(s, r);
    LastPause(s, r);
    DecidedAttach(s, options);
  }

  lemma ApplyDecides(s: RunState, decision: Decision)
    requires Sound(s) && s.status == AwaitingVerdict && Undecided(s)
    ensures Undecided(Apply(s, decision, true)) <==> !Decidable(s)
    ensures !Decidable(s) ==> forall stored :: Apply(s, decision, stored) == s
    ensures Decidable(s) ==>
      && Last(Apply(s, decision, true).pauses).verdict.value.decision == decision
      && Apply(s, decision, true).status == AwaitingVerdict
  {
    BoundaryAccepted(s);
  }

  // ----- boundaries that can no longer be decided -----

  predicate Stranded(s: RunState) {
    Undecided(s) && !(Resumable(s) && Decidable(s))
  }

  lemma CountedAwaits(s: RunState)
    requires Sound(s) && s.status == AwaitingVerdict && Undecided(s) && CanInspect(s)
    ensures Sound(Counted(s)) && Undecided(Counted(s)) && (Decidable(Counted(s)) <==> Decidable(s))
  {
    var r :| RestOk(s, r);
    CountedRest(s, r);
  }

  lemma StrandedInspection(s: RunState, result: InspectionResult)
    requires Sound(s) && s.status == AwaitingVerdict && Stranded(s)
    ensures Stranded(Inspect(s, result)) && Inspect(s, result).status == AwaitingVerdict
  {
    if CanInspect(s) {
      CountedAwaits(s);
      if result.Submitted? {
        ApplyDecides(Counted(s), result.decision);
      }
    }
  }

  lemma StrandedAwaits(s: RunState, options: Options)
    requires Sound(s) && Stranded(s) && s.status == AwaitingVerdict
    ensures var m := LaunchFrom(s, options); m == AtRest(m.disk) && Stranded(m.disk)
  {
    StrandedInspection(s, options.inspection);
    var inspected := if CanInspect(s) then Inspect(s, options.inspection) else s;
    assert Stranded(inspected) && !DecidedBoundary(inspected);
  }

  lemma StrandedLaunch(s: RunState, options: Options)
    requires Sound(s) && Stranded(s)
    ensures var m := LaunchFrom(s, options); m == AtRest(m.disk) && Stranded(m.disk)
  {
    PlanAccepted(s);
    StrandedPlain(s);
    if s.status == AwaitingVerdict {
      StrandedAwaits(s, options);
    }
  }

  lemma StrandedPlain(s: RunState)
    requires Sound(s) && Stranded(s)
    ensures s.arm == PlainArm
  {
    var r :| RestOk(s, r);
  }

  lemma StrandedStep(s: RunState, e: Event)
    requires Sound(s) && Stranded(s)
    ensures var m := Step(AtRest(s), e); m == AtRest(m.disk) && Stranded(m.disk) && Sound(m.disk)
  {
    StepSound(AtRest(s), e);
    if e.Launch? {
      StrandedLaunch(s, e.options);
    } else if e.Decided? && s.status == AwaitingVerdict {
      ApplyDecides(s, e.decision);
    }
  }

  lemma {:induction false} StrandedForever(s: RunState, events: seq<Event>)
    requires Sound(s) && Stranded(s)
    ensures var m := Run(AtRest(s), events); m == AtRest(m.disk) && Stranded(m.disk) && Sound(m.disk)
  {
    if events != [] {
      StrandedForever(s, events[..|events| - 1]);
      var before := Run(AtRest(s), events[..|events| - 1]).disk;
      StrandedStep(before, events[|events| - 1]);
    }
  }

  /** From rest, a pending verdict can ever be recorded exactly when its state is resumable and decidable. */
  lemma DecisionReachable(s: RunState)
    requires Sound(s) && Undecided(s)
    ensures (exists events :: !Undecided(Run(AtRest(s), events).disk)) <==> Resumable(s) && Decidable(s)
  {
    if Resumable(s) && Decidable(s) {
      DecisionWitness(s);
    } else {
      forall events ensures Undecided(Run(AtRest(s), events).disk) {
        StrandedForever(s, events);
      }
    }
  }

  lemma RunOne(m: Machine, e: Event)
    ensures Run(m, [e]) == Step(m, e)
  {
    assert [e][..0] == [];
  }

  lemma RunTwo(m: Machine, e: Event, f: Event)
    ensures Run(m, [e, f]) == Step(Step(m, e), f)
  {
    assert [e, f][..1] == [e];
    RunOne(m, e);
  }

  lemma DecideNow(s: RunState)
    requires Sound(s) && Undecided(s) && s.status == AwaitingVerdict && Decidable(s)
    ensures !Undecided(Run(AtRest(s), [Decided(Pass)]).disk)
  {
    ApplyDecides(s, Pass);
    RunOne(AtRest(s), Decided(Pass));
  }

  lemma DecideAfterLaunch(s: RunState, options: Options)
    requires Sound(s) && Undecided(s) && Resumable(s) && s.status != AwaitingVerdict && Decidable(s)
    ensures !Undecided(Run(AtRest(s), [Launch(options), Decided(Pass)]).disk)
  {
    LaunchAwaits(s, options);
    ApplyDecides(s.(status := AwaitingVerdict), Pass);
    RunTwo(AtRest(s), Launch(options), Decided(Pass));
  }

  lemma DecisionWitness(s: RunState)
    requires Sound(s) && Undecided(s) && Resumable(s) && Decidable(s)
    ensures exists events :: !Undecided(Run(AtRest(s), events).disk)
  {
    if s.status == AwaitingVerdict {
      DecideNow(s);
    } else {
      DecideAfterLaunch(s, Options(false, None, "", false, InspectionFailed));
    }
  }

  /** A run that died between its pause and its verdict only waits at its next launch. */
  lemma LaunchAwaits(s: RunState, options: Options)
    requires Sound(s) && Undecided(s) && Resumable(s) && s.status != AwaitingVerdict
    ensures LaunchFrom(s, options) == AtRest(s.(status := AwaitingVerdict))
    ensures Sound(s.(status := AwaitingVerdict))
  {
    PlanAccepted(s);
    var r :| RestOk(s, r);
    AwaitingRest(s, r);
  }

  lemma LivePauseStranded(w: Work)
    requires LiveOk(w) && Undecided(w.state)
    ensures Sound(w.state) && Stranded(w.state)
  {
    var r :| WorkOk(w, r);
    assert RestOk(w.state, r);
  }

  lemma PublishedThenKilled(m: Machine)
    requires m.session.Some?
    ensures Step(Step(m, Published), Killed) == AtRest(m.live)
  {
  }

  /** A process that dies after its pause was retained, before its exit was, leaves a verdict nobody can ever record. */
  lemma CrashStrandsVerdict(m: Machine, events: seq<Event>)
    requires MachineOk(m) && m.session.Some? && Undecided(m.live)
    ensures Step(Step(m, Published), Killed) == AtRest(m.live)
    ensures Undecided(Run(AtRest(m.live), events).disk)
  {
    PublishedThenKilled(m);
    LivePauseStranded(Work(m.live, m.session.value));
    StrandedForever(m.live, events);
  }
}
