/** What holds of every run of the Goal machine. */
module GoalTheorems {
  import opened Prelude
  import opened TokenUsage
  import opened Instruction
  import opened GoalState
  import opened Validators
  import opened Supervision
  import opened GoalSession
  import opened GoalMachine
  import opened GoalSafety
  import opened GoalEvents
  import opened GoalLaunch
  import opened PlanAcceptance

  // ----- exactness -----

  /** Deciding and inspecting leave records, counters and thread alone. */
  predicate SameRecords(s: RunState, after: RunState) {
    s.goals == after.goals && s.cursor == after.cursor && s.thread == after.thread && s.nativeStart == after.nativeStart
  }

  lemma InspectRecords(s: RunState, result: InspectionResult, decision: Decision, stored: bool)
    ensures SameRecords(s, Inspect(s, result)) && SameRecords(s, Apply(s, decision, stored))
    ensures UndecidedBoundary(s) ==> SameRecords(s, Inspect(s, result))
  {
  }

  lemma SameRecordsExact(s: RunState, after: RunState)
    requires SameRecords(s, after)
    ensures Exact(after) <==> Exact(s)
    ensures Drifted(after) <==> Drifted(s)
  {
    assert forall i: nat :: ExpectedStart(s, i) == ExpectedStart(after, i);
  }

  /** No event of a live process can make an exact record inexact, or an inexact one exact. */
  lemma LiveEventsKeepExactness(w: Work, e: Event)
    requires LiveOk(w)
    ensures Exact(Act(w, e).state) <==> Exact(w.state)
  {
    var r :| WorkOk(w, r);
    ActKeeps(w, e, r);
    StartsKeptExact(w.state, Act(w, e).state);
  }

  lemma ConcludeRecords(s: RunState, processAlive: bool)
    ensures SameRecords(s, Conclude(s, processAlive))
  {
  }

  lemma AttachDisk(disk: RunState, s: RunState, options: Options)
    requires SameRecords(disk, s)
    ensures SameRecords(disk, Attach(disk, s, options).disk)
  {
    ConcludeRecords(s, options.processAlive);
  }

  lemma AttachTaints(disk: RunState, s: RunState, options: Options)
    requires GoalsOk(s) && SameRecords(disk, s) && Attach(disk, s, options).session.Some?
    ensures Exact(Attach(disk, s, options).live) <==> Exact(disk) && !Drifted(disk)
  {
    SameRecordsExact(disk, s);
    PreparedExact(s, options.text);
    assert Attach(disk, s, options).live == Prepared(s, options.text);
  }

  lemma ResumedGoals(s: RunState)
    requires GoalsOk(s) && s.pauses != []
    ensures GoalsOk(MarkResumed(s))
  {
    forall i | 0 <= i < |s.goals| ensures GoalFits(MarkResumed(s), i) {
      assert GoalFits(s, i);
    }
  }

  lemma SoundGoals(s: RunState)
    requires Sound(s)
    ensures GoalsOk(s)
  {
  }

  /** What a launch attaches to: the retained state itself, or that of a confirmed verdict. */
  function LaunchBase(s: RunState, options: Options): RunState {
    if s.status == AwaitingVerdict && CanInspect(s) then Inspect(s, options.inspection) else s
  }

  lemma LaunchShape(s: RunState, options: Options)
    ensures var base, m := LaunchBase(s, options), LaunchFrom(s, options);
      || m == AtRest(s) || m == AtRest(base) || m == AtRest(s.(status := AwaitingVerdict))
      || (s.status == AwaitingVerdict && DecidedBoundary(base) && m == Attach(base, MarkResumed(base), options))
      || (s.status != AwaitingVerdict && m == Attach(s, s, options))
  {
  }

  lemma BaseSound(s: RunState, options: Options)
    requires Sound(s)
    ensures Sound(LaunchBase(s, options)) && SameRecords(s, LaunchBase(s, options)) && GoalsOk(LaunchBase(s, options))
  {
    if s.status == AwaitingVerdict {
      InspectRecords(s, options.inspection, Pass, true);
      InspectedSound(s, options.inspection);
    }
    SoundGoals(LaunchBase(s, options));
  }

  lemma LaunchDisk(s: RunState, options: Options)
    requires Sound(s)
    ensures SameRecords(s, LaunchFrom(s, options).disk)
  {
    LaunchShape(s, options);
    BaseSound(s, options);
    var base := LaunchBase(s, options);
    AttachDisk(s, s, options);
    if DecidedBoundary(base) { AttachDisk(base, MarkResumed(base), options); }
  }

  /** A launch is the only place a Goal can start elsewhere, and it does exactly when the total had drifted. */
  lemma LaunchTaintsExactly(s: RunState, options: Options)
    requires Sound(s)
    ensures var m := LaunchFrom(s, options);
      && (Exact(m.disk) <==> Exact(s)) && (Drifted(m.disk) <==> Drifted(s))
      && (m.session.Some? ==> (Exact(m.live) <==> Exact(s) && !Drifted(s)))
  {
    LaunchDisk(s, options);
    SameRecordsExact(s, LaunchFrom(s, options).disk);
    if LaunchFrom(s, options).session.Some? {
      LaunchLive(s, options);
    }
  }

  lemma LaunchLive(s: RunState, options: Options)
    requires Sound(s) && LaunchFrom(s, options).session.Some?
    ensures Exact(LaunchFrom(s, options).live) <==> Exact(s) && !Drifted(s)
  {
    LaunchShape(s, options);
    BaseSound(s, options);
    var base := LaunchBase(s, options);
    SameRecordsExact(s, base);
    if s.status == AwaitingVerdict {
      ResumedGoals(base);
      AttachTaints(base, MarkResumed(base), options);
    } else {
      AttachTaints(s, s, options);
    }
  }

  /** A launch from a state whose total has not drifted since the last record was closed. */
  predicate Guarded(m: Machine, e: Event) {
    e.Launch? && m.session.None? ==> !Drifted(m.disk)
  }

  predicate GuardedRun(m: Machine, events: seq<Event>) {
    events == [] || (
      && GuardedRun(m, events[..|events| - 1])
      && Guarded(Run(m, events[..|events| - 1]), events[|events| - 1]))
  }

  predicate ExactMachine(m: Machine) {
    Exact(m.disk) && Exact(m.live)
  }

  /** The end of a process retains the live records, or leaves the disk as it is. */
  lemma EndRecords(disk: RunState, w: Work, process: Process, cleanupFailed: bool, published: bool, inspection: InspectionResult)
    ensures var after := End(disk, w, process, cleanupFailed, published, inspection);
      after == AtRest(after.disk) && (after.disk == disk || SameRecords(w.state, after.disk))
  {
    var ended := if w.session.outcome.None? then Interrupt(w) else w;
    var s := EndState(ended, process, cleanupFailed, published);
    InspectRecords(s, inspection, Pass, true);
  }

  lemma EndStepRecords(m: Machine, session: Session, e: Event)
    requires m.session == Some(session) && e.Ended?
    ensures var after := Step(m, e);
      after == AtRest(after.disk) && (after.disk == m.disk || SameRecords(m.live, after.disk))
  {
    EndRecords(m.disk, Work(m.live, session), e.process, e.cleanupFailed, e.published, e.inspection);
  }

  lemma EndStepExact(m: Machine, session: Session, e: Event)
    requires m.session == Some(session) && e.Ended?
    ensures ExactMachine(m) ==> ExactMachine(Step(m, e))
    ensures !Exact(m.disk) && !Exact(m.live) ==> !Exact(Step(m, e).disk) && !Exact(Step(m, e).live)
  {
    EndStepRecords(m, session, e);
    if SameRecords(m.live, Step(m, e).disk) {
      SameRecordsExact(m.live, Step(m, e).disk);
    }
  }

  lemma LiveStepExact(m: Machine, session: Session, e: Event)
    requires m.session == Some(session) && LiveOk(Work(m.live, session)) && ExactMachine(m)
    ensures ExactMachine(Step(m, e))
  {
    if e.Ended? {
      EndStepExact(m, session, e);
    } else if !e.Launch? && !e.Decided? && !e.Published? && !e.Killed? {
      LiveEventsKeepExactness(Work(m.live, session), e);
    }
  }

  lemma LaunchAtRest(s: RunState, options: Options)
    ensures var m := LaunchFrom(s, options); m.session.None? ==> m.live == m.disk
  {
  }

  lemma LaunchExact(m: Machine, options: Options)
    requires Sound(m.disk) && Exact(m.disk) && !Drifted(m.disk)
    ensures ExactMachine(LaunchFrom(m.disk, options))
  {
    LaunchTaintsExactly(m.disk, options);
    LaunchAtRest(m.disk, options);
  }

  lemma DecidedExact(s: RunState, decision: Decision)
    requires Exact(s)
    ensures Exact(Apply(s, decision, true))
  {
    InspectRecords(s, InspectionFailed, decision, true);
    SameRecordsExact(s, Apply(s, decision, true));
  }

  lemma StepExact(m: Machine, e: Event)
    requires MachineOk(m) && ExactMachine(m) && Guarded(m, e)
    ensures ExactMachine(Step(m, e))
  {
    if m.session.Some? {
      LiveStepExact(m, m.session.value, e);
    } else if e.Launch? {
      LaunchExact(m, e.options);
    } else if e.Decided? {
      DecidedExact(m.disk, e.decision);
    }
  }

  /** In every run whose launches are guarded, under any event order, crash and resume, every start is exact. */
  lemma {:induction false} GuardedRunsAreExact(m: Machine, events: seq<Event>)
    requires Initial(m) && GuardedRun(m, events)
    ensures MachineOk(Run(m, events)) && ExactMachine(Run(m, events))
    ensures StartedAt(Run(m, events), m.disk.nativeStart, m.disk.thread)
  {
    RunStartsAt(m, events);
    if events == [] {
      InitialSound(m);
    } else {
      GuardedRunsAreExact(m, events[..|events| - 1]);
      var before := Run(m, events[..|events| - 1]);
      StepExact(before, events[|events| - 1]);
      StepSound(before, events[|events| - 1]);
    }
  }

  // ----- where the run's own thread begins -----

  /** Whatever has happened since, the run's own thread began with this Goal and at these counters. */
  predicate StartedAt(m: Machine, own: nat, began: Usage) {
    && m.disk.nativeStart == own && m.live.nativeStart == own
    && ThreadStart(m.disk) == began && ThreadStart(m.live) == began
    && (m.session.Some? ==> m.live.nativeStart < |m.live.goals|)
  }

  lemma SameRecordsStart(s: RunState, after: RunState)
    requires SameRecords(s, after)
    ensures ThreadStart(after) == ThreadStart(s)
  {
  }

  lemma PreparedStart(s: RunState, text: string)
    requires GoalsOk(s) && s.cursor < |s.plan|
    ensures Prepared(s, text).nativeStart < |Prepared(s, text).goals| && ThreadStart(Prepared(s, text)) == ThreadStart(s)
  {
    FoundAt(s, s.cursor);
  }

  lemma LaunchStarted(s: RunState, options: Options)
    requires Sound(s)
    ensures StartedAt(LaunchFrom(s, options), s.nativeStart, ThreadStart(s))
  {
    LaunchDisk(s, options);
    LaunchAtRest(s, options);
    SameRecordsStart(s, LaunchFrom(s, options).disk);
    if LaunchFrom(s, options).session.Some? {
      LaunchLiveStarted(s, options);
    }
  }

  lemma LaunchLiveStarted(s: RunState, options: Options)
    requires Sound(s) && LaunchFrom(s, options).session.Some?
    ensures var live := LaunchFrom(s, options).live;
      live.nativeStart == s.nativeStart && live.nativeStart < |live.goals| && ThreadStart(live) == ThreadStart(s)
  {
    LaunchShape(s, options);
    BaseSound(s, options);
    var base := LaunchBase(s, options);
    SameRecordsStart(s, base);
    if s.status == AwaitingVerdict {
      ResumedGoals(base);
      PreparedStart(MarkResumed(base), options.text);
    } else {
      PreparedStart(s, options.text);
    }
  }

  lemma ActStarted(m: Machine, session: Session, e: Event, own: nat, began: Usage)
    requires m.session == Some(session) && LiveOk(Work(m.live, session)) && StartedAt(m, own, began)
    requires !e.Launch? && !e.Decided? && !e.Published? && !e.Killed? && !e.Ended?
    ensures StartedAt(Step(m, e), own, began)
  {
    var w := Work(m.live, session);
    var r :| WorkOk(w, r);
    ActKeeps(w, e, r);
    assert Step(m, e) == Attached(m.disk, Act(w, e));
  }

  lemma StepStarted(m: Machine, e: Event, own: nat, began: Usage)
    requires MachineOk(m) && StartedAt(m, own, began)
    ensures StartedAt(Step(m, e), own, began)
  {
    if m.session.None? {
      if e.Launch? {
        LaunchStarted(m.disk, e.options);
      } else if e.Decided? {
        InspectRecords(m.disk, InspectionFailed, e.decision, true);
        SameRecordsStart(m.disk, Apply(m.disk, e.decision, true));
      }
    } else if e.Ended? {
      EndStepRecords(m, m.session.value, e);
    } else if !e.Launch? && !e.Decided? && !e.Published? && !e.Killed? {
      ActStarted(m, m.session.value, e, own, began);
    }
  }

  /** Over every run the first Goal of its own thread starts at the total the run began with. */
  lemma {:induction false} RunStartsAt(m: Machine, events: seq<Event>)
    requires Initial(m)
    ensures StartedAt(Run(m, events), m.disk.nativeStart, m.disk.thread) && NonNegative(m.disk.thread)
  {
    if events != [] {
      var front := events[..|events| - 1];
      RunStartsAt(m, front);
      RunSound(m, front);
      StepStarted(Run(m, front), events[|events| - 1], m.disk.nativeStart, m.disk.thread);
    }
  }

  // ----- what exactness gives -----

  function Usages(goals: seq<Goal>): seq<Usage> {
    seq(|goals|, i requires 0 <= i < |goals| => goals[i].usage)
  }

  /** The measured usage of the Goals on the run's own thread before an index. */
  function NativeUsage(s: RunState, i: nat): Usage
    requires s.nativeStart <= i <= |s.goals|
  {
    SumUsage(Usages(s.goals[s.nativeStart..i]))
  }

  /** From where the run's own thread begins, the measured usage of its Goals adds up to where its counters stand. */
  lemma {:induction false} UsageTelescopes(s: RunState, i: nat)
    requires GoalsOk(s) && Exact(s) && s.nativeStart <= i <= s.cursor
    ensures Add(ThreadStart(s), NativeUsage(s, i)) == ExpectedStart(s, i)
    ensures AtLeast(ExpectedStart(s, i), ThreadStart(s))
  {
    if i > s.nativeStart {
      UsageTelescopes(s, i - 1);
      TelescopeNext(s, i);
    } else {
      NothingMeasured(s);
    }
  }

  lemma TelescopeNext(s: RunState, i: nat)
    requires GoalsOk(s) && Exact(s) && s.nativeStart < i <= s.cursor
    requires Add(ThreadStart(s), NativeUsage(s, i - 1)) == ExpectedStart(s, i - 1)
    requires AtLeast(ExpectedStart(s, i - 1), ThreadStart(s))
    ensures Add(ThreadStart(s), NativeUsage(s, i)) == ExpectedStart(s, i)
    ensures AtLeast(ExpectedStart(s, i), ThreadStart(s))
  {
    MeasuredStep(s, i - 1);
    TelescopeStep(s, i);
  }

  lemma TelescopeStep(s: RunState, i: nat)
    requires s.nativeStart < i <= |s.goals|
    requires Add(ThreadStart(s), NativeUsage(s, i - 1)) == ExpectedStart(s, i - 1)
    requires ExpectedStart(s, i) == Add(ExpectedStart(s, i - 1), s.goals[i - 1].usage)
    requires AtLeast(ExpectedStart(s, i), ExpectedStart(s, i - 1)) && AtLeast(ExpectedStart(s, i - 1), ThreadStart(s))
    ensures Add(ThreadStart(s), NativeUsage(s, i)) == ExpectedStart(s, i)
    ensures AtLeast(ExpectedStart(s, i), ThreadStart(s))
  {
    LastUsage(s, i);
    SumsOn(ThreadStart(s), NativeUsage(s, i - 1), s.goals[i - 1].usage);
  }

  lemma NothingMeasured(s: RunState)
    requires s.nativeStart <= |s.goals|
    ensures NativeUsage(s, s.nativeStart) == Zero() && Add(ThreadStart(s), Zero()) == ThreadStart(s)
    ensures ExpectedStart(s, s.nativeStart) == ThreadStart(s) && AtLeast(ThreadStart(s), ThreadStart(s))
  {
  }

  lemma SumsOn(a: Usage, b: Usage, c: Usage)
    ensures Add(a, Add(b, c)) == Add(Add(a, b), c)
  {
  }

  lemma LastUsage(s: RunState, i: nat)
    requires s.nativeStart < i <= |s.goals|
    ensures NativeUsage(s, i) == Add(NativeUsage(s, i - 1), s.goals[i - 1].usage)
  {
    var usages := Usages(s.goals[s.nativeStart..i]);
    assert usages[..|usages| - 1] == Usages(s.goals[s.nativeStart..i - 1]);
  }

  lemma MeasuredStep(s: RunState, i: nat)
    requires GoalsOk(s) && Exact(s) && s.nativeStart <= i < s.cursor
    ensures ExpectedStart(s, i + 1) == Add(ExpectedStart(s, i), s.goals[i].usage)
    ensures AtLeast(ExpectedStart(s, i + 1), ExpectedStart(s, i))
  {
    assert GoalFits(s, i);
    assert s.goals[i].start == ExpectedStart(s, i);
  }

  /** A completed Goal of a run whose own thread began at the given counters. */
  predicate GoalExact(s: RunState, began: Usage, i: nat)
    requires i < s.cursor <= |s.goals|
  {
    var g := s.goals[i];
    && g.index == i && Settled(g)
    && g.start == (if i == s.nativeStart then began
                   else if i == 0 || s.goals[i - 1].end.None? then Zero()
                   else s.goals[i - 1].end.value)
    && g.usage == Subtract(g.end.value, g.start)
    && NonNegative(g.start) && NonNegative(g.end.value) && NonNegative(g.usage) && g.usage.total > 0
  }

  /** Over a guarded run every completed Goal is settled, starts where its predecessor ended, and has used tokens. */
  lemma GuardedPrefixIsExact(m: Machine, events: seq<Event>, i: nat)
    requires Initial(m) && GuardedRun(m, events) && i < Run(m, events).live.cursor
    ensures var s := Run(m, events).live;
      s.cursor <= |s.goals| && GoalExact(s, m.disk.thread, i)
  {
    GuardedRunsAreExact(m, events);
    RunStartsAt(m, events);
    LiveIsShaped(Run(m, events));
    ExactGoal(Run(m, events).live, i);
  }

  lemma LiveIsShaped(m: Machine)
    requires MachineOk(m)
    ensures GoalsOk(m.live)
  {
    if m.session.Some? {
      var r :| WorkOk(Work(m.live, m.session.value), r);
    } else {
      SoundGoals(m.disk);
    }
  }

  lemma ExactGoal(s: RunState, i: nat)
    requires GoalsOk(s) && Exact(s) && i < s.cursor
    requires i >= s.nativeStart ==> NonNegative(ThreadStart(s))
    ensures GoalExact(s, ThreadStart(s), i)
  {
    assert GoalFits(s, i);
    assert s.goals[i].start == ExpectedStart(s, i);
    if i > 0 {
      assert GoalFits(s, i - 1);
    }
    if i >= s.nativeStart {
      UsageTelescopes(s, i);
    }
  }

  // ----- completion -----

  /** The completion validator accepts a finished plan exactly when no start was tainted and nothing moved after its end. */
  lemma CompletionAccepted(s: RunState)
    requires Sound(s) && s.cursor == |s.plan|
    ensures |s.plan| <= |s.goals|
    ensures ValidateCompletedState(s) <==>
      && Exact(s) && ThreadStart(s) == Zero()
      && s.goals[|s.plan| - 1].end == Some(s.thread)
      && s.processes != [] && CleanProcess(Last(s.processes))
  {
    SoundGoals(s);
    CompletionLength(s);
    CompletedGoalsAccepted(s);
    FoundAt(s, |s.plan| - 1);
  }

  lemma CompletedGoalsAccepted(s: RunState)
    requires Sound(s) && s.cursor == |s.plan|
    ensures |s.plan| <= |s.goals|
    ensures (forall i | 0 <= i < |s.plan| :: CompletedGoalValid(s, i)) <==> Exact(s) && ThreadStart(s) == Zero()
  {
    SoundGoals(s);
    CompletionLength(s);
    forall i | 0 <= i < |s.plan|
      ensures CompletedGoalValid(s, i) <==> s.goals[i].start == (if i == s.nativeStart then Zero() else ExpectedStart(s, i))
    {
      CompletedGoalAccepted(s, i);
    }
    if forall i | 0 <= i < |s.plan| :: CompletedGoalValid(s, i) {
      assert CompletedGoalValid(s, s.nativeStart);
      forall i | 0 <= i < |s.goals| ensures s.goals[i].start == ExpectedStart(s, i) {
        assert CompletedGoalValid(s, i);
      }
    }
  }

  lemma CompletionLength(s: RunState)
    requires Sound(s)
    ensures |s.plan| >= 7
  {
  }

  lemma CompletedGoalAccepted(s: RunState, i: nat)
    requires GoalsOk(s) && s.cursor == |s.plan| && i < |s.plan|
    ensures CompletedGoalValid(s, i) <==> s.goals[i].start == (if i == s.nativeStart then Zero() else ExpectedStart(s, i))
  {
    FoundAt(s, i);
    assert GoalFits(s, i);
    if i > 0 {
      FoundAt(s, i - 1);
      assert GoalFits(s, i - 1);
    }
  }

  /** A retained completed status rests on a finished plan and a clean last process. */
  predicate CompletedOk(s: RunState) {
    s.status == Completed ==>
      s.cursor == |s.plan| && s.interruption.None? && s.processes != [] && CleanProcess(Last(s.processes))
  }

  lemma AttachCompletedOk(disk: RunState, s: RunState, options: Options)
    requires CompletedOk(disk)
    ensures CompletedOk(Attach(disk, s, options).disk)
  {
  }

  lemma InspectStatus(s: RunState, result: InspectionResult)
    ensures Inspect(s, result).status == s.status
  {
  }

  lemma LaunchCompletedOk(s: RunState, options: Options)
    requires CompletedOk(s)
    ensures CompletedOk(LaunchFrom(s, options).disk)
  {
    if s.status == AwaitingVerdict {
      InspectStatus(s, options.inspection);
      var inspected := if CanInspect(s) then Inspect(s, options.inspection) else s;
      if DecidedBoundary(inspected) {
        AttachCompletedOk(inspected, MarkResumed(inspected), options);
      }
    } else {
      AttachCompletedOk(s, s, options);
    }
  }

  lemma EndCompletedOk(disk: RunState, w: Work, process: Process, cleanupFailed: bool, published: bool, inspection: InspectionResult)
    requires CompletedOk(disk) && LiveOk(w)
    ensures CompletedOk(End(disk, w, process, cleanupFailed, published, inspection).disk)
  {
    var r :| WorkOk(w, r);
    var ended := if w.session.outcome.None? then Interrupt(w) else w;
    InspectStatus(EndState(ended, process, cleanupFailed, published), inspection);
  }

  lemma StepCompletedOk(m: Machine, e: Event)
    requires MachineOk(m) && CompletedOk(m.disk)
    ensures CompletedOk(Step(m, e).disk)
  {
    if m.session.None? {
      if e.Launch? {
        LaunchCompletedOk(m.disk, e.options);
      }
    } else if e.Ended? {
      EndCompletedOk(m.disk, Work(m.live, m.session.value), e.process, e.cleanupFailed, e.published, e.inspection);
    } else if e.Published? {
      var r :| WorkOk(Work(m.live, m.session.value), r);
    }
  }

  lemma {:induction false} RunCompletedOk(m: Machine, events: seq<Event>)
    requires Initial(m)
    ensures CompletedOk(Run(m, events).disk)
  {
    if events != [] {
      RunCompletedOk(m, events[..|events| - 1]);
      RunSound(m, events[..|events| - 1]);
      StepCompletedOk(Run(m, events[..|events| - 1]), events[|events| - 1]);
    }
  }

  lemma CompletedStateValid(s: RunState)
    requires Sound(s) && CompletedOk(s) && s.status == Completed
    ensures ValidateCompletedState(s) <==> Exact(s) && ThreadStart(s) == Zero()
  {
    CompletionAccepted(s);
    var r :| RestOk(s, r);
    assert GoalFits(s, |s.plan| - 1);
    assert !Drifted(s);
  }

  lemma CompletedDecided(s: RunState)
    requires Sound(s) && CompletedOk(s) && s.status == Completed
    ensures Resumable(s) && !Undecided(s)
  {
    var r :| RestOk(s, r);
    if Undecided(s) {
      assert s.arm == PlainArm && PauseFits(s, r, |s.pauses| - 1);
      LastPause(s, r);
    }
  }

  /** The next launch of a run retained as completed changes nothing where the validator accepts it, and marks it interrupted elsewhere. */
  lemma RelaunchDecides(s: RunState, options: Options)
    requires Sound(s) && CompletedOk(s) && s.status == Completed
    ensures LaunchFrom(s, options)
         == AtRest(if ValidateCompletedState(s) then s else s.(status := Interrupted, interruption := Some(OtherFailure)))
  {
    CompletedDecided(s);
    PlanAccepted(s);
  }

  /**
   A run that retains a completed status is accepted by the completion validator
   exactly when its own thread began at zero and no start was tainted.
   */
  lemma RetainedCompletionsExactly(m: Machine, events: seq<Event>)
    requires Initial(m) && Run(m, events).disk.status == Completed
    ensures ValidateCompletedState(Run(m, events).disk) <==> m.disk.thread == Zero() && Exact(Run(m, events).disk)
  {
    RunStartsAt(m, events);
    RunSound(m, events);
    RunCompletedOk(m, events);
    CompletedStateValid(Run(m, events).disk);
  }
}
