/**
 What runs over an honest thread keep: every completed Goal starts exactly where
 its predecessor ended, or where the run's own thread began, whenever its process was launched, and a total that has
 moved while no Goal was there to own it holds the run where it is.
 */
module GoalExactness {
  import opened Prelude
  import opened TokenUsage
  import opened Instruction
  import opened GoalState
  import opened Validators
  import opened Supervision
  import opened GoalSession
  import opened GoalMachine
  import opened GoalSafety
  import opened GoalEvents
  import opened GoalLaunch
  import opened PlanAcceptance
  import opened GoalTheorems
  import opened GoalHonest
  import opened GoalProgress
  import opened GoalScript

  // ----- the invariant -----

  /** A run without a thread stands where it began, and one with a thread has prepared its first Goal. */
  predicate Named(s: RunState) {
    && (s.sessionId.None? ==> s.cursor == s.nativeStart)
    && (|s.goals| == s.nativeStart ==> s.sessionId.None?)
  }

  /** Where the Goal at the cursor starts, or must start. */
  function LastStart(s: RunState): Usage {
    if s.cursor < |s.goals| then s.goals[s.cursor].start else ExpectedStart(s, s.cursor)
  }

  /** Behind the first Goal of the run's own thread the total has not fallen below the last start. */
  predicate NotBelow(s: RunState) {
    s.nativeStart < s.cursor ==> AtLeast(s.thread, LastStart(s))
  }

  predicate ExactBehind(s: RunState) {
    forall i | 0 <= i < s.cursor && i < |s.goals| :: s.goals[i].start == ExpectedStart(s, i)
  }

  predicate Inexact(s: RunState) {
    s.cursor < |s.goals| && s.goals[s.cursor].start != ExpectedStart(s, s.cursor)
  }

  predicate RestInv(s: RunState, asked: set<nat>) {
    && Named(s) && NotBelow(s) && ExactBehind(s)
    && (Inexact(s) ==> Stuck(s, asked))
  }

  predicate LiveInv(w: Work, asked: set<nat>) {
    && FlowOk(w) && RestInv(w.state, asked) && |w.state.goals| > w.state.nativeStart
    && (Inexact(w.state) ==> StuckWork(w, asked))
  }

  predicate HonestInv(m: Machine, asked: set<nat>) {
    && RestInv(m.disk, asked)
    && (forall k | k in asked :: k < |m.disk.goals|)
    && |m.disk.goals| <= |m.live.goals|
    && (m.session.Some? ==> LiveInv(Work(m.live, m.session.value), asked))
  }

  // ----- live events -----

  lemma StartsSame(s: RunState, after: RunState, i: nat)
    requires StartsKept(s, after) && s.cursor <= |s.goals| && i <= s.cursor && s.nativeStart < |s.goals|
    ensures ExpectedStart(after, i) == ExpectedStart(s, i)
  {
  }

  lemma NamedKept(w: Work, after: Work)
    requires Named(w.state) && Progress(w, after) && StartsKept(w.state, after.state) && GoalsOk(after.state)
    requires |w.state.goals| > w.state.nativeStart && w.state.nativeStart <= w.state.cursor
    ensures Named(after.state)
  {
    if after.state.cursor > w.state.cursor {
      assert GoalFits(after.state, w.state.cursor);
    }
  }

  lemma StartExact(w: Work, after: Work, i: nat)
    requires ExactBehind(w.state) && StartsKept(w.state, after.state) && w.state.cursor <= |w.state.goals| <= w.state.cursor + 1
    requires w.state.nativeStart < |w.state.goals|
    requires i < |after.state.goals| && (i == w.state.cursor ==> !Inexact(w.state))
    ensures after.state.goals[i].start == ExpectedStart(after.state, i)
  {
    if i < |w.state.goals| {
      StartsSame(w.state, after.state, i);
    }
  }

  lemma BehindKept(w: Work, after: Work)
    requires ExactBehind(w.state) && StartsKept(w.state, after.state) && w.state.cursor <= |w.state.goals| <= w.state.cursor + 1
    requires w.state.nativeStart < |w.state.goals|
    requires after.state.cursor > w.state.cursor ==> !Inexact(w.state)
    ensures ExactBehind(after.state)
  {
    forall i | 0 <= i < after.state.cursor && i < |after.state.goals|
      ensures after.state.goals[i].start == ExpectedStart(after.state, i)
    {
      StartExact(w, after, i);
    }
  }

  lemma LastKept(w: Work, after: Work)
    requires NotBelow(w.state) && Progress(w, after) && w.state.nativeStart < |w.state.goals|
    requires StartsKept(w.state, after.state) && GoalsOk(w.state) && GoalsOk(after.state)
    ensures NotBelow(after.state)
    ensures Inexact(after.state) ==> after.state.cursor == w.state.cursor && Inexact(w.state)
  {
    var s, t := w.state, after.state;
    if t.cursor == s.cursor {
      StartsSame(s, t, s.cursor);
      if s.nativeStart < s.cursor { AtLeastJoins(t.thread, s.thread, LastStart(s)); }
    } else {
      assert ExpectedStart(t, t.cursor) == t.thread;
    }
  }

  lemma LiveInvKept(w: Work, after: Work, asked: set<nat>)
    requires LiveInv(w, asked) && Progress(w, after)
    requires StartsKept(w.state, after.state) && GoalsOk(w.state) && GoalsOk(after.state)
    requires Inexact(w.state) ==> Stays(w, after, asked)
    ensures LiveInv(after, asked)
  {
    NamedKept(w, after);
    BehindKept(w, after);
    LastKept(w, after);
  }

  lemma ActInv(w: Work, asked: set<nat>, e: Event)
    requires LiveOk(w) && LiveInv(w, asked) && HonestEvent(w, asked, e)
    ensures LiveInv(Act(w, e), asked) && |Act(w, e).state.goals| >= |w.state.goals|
  {
    var r :| WorkOk(w, r);
    ActKeeps(w, e, r);
    ActProgress(w, asked, e);
    if Inexact(w.state) {
      StuckAct(w, asked, e);
    }
    LiveInvKept(w, Act(w, e), asked);
  }

  // ----- retained states -----

  /** Deciding, inspecting and ending leave what the invariant speaks of. */
  predicate SameFlow(s: RunState, after: RunState) {
    SameRecords(s, after) && s.sessionId == after.sessionId
  }

  lemma SameFlowInv(s: RunState, after: RunState, asked: set<nat>)
    requires SameFlow(s, after) && RestInv(s, asked)
    ensures RestInv(after, asked)
  {
    assert forall i: nat :: ExpectedStart(s, i) == ExpectedStart(after, i);
  }

  lemma InspectFlow(s: RunState, result: InspectionResult, decision: Decision)
    ensures SameFlow(s, Inspect(s, result)) && SameFlow(s, Apply(s, decision, true))
  {
    InspectRecords(s, result, decision, true);
  }

  /** The state a launch attaches to. */
  lemma PreparedInv(s: RunState, asked: set<nat>, options: Options)
    requires GoalsOk(s) && RestInv(s, asked) && s.cursor < |s.plan| && !(options.fork && !Forkable(s))
    requires forall k | k in asked :: k < |s.goals|
    ensures var w := Work(Prepared(s, options.text), NewSession(s, options));
      LiveInv(w, asked) && |w.state.goals| == s.cursor + 1
  {
    FoundAt(s, s.cursor);
    var live := Prepared(s, options.text);
    assert forall i: nat | i <= s.cursor :: ExpectedStart(live, i) == ExpectedStart(s, i);
    if |s.goals| == s.cursor {
      assert live.goals[s.cursor].start == s.thread;
    }
  }

  // ----- launches -----

  lemma AttachFlow(disk: RunState, s: RunState, options: Options)
    requires SameFlow(disk, s)
    ensures SameFlow(disk, Attach(disk, s, options).disk)
  {
  }

  lemma LaunchFlow(s: RunState, options: Options)
    requires Sound(s)
    ensures SameFlow(s, LaunchFrom(s, options).disk) && SameFlow(s, LaunchBase(s, options))
  {
    LaunchShape(s, options);
    var base := LaunchBase(s, options);
    InspectFlow(s, options.inspection, Pass);
    AttachFlow(s, s, options);
    if DecidedBoundary(base) { AttachFlow(base, MarkResumed(base), options); }
  }

  lemma AttachInv(disk: RunState, s: RunState, options: Options, asked: set<nat>)
    requires GoalsOk(s) && RestInv(s, asked) && Attach(disk, s, options).session.Some?
    requires forall k | k in asked :: k < |s.goals|
    ensures var m := Attach(disk, s, options);
      LiveInv(Work(m.live, m.session.value), asked) && |m.live.goals| == s.cursor + 1
  {
    PreparedInv(s, asked, options);
  }

  lemma LaunchLiveInv(s: RunState, options: Options, asked: set<nat>)
    requires Sound(s) && RestInv(s, asked) && LaunchFrom(s, options).session.Some?
    requires forall k | k in asked :: k < |s.goals|
    ensures var m := LaunchFrom(s, options);
      LiveInv(Work(m.live, m.session.value), asked) && |m.live.goals| >= |s.goals|
  {
    LaunchShape(s, options);
    BaseSound(s, options);
    LaunchFlow(s, options);
    var base := LaunchBase(s, options);
    if s.status == AwaitingVerdict {
      SameFlowInv(s, base, asked);
      ResumedGoals(base);
      SameFlowInv(base, MarkResumed(base), asked);
      AttachInv(base, MarkResumed(base), options, asked);
    } else {
      AttachInv(s, s, options, asked);
    }
  }

  lemma LaunchInv(s: RunState, options: Options, asked: set<nat>)
    requires Sound(s) && RestInv(s, asked)
    requires forall k | k in asked :: k < |s.goals|
    ensures HonestInv(LaunchFrom(s, options), asked)
  {
    LaunchFlow(s, options);
    SameFlowInv(s, LaunchFrom(s, options).disk, asked);
    LaunchAtRest(s, options);
    if LaunchFrom(s, options).session.Some? {
      LaunchLiveInv(s, options, asked);
    }
  }

  // ----- whole runs -----

  /** The end of a process retains the live records, counters and thread, or leaves the disk as it is. */
  lemma EndFlow(m: Machine, session: Session, e: Event)
    requires m.session == Some(session) && e.Ended?
    ensures var after := Step(m, e);
      after == AtRest(after.disk) && (after.disk == m.disk || SameFlow(m.live, after.disk))
  {
    var w := Work(m.live, session);
    var ended := if session.outcome.None? then Interrupt(w) else w;
    var s := EndState(ended, e.process, e.cleanupFailed, e.published);
    InspectFlow(s, e.inspection, Pass);
    assert SameFlow(m.live, s) && SameFlow(m.live, Inspect(s, e.inspection));
  }

  lemma EndInv(m: Machine, session: Session, e: Event, asked: set<nat>)
    requires m.session == Some(session) && HonestInv(m, asked) && e.Ended?
    ensures HonestInv(Step(m, e), asked)
  {
    EndFlow(m, session, e);
    if SameFlow(m.live, Step(m, e).disk) {
      SameFlowInv(m.live, Step(m, e).disk, asked);
    }
  }

  lemma RequestedRetained(w: Work, asked: set<nat>)
    requires LiveOk(w) && LiveInv(w, asked)
    ensures w.session.beginning.Some? ==> w.session.beginning.value < |w.state.goals|
    ensures Inexact(w.state) ==> w.session.beginning.None?
  {
    var r :| WorkOk(w, r);
  }

  lemma MoreAsked(w: Work, asked: set<nat>, more: set<nat>)
    requires LiveInv(w, asked) && (Inexact(w.state) ==> more == {})
    ensures LiveInv(w, asked + more)
  {
    if Inexact(w.state) { assert asked + more == asked; }
  }

  lemma Republished(s: RunState, session: Session, asked: set<nat>)
    requires LiveInv(Work(s, session), asked) && forall k | k in asked :: k < |s.goals|
    ensures HonestInv(Machine(s, s, Some(session)), asked)
  {
  }

  lemma PublishInv(m: Machine, session: Session, asked: set<nat>)
    requires m.session == Some(session) && LiveOk(Work(m.live, session)) && HonestInv(m, asked)
    ensures HonestInv(Step(m, Published), asked + Requests(m, Published))
  {
    RequestedRetained(Work(m.live, session), asked);
    MoreAsked(Work(m.live, session), asked, Requests(m, Published));
    AskedWithin(m, session, asked);
    Republished(m.live, session, asked + Requests(m, Published));
    PublishStep(m, session);
  }

  lemma PublishStep(m: Machine, session: Session)
    requires m.session == Some(session)
    ensures Step(m, Published) == Machine(m.live, m.live, Some(session))
  {
  }

  lemma AskedWithin(m: Machine, session: Session, asked: set<nat>)
    requires m.session == Some(session) && |m.disk.goals| <= |m.live.goals| && forall k | k in asked :: k < |m.disk.goals|
    requires session.beginning.Some? ==> session.beginning.value < |m.live.goals|
    ensures forall k | k in asked + Requests(m, Published) :: k < |m.live.goals|
  {
  }

  lemma LiveStepInv(m: Machine, session: Session, e: Event, asked: set<nat>)
    requires m.session == Some(session) && LiveOk(Work(m.live, session)) && HonestInv(m, asked) && HonestStep(m, asked, e)
    requires !e.Launch? && !e.Decided? && !e.Published? && !e.Killed? && !e.Ended?
    ensures HonestInv(Step(m, e), asked)
  {
    ActInv(Work(m.live, session), asked, e);
    assert Step(m, e) == Attached(m.disk, Act(Work(m.live, session), e));
  }

  lemma RestStepInv(m: Machine, e: Event, asked: set<nat>)
    requires m == AtRest(m.disk) && Sound(m.disk) && HonestInv(m, asked)
    ensures HonestInv(Step(m, e), asked)
  {
    if e.Launch? {
      LaunchInv(m.disk, e.options, asked);
    } else if e.Decided? {
      InspectFlow(m.disk, InspectionFailed, e.decision);
      SameFlowInv(m.disk, Apply(m.disk, e.decision, true), asked);
    }
  }

  lemma AttachedStepInv(m: Machine, session: Session, e: Event, asked: set<nat>)
    requires m.session == Some(session) && LiveOk(Work(m.live, session)) && HonestInv(m, asked) && HonestStep(m, asked, e)
    requires !e.Published?
    ensures HonestInv(Step(m, e), asked)
  {
    if e.Ended? {
      EndInv(m, session, e, asked);
    } else if !e.Launch? && !e.Decided? && !e.Killed? {
      LiveStepInv(m, session, e, asked);
    }
  }

  lemma StepInv(m: Machine, e: Event, asked: set<nat>)
    requires MachineOk(m) && HonestInv(m, asked) && HonestStep(m, asked, e)
    ensures HonestInv(Step(m, e), asked + Requests(m, e))
  {
    if e.Published? && m.session.Some? {
      PublishInv(m, m.session.value, asked);
    } else {
      assert asked + Requests(m, e) == asked;
      if m.session.None? {
        RestStepInv(m, e, asked);
      } else {
        AttachedStepInv(m, m.session.value, e, asked);
      }
    }
  }

  lemma InitialInv(m: Machine)
    requires Initial(m)
    ensures HonestInv(m, {})
  {
  }

  /** Over an honest thread, through any launches, crashes and resumes, every start behind the cursor is exact. */
  lemma {:induction false} HonestRunsAreExact(m: Machine, events: seq<Event>)
    requires Initial(m) && HonestRun(m, {}, events)
    ensures MachineOk(Run(m, events)) && HonestInv(Run(m, events), Asked(m, {}, events))
    ensures ExactBehind(Run(m, events).disk) && ExactBehind(Run(m, events).live)
    ensures StartedAt(Run(m, events), m.disk.nativeStart, m.disk.thread)
  {
    RunStartsAt(m, events);
    if events == [] {
      InitialSound(m);
      InitialInv(m);
    } else {
      var front := events[..|events| - 1];
      HonestRunsAreExact(m, front);
      StepInv(Run(m, front), events[|events| - 1], Asked(m, {}, front));
      StepSound(Run(m, front), events[|events| - 1]);
    }
  }

  // ----- what that gives -----

  /** The Goals behind the cursor alone. */
  function Trimmed(s: RunState): RunState
    requires s.cursor <= |s.goals|
  {
    s.(goals := s.goals[..s.cursor])
  }

  lemma BehindExact(s: RunState, i: nat)
    requires GoalsOk(s) && ExactBehind(s) && i < s.cursor
    requires i >= s.nativeStart ==> NonNegative(ThreadStart(s))
    ensures GoalExact(s, ThreadStart(s), i)
  {
    var b := Trimmed(s);
    forall j | 0 <= j < |b.goals| ensures GoalFits(b, j) && b.goals[j].start == ExpectedStart(b, j) {
      assert GoalFits(s, j);
    }
    ExactGoal(b, i);
    assert b.goals[i] == s.goals[i] && (i > 0 ==> b.goals[i - 1] == s.goals[i - 1]);
  }

  /**
   Over an honest thread every completed Goal is settled, has used tokens, and
   starts where its predecessor ended, or with the run's own thread at the total
   the run began with.
   */
  lemma CompletedPrefixIsExact(m: Machine, events: seq<Event>, i: nat)
    requires Initial(m) && HonestRun(m, {}, events) && i < Run(m, events).live.cursor
    ensures var s := Run(m, events).live;
      s.cursor <= |s.goals| && GoalExact(s, m.disk.thread, i)
  {
    HonestRunsAreExact(m, events);
    RunStartsAt(m, events);
    LiveIsShaped(Run(m, events));
    BehindExact(Run(m, events).live, i);
  }

  /** Only a run derived for a fork begins behind a total that is not zero. */
  lemma ForkBeginsAhead(m: Machine)
    requires Initial(m)
    ensures Forkable(m.disk) <==> m.disk.thread != Zero()
  {
  }

  /**
   Over an honest thread the completion validator accepts a run retained as
   completed exactly when it was not derived for a fork; the next launch leaves
   such a run as it is, and marks the completed fork interrupted.
   */
  lemma CompletedRunsExactly(m: Machine, events: seq<Event>, options: Options)
    requires Initial(m) && HonestRun(m, {}, events) && Run(m, events).disk.status == Completed
    ensures var s := Run(m, events).disk;
      && (ValidateCompletedState(s) <==> !Forkable(m.disk))
      && LaunchFrom(s, options)
           == AtRest(if Forkable(m.disk) then s.(status := Interrupted, interruption := Some(OtherFailure)) else s)
  {
    var s := Run(m, events).disk;
    HonestRunsAreExact(m, events);
    RunCompletedOk(m, events);
    RunStartsAt(m, events);
    ForkBeginsAhead(m);
    CompletedIsExact(s);
    CompletedStateValid(s);
    RelaunchDecides(s, options);
  }

  lemma CompletedIsExact(s: RunState)
    requires Sound(s) && ExactBehind(s) && CompletedOk(s) && s.status == Completed
    ensures Exact(s)
  {
    SoundGoals(s);
  }

  // ----- what a total that has moved holds up -----

  /** On disk and in memory the total has gone past where the Goal at the cursor must start. */
  predicate Stranded(m: Machine, asked: set<nat>, cursor: nat) {
    && Stuck(m.disk, asked) && m.disk.cursor == cursor
    && m.live.cursor == cursor
    && (m.session.Some? ==> StuckWork(Work(m.live, m.session.value), asked))
  }

  lemma SameFlowStuck(s: RunState, after: RunState, asked: set<nat>)
    requires SameFlow(s, after) && Stuck(s, asked)
    ensures Stuck(after, asked)
  {
    assert ExpectedStart(s, s.cursor) == ExpectedStart(after, s.cursor);
  }

  lemma AttachStuck(disk: RunState, s: RunState, options: Options, asked: set<nat>)
    requires GoalsOk(s) && Stuck(s, asked) && Attach(disk, s, options).session.Some?
    ensures var m := Attach(disk, s, options);
      StuckWork(Work(m.live, m.session.value), asked) && m.live.cursor == s.cursor
  {
    FoundAt(s, s.cursor);
    var live := Prepared(s, options.text);
    assert ExpectedStart(live, s.cursor) == ExpectedStart(s, s.cursor);
  }

  lemma LaunchStranded(s: RunState, options: Options, asked: set<nat>)
    requires Sound(s) && Stuck(s, asked)
    ensures Stranded(LaunchFrom(s, options), asked, s.cursor)
  {
    LaunchFlow(s, options);
    SameFlowStuck(s, LaunchFrom(s, options).disk, asked);
    LaunchAtRest(s, options);
    LaunchShape(s, options);
    var base := LaunchBase(s, options);
    BaseSound(s, options);
    SameFlowStuck(s, base, asked);
    if LaunchFrom(s, options).session.Some? {
      if s.status == AwaitingVerdict {
        ResumedGoals(base);
        SameFlowStuck(base, MarkResumed(base), asked);
        AttachStuck(base, MarkResumed(base), options, asked);
      } else {
        AttachStuck(s, s, options, asked);
      }
    }
  }

  lemma EndStranded(m: Machine, session: Session, e: Event, asked: set<nat>, cursor: nat)
    requires m.session == Some(session) && Stranded(m, asked, cursor) && e.Ended?
    ensures Stranded(Step(m, e), asked, cursor)
  {
    EndFlow(m, session, e);
    if SameFlow(m.live, Step(m, e).disk) {
      SameFlowStuck(m.live, Step(m, e).disk, asked);
    }
  }

  lemma StrandedStep(m: Machine, e: Event, asked: set<nat>, cursor: nat)
    requires MachineOk(m) && Stranded(m, asked, cursor) && HonestStep(m, asked, e)
    ensures Stranded(Step(m, e), asked, cursor) && Requests(m, e) == {}
  {
    if m.session.None? {
      if e.Launch? {
        LaunchStranded(m.disk, e.options, asked);
      } else if e.Decided? {
        InspectFlow(m.disk, InspectionFailed, e.decision);
        SameFlowStuck(m.disk, Apply(m.disk, e.decision, true), asked);
      }
    } else {
      StrandedAttached(m, m.session.value, e, asked, cursor);
    }
  }

  lemma StrandedAttached(m: Machine, session: Session, e: Event, asked: set<nat>, cursor: nat)
    requires m.session == Some(session) && LiveOk(Work(m.live, session))
    requires Stranded(m, asked, cursor) && HonestStep(m, asked, e)
    ensures Stranded(Step(m, e), asked, cursor) && Requests(m, e) == {}
  {
    var w := Work(m.live, session);
    var r :| WorkOk(w, r);
    if e.Ended? {
      EndStranded(m, session, e, asked, cursor);
    } else if !e.Launch? && !e.Decided? && !e.Published? && !e.Killed? {
      StuckAct(w, asked, e);
      assert Step(m, e) == Attached(m.disk, Act(w, e));
    }
  }

  /**
   Once the total has gone past where an unrequested Goal must start, no events
   over an honest thread, no launch and no resume ever move the cursor.
   */
  lemma {:induction false} DriftStrands(s: RunState, asked: set<nat>, events: seq<Event>)
    requires Sound(s) && Stuck(s, asked) && HonestRun(AtRest(s), asked, events)
    ensures var m := Run(AtRest(s), events);
      MachineOk(m) && Stranded(m, asked, s.cursor) && Asked(AtRest(s), asked, events) == asked
  {
    if events != [] {
      var front := events[..|events| - 1];
      DriftStrands(s, asked, front);
      StrandedStep(Run(AtRest(s), front), events[|events| - 1], asked, s.cursor);
      StepSound(Run(AtRest(s), front), events[|events| - 1]);
    }
  }

  // ----- when a resume gets past a Goal that was not asked for -----

  /** The Goal at the cursor waits to be asked for on a thread that has run others. */
  predicate Waiting(s: RunState, asked: set<nat>) {
    && s.sessionId.Some? && s.nativeStart < s.cursor < |s.plan| && s.cursor !in asked
    && (s.cursor < |s.goals| ==> s.goals[s.cursor].native.None? && s.goals[s.cursor].terminalTurn.None?)
  }

  /** The Goal at the cursor is being asked for. */
  predicate Begun(m: Machine, cursor: nat) {
    m.session.Some? && m.session.value.beginning == Some(cursor) && m.live.cursor == cursor
  }

  /** A relaunched run at a Goal that waits, whose predecessor ended at the total. */
  predicate ReadyToBegin(w: Work, r: Reminders) {
    && WorkOk(w, r) && |w.state.goals| == w.state.cursor + 1 && w.state.goals[w.state.cursor].native.None?
    && w.state.nativeStart < w.state.cursor && w.state.sessionId.Some?
    && w.state.goals[w.state.cursor - 1].end == Some(w.state.thread)
    && w.session == NewSession(w.state, Plainly())
  }

  /** What the thread holds: the snapshot of the Goal before. */
  function Holding(w: Work): Native
    requires w.state.cursor > 0 && w.state.cursor <= |w.state.goals| && w.state.goals[w.state.cursor - 1].native.Some?
  {
    w.state.goals[w.state.cursor - 1].native.value
  }

  lemma PreviousHeld(w: Work, r: Reminders)
    requires ReadyToBegin(w, r)
    ensures var previous, g := w.state.goals[w.state.cursor - 1], w.state.goals[w.state.cursor];
      && Current(w.state) == Some(g) && g.index == w.state.cursor && PreviousGoal(w.state, g) == Some(previous)
      && Settled(previous) && Measured(previous) && previous.index == w.state.cursor - 1
      && NativeMatches(previous, previous.native.value, w.state.sessionId)
  {
    FoundAt(w.state, w.state.cursor);
    FoundAt(w.state, w.state.cursor - 1);
    assert GoalFits(w.state, w.state.cursor) && GoalFits(w.state, w.state.cursor - 1);
  }

  function Reading(w: Work): Work {
    Work(w.state, w.session.(phase := Resuming))
  }

  function Shown(w: Work): Work
    requires w.state.cursor > 0 && w.state.cursor <= |w.state.goals| && w.state.goals[w.state.cursor - 1].native.Some?
  {
    Work(w.state, w.session.(
      phase := Resuming, snapshotPending := false, snapshot := Some(Snapshot(Holding(w), w.state.cursor - 1))))
  }

  lemma ShowsPrevious(w: Work, r: Reminders)
    requires ReadyToBegin(w, r)
    ensures w.state.goals[w.state.cursor - 1].native.Some? && Holding(w).status == Complete
    ensures Act(Reading(w), Notified(GoalUpdated(Holding(w), None), Anyhow())) == Shown(w)
  {
    PreviousHeld(w, r);
  }

  lemma AnswersPrevious(w: Work, r: Reminders)
    requires ReadyToBegin(w, r)
    ensures w.state.goals[w.state.cursor - 1].native.Some?
    ensures Act(Shown(w), GoalAnswered(Some(Holding(w)), true, None)) == Reconciled(Shown(w), true)
  {
    PreviousHeld(w, r);
  }

  lemma BeginsWaiting(w: Work, r: Reminders)
    requires ReadyToBegin(w, r)
    ensures w.state.goals[w.state.cursor - 1].native.Some?
    ensures var begun := Act(Reconciled(Shown(w), true), Continued(Anyhow()));
      begun.session.beginning == Some(w.state.cursor) && begun.state.cursor == w.state.cursor
  {
    PreviousHeld(w, r);
  }

  lemma WaitingBegins(o: Origin, asked: set<nat>, disk: RunState, w: Work, r: Reminders) returns (t: Machine)
    requires Reaches(o, asked, Attached(disk, w)) && ReadyToBegin(w, r)
    ensures Reaches(o, asked, t) && Begun(t, w.state.cursor)
  {
    ReachesAct(o, asked, disk, w, ThreadAnswered(w.state.sessionId.value, true));
    ShowsPrevious(w, r);
    ReachesAct(o, asked, disk, Reading(w), Notified(GoalUpdated(Holding(w), None), Anyhow()));
    AnswersPrevious(w, r);
    ReachesAct(o, asked, disk, Shown(w), GoalAnswered(Some(Holding(w)), true, None));
    BeginsWaiting(w, r);
    ReachesAct(o, asked, disk, Reconciled(Shown(w), true), Continued(Anyhow()));
    t := Attached(disk, Act(Reconciled(Shown(w), true), Continued(Anyhow())));
  }

  /** What a launch attaches, whether or not it first confirmed a verdict. */
  lemma LaunchedState(s: RunState, options: Options) returns (x: RunState)
    requires Sound(s) && LaunchFrom(s, options).session.Some?
    ensures SameFlow(s, x) && GoalsOk(x) && x.cursor < |x.plan|
    ensures LaunchFrom(s, options).live == Prepared(x, options.text)
    ensures LaunchFrom(s, options).session == Some(NewSession(x, options))
  {
    LaunchShape(s, options);
    LaunchFlow(s, options);
    BaseSound(s, options);
    var base := LaunchBase(s, options);
    if s.status == AwaitingVerdict {
      ResumedGoals(base);
      x := MarkResumed(base);
    } else {
      SoundGoals(s);
      x := s;
    }
  }

  lemma WaitingPrepared(s: RunState, x: RunState, asked: set<nat>)
    requires GoalsOk(x) && SameFlow(s, x) && Waiting(s, asked) && s.thread == ExpectedStart(s, s.cursor)
    requires x.cursor < |x.plan|
    ensures var live := Prepared(x, "");
      && live.cursor == s.cursor && |live.goals| == s.cursor + 1 && live.goals[s.cursor].native.None?
      && live.goals[s.cursor - 1].end == Some(live.thread)
      && live.nativeStart < live.cursor && live.sessionId == s.sessionId
  {
    FoundAt(x, x.cursor);
    assert GoalFits(x, x.cursor - 1);
  }

  lemma ReadyWhen(w: Work, x: RunState, r: Reminders)
    requires WorkOk(w, r) && w == Work(Prepared(x, ""), NewSession(x, Plainly()))
    requires |w.state.goals| == w.state.cursor + 1 && w.state.goals[w.state.cursor].native.None?
    requires w.state.nativeStart < w.state.cursor && w.state.sessionId.Some? && w.state.sessionId == x.sessionId
    requires w.state.goals[w.state.cursor - 1].end == Some(w.state.thread)
    ensures ReadyToBegin(w, r)
  {
  }

  lemma LaunchedWork(s: RunState, options: Options) returns (r: Reminders)
    requires Sound(s) && LaunchFrom(s, options).session.Some?
    ensures WorkOk(Work(LaunchFrom(s, options).live, LaunchFrom(s, options).session.value), r)
  {
    LaunchSound(s, options);
    r :| WorkOk(Work(LaunchFrom(s, options).live, LaunchFrom(s, options).session.value), r);
  }

  lemma WaitingLaunched(s: RunState, asked: set<nat>) returns (r: Reminders)
    requires Sound(s) && Waiting(s, asked) && s.thread == ExpectedStart(s, s.cursor)
    requires LaunchFrom(s, Plainly()).session.Some?
    ensures var m := LaunchFrom(s, Plainly());
      ReadyToBegin(Work(m.live, m.session.value), r) && m.live.cursor == s.cursor
  {
    var m := LaunchFrom(s, Plainly());
    r := LaunchedWork(s, Plainly());
    var x := LaunchedState(s, Plainly());
    WaitingReady(s, x, asked, Work(m.live, m.session.value), r);
  }

  lemma WaitingReady(s: RunState, x: RunState, asked: set<nat>, w: Work, r: Reminders)
    requires GoalsOk(x) && SameFlow(s, x) && Waiting(s, asked) && s.thread == ExpectedStart(s, s.cursor)
    requires x.cursor < |x.plan| && WorkOk(w, r) && w == Work(Prepared(x, ""), NewSession(x, Plainly()))
    ensures ReadyToBegin(w, r) && w.state.cursor == s.cursor
  {
    WaitingPrepared(s, x, asked);
    ReadyWhen(w, x, r);
  }

  lemma WaitingStuck(s: RunState, asked: set<nat>)
    requires RestInv(s, asked) && Waiting(s, asked) && s.thread != ExpectedStart(s, s.cursor)
    ensures Stuck(s, asked)
  {
  }

  lemma StrandedNotBegun(s: RunState, asked: set<nat>, events: seq<Event>)
    requires Sound(s) && Stuck(s, asked) && HonestRun(AtRest(s), asked, events)
    ensures !Begun(Run(AtRest(s), events), s.cursor)
  {
    DriftStrands(s, asked, events);
    var m := Run(AtRest(s), events);
    if m.session.Some? {
      var r :| WorkOk(Work(m.live, m.session.value), r);
    }
  }

  ghost predicate CanBegin(s: RunState, asked: set<nat>) {
    exists events :: HonestRun(AtRest(s), asked, events) && Begun(Run(AtRest(s), events), s.cursor)
  }

  /**
   A Goal that waits to be asked for behind others can be begun, by some launch
   and over some honest thread, exactly when the total still is where the Goal
   before it ended.
   */
  lemma ResumeBeginsExactly(s: RunState, asked: set<nat>)
    requires Sound(s) && RestInv(s, asked) && Waiting(s, asked) && LaunchFrom(s, Plainly()).session.Some?
    ensures CanBegin(s, asked) <==> s.thread == ExpectedStart(s, s.cursor)
  {
    if s.thread == ExpectedStart(s, s.cursor) {
      WaitingCanBegin(s, asked);
    } else {
      WaitingStuck(s, asked);
      forall events ensures !(HonestRun(AtRest(s), asked, events) && Begun(Run(AtRest(s), events), s.cursor)) {
        if HonestRun(AtRest(s), asked, events) {
          StrandedNotBegun(s, asked, events);
        }
      }
    }
  }

  lemma WaitingCanBegin(s: RunState, asked: set<nat>)
    requires Sound(s) && Waiting(s, asked) && s.thread == ExpectedStart(s, s.cursor)
    requires LaunchFrom(s, Plainly()).session.Some?
    ensures CanBegin(s, asked)
  {
    var m, o := LaunchFrom(s, Plainly()), Origin(AtRest(s), asked);
    var r := WaitingLaunched(s, asked);
    ReachesSelf(o);
    ReachesOther(o, asked, AtRest(s), Launch(Plainly()));
    assert Step(AtRest(s), Launch(Plainly())) == m == Attached(m.disk, Work(m.live, m.session.value));
    var t := WaitingBegins(o, asked, m.disk, Work(m.live, m.session.value), r);
    var events :| HonestRun(o.m, o.before, events) && Run(o.m, events) == t && asked <= Asked(o.m, o.before, events);
  }
}
