/** What deciding, launching and ending keep, and the invariant of whole runs. */
module GoalLaunch {
  import opened Prelude
  import opened TokenUsage
  import opened Instruction
  import opened GoalState
  import opened Validators
  import opened Supervision
  import opened GoalSession
  import opened GoalMachine
  import opened GoalSafety
  import opened GoalEvents

  predicate RestOk(s: RunState, r: Reminders) {
    Shape(s, r) && DriftNoted(s)
  }

  /** A retained state that satisfies the invariant for the reminders its plan holds. */
  ghost predicate Sound(s: RunState) {
    exists r :: RestOk(s, r)
  }

  ghost predicate LiveOk(w: Work) {
    exists r :: WorkOk(w, r)
  }

  ghost predicate MachineOk(m: Machine) {
    && Sound(m.disk)
    && (match m.session
        case None => m.live == m.disk
        case Some(session) => LiveOk(Work(m.live, session)))
  }

  // ----- deciding -----

  /** The last pause of a shaped Plain state, its stop, and the plan entry behind the cursor. */
  lemma LastPause(s: RunState, r: Reminders)
    requires Shape(s, r) && AtPause(s)
    ensures s.arm == PlainArm && PauseFits(s, r, |s.pauses| - 1) && |s.pauses| <= StopCount(r)
    ensures s.cursor < |s.plan|
    ensures var stop := StopAt(r, |s.pauses| - 1);
      && stop.attempt <= Count(r, stop.scope)
      && (NextIsFinal(s, stop.scope) <==> stop.attempt == Count(r, stop.scope))
  {
    StopIsBoundary(r, |s.pauses| - 1);
  }

  /** Stops behind an inserted reminder keep their order and move by one place. */
  lemma RemindedStopsAfter(r: Reminders, j: nat, k: nat)
    requires j + 1 < k < StopCount(r) + 1 && j < StopCount(r)
    requires StopAt(r, j).attempt == Count(r, StopAt(r, j).scope)
    ensures var later, scope := StopAt(r, k - 1), StopAt(r, j).scope;
      && StopAt(Reminded(r, scope), k) == later.(goalIndex := later.goalIndex + 1)
      && later.scope != scope
  {
  }

  /** The pause a retry extends is its scope's last granted stop, right behind the cursor. */
  predicate LastGranted(s: RunState, r: Reminders) {
    && s.arm == PlainArm && s.pauses != [] && |s.pauses| <= StopCount(r)
    && var stop := StopAt(r, |s.pauses| - 1);
    && stop.scope == Last(s.pauses).scope && stop.attempt == Last(s.pauses).attempt == Count(r, stop.scope)
    && stop.goalIndex + 1 == s.cursor && stop.goalIndex < PlanLength(r)
  }

  lemma RetryGranted(s: RunState, r: Reminders)
    requires Shape(s, r) && AtPause(s) && NextIsFinal(s, Last(s.pauses).scope)
    ensures LastGranted(s, r) && PauseFits(s, r, |s.pauses| - 1)
  {
    LastPause(s, r);
  }

  lemma RetryPlan(s: RunState, r: Reminders)
    requires LastGranted(s, r) && PlanOk(s, r) && s.cursor <= |s.plan|
    requires Last(s.pauses).attempt < REVIEW_SUPPLEMENT_LIMIT
    ensures PlanOk(PlanContinuation(s, Retry), Reminded(r, Last(s.pauses).scope))
  {
    RetryInserts(s, r);
    RemindedBounded(r, Last(s.pauses).scope);
  }

  lemma RetryInserts(s: RunState, r: Reminders)
    requires LastGranted(s, r) && s.plan == AdaptivePlan(r) && s.cursor <= |s.plan|
    ensures PlanContinuation(s, Retry).plan == AdaptivePlan(Reminded(r, Last(s.pauses).scope))
  {
    InsertReminder(r, |s.pauses| - 1);
  }

  lemma RemindedBounded(r: Reminders, scope: Scope)
    requires Bounded(r) && Count(r, scope) < REVIEW_SUPPLEMENT_LIMIT
    ensures Bounded(Reminded(r, scope))
  {
  }

  lemma RetryGoals(s: RunState)
    requires GoalsOk(s) && AtPause(s)
    ensures GoalsOk(PlanContinuation(s, Retry))
  {
    var after := PlanContinuation(s, Retry);
    forall i | 0 <= i < |after.goals| ensures GoalFits(after, i) {
      assert GoalFits(s, i);
    }
  }

  /** A retry's reminder extends the plan by the next stop of the same scope. */
  lemma RetryShape(s: RunState, r: Reminders)
    requires Shape(s, r) && AtPause(s) && Last(s.pauses).verdict.None?
    requires Last(s.pauses).attempt < REVIEW_SUPPLEMENT_LIMIT && NextIsFinal(s, Last(s.pauses).scope)
    ensures Shape(PlanContinuation(s, Retry), Reminded(r, Last(s.pauses).scope))
  {
    RetryGranted(s, r);
    RetryPlan(s, r);
    RetryGoals(s);
    var after, reminded := PlanContinuation(s, Retry), Reminded(r, Last(s.pauses).scope);
    forall i | 0 <= i < |after.pauses| ensures PauseFits(after, reminded, i) {
      RetryPause(s, r, after, i);
    }
    forall k: nat | k < StopCount(reminded) ensures StopAhead(after, reminded, k) {
      RetryAhead(s, r, after, k);
    }
  }

  lemma RetryLastPause(s: RunState, r: Reminders, after: RunState)
    requires LastGranted(s, r) && AtPause(s) && PauseFits(s, r, |s.pauses| - 1) && Last(s.pauses).verdict.None?
    requires s.cursor <= |s.plan| && after == PlanContinuation(s, Retry)
    ensures PauseFits(after, Reminded(r, Last(s.pauses).scope), |s.pauses| - 1)
  {
    var j := |s.pauses| - 1;
    RemindedStops(r, j, j);
    RemindedEntries(r, j, StopAt(r, j).goalIndex);
  }

  lemma RetryEarlierPause(s: RunState, r: Reminders, after: RunState, i: nat)
    requires Shape(s, r) && LastGranted(s, r) && i < |s.pauses| - 1
    requires after == PlanContinuation(s, Retry)
    ensures PauseFits(after, Reminded(r, Last(s.pauses).scope), i)
  {
    var j := |s.pauses| - 1;
    assert PauseFits(s, r, i);
    RemindedStops(r, j, i);
    RemindedEntries(r, j, StopAt(r, i).goalIndex);
    StopsAscend(r, i, j);
  }

  lemma RetryPause(s: RunState, r: Reminders, after: RunState, i: nat)
    requires Shape(s, r) && AtPause(s) && Last(s.pauses).verdict.None? && i < |s.pauses|
    requires NextIsFinal(s, Last(s.pauses).scope)
    requires after == PlanContinuation(s, Retry)
    ensures PauseFits(after, Reminded(r, Last(s.pauses).scope), i)
  {
    RetryGranted(s, r);
    if i == |s.pauses| - 1 {
      RetryLastPause(s, r, after);
    } else {
      RetryEarlierPause(s, r, after, i);
    }
  }

  lemma RetryAhead(s: RunState, r: Reminders, after: RunState, k: nat)
    requires Shape(s, r) && AtPause(s) && Last(s.pauses).verdict.None?
    requires NextIsFinal(s, Last(s.pauses).scope)
    requires after == PlanContinuation(s, Retry) && k < StopCount(r) + 1
    ensures StopAhead(after, Reminded(r, Last(s.pauses).scope), k)
  {
    LastPause(s, r);
    var j := |s.pauses| - 1;
    if k == j + 1 {
      RemindedStops(r, j, j);
    } else if k > j + 1 {
      RemindedStopsAfter(r, j, k);
      assert StopAhead(s, r, k - 1);
    }
  }

  lemma VerdictPause(s: RunState, decision: Decision, r: Reminders, j: nat)
    requires Shape(s, r) && AtPause(s) && Last(s.pauses).verdict.None? && s.status == AwaitingVerdict && j < |s.pauses|
    requires ContinuationOf(decision, Last(s.pauses).attempt) == Retry <==> Last(s.pauses).attempt < Count(r, Last(s.pauses).scope)
    requires Last(s.goals) == s.goals[s.cursor - 1] && Last(s.goals).terminalTurn.Some? && Last(s.goals).index == s.cursor - 1
    ensures PauseFits(RecordVerdict(s, decision), r, j)
  {
    LastPause(s, r);
    assert PauseFits(s, r, j);
  }

  /** Recording the verdict its decision earns closes the pause. */
  lemma VerdictShape(s: RunState, decision: Decision, r: Reminders)
    requires Shape(s, r) && AtPause(s) && Last(s.pauses).verdict.None? && s.status == AwaitingVerdict
    requires ContinuationOf(decision, Last(s.pauses).attempt) == Retry <==> Last(s.pauses).attempt < Count(r, Last(s.pauses).scope)
    ensures s.goals != [] && Last(s.goals).terminalTurn.Some?
    ensures Shape(RecordVerdict(s, decision), r)
  {
    LastPause(s, r);
    assert GoalFits(s, s.cursor - 1);
    VerdictPause(s, decision, r, |s.pauses| - 1);
    ShapeFrame(s, RecordVerdict(s, decision), r);
  }

  function RemindersAfter(s: RunState, decision: Decision, r: Reminders): Reminders
    requires s.pauses != []
  {
    if ContinuationOf(decision, Last(s.pauses).attempt) == Retry then Reminded(r, Last(s.pauses).scope) else r
  }

  /** A pause that precedes its scope's Final is the scope's last granted attempt. */
  lemma ContinuationFits(s: RunState, decision: Decision, r: Reminders)
    requires Shape(s, r) && AtPause(s) && Last(s.pauses).verdict.None? && NextIsFinal(s, Last(s.pauses).scope)
    ensures var pause, after := Last(s.pauses), RemindersAfter(s, decision, r);
      && pause.attempt == Count(r, pause.scope)
      && (ContinuationOf(decision, pause.attempt) == Retry <==> pause.attempt < Count(after, pause.scope))
  {
    RetryGranted(s, r);
  }

  lemma ApplyShape(s: RunState, decision: Decision, r: Reminders)
    requires Shape(s, r) && AtPause(s) && Last(s.pauses).verdict.None? && s.status == AwaitingVerdict
    requires NextIsFinal(s, Last(s.pauses).scope)
    ensures var planned := PlanContinuation(s, ContinuationOf(decision, Last(s.pauses).attempt));
      var after := RemindersAfter(s, decision, r);
      && Shape(planned, after)
      && planned.goals != [] && Last(planned.goals).terminalTurn.Some?
      && Shape(RecordVerdict(planned, decision), after)
  {
    ContinuationFits(s, decision, r);
    var continuation := ContinuationOf(decision, Last(s.pauses).attempt);
    if continuation == Retry { RetryShape(s, r); }
    VerdictShape(PlanContinuation(s, continuation), decision, RemindersAfter(s, decision, r));
  }

  lemma ApplyRest(s: RunState, decision: Decision, stored: bool, r: Reminders)
    requires RestOk(s, r) && UndecidedBoundary(s) && NextIsFinal(s, Last(s.pauses).scope)
    ensures RestOk(Apply(s, decision, stored), RemindersAfter(s, decision, r))
  {
    ApplyShape(s, decision, r);
    ApplyLeaves(s, decision, stored);
    SameDrift(s, Apply(s, decision, stored));
  }

  lemma ApplyLeaves(s: RunState, decision: Decision, stored: bool)
    ensures var applied := Apply(s, decision, stored);
      && applied.goals == s.goals && applied.cursor == s.cursor && applied.thread == s.thread
      && applied.nativeStart == s.nativeStart && applied.interruption == s.interruption
  {
  }

  lemma SameDrift(s: RunState, after: RunState)
    requires after.goals == s.goals && after.cursor == s.cursor && after.thread == s.thread
    requires after.nativeStart == s.nativeStart && after.interruption == s.interruption
    ensures DriftNoted(after) <==> DriftNoted(s)
  {
    assert ExpectedStart(after, s.cursor) == ExpectedStart(s, s.cursor);
  }

  lemma ApplySound(s: RunState, decision: Decision, stored: bool)
    requires Sound(s)
    ensures Sound(Apply(s, decision, stored))
  {
    if UndecidedBoundary(s) && NextIsFinal(s, Last(s.pauses).scope) {
      var r :| RestOk(s, r);
      ApplyRest(s, decision, stored, r);
    }
  }

  lemma CountedRest(s: RunState, r: Reminders)
    requires RestOk(s, r) && s.status == AwaitingVerdict && Last(s.pauses).inspections < ATTEMPT_LIMIT
    ensures RestOk(Counted(s), r)
  {
    LastPause(s, r);
    assert PauseFits(s, r, |s.pauses| - 1);
    ShapeFrame(s, Counted(s), r);
  }

  lemma InspectSound(s: RunState, result: InspectionResult)
    requires Sound(s) && s.status == AwaitingVerdict
    ensures Sound(Inspect(s, result))
  {
    var r :| RestOk(s, r);
    if Inspect(s, result) != s && Last(s.pauses).inspections < ATTEMPT_LIMIT {
      CountedRest(s, r);
      if result.Submitted? {
        ApplySound(Counted(s), result.decision, result.stored);
      }
    }
  }

  // ----- launching -----

  predicate Unpaused(s: RunState) {
    s.pauses == [] || (Last(s.pauses).verdict.Some? && Last(s.pauses).resumed)
  }

  lemma LastTransition(s: RunState)
    requires s.cursor <= |s.plan| && ReviewTransitionsValid(s) && s.arm == PlainArm && Undecided(s)
    ensures s.status == AwaitingVerdict || (s.status == Live && s.interruption.None?)
  {
    var stops := CompletedStops(s.plan[..s.cursor]);
    assert TransitionValid(s, |s.pauses| - 1, stops[|s.pauses| - 1]);
  }

  /** The plan validator refuses an undecided pause unless its run was alive or awaits its verdict. */
  lemma LaunchableUnpaused(s: RunState, r: Reminders)
    requires RestOk(s, r) && ReviewTransitionsValid(s) && s.status != AwaitingVerdict
    requires !(s.arm == PlainArm && Undecided(s) && s.status == Live && s.interruption.None?)
    ensures Unpaused(s)
  {
    if s.pauses != [] {
      assert PauseFits(s, r, |s.pauses| - 1);
      if Undecided(s) {
        LastTransition(s);
      }
    }
  }

  lemma StatusRest(s: RunState, status: RunStatus, interruption: Option<Interruption>, r: Reminders)
    requires RestOk(s, r) && Unpaused(s) && status != AwaitingVerdict
    requires interruption.Some? || !Drifted(s)
    ensures RestOk(s.(status := status, interruption := interruption), r)
  {
    if s.arm == PlainArm && s.pauses != [] {
      assert PauseFits(s, r, |s.pauses| - 1);
    }
    ShapeFrame(s, s.(status := status, interruption := interruption), r);
  }

  lemma ResumedFits(s: RunState, r: Reminders)
    requires Shape(s, r) && AtPause(s) && s.arm == PlainArm && Last(s.pauses).verdict.Some?
    ensures PauseFits(MarkResumed(s).(status := Live), r, |s.pauses| - 1)
  {
    assert PauseFits(s, r, |s.pauses| - 1);
  }

  /** The pause whose verdict was just confirmed is marked resumed as the run goes live. */
  lemma ResumedRest(s: RunState, r: Reminders)
    requires RestOk(s, r) && DecidedBoundary(s)
    ensures s.cursor < |s.plan|
    ensures var after := MarkResumed(s).(status := Live);
      RestOk(after, r) && Unpaused(after)
  {
    LastPause(s, r);
    ResumedFits(s, r);
    ShapeFrame(s, MarkResumed(s).(status := Live), r);
  }

  /** A validated completion leaves no drift behind. */
  lemma ConcludeSound(s: RunState, processAlive: bool, r: Reminders)
    requires RestOk(s, r) && Unpaused(s) && s.cursor >= |s.plan|
    ensures RestOk(Conclude(s, processAlive), r)
  {
    FoundAt(s, |s.plan| - 1);
    if ValidateCompletedState(s) {
      assert !Drifted(s);
      StatusRest(s, Completed, None, r);
    }
    StatusRest(s, Interrupted, Some(OtherFailure), r);
    if s.interruption.Some? {
      StatusRest(s, Interrupted, s.interruption, r);
    }
  }

  /** A live state with a record at the cursor. */
  lemma PreparedRest(s: RunState, text: string, r: Reminders)
    requires RestOk(s, r) && Unpaused(s) && s.cursor < |s.plan|
    ensures var prepared := Prepare(s, text);
      Shape(prepared, r) && Unpaused(prepared) && |prepared.goals| == prepared.cursor + 1
  {
    FoundAt(s, s.cursor);
    if |s.goals| == s.cursor {
      PreparedShape(s, text, r);
    }
  }

  /** The state a process is attached to: prepared, live, without interruption. */
  lemma PreparedWork(s: RunState, options: Options, r: Reminders)
    requires RestOk(s, r) && Unpaused(s) && s.cursor < |s.plan|
    requires options.fork ==> s.sessionId.None?
    ensures WorkOk(Work(Prepared(s, options.text), NewSession(s, options)), r)
  {
    PreparedRest(s, options.text, r);
    var base := Prepare(s, options.text);
    StatusRest(base, Live, None, r);
    var live := base.(status := Live, interruption := None);
    var prepared := Prepared(s, options.text);
    forall i | 0 <= i < |prepared.goals| ensures GoalFits(prepared, i) {
      assert GoalFits(live, i);
    }
    ShapeMoves(live, prepared, r);
  }

  /** Preparing taints the new Goal's start exactly when the total had drifted. */
  lemma PreparedExact(s: RunState, text: string)
    requires GoalsOk(s) && s.cursor < |s.plan|
    ensures Exact(Prepared(s, text)) <==> Exact(s) && !Drifted(s)
  {
    FoundAt(s, s.cursor);
    var prepared := Prepared(s, text);
    if |s.goals| == s.cursor {
      NewStart(s, prepared, NewGoal(s, text));
    } else {
      assert forall i | 0 <= i < |s.goals| :: ExpectedStart(prepared, i) == ExpectedStart(s, i);
    }
  }

  lemma NewStart(s: RunState, after: RunState, g: Goal)
    requires |s.goals| == s.cursor && after.goals == s.goals + [g] && g.start == s.thread && after.nativeStart == s.nativeStart
    ensures Exact(after) <==> Exact(s) && !Drifted(s)
  {
    assert forall i | 0 <= i < |s.goals| :: after.goals[i] == s.goals[i];
    assert after.goals[s.cursor] == g;
    assert forall i | 0 <= i <= |s.goals| :: ExpectedStart(after, i) == ExpectedStart(s, i);
  }

  lemma AttachSound(disk: RunState, s: RunState, options: Options, r: Reminders)
    requires Sound(disk) && RestOk(s, r) && Unpaused(s)
    ensures MachineOk(Attach(disk, s, options))
  {
    if s.cursor >= |s.plan| {
      ConcludeSound(s, options.processAlive, r);
    } else if !(options.fork && !Forkable(s)) {
      PreparedWork(s, options, r);
    }
  }

  /** Whether the status was awaiting or live makes no difference to the process that is attached. */
  lemma AttachStatus(disk: RunState, s: RunState, options: Options)
    requires s.cursor < |s.plan|
    ensures Attach(disk, s, options) == Attach(disk, s.(status := Live), options)
  {
    assert Prepared(s, options.text) == Prepared(s.(status := Live), options.text);
  }

  lemma AwaitingRest(s: RunState, r: Reminders)
    requires RestOk(s, r) && Undecided(s)
    ensures RestOk(s.(status := AwaitingVerdict), r)
  {
    if s.arm == PlainArm {
      assert PauseFits(s, r, |s.pauses| - 1);
    }
    ShapeFrame(s, s.(status := AwaitingVerdict), r);
  }

  lemma InspectedSound(s: RunState, result: InspectionResult)
    requires Sound(s) && s.status == AwaitingVerdict
    ensures Sound(if CanInspect(s) then Inspect(s, result) else s)
  {
    InspectSound(s, result);
  }

  lemma ResumeLaunchSound(inspected: RunState, options: Options)
    requires Sound(inspected) && DecidedBoundary(inspected)
    ensures MachineOk(Attach(inspected, MarkResumed(inspected), options))
  {
    var r :| RestOk(inspected, r);
    ResumedRest(inspected, r);
    AttachStatus(inspected, MarkResumed(inspected), options);
    AttachSound(inspected, MarkResumed(inspected).(status := Live), options, r);
  }

  lemma LaunchSound(s: RunState, options: Options)
    requires Sound(s)
    ensures MachineOk(LaunchFrom(s, options))
  {
    var r :| RestOk(s, r);
    if ValidateInstructionPlan(s) {
      if s.arm == PlainArm && Undecided(s) && s.status == Live && s.interruption.None? {
        AwaitingRest(s, r);
      } else if s.status == AwaitingVerdict {
        InspectedSound(s, options.inspection);
        var inspected := if CanInspect(s) then Inspect(s, options.inspection) else s;
        if DecidedBoundary(inspected) && ResumeMatches(inspected) {
          ResumeLaunchSound(inspected, options);
        }
      } else {
        LaunchableUnpaused(s, r);
        AttachSound(s, s, options, r);
      }
    }
  }

  // ----- ending -----

  lemma EndShape(w: Work, process: Process, cleanupFailed: bool, published: bool, r: Reminders)
    requires WorkOk(w, r) && w.session.outcome.Some?
    requires var s := EndState(w, process, cleanupFailed, published);
      s.status == AwaitingVerdict ==> AtPause(s) && !Last(s.pauses).resumed
    ensures Shape(EndState(w, process, cleanupFailed, published), r)
  {
    if w.state.arm == PlainArm && w.state.pauses != [] {
      assert PauseFits(w.state, r, |w.state.pauses| - 1);
    }
    ShapeFrame(w.state, EndState(w, process, cleanupFailed, published), r);
  }

  /** The status a process leaves behind; a run that awaits a verdict stands at its undecided pause. */
  lemma EndRest(w: Work, process: Process, cleanupFailed: bool, published: bool, r: Reminders)
    requires WorkOk(w, r) && w.session.outcome.Some?
    ensures var s := EndState(w, process, cleanupFailed, published);
      RestOk(s, r) && (s.status == AwaitingVerdict ==> PauseBoundary(s) && AtPause(s))
  {
    var s := EndState(w, process, cleanupFailed, published);
    if s.status == AwaitingVerdict {
      EndAtPause(w, r);
      FoundAt(w.state, s.cursor - 1);
    }
    EndShape(w, process, cleanupFailed, published, r);
  }

  lemma EndAtPause(w: Work, r: Reminders)
    requires WorkOk(w, r) && w.session.outcome == Some(RunAwaiting)
    ensures AtPause(w.state) && w.state.arm == PlainArm && !Last(w.state.pauses).resumed
    ensures var goal := w.state.goals[w.state.cursor - 1];
      Last(w.state.pauses).afterGoal == goal.name && Last(w.state.pauses).goalIndex == goal.index
  {
    LastPause(w.state, r);
    assert GoalFits(w.state, w.state.cursor - 1);
  }

  lemma EndSound(disk: RunState, w: Work, process: Process, cleanupFailed: bool, published: bool, inspection: InspectionResult)
    requires Sound(disk) && LiveOk(w)
    ensures MachineOk(End(disk, w, process, cleanupFailed, published, inspection))
  {
    var r :| WorkOk(w, r);
    InterruptKeeps(w, r);
    var ended := if w.session.outcome.None? then Interrupt(w) else w;
    EndRest(ended, process, cleanupFailed, published, r);
    var s := EndState(ended, process, cleanupFailed, published);
    if s.status == AwaitingVerdict {
      InspectSound(s, inspection);
    }
  }

  // ----- runs -----

  lemma StepSound(m: Machine, e: Event)
    requires MachineOk(m)
    ensures MachineOk(Step(m, e))
  {
    match m.session {
      case None =>
        if e.Launch? {
          LaunchSound(m.disk, e.options);
        } else if e.Decided? {
          ApplySound(m.disk, e.decision, true);
        }
      case Some(session) =>
        var w := Work(m.live, session);
        var r :| WorkOk(w, r);
        if e.Ended? {
          EndSound(m.disk, w, e.process, e.cleanupFailed, e.published, e.inspection);
        } else if e.Published? {
          assert RestOk(m.live, r);
        } else {
          ActKeeps(w, e, r);
        }
    }
  }

  lemma InitialSound(m: Machine)
    requires Initial(m)
    ensures MachineOk(m)
  {
    var s := m.disk;
    var r := Reminders(0, 0, 0);
    AdaptivePlanStartsAsBase();
    forall j: nat | j < StopCount(r) ensures StopAhead(s, r, j) {
    }
    assert RestOk(s, r);
  }

  /** Every reachable retained state has the shape of its plan, and every live one that of its session. */
  lemma {:induction false} RunSound(m: Machine, events: seq<Event>)
    requires Initial(m)
    ensures MachineOk(Run(m, events))
  {
    if events == [] {
      InitialSound(m);
    } else {
      RunSound(m, events[..|events| - 1]);
      StepSound(Run(m, events[..|events| - 1]), events[|events| - 1]);
    }
  }
}
