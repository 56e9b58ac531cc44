/**
 Every plan a Plain run may be granted is run: for any number of reminders within
 the limit there is an honest run from nothing that fails exactly those reviews,
 is relaunched at every verdict, and is retained as completed.
 */
module GoalPlans {
  import opened Prelude
  import opened TokenUsage
  import opened Instruction
  import opened GoalState
  import opened Validators
  import opened Supervision
  import opened GoalSession
  import opened GoalMachine
  import opened GoalSafety
  import opened GoalEvents
  import opened GoalLaunch
  import opened PlanAcceptance
  import opened GoalVerdicts
  import opened GoalHonest
  import opened GoalScript
  import opened GoalExactness

  // ----- on the way to a plan -----

  /** The reminders granted when the Goal at a position begins, on the way to the wanted ones. */
  predicate Towards(q: Reminders, r: Reminders, c: nat) {
    var b, f, o := q.backend, q.frontend, q.overall;
    if c <= 1 + b then (c == 0 || c == 1 + b) && b <= r.backend && f == 0 && o == 0 && (c == 0 ==> b == 0)
    else
      && b == r.backend
      && if c < 4 + b then f == 0 && o == 0
         else if c <= 4 + b + f then c == 4 + b + f && f <= r.frontend && o == 0
         else
           && f == r.frontend
           && if c == 5 + b + f then o == 0
              else if c <= 6 + b + f + o then c == 6 + b + f + o && o <= r.overall
              else c == 7 + b + f + o && o == r.overall
  }

  /** What the next Goal's review must decide. */
  function Wanted(q: Reminders, r: Reminders, scope: Scope): Decision {
    if Count(q, scope) < Count(r, scope) then Decision.Fail else Pass
  }

  lemma NextEntry(q: Reminders, r: Reminders, c: nat)
    requires Bounded(r) && Towards(q, r, c)
    ensures Bounded(q) && c < PlanLength(q) <= PlanLength(r)
    ensures match BoundaryOf(EntryAt(q, c))
      case Malformed => false
      case NotReview => if c + 1 == PlanLength(q) then q == r else Towards(q, r, c + 1)
      case ReviewBoundary(scope, attempt) =>
        && c + 1 < PlanLength(q) && attempt == Count(q, scope)
        && Towards(if Count(q, scope) < Count(r, scope) then Reminded(q, scope) else q, r, c + 1)
  {
  }

  lemma PlanTells(q: Reminders, r: Reminders)
    requires AdaptivePlan(q) == AdaptivePlan(r)
    ensures q == r
  {
    assert AdaptivePlan(q)[2 + q.backend] == EntryAt(r, 2 + q.backend) && AdaptivePlan(r)[2 + r.backend] == EntryAt(q, 2 + r.backend);
    var i, k := 5 + q.backend + q.frontend, 5 + r.backend + r.frontend;
    assert AdaptivePlan(q)[i] == EntryAt(r, i) && AdaptivePlan(r)[k] == EntryAt(q, k);
    assert |AdaptivePlan(q)| == PlanLength(q) && |AdaptivePlan(r)| == PlanLength(r);
  }

  // ----- a Goal and what follows it -----

  /** A Plain run from nothing whose Goal has just been asked for. */
  predicate Going(w: Work, g: Goal, q: Reminders) {
    Requested(w, g, q) && w.state.arm == PlainArm && w.state.interruption.None? && w.state.nativeStart == 0
  }

  lemma Played(known: set<nat>, disk: RunState, w: Work, g: Goal, q: Reminders) returns (end: Work, played: Goal)
    requires Reaches(New(PlainArm), known, Attached(disk, w)) && Going(w, g, q)
    ensures Completable(end, played, q) && played.index == w.state.cursor && played.name == w.state.plan[w.state.cursor].name
    ensures w.state.cursor < |w.state.plan| && BoundaryAfter(end.state, played) == BoundaryOf(EntryAt(q, w.state.cursor))
    ensures end.state.arm == PlainArm && end.state.plan == w.state.plan && end.state.cursor == w.state.cursor
    ensures end.state.nativeStart == 0 && end.state.interruption.None? && end.state.pauses == w.state.pauses
    ensures Reaches(New(PlainArm), known + {w.state.cursor}, Attached(w.state, CompleteGoal(end, played, Anyhow())))
  {
    Asks(New(PlainArm), known, disk, w);
    GoalCompletes(New(PlainArm), known + {w.state.cursor}, w.state, w, g, q, 0, Through);
    EndIsReady(w, g, q, 0);
    end, played := AtEnd(w, g, 0), Ran(g, Answer(w, g, Complete), 0, true);
    assert GoalFits(w.state, w.state.cursor);
  }

  /** Behind a Goal that is no review the next one is asked for. */
  lemma Passes(known: set<nat>, disk: RunState, w: Work, g: Goal, q: Reminders) returns (t: Work, next: Goal)
    requires Reaches(New(PlainArm), known, Attached(disk, w)) && Going(w, g, q)
    requires w.state.cursor + 1 < PlanLength(q) && BoundaryOf(EntryAt(q, w.state.cursor)) == NotReview
    ensures Reaches(New(PlainArm), known + {w.state.cursor}, Attached(w.state, t))
    ensures Going(t, next, q) && t.state.cursor == w.state.cursor + 1
  {
    var end, played := Played(known, disk, w, g, q);
    Completes(end, played, q, Anyhow());
    NextBegins(end, played, q);
    t, next := Next(end, played), NewGoal(Behind(end, played).state, "");
  }

  /** The run stopped behind a review. */
  predicate Stopped(w: Work, q: Reminders) {
    && WorkOk(w, q) && w.session.outcome == Some(RunAwaiting) && w.session.beginning.None?
    && w.state.arm == PlainArm && w.state.nativeStart == 0 && w.state.interruption.None?
    && w.state.pauses != [] && Last(w.state.pauses).inspections == 0
  }

  lemma Stops(known: set<nat>, disk: RunState, w: Work, g: Goal, q: Reminders) returns (t: Work)
    requires Reaches(New(PlainArm), known, Attached(disk, w)) && Going(w, g, q)
    requires w.state.cursor < PlanLength(q) && BoundaryOf(EntryAt(q, w.state.cursor)).ReviewBoundary?
    ensures Reaches(New(PlainArm), known + {w.state.cursor}, Attached(w.state, t))
    ensures Stopped(t, q) && t.state.cursor == w.state.cursor + 1
    ensures Last(t.state.pauses).scope == BoundaryOf(EntryAt(q, w.state.cursor)).scope
    ensures Last(t.state.pauses).attempt == BoundaryOf(EntryAt(q, w.state.cursor)).attempt
  {
    var end, played := Played(known, disk, w, g, q);
    RunEnds(end, played, q);
    t := Finish(Behind(end, played), RunAwaiting);
  }

  lemma Completed(known: set<nat>, disk: RunState, w: Work, g: Goal, q: Reminders) returns (asked: set<nat>, s: RunState)
    requires Reaches(New(PlainArm), known, Attached(disk, w)) && Going(w, g, q)
    requires w.state.cursor + 1 == PlanLength(q) && BoundaryOf(EntryAt(q, w.state.cursor)) == NotReview
    ensures Reaches(New(PlainArm), asked, AtRest(s)) && RestOk(s, q)
    ensures s.status == RunStatus.Completed && s.arm == PlainArm && s.cursor == |s.plan|
  {
    var end, played := Played(known, disk, w, g, q);
    RunEnds(end, played, q);
    var t := Finish(Behind(end, played), RunCompleted);
    asked := known + {w.state.cursor};
    EndsCompleted(New(PlainArm), asked, w.state, t);
    s := t.state.(status := RunStatus.Completed, processes := SetLast(t.state.processes, Exited()));
    EndRest(t, Exited(), false, true, q);
    assert s == EndState(t, Exited(), false, true);
  }

  // ----- the verdict and the next launch -----

  lemma Awaits(w: Work, q: Reminders) returns (s: RunState)
    requires Stopped(w, q)
    ensures s == EndState(w, Exited(), false, true) && s.pauses == w.state.pauses && RestOk(s, q)
    ensures s.status == AwaitingVerdict && Undecided(s) && PauseBoundary(s) && s.processes != [] && CleanProcess(Last(s.processes))
    ensures s.cursor == w.state.cursor && s.interruption.None? && s.arm == PlainArm && s.nativeStart == 0
  {
    s := EndState(w, Exited(), false, true);
    EndRest(w, Exited(), false, true, q);
  }

  lemma Inspected(s: RunState, q: Reminders, decision: Decision)
    requires RestOk(s, q) && s.status == AwaitingVerdict && Undecided(s) && Last(s.pauses).inspections == 0
    requires s.processes != [] && CleanProcess(Last(s.processes))
    ensures RestOk(Counted(s), q) && UndecidedBoundary(Counted(s)) && Inspect(s, Submitted(decision, true)) == Apply(Counted(s), decision, true)
    ensures NextIsFinal(Counted(s), Last(s.pauses).scope) <==> Last(s.pauses).attempt == Count(q, Last(s.pauses).scope)
  {
    CountedRest(s, q);
    BoundaryAccepted(Counted(s));
    InspectedStop(s, q);
  }

  lemma InspectedStop(s: RunState, q: Reminders)
    requires RestOk(s, q) && s.status == AwaitingVerdict && Undecided(s)
    ensures FindGoal(s.goals, Last(s.pauses).goalIndex).Some?
    ensures NextIsFinal(s, Last(s.pauses).scope) <==> Last(s.pauses).attempt == Count(q, Last(s.pauses).scope)
  {
    LastPause(s, q);
    LastGoal(s, q);
  }

  /** The process ends and its review is decided. */
  lemma Decides(known: set<nat>, disk: RunState, w: Work, q: Reminders, decision: Decision) returns (s: RunState)
    requires Reaches(New(PlainArm), known, Attached(disk, w)) && Stopped(w, q)
    requires Last(w.state.pauses).attempt == Count(q, Last(w.state.pauses).scope)
    ensures Reaches(New(PlainArm), known, AtRest(s)) && RestOk(s, RemindersAfter(w.state, decision, q))
    ensures s.status == AwaitingVerdict && !Undecided(s) && s.interruption.None?
    ensures s.cursor == w.state.cursor && s.arm == PlainArm && s.nativeStart == 0
  {
    s := Ends(disk, w, q, decision);
    ReachesEnded(New(PlainArm), known, disk, w, Ended(Exited(), false, true, Submitted(decision, true)));
  }

  lemma Ends(disk: RunState, w: Work, q: Reminders, decision: Decision) returns (s: RunState)
    requires Stopped(w, q) && Last(w.state.pauses).attempt == Count(q, Last(w.state.pauses).scope)
    ensures End(disk, w, Exited(), false, true, Submitted(decision, true)) == AtRest(s)
    ensures RestOk(s, RemindersAfter(w.state, decision, q))
    ensures s.status == AwaitingVerdict && !Undecided(s) && s.interruption.None?
    ensures s.cursor == w.state.cursor && s.arm == PlainArm && s.nativeStart == 0
  {
    var ended := Awaits(w, q);
    Inspected(ended, q, decision);
    ApplyRest(Counted(ended), decision, true, q);
    s := Apply(Counted(ended), decision, true);
    Recorded(Counted(ended), decision);
  }

  lemma Recorded(s: RunState, decision: Decision)
    requires UndecidedBoundary(s) && NextIsFinal(s, Last(s.pauses).scope)
    ensures var after := Apply(s, decision, true);
      && after.status == AwaitingVerdict && !Undecided(after) && after.interruption == s.interruption
      && after.cursor == s.cursor && after.arm == s.arm && after.nativeStart == s.nativeStart
  {
  }

  /** The relaunched run asks for the Goal it waits at. */
  function Begun(w: Work): Work
    requires w.state.cursor > 0 && w.state.cursor <= |w.state.goals| && w.state.goals[w.state.cursor - 1].native.Some?
  {
    Work(w.state, Shown(w).session.(reconciled := true, phase := Running, beginning := Some(w.state.cursor)))
  }

  lemma BegunAsks(w: Work, q: Reminders)
    requires ReadyToBegin(w, q)
    requires var g := w.state.goals[w.state.cursor]; g.terminalTurn.None? && !g.terminalCompleted && !g.idle && g.usageTurn.None?
    requires w.state.cursor < |w.state.plan|
    ensures w.state.goals[w.state.cursor - 1].native.Some?
    ensures Act(Reconciled(Shown(w), true), Continued(Anyhow())) == Begun(w) && WorkOk(Begun(w), q)
  {
    PreviousHeld(w, q);
    var running := Work(w.state, Shown(w).session.(reconciled := true, phase := Running));
    assert WorkOk(running, q);
    FreshBegins(running, q);
    assert GoalFits(w.state, w.state.cursor);
  }

  lemma Resumes(known: set<nat>, disk: RunState, w: Work, q: Reminders)
    requires Reaches(New(PlainArm), known, Attached(disk, w)) && ReadyToBegin(w, q) && w.state.cursor < |w.state.plan|
    requires var g := w.state.goals[w.state.cursor]; g.terminalTurn.None? && !g.terminalCompleted && !g.idle && g.usageTurn.None?
    ensures w.state.goals[w.state.cursor - 1].native.Some? && Reaches(New(PlainArm), known, Attached(disk, Begun(w))) && WorkOk(Begun(w), q)
  {
    var o := New(PlainArm);
    ReachesAct(o, known, disk, w, ThreadAnswered(w.state.sessionId.value, true));
    ShowsPrevious(w, q);
    ReachesAct(o, known, disk, Reading(w), Notified(GoalUpdated(Holding(w), None), Anyhow()));
    AnswersPrevious(w, q);
    ReachesAct(o, known, disk, Shown(w), GoalAnswered(Some(Holding(w)), true, None));
    BegunAsks(w, q);
    ReachesAct(o, known, disk, Reconciled(Shown(w), true), Continued(Anyhow()));
  }

  lemma Relaunched(s: RunState, q: Reminders) returns (w: Work)
    requires RestOk(s, q) && s.status == AwaitingVerdict && !Undecided(s) && s.interruption.None?
    requires s.arm == PlainArm && s.nativeStart == 0
    ensures LaunchFrom(s, Plainly()) == Attached(LaunchFrom(s, Plainly()).disk, w)
    ensures ReadyToBegin(w, q) && w.state.cursor == s.cursor < |w.state.plan|
    ensures w.state.goals[w.state.cursor] == NewGoal(w.state, "")
    ensures w.state.arm == PlainArm && w.state.nativeStart == 0 && w.state.interruption.None?
  {
    DecidedResumes(s, Plainly());
    var m := LaunchFrom(s, Plainly());
    w := Work(m.live, m.session.value);
    var q2 := LaunchedWork(s, Plainly());
    var x := LaunchedState(s, Plainly());
    SettledBehind(s, q);
    assert m.live.plan == s.plan == AdaptivePlan(q);
    PlanTells(q, q2);
    WaitingReady(s, x, {}, w, q);
    FoundAt(x, x.cursor);
  }

  lemma SettledBehind(s: RunState, q: Reminders)
    requires RestOk(s, q) && s.status == AwaitingVerdict && s.interruption.None? && s.nativeStart == 0
    ensures Waiting(s, {}) && |s.goals| == s.cursor && s.thread == ExpectedStart(s, s.cursor)
  {
    LastPause(s, q);
    LastGoal(s, q);
  }

  /** A decided run is launched again and asks for the Goal its verdict chose. */
  lemma GoesOn(known: set<nat>, s: RunState, q: Reminders) returns (disk: RunState, w: Work, g: Goal)
    requires Reaches(New(PlainArm), known, AtRest(s)) && RestOk(s, q)
    requires s.status == AwaitingVerdict && !Undecided(s) && s.interruption.None? && s.arm == PlainArm && s.nativeStart == 0
    ensures Reaches(New(PlainArm), known, Attached(disk, w)) && Going(w, g, q) && w.state.cursor == s.cursor
  {
    var ready := Relaunched(s, q);
    ReachesOther(New(PlainArm), known, AtRest(s), Launch(Plainly()));
    disk := LaunchFrom(s, Plainly()).disk;
    Resumes(known, disk, ready, q);
    w, g := Begun(ready), ready.state.goals[ready.state.cursor];
  }

  // ----- the whole run -----

  lemma {:induction false} RunsTowards(known: set<nat>, disk: RunState, w: Work, g: Goal, q: Reminders, r: Reminders)
    returns (asked: set<nat>, s: RunState)
    requires Reaches(New(PlainArm), known, Attached(disk, w)) && Going(w, g, q)
    requires Bounded(r) && Towards(q, r, w.state.cursor)
    ensures Reaches(New(PlainArm), asked, AtRest(s)) && RestOk(s, r)
    ensures s.status == RunStatus.Completed && s.arm == PlainArm && s.cursor == |s.plan|
    decreases PlanLength(r) - w.state.cursor
  {
    NextEntry(q, r, w.state.cursor);
    var known2 := known + {w.state.cursor};
    match BoundaryOf(EntryAt(q, w.state.cursor)) {
      case NotReview =>
        if w.state.cursor + 1 == PlanLength(q) {
          asked, s := Completed(known, disk, w, g, q);
        } else {
          var t, next := Passes(known, disk, w, g, q);
          asked, s := RunsTowards(known2, w.state, t, next, q, r);
        }
      case ReviewBoundary(scope, _) =>
        var left, next, goal := GoesThrough(known, disk, w, g, q, Wanted(q, r, scope));
        asked, s := RunsTowards(known2, left, next, goal, if Count(q, scope) < Count(r, scope) then Reminded(q, scope) else q, r);
    }
  }

  /** A review is decided and the run goes on as the decision earns. */
  lemma GoesThrough(known: set<nat>, disk: RunState, w: Work, g: Goal, q: Reminders, decision: Decision)
    returns (left: RunState, next: Work, goal: Goal)
    requires Reaches(New(PlainArm), known, Attached(disk, w)) && Going(w, g, q) && w.state.cursor < PlanLength(q)
    requires BoundaryOf(EntryAt(q, w.state.cursor)).ReviewBoundary?
    requires var boundary := BoundaryOf(EntryAt(q, w.state.cursor));
      boundary.attempt == Count(q, boundary.scope) && (decision == Pass || boundary.attempt < 4)
    ensures Reaches(New(PlainArm), known + {w.state.cursor}, Attached(left, next)) && next.state.cursor == w.state.cursor + 1
    ensures Going(next, goal, if decision == Pass then q else Reminded(q, BoundaryOf(EntryAt(q, w.state.cursor)).scope))
  {
    var t := Stops(known, disk, w, g, q);
    var decided := Decides(known + {w.state.cursor}, w.state, t, q, decision);
    left, next, goal := GoesOn(known + {w.state.cursor}, decided, RemindersAfter(t.state, decision, q));
  }

  lemma AllStopped(s: RunState, r: Reminders)
    requires RestOk(s, r) && s.arm == PlainArm && s.cursor == |s.plan|
    ensures |s.pauses| == StopCount(r)
  {
    if |s.pauses| < StopCount(r) {
      assert StopAhead(s, r, |s.pauses|);
      StopIsBoundary(r, |s.pauses|);
    }
  }

  /** Any number of failed reviews within the limit is granted its reminders in some honest run, which completes with all of them. */
  lemma EveryPlanRuns(r: Reminders) returns (asked: set<nat>, s: RunState)
    requires r.backend <= 4 && r.frontend <= 4 && r.overall <= 4
    ensures Reaches(New(PlainArm), asked, AtRest(s)) && s.status == RunStatus.Completed && s.cursor == |s.plan|
    ensures s.plan == AdaptivePlan(r) && |s.plan| == 8 + r.backend + r.frontend + r.overall
    ensures |s.pauses| == 3 + r.backend + r.frontend + r.overall
  {
    var w, q := NewRequested(PlainArm);
    AdaptivePlanStartsAsBase();
    PlanTells(q, Reminders(0, 0, 0));
    asked, s := RunsTowards({}, Create(PlainArm), w, w.state.goals[0], q, r);
    AllStopped(s, r);
  }

  /** The bounds on objectives and pauses are reached. */
  lemma LongestPlanRuns() returns (asked: set<nat>, s: RunState)
    ensures Reaches(New(PlainArm), asked, AtRest(s)) && s.status == RunStatus.Completed
    ensures |s.plan| == 20 && |s.pauses| == 15
  {
    asked, s := EveryPlanRuns(Reminders(4, 4, 4));
  }
}
