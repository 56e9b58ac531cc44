/**
 What a retained state must look like for a resume, or for its completion, to be
 accepted: any state whatever, not only one a run has left.
 */
module ResumeExactness {
  import opened Prelude
  import opened TokenUsage
  import opened Instruction
  import opened GoalState
  import opened Validators
  import opened Supervision
  import opened PlanAcceptance
  import opened PlanExactness

  // ----- the stops of a plan -----

  lemma {:induction false} SilentStops(plan: Plan)
    ensures CompletedStops(Silent(plan)) == CompletedStops(plan)
  {
    if plan != [] {
      SilentStops(plan[..|plan| - 1]);
      assert Silent(plan)[..|plan| - 1] == Silent(plan[..|plan| - 1]);
    }
  }

  lemma StopsOfPlan(plan: Plan, r: Reminders, n: nat)
    requires IsAdaptive(plan, r) && n <= |plan|
    ensures CompletedStops(plan[..n]) == Stops(r, StopsBefore(r, n))
  {
    SilentIsAdaptive(plan, r);
    SilentStops(plan[..n]);
    assert Silent(plan)[..n] == Silent(plan[..n]);
    AdaptiveStops(r, n);
  }

  // ----- what a resume demands -----

  /** A completed Goal whose terminal turn, idle checkpoint and token boundary agree. */
  predicate Done(g: Goal) {
    && g.native.Some? && g.native.value.status == Complete
    && g.terminalTurn.Some? && g.terminalCompleted && g.idle && g.usageTurn == g.terminalTurn && g.end.Some?
  }

  /** Each record is its plan entry's, once, up to the cursor, and behind it every entry has its completed Goal. */
  predicate RecordsStand(s: RunState) {
    && s.cursor <= |s.plan|
    && (forall i | 0 <= i < |s.goals| ::
          && s.goals[i].index <= s.cursor && s.goals[i].index < |s.plan|
          && s.goals[i].name == s.plan[s.goals[i].index].name && s.goals[i].path == s.plan[s.goals[i].index].path)
    && (forall i, j | 0 <= i < j < |s.goals| :: s.goals[i].index != s.goals[j].index)
    && forall i | 0 <= i < s.cursor :: FindGoal(s.goals, i).Some? && Done(FindGoal(s.goals, i).value)
  }

  /** The pause is its stop's, behind a Goal at rest. */
  predicate PauseOfStop(s: RunState, r: Reminders, j: nat)
    requires j < |s.pauses|
  {
    var pause, stop := s.pauses[j], StopAt(r, j);
    && pause.scope == stop.scope && pause.attempt == stop.attempt && pause.goalIndex == stop.goalIndex
    && pause.afterGoal == EntryAt(r, stop.goalIndex).name
    && var g := FindGoal(s.goals, stop.goalIndex);
    g.Some? && g.value.name == pause.afterGoal && g.value.terminalTurn.Some? && g.value.terminalCompleted && g.value.idle
  }

  /** Undecided, it is the last one and the run has gone no further; decided, its verdict is what its place in the plan says. */
  predicate VerdictOfStop(s: RunState, r: Reminders, j: nat)
    requires j < |s.pauses| && StopAt(r, j).goalIndex < |s.plan|
  {
    var pause, stop, last := s.pauses[j], StopAt(r, j), j == |s.pauses| - 1;
    match pause.verdict
    case None =>
      && last && !pause.resumed && s.cursor == stop.goalIndex + 1
      && (s.status == AwaitingVerdict || (s.status == Live && s.interruption.None?))
    case Some(v) =>
      && v.scope == stop.scope && v.attempt == stop.attempt && v.goalIndex == stop.goalIndex
      && FindGoal(s.goals, stop.goalIndex).Some? && Some(v.terminalTurn) == FindGoal(s.goals, stop.goalIndex).value.terminalTurn
      && (v.continuation == Retry <==> stop.attempt < Count(r, stop.scope))
      && (v.continuation == Retry ==>
            v.decision == Decision.Fail && stop.goalIndex + 1 < |s.plan| && s.plan[stop.goalIndex + 1].feedback == v.feedback)
      && (v.continuation == ToFinal ==> v.decision == Pass || stop.attempt >= 4)
      && (pause.resumed <==> !(last && s.status == AwaitingVerdict && s.cursor == stop.goalIndex + 1))
  }

  predicate PausesStand(s: RunState, r: Reminders) {
    && |s.plan| == PlanLength(r) && s.cursor <= |s.plan|
    && (forall j: nat | j < StopCount(r) :: j < |s.pauses| <==> StopAt(r, j).goalIndex < s.cursor)
    && |s.pauses| <= StopCount(r)
    && forall j | 0 <= j < |s.pauses| :: PauseOfStop(s, r, j) && StopAt(r, j).goalIndex < |s.plan| && VerdictOfStop(s, r, j)
  }

  lemma PauseCount(s: RunState, r: Reminders)
    requires Bounded(r) && |s.plan| == PlanLength(r) && s.cursor <= |s.plan|
    ensures |s.pauses| == StopsBefore(r, s.cursor) <==>
      |s.pauses| <= StopCount(r) && forall j: nat | j < StopCount(r) :: j < |s.pauses| <==> StopAt(r, j).goalIndex < s.cursor
  {
    forall j: nat | j < StopCount(r) ensures j < StopsBefore(r, s.cursor) <==> StopAt(r, j).goalIndex < s.cursor {
      StopsBeforeCounts(r, s.cursor, j);
    }
    StopsBeforeCounts(r, s.cursor, 0);
    if |s.pauses| <= StopCount(r) && |s.pauses| != StopsBefore(r, s.cursor) { OtherCount(s, r); }
  }

  lemma OtherCount(s: RunState, r: Reminders)
    requires Bounded(r) && |s.plan| == PlanLength(r) && s.cursor <= |s.plan|
    requires |s.pauses| <= StopCount(r) && |s.pauses| != StopsBefore(r, s.cursor)
    ensures exists j: nat | j < StopCount(r) :: !(j < |s.pauses| <==> StopAt(r, j).goalIndex < s.cursor)
  {
    var j := if |s.pauses| < StopsBefore(r, s.cursor) then |s.pauses| else StopsBefore(r, s.cursor);
    StopsBeforeCounts(r, s.cursor, 0);
    StopsBeforeCounts(r, s.cursor, j);
    assert !(j < |s.pauses| <==> StopAt(r, j).goalIndex < s.cursor);
  }

  lemma NextEntry(plan: Plan, r: Reminders, j: nat)
    requires IsAdaptive(plan, r) && j < StopCount(r)
    ensures StopAt(r, j).goalIndex + 1 < |plan|
    ensures var stop, next := StopAt(r, j), plan[StopAt(r, j).goalIndex + 1];
      && plan[stop.goalIndex].name == EntryAt(r, stop.goalIndex).name
      && (next.kind == Base && next.name == Final(stop.scope) <==> stop.attempt >= Count(r, stop.scope))
      && (stop.attempt < Count(r, stop.scope) <==>
            next.kind == Supplement && next.reviewScope == Some(stop.scope) && next.reviewAttempt == Some(stop.attempt + 1))
  {
    StopIsBoundary(r, j);
    var at := StopAt(r, j).goalIndex;
    assert Matches(plan[at], EntryAt(r, at)) && Matches(plan[at + 1], EntryAt(r, at + 1));
  }

  lemma TransitionExactly(s: RunState, r: Reminders, j: nat)
    requires IsAdaptive(s.plan, r) && j < |s.pauses| <= StopCount(r)
    ensures StopAt(r, j).goalIndex < |s.plan|
    ensures TransitionValid(s, j, Some(StopAt(r, j))) <==> PauseOfStop(s, r, j) && VerdictOfStop(s, r, j)
  {
    NextEntry(s.plan, r, j);
  }

  lemma TransitionsExactly(s: RunState, r: Reminders)
    requires IsAdaptive(s.plan, r) && s.cursor <= |s.plan| && s.arm == PlainArm
    ensures ReviewTransitionsValid(s) <==> PausesStand(s, r)
  {
    StopsOfPlan(s.plan, r, s.cursor);
    PauseCount(s, r);
    var stops := CompletedStops(s.plan[..s.cursor]);
    StopsBeforeCounts(r, s.cursor, 0);
    if |s.pauses| == |stops| {
      forall j | 0 <= j < |s.pauses|
        ensures stops[j] == Some(StopAt(r, j)) && StopAt(r, j).goalIndex < |s.plan|
        ensures TransitionValid(s, j, stops[j]) <==> PauseOfStop(s, r, j) && VerdictOfStop(s, r, j)
      {
        TransitionExactly(s, r, j);
      }
    }
  }

  lemma RecordsExactly(s: RunState)
    ensures GoalsMatchPlan(s) <==> RecordsStand(s)
  {
    assert forall g: Goal :: Settled(g) <==> Done(g);
  }

  lemma OnePlan(plan: Plan, a: Reminders, b: Reminders)
    requires IsAdaptive(plan, a) && IsAdaptive(plan, b)
    ensures a == b
  {
    AdaptiveIsValid(plan, a);
    SilentIsAdaptive(plan, a);
    SilentIsAdaptive(plan, b);
    SameReminders(a, b);
  }

  lemma SameReminders(a: Reminders, b: Reminders)
    requires Bounded(a) && Bounded(b) && AdaptivePlan(a) == AdaptivePlan(b)
    ensures a == b
  {
    assert AdaptivePlan(a)[2 + a.backend] == AdaptivePlan(b)[2 + a.backend] && AdaptivePlan(a)[2 + b.backend] == AdaptivePlan(b)[2 + b.backend];
    if a.backend == b.backend {
      var n := 5 + a.backend;
      assert AdaptivePlan(a)[n + a.frontend] == AdaptivePlan(b)[n + a.frontend];
      assert n + b.frontend < PlanLength(a) ==> AdaptivePlan(a)[n + b.frontend] == AdaptivePlan(b)[n + b.frontend];
    }
  }

  /**
   A resume accepts a Plain state exactly when its plan is the base plan with
   reminders, its records are the plan's, complete behind the cursor, and its pauses
   are the plan's stops behind the cursor with the verdicts their places demand.
   */
  lemma PlainResumesExactly(s: RunState)
    requires s.arm == PlainArm
    ensures ValidateInstructionPlan(s) <==> RecordsStand(s) && exists r :: IsAdaptive(s.plan, r) && PausesStand(s, r)
  {
    PlainPlansExactly(s.plan);
    RecordsExactly(s);
    if PlanValid(PlainArm, s.plan) && RecordsStand(s) {
      var r :| IsAdaptive(s.plan, r);
      TransitionsExactly(s, r);
      if q :| IsAdaptive(s.plan, q) && PausesStand(s, q) { OnePlan(s.plan, r, q); }
    }
  }

  /** And an Evidence state exactly when its plan is the base plan, its records are the plan's, and it never paused. */
  lemma EvidenceResumesExactly(s: RunState)
    requires s.arm == EvidenceArm
    ensures ValidateInstructionPlan(s) <==> s.plan == BasePlan(EvidenceArm) && RecordsStand(s) && s.pauses == []
  {
    EvidencePlansExactly(s.plan);
    RecordsExactly(s);
    if s.plan == BasePlan(EvidenceArm) && s.cursor <= |s.plan| {
      forall i | 0 <= i < s.cursor ensures BoundaryOf(s.plan[..s.cursor][i]) != Malformed { }
      WellFormedStops(s.plan[..s.cursor]);
    }
  }

  // ----- what a completion demands -----

  /** The record of an entry: its own Goal on the run's thread, complete, and measured from where it had to start. */
  predicate EntryStands(s: RunState, i: nat)
    requires i < |s.plan|
  {
    var found := FindGoal(s.goals, i);
    && found.Some?
    && var g := found.value;
    && g.name == s.plan[i].name && g.path == s.plan[i].path && Done(g)
    && g.native.value.objective == g.objective && (i >= s.nativeStart ==> Some(g.native.value.thread) == s.sessionId)
    && g.end.value.total > g.start.total && AtLeast(g.end.value, g.start) && g.usage == Subtract(g.end.value, g.start)
    && (if i == 0 || i == s.nativeStart then g.start == Zero()
        else FindGoal(s.goals, i - 1).Some? && FindGoal(s.goals, i - 1).value.end == Some(g.start))
  }

  /** A state is accepted as completed exactly when each plan entry's record stands, the total is the last end, and the process ended well. */
  lemma CompletesExactly(s: RunState)
    ensures ValidateCompletedState(s) <==>
      && s.plan != [] && s.cursor == |s.plan| == |s.goals| && s.nativeStart < |s.plan| && s.nativeStart <= 1
      && (forall i | 0 <= i < |s.plan| :: EntryStands(s, i))
      && FindGoal(s.goals, |s.plan| - 1).Some? && FindGoal(s.goals, |s.plan| - 1).value.end == Some(s.thread)
      && s.processes != []
      && ((Last(s.processes).exitCode == Some(0) && !Last(s.processes).signalled) || Last(s.processes).forced)
  {
    forall i | 0 <= i < |s.plan| ensures CompletedGoalValid(s, i) <==> EntryStands(s, i) {
    }
  }

  // ----- what the report demands -----

  /** The verdicts the report accepts are those of consecutive attempts, and only a scope's last one leads to its Final unless it passed. */
  lemma ReportDemands(s: RunState, j: nat)
    requires CollectReviewVerdicts(s) && j < |s.pauses| && s.pauses[j].verdict.Some?
    ensures var pause, v := s.pauses[j], s.pauses[j].verdict.value;
      && v.scope == pause.scope && v.attempt == pause.attempt && v.goalIndex == pause.goalIndex && v.feedback.None?
      && pause.attempt == CountScope(s.pauses[..j], pause.scope)
      && (v.continuation == Retry ==> v.decision == Decision.Fail)
      && (v.continuation == ToFinal && v.decision == Decision.Fail ==>
            forall k | j < k < |s.pauses| :: s.pauses[k].scope != pause.scope)
  {
    assert ReportedVerdictValid(s.pauses, j);
  }

  // ----- what a decision demands, and does -----

  /** The pending pause, its Goal and its plan entry agree, and the process that ran it ended well. */
  predicate Pending(s: RunState) {
    && s.arm == PlainArm && s.status == AwaitingVerdict && s.sessionId.Some?
    && s.pauses != [] && s.goals != [] && s.processes != [] && 0 < s.cursor < |s.plan|
    && var pause, g, entry := Last(s.pauses), Last(s.goals), s.plan[s.cursor - 1];
    && pause.verdict.None? && !pause.resumed && BoundaryOf(entry) == ReviewBoundary(pause.scope, pause.attempt)
    && g.index == pause.goalIndex == s.cursor - 1 && g.name == pause.afterGoal == entry.name && g.path == entry.path
    && Done(g) && s.sessionId == Some(g.native.value.thread)
    && ((Last(s.processes).exitCode == Some(0) && !Last(s.processes).signalled) || Last(s.processes).forced)
    && s.plan[s.cursor].kind == Base && s.plan[s.cursor].name == Final(pause.scope)
  }

  /** A first, second, third or fourth failure earns another attempt. */
  predicate Earns(decision: Decision, attempt: nat) {
    decision == Decision.Fail && attempt < 4
  }

  /** The verdict a decision leaves with the pause. */
  function VerdictFor(pause: Pause, g: Goal, decision: Decision): Verdict
    requires g.terminalTurn.Some?
  {
    Verdict(
      pause.scope, pause.attempt, decision, if Earns(decision, pause.attempt) then Retry else ToFinal,
      g.index, g.terminalTurn.value, None)
  }

  /**
   A decision changes a state exactly where its last pause is pending: it places
   the next reminder before the Final where it earns one, and, if the verdict can be
   stored, retains it with the pause.
   */
  lemma DecidesExactly(s: RunState, decision: Decision, stored: bool)
    ensures Apply(s, decision, stored) ==
      if !Pending(s) then s
      else
        var pause, g := Last(s.pauses), Last(s.goals);
        s.(
          plan := if Earns(decision, pause.attempt)
                  then s.plan[..s.cursor] + [Reminder(pause.scope, pause.attempt + 1)] + s.plan[s.cursor..]
                  else s.plan,
          pauses := if stored
                    then s.pauses[..|s.pauses| - 1] + [pause.(verdict := Some(VerdictFor(pause, g, decision)))]
                    else s.pauses)
  {
    if Pending(s) {
      assert SetLast(s.pauses, Last(s.pauses)) == s.pauses;
    }
  }

  /** The verdict a resume may act on: the last pause's, decided and not yet resumed, that fits its Goal and the plan. */
  predicate Actionable(s: RunState) {
    && s.status == AwaitingVerdict && s.pauses != [] && s.goals != []
    && var pause, g := Last(s.pauses), Last(s.goals);
    && !pause.resumed && pause.verdict.Some?
    && g.index == pause.goalIndex && g.name == pause.afterGoal && g.terminalTurn.Some? && g.terminalCompleted && g.idle
    && var v := pause.verdict.value;
    && v.scope == pause.scope && v.attempt == pause.attempt && v.goalIndex == g.index && Some(v.terminalTurn) == g.terminalTurn
    && s.cursor < |s.plan|
    && var next := s.plan[s.cursor];
    if v.continuation == ToFinal then
      next.kind == Base && next.name == Final(pause.scope) && (v.decision == Pass || pause.attempt >= 4)
    else
      && v.decision == Decision.Fail && v.feedback.None? && next.feedback.None?
      && next.kind == Supplement && next.reviewScope == Some(pause.scope) && next.reviewAttempt == Some(pause.attempt + 1)
  }

  lemma ActsExactly(s: RunState)
    ensures DecidedBoundary(s) <==> Actionable(s)
  {
  }
}
