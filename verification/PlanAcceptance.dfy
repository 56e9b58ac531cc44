/** The plan, transition and report validators accept what the live machine retains. */
module PlanAcceptance {
  import opened Prelude
  import opened TokenUsage
  import opened Instruction
  import opened GoalState
  import opened Validators
  import opened Supervision
  import opened GoalSafety
  import opened GoalMachine
  import opened GoalLaunch

  // ----- the plan -----

  /** How many base entries precede position `i` of an adaptive plan. */
  function BasesBefore(r: Reminders, i: nat): nat {
    var b, f, o := r.backend, r.frontend, r.overall;
    if i <= 2 then i
    else if i <= 2 + b then 2
    else if i <= 5 + b then i - b
    else if i <= 5 + b + f then 5
    else if i <= 7 + b + f then i - b - f
    else if i <= 7 + b + f + o then 7
    else 8
  }

  lemma BasesNext(plan: Plan, entry: PlanEntry)
    ensures BaseEntries(plan + [entry]) == BaseEntries(plan) + (if entry.kind == Base then [entry] else [])
  {
    assert (plan + [entry])[..|plan|] == plan;
  }

  lemma PrefixNext(r: Reminders, i: nat)
    requires 0 < i <= PlanLength(r)
    ensures AdaptivePlan(r)[..i] == AdaptivePlan(r)[..i - 1] + [EntryAt(r, i - 1)]
  {
  }

  /** The base entries of an adaptive plan are numbered without a gap. */
  lemma BaseNumbered(r: Reminders, i: nat)
    requires 0 < i <= PlanLength(r)
    ensures BasesBefore(r, i - 1) <= 8
    ensures EntryAt(r, i - 1).kind == Base ==>
      BasesBefore(r, i) == BasesBefore(r, i - 1) + 1 <= 8 && BasePlan(PlainArm)[BasesBefore(r, i - 1)] == EntryAt(r, i - 1)
    ensures EntryAt(r, i - 1).kind != Base ==> BasesBefore(r, i) == BasesBefore(r, i - 1)
  {
  }

  lemma {:induction false} AdaptiveBases(r: Reminders, i: nat)
    requires i <= PlanLength(r)
    ensures BasesBefore(r, i) <= 8
    ensures BaseEntries(AdaptivePlan(r)[..i]) == BasePlan(PlainArm)[..BasesBefore(r, i)]
  {
    if i > 0 {
      AdaptiveBases(r, i - 1);
      PrefixNext(r, i);
      BasesNext(AdaptivePlan(r)[..i - 1], EntryAt(r, i - 1));
      BaseNumbered(r, i);
    }
  }

  lemma {:induction false} BaseFound(plan: Plan, name: StageName, from: nat, at: nat)
    requires from <= at < |plan|
    requires plan[at].kind == Base && plan[at].name == name
    requires forall i | from <= i < at :: !(plan[i].kind == Base && plan[i].name == name)
    ensures FindBase(plan, name, from) == at
    decreases at - from
  {
    if from < at {
      BaseFound(plan, name, from + 1, at);
    }
  }

  function ReviewAt(r: Reminders, scope: Scope): nat {
    match scope
    case Backend => 1
    case Frontend => 4 + r.backend
    case Overall => 6 + r.backend + r.frontend
  }

  lemma AdaptiveScope(r: Reminders, scope: Scope)
    requires Bounded(r)
    ensures ScopeValid(PlainArm, AdaptivePlan(r), scope)
    ensures ScopeSupplements(PlainArm, AdaptivePlan(r), scope) == Count(r, scope)
  {
    var plan := AdaptivePlan(r);
    var review, final := ReviewAt(r, scope), ReviewAt(r, scope) + Count(r, scope) + 1;
    BaseFound(plan, Review(scope), 0, review);
    BaseFound(plan, Final(scope), 0, final);
  }

  lemma AdaptivePlanValid(r: Reminders)
    requires Bounded(r)
    ensures PlanValid(PlainArm, AdaptivePlan(r))
  {
    var plan := AdaptivePlan(r);
    assert plan[..PlanLength(r)] == plan;
    AdaptiveBases(r, PlanLength(r));
    assert BasePlan(PlainArm)[..8] == BasePlan(PlainArm);
    AdaptiveScope(r, Backend);
    AdaptiveScope(r, Frontend);
    AdaptiveScope(r, Overall);
  }

  lemma {:induction false} AllBases(plan: Plan)
    requires forall i | 0 <= i < |plan| :: plan[i].kind == Base
    ensures BaseEntries(plan) == plan
  {
    if plan != [] {
      AllBases(plan[..|plan| - 1]);
      assert plan[|plan| - 1] == Last(plan);
    }
  }

  lemma EvidencePlanValid()
    ensures PlanValid(EvidenceArm, BasePlan(EvidenceArm))
  {
    var plan := BasePlan(EvidenceArm);
    AllBases(plan);
    BaseFound(plan, Review(Backend), 0, 1);
    BaseFound(plan, Final(Backend), 0, 2);
    BaseFound(plan, Review(Frontend), 0, 4);
    BaseFound(plan, Final(Frontend), 0, 5);
  }

  // ----- review transitions -----

  /** How many stops precede position `i`. */
  function StopsBefore(r: Reminders, i: nat): nat {
    var b, f, o := r.backend, r.frontend, r.overall;
    if i <= 1 then 0
    else if i <= 2 + b then i - 1
    else if i <= 4 + b then b + 1
    else if i <= 5 + b + f then i - 3
    else if i <= 6 + b + f then b + f + 2
    else if i <= 7 + b + f + o then i - 4
    else b + f + o + 3
  }

  function Stops(r: Reminders, n: nat): seq<Option<Stop>> {
    seq(n, j => if j >= 0 then Some(StopAt(r, j)) else None)
  }

  function StopOf(entry: PlanEntry, index: nat): seq<Option<Stop>> {
    match BoundaryOf(entry)
    case NotReview => []
    case Malformed => [None]
    case ReviewBoundary(scope, attempt) => [Some(Stop(scope, attempt, index))]
  }

  lemma StopsNext(plan: Plan, entry: PlanEntry)
    ensures CompletedStops(plan + [entry]) == CompletedStops(plan) + StopOf(entry, |plan|)
  {
    assert (plan + [entry])[..|plan|] == plan;
  }

  /** The boundaries of an adaptive plan are numbered without a gap. */
  lemma StopNumbered(r: Reminders, i: nat)
    requires Bounded(r) && 0 < i <= PlanLength(r)
    ensures Stops(r, StopsBefore(r, i)) == Stops(r, StopsBefore(r, i - 1)) + StopOf(EntryAt(r, i - 1), i - 1)
  {
    BoundaryIsStop(r, i - 1);
    if BoundaryOf(EntryAt(r, i - 1)).ReviewBoundary? {
      var k := StopIndex(r, i - 1);
      StopIsBoundary(r, k);
      StopCounted(r, i);
    } else {
      StopCountSteady(r, i);
    }
  }

  lemma StopCounted(r: Reminders, i: nat)
    requires Bounded(r) && 0 < i <= PlanLength(r) && BoundaryOf(EntryAt(r, i - 1)).ReviewBoundary?
    ensures StopIndex(r, i - 1) == StopsBefore(r, i - 1) && StopsBefore(r, i) == StopsBefore(r, i - 1) + 1
  {
  }

  lemma {:induction false} AdaptiveStops(r: Reminders, i: nat)
    requires Bounded(r) && i <= PlanLength(r)
    ensures CompletedStops(AdaptivePlan(r)[..i]) == Stops(r, StopsBefore(r, i))
  {
    if i > 0 {
      AdaptiveStops(r, i - 1);
      PrefixNext(r, i);
      StopsNext(AdaptivePlan(r)[..i - 1], EntryAt(r, i - 1));
      StopNumbered(r, i);
    }
  }

  lemma StopCountSteady(r: Reminders, i: nat)
    requires Bounded(r) && 0 < i <= PlanLength(r)
    requires BoundaryOf(EntryAt(r, i - 1)) == NotReview
    ensures StopsBefore(r, i) == StopsBefore(r, i - 1)
  {
  }

  lemma StopsBeforeCounts(r: Reminders, i: nat, j: nat)
    requires j < StopCount(r) && i <= PlanLength(r)
    ensures j < StopsBefore(r, i) <==> StopAt(r, j).goalIndex < i
    ensures StopsBefore(r, i) <= StopCount(r)
  {
  }

  /** The retained pauses are the stops behind the cursor. */
  lemma PausesAreStops(s: RunState, r: Reminders)
    requires Shape(s, r) && s.arm == PlainArm
    ensures |s.pauses| == StopsBefore(r, s.cursor)
    ensures CompletedStops(s.plan[..s.cursor]) == Stops(r, |s.pauses|)
  {
    AdaptiveStops(r, s.cursor);
    if |s.pauses| > 0 {
      assert PauseFits(s, r, |s.pauses| - 1);
      StopsBeforeCounts(r, s.cursor, |s.pauses| - 1);
    }
    if |s.pauses| < StopCount(r) {
      assert StopAhead(s, r, |s.pauses|);
      StopsBeforeCounts(r, s.cursor, |s.pauses|);
    } else {
      StopsBeforeCounts(r, s.cursor, 0);
    }
  }

  lemma {:induction false} WellFormedStops(plan: Plan)
    requires forall i | 0 <= i < |plan| :: BoundaryOf(plan[i]) != Malformed
    ensures None !in CompletedStops(plan)
  {
    if plan != [] {
      WellFormedStops(plan[..|plan| - 1]);
      assert plan[|plan| - 1] == Last(plan);
    }
  }

  lemma PauseGoal(s: RunState, r: Reminders, j: nat)
    requires Shape(s, r) && s.arm == PlainArm && j < |s.pauses|
    ensures PauseMatchesGoal(s, s.pauses[j], StopAt(r, j))
    ensures s.pauses[j].goalIndex < |s.goals|
    ensures FindGoal(s.goals, s.pauses[j].goalIndex) == Some(s.goals[s.pauses[j].goalIndex])
  {
    assert PauseFits(s, r, j);
    FoundAt(s, s.pauses[j].goalIndex);
    assert GoalFits(s, s.pauses[j].goalIndex);
  }

  lemma PauseContinues(s: RunState, r: Reminders, j: nat)
    requires Shape(s, r) && s.arm == PlainArm && j < |s.pauses| && s.pauses[j].verdict.Some?
    ensures ContinuationMatches(s.plan, s.pauses[j], s.pauses[j].verdict.value)
  {
    assert PauseFits(s, r, j);
    StopIsBoundary(r, j);
  }

  /** Only an undecided last pause can be refused, and only when its run neither lives nor awaits. */
  predicate Resumable(s: RunState) {
    Undecided(s) ==> s.status == AwaitingVerdict || (s.status == Live && s.interruption.None?)
  }

  lemma TransitionAccepted(s: RunState, r: Reminders, j: nat)
    requires Shape(s, r) && s.arm == PlainArm && j < |s.pauses|
    ensures TransitionValid(s, j, Some(StopAt(r, j))) <==> (j == |s.pauses| - 1 ==> Resumable(s))
  {
    PauseGoal(s, r, j);
    assert PauseFits(s, r, j);
    if s.pauses[j].verdict.Some? {
      PauseContinues(s, r, j);
      if j < |s.pauses| - 1 {
        assert PauseFits(s, r, |s.pauses| - 1);
      }
    }
  }

  lemma TransitionsAccepted(s: RunState, r: Reminders)
    requires Shape(s, r)
    ensures ReviewTransitionsValid(s) <==> Resumable(s)
  {
    if s.arm == EvidenceArm {
      WellFormedStops(s.plan[..s.cursor]);
    } else {
      PausesAreStops(s, r);
      var stops := CompletedStops(s.plan[..s.cursor]);
      forall j | 0 <= j < |s.pauses|
        ensures stops[j] == Some(StopAt(r, j))
        ensures TransitionValid(s, j, stops[j]) <==> (j == |s.pauses| - 1 ==> Resumable(s))
      {
        TransitionAccepted(s, r, j);
      }
      if ReviewTransitionsValid(s) && s.pauses != [] {
        assert TransitionValid(s, |s.pauses| - 1, stops[|s.pauses| - 1]);
      }
    }
  }

  lemma GoalsAccepted(s: RunState, r: Reminders)
    requires Shape(s, r)
    ensures GoalsMatchPlan(s)
  {
    forall i | 0 <= i < |s.goals|
      ensures s.goals[i].index == i && s.goals[i].name == s.plan[i].name && s.goals[i].path == s.plan[i].path
    {
      assert GoalFits(s, i);
    }
    forall i | 0 <= i < s.cursor ensures FindGoal(s.goals, i).Some? && Settled(FindGoal(s.goals, i).value) {
      FoundAt(s, i);
      assert GoalFits(s, i);
    }
  }

  /** A resume accepts exactly the reachable states whose pending verdict it may wait for. */
  lemma PlanAccepted(s: RunState)
    requires Sound(s)
    ensures ValidateInstructionPlan(s) <==> Resumable(s)
  {
    var r :| RestOk(s, r);
    if s.arm == PlainArm {
      AdaptivePlanValid(r);
    } else {
      EvidencePlanValid();
    }
    GoalsAccepted(s, r);
    TransitionsAccepted(s, r);
  }

  // ----- the report -----

  /** Attempts of a scope are numbered from zero without a gap. */
  lemma {:induction false} AttemptsCount(s: RunState, r: Reminders, n: nat, scope: Scope)
    requires Shape(s, r) && s.arm == PlainArm && n <= |s.pauses|
    ensures CountScope(s.pauses[..n], scope) ==
      match scope
      case Backend => if n <= r.backend + 1 then n else r.backend + 1
      case Frontend => if n <= r.backend + 1 then 0 else if n <= r.backend + r.frontend + 2 then n - r.backend - 1 else r.frontend + 1
      case Overall => if n <= r.backend + r.frontend + 2 then 0 else n - r.backend - r.frontend - 2
  {
    if n > 0 {
      AttemptsCount(s, r, n - 1, scope);
      assert s.pauses[..n][..n - 1] == s.pauses[..n - 1];
      assert PauseFits(s, r, n - 1);
    }
  }

  lemma AttemptIsOrdinal(s: RunState, r: Reminders, j: nat)
    requires Shape(s, r) && s.arm == PlainArm && j < |s.pauses|
    ensures s.pauses[j].attempt == Ordinal(s.pauses, j)
  {
    assert PauseFits(s, r, j);
    AttemptsCount(s, r, j, s.pauses[j].scope);
  }

  /** A scope's last attempt is the one whose verdict leads to its Final. */
  lemma FinalIsLast(s: RunState, r: Reminders, j: nat, k: nat)
    requires Shape(s, r) && s.arm == PlainArm && j < k < |s.pauses|
    requires s.pauses[j].verdict.Some? && s.pauses[j].verdict.value.continuation == ToFinal
    ensures s.pauses[k].scope != s.pauses[j].scope
  {
    assert PauseFits(s, r, j) && PauseFits(s, r, k);
    assert ContinuationOf(s.pauses[j].verdict.value.decision, StopAt(r, j).attempt) == ToFinal;
    StopIsBoundary(r, j);
  }

  lemma VerdictReported(s: RunState, r: Reminders, j: nat)
    requires Shape(s, r) && s.arm == PlainArm && j < |s.pauses|
    ensures ReportedVerdictValid(s.pauses, j)
  {
    assert PauseFits(s, r, j);
    AttemptIsOrdinal(s, r, j);
    if s.pauses[j].verdict.Some? && s.pauses[j].verdict.value.continuation == ToFinal {
      forall k | j < k < |s.pauses| ensures s.pauses[k].scope != s.pauses[j].scope {
        FinalIsLast(s, r, j, k);
      }
    }
  }

  /** The report reads every reachable verdict history without refusing it. */
  lemma VerdictsReported(s: RunState)
    requires Sound(s)
    ensures CollectReviewVerdicts(s)
  {
    var r :| RestOk(s, r);
    forall j | 0 <= j < |s.pauses| ensures ReportedVerdictValid(s.pauses, j) {
      VerdictReported(s, r, j);
    }
  }

  // ----- the history of a scope -----

  /** What a recorded verdict means for the plan. */
  predicate PlanFollows(s: RunState, j: nat)
    requires j < |s.pauses| && s.pauses[j].verdict.Some?
  {
    var pause, verdict, at := s.pauses[j], s.pauses[j].verdict.value, s.pauses[j].goalIndex;
    && at + 1 < |s.plan|
    && (verdict.continuation == Retry <==> verdict.decision == Decision.Fail && pause.attempt < 4)
    && s.plan[at + 1] == (if verdict.continuation == Retry then Reminder(pause.scope, pause.attempt + 1)
                          else BaseEntry(PlainArm, Final(pause.scope)))
  }

  /** What it means for the pause that comes next. */
  predicate PauseFollows(s: RunState, j: nat)
    requires j < |s.pauses| && s.pauses[j].verdict.Some?
  {
    j + 1 < |s.pauses| ==>
      var pause, next := s.pauses[j], s.pauses[j + 1];
      if pause.verdict.value.continuation == Retry
      then next.scope == pause.scope && next.attempt == pause.attempt + 1 && next.goalIndex == pause.goalIndex + 1
      else next.scope != pause.scope && next.attempt == 0
  }

  lemma PlanFollowsVerdict(s: RunState, r: Reminders, j: nat)
    requires Shape(s, r) && s.arm == PlainArm && j < |s.pauses| && s.pauses[j].verdict.Some?
    ensures PlanFollows(s, j)
  {
    assert PauseFits(s, r, j);
    StopIsBoundary(r, j);
    assert s.plan[s.pauses[j].goalIndex + 1] == EntryAt(r, s.pauses[j].goalIndex + 1);
  }

  lemma PauseFollowsVerdict(s: RunState, r: Reminders, j: nat)
    requires Shape(s, r) && s.arm == PlainArm && j < |s.pauses| && s.pauses[j].verdict.Some?
    ensures PauseFollows(s, j)
  {
    assert PauseFits(s, r, j);
    if j + 1 < |s.pauses| {
      assert PauseFits(s, r, j + 1);
      NextStopAfter(r, j);
    }
  }

  /**
   A failure below the limit is followed by its scope's next reminder and attempt,
   anything else by the scope's Final and the first attempt of another scope.
   */
  lemma VerdictFollows(s: RunState, j: nat)
    requires Sound(s) && j < |s.pauses| && s.pauses[j].verdict.Some?
    ensures PlanFollows(s, j) && PauseFollows(s, j)
  {
    var r :| RestOk(s, r);
    PlanFollowsVerdict(s, r, j);
    PauseFollowsVerdict(s, r, j);
  }

  lemma NextStopAfter(r: Reminders, j: nat)
    requires Bounded(r) && j + 1 < StopCount(r)
    ensures var stop, next := StopAt(r, j), StopAt(r, j + 1);
      if stop.attempt < Count(r, stop.scope) then next == Stop(stop.scope, stop.attempt + 1, stop.goalIndex + 1)
      else next.scope != stop.scope && next.attempt == 0
  {
  }
}
