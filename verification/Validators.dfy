/**
 The three independently written checks a retained run must pass: the plan and
 transition validator a resume starts with, the completion validator, and the
 report's reading of the verdicts.
 */
module Validators {
  import opened Prelude
  import opened TokenUsage
  import opened Instruction
  import opened GoalState

  // ----- completion -----

  predicate CompletedGoalValid(s: RunState, index: nat)
    requires index < |s.plan|
  {
    var found := FindGoal(s.goals, index);
    var previous := if index == 0 then None else FindGoal(s.goals, index - 1);
    && found.Some?
    && var g := found.value;
    && g.name == s.plan[index].name && g.path == s.plan[index].path
    && g.native.Some?
    && (index >= s.nativeStart ==> s.sessionId == Some(g.native.value.thread))
    && g.native.value.objective == g.objective
    && Settled(g)
    && Measured(g)
    && if index == 0 || index == s.nativeStart then g.start == Zero()
       else previous.Some? && previous.value.end == Some(g.start)
  }

  predicate ValidateCompletedState(s: RunState) {
    && s.cursor == |s.plan| && |s.goals| == |s.plan|
    && s.plan != []
    && s.nativeStart < |s.plan| && s.nativeStart <= 1
    && (forall i | 0 <= i < |s.plan| :: CompletedGoalValid(s, i))
    && var last := FindGoal(s.goals, |s.plan| - 1);
    && last.Some? && last.value.end == Some(s.thread)
    && s.processes != [] && CleanProcess(Last(s.processes))
  }

  // ----- the plan -----

  function BaseEntries(plan: Plan): Plan {
    if plan == [] then []
    else BaseEntries(plan[..|plan| - 1]) + (if Last(plan).kind == Base then [Last(plan)] else [])
  }

  /** `findIndex` of a base entry by name, or the plan's length. */
  function FindBase(plan: Plan, name: StageName, from: nat): nat
    decreases |plan| - from
  {
    if from >= |plan| then from
    else if plan[from].kind == Base && plan[from].name == name then from
    else FindBase(plan, name, from + 1)
  }

  predicate SupplementValid(entry: PlanEntry, scope: Scope, attempt: nat) {
    && entry.kind == Supplement
    && entry.name == Remind(scope, attempt)
    && entry.path == InstructionPath(PlainArm, scope, RemindDocument)
    && entry.reviewScope == Some(scope)
    && entry.reviewAttempt == Some(attempt)
    && (entry.feedback.Some? ==> !Blank(entry.feedback.value))
  }

  predicate ScopeValid(arm: Arm, plan: Plan, scope: Scope) {
    if arm == EvidenceArm && scope == Overall then
      forall i | 0 <= i < |plan| :: plan[i].reviewScope != Some(scope)
    else
      var review, final := FindBase(plan, Review(scope), 0), FindBase(plan, Final(scope), 0);
      && review < |plan| && review < final < |plan|
      && final - review - 1 <= REVIEW_SUPPLEMENT_LIMIT
      && (forall i | review < i < final :: arm == PlainArm && SupplementValid(plan[i], scope, i - review))
  }

  function ScopeSupplements(arm: Arm, plan: Plan, scope: Scope): int {
    if arm == EvidenceArm && scope == Overall then 0
    else FindBase(plan, Final(scope), 0) - FindBase(plan, Review(scope), 0) - 1
  }

  predicate PlanValid(arm: Arm, plan: Plan) {
    && BaseEntries(plan) == BasePlan(arm)
    && ScopeValid(arm, plan, Backend) && ScopeValid(arm, plan, Frontend) && ScopeValid(arm, plan, Overall)
    && |plan| == |BasePlan(arm)| + ScopeSupplements(arm, plan, Backend) + ScopeSupplements(arm, plan, Frontend)
         + ScopeSupplements(arm, plan, Overall)
  }

  /** The scopes are checked one by one while their supplements are counted. */
  method ValidatePlan(arm: Arm, plan: Plan) returns (valid: bool)
    ensures valid <==> PlanValid(arm, plan)
  {
    if BaseEntries(plan) != BasePlan(arm) { return false; }
    var scopes := [Backend, Frontend, Overall];
    var supplementCount, i := 0, 0;
    while i < |scopes|
      invariant i <= |scopes|
      invariant forall k | 0 <= k < i :: ScopeValid(arm, plan, scopes[k])
      invariant supplementCount ==
        (if i > 0 then ScopeSupplements(arm, plan, Backend) else 0) + (if i > 1 then ScopeSupplements(arm, plan, Frontend) else 0)
        + (if i > 2 then ScopeSupplements(arm, plan, Overall) else 0)
    {
      if !ScopeValid(arm, plan, scopes[i]) {
        assert scopes[i] == Backend || scopes[i] == Frontend || scopes[i] == Overall;
        return false;
      }
      supplementCount := supplementCount + ScopeSupplements(arm, plan, scopes[i]);
      i := i + 1;
    }
    assert scopes[0] == Backend && scopes[1] == Frontend && scopes[2] == Overall;
    valid := |plan| == |BasePlan(arm)| + supplementCount;
  }

  // ----- review transitions -----

  /** The completed verdict boundaries of a plan prefix, in order; a malformed entry contributes None. */
  function CompletedStops(plan: Plan): seq<Option<Stop>> {
    if plan == [] then []
    else
      var rest := CompletedStops(plan[..|plan| - 1]);
      match BoundaryOf(Last(plan))
      case NotReview => rest
      case Malformed => rest + [None]
      case ReviewBoundary(scope, attempt) => rest + [Some(Stop(scope, attempt, |plan| - 1))]
  }

  predicate PauseMatchesGoal(s: RunState, pause: Pause, stop: Stop) {
    && pause.scope == stop.scope && pause.attempt == stop.attempt && pause.goalIndex == stop.goalIndex
    && pause.goalIndex < |s.plan| && pause.afterGoal == s.plan[pause.goalIndex].name
    && var goal := FindGoal(s.goals, stop.goalIndex);
    && goal.Some? && goal.value.name == pause.afterGoal
    && goal.value.terminalTurn.Some? && goal.value.terminalCompleted && goal.value.idle
  }

  /** The continuation a verdict chose must be the plan entry that follows. */
  predicate ContinuationMatches(plan: Plan, pause: Pause, verdict: Verdict) {
    var next := if pause.goalIndex + 1 < |plan| then Some(plan[pause.goalIndex + 1]) else None;
    match verdict.continuation
    case ToFinal =>
      && next.Some? && next.value.kind == Base && next.value.name == Final(pause.scope)
      && (verdict.decision == Pass || pause.attempt >= REVIEW_SUPPLEMENT_LIMIT)
    case Retry =>
      && verdict.decision == Fail
      && next.Some? && next.value.kind == Supplement && next.value.reviewScope == Some(pause.scope)
      && next.value.reviewAttempt == Some(pause.attempt + 1) && next.value.feedback == verdict.feedback
  }

  predicate TransitionValid(s: RunState, position: nat, stop: Option<Stop>)
    requires position < |s.pauses|
  {
    var pause := s.pauses[position];
    var latest := position == |s.pauses| - 1;
    && stop.Some?
    && PauseMatchesGoal(s, pause, stop.value)
    && match pause.verdict
       case None =>
         && latest
         && (s.status == AwaitingVerdict || (s.status == Live && s.interruption.None?))
         && !pause.resumed
         && s.cursor == pause.goalIndex + 1
       case Some(verdict) =>
         var pendingResume := latest && s.status == AwaitingVerdict && s.cursor == pause.goalIndex + 1;
         && verdict.scope == pause.scope && verdict.attempt == pause.attempt && verdict.goalIndex == pause.goalIndex
         && Some(verdict.terminalTurn) == FindGoal(s.goals, pause.goalIndex).value.terminalTurn
         && ContinuationMatches(s.plan, pause, verdict)
         && pause.resumed == !pendingResume
  }

  predicate ReviewTransitionsValid(s: RunState)
    requires s.cursor <= |s.plan|
  {
    var stops := CompletedStops(s.plan[..s.cursor]);
    if s.arm == EvidenceArm then None !in stops && s.pauses == []
    else
      && |s.pauses| == |stops|
      && forall i | 0 <= i < |s.pauses| :: TransitionValid(s, i, stops[i])
  }

  // ----- the whole retained instruction plan -----

  predicate GoalsMatchPlan(s: RunState) {
    && s.cursor <= |s.plan|
    && (forall i | 0 <= i < |s.goals| ::
          && s.goals[i].index < |s.plan| && s.goals[i].index <= s.cursor
          && s.goals[i].name == s.plan[s.goals[i].index].name && s.goals[i].path == s.plan[s.goals[i].index].path)
    && (forall i, j | 0 <= i < j < |s.goals| :: s.goals[i].index != s.goals[j].index)
    && (forall i | 0 <= i < s.cursor :: FindGoal(s.goals, i).Some? && Settled(FindGoal(s.goals, i).value))
  }

  predicate ValidateInstructionPlan(s: RunState) {
    PlanValid(s.arm, s.plan) && GoalsMatchPlan(s) && ReviewTransitionsValid(s)
  }

  // ----- the report's reading of the verdicts -----

  function Ordinal(pauses: seq<Pause>, position: nat): nat
    requires position <= |pauses|
  {
    CountScope(pauses[..position], if position < |pauses| then pauses[position].scope else Backend)
  }

  function CountScope(pauses: seq<Pause>, scope: Scope): nat {
    if pauses == [] then 0
    else CountScope(pauses[..|pauses| - 1], scope) + if Last(pauses).scope == scope then 1 else 0
  }

  predicate ReportedVerdictValid(pauses: seq<Pause>, position: nat)
    requires position < |pauses|
  {
    var pause := pauses[position];
    pause.verdict.Some? ==>
      var verdict := pause.verdict.value;
      var lastOfScope := forall other | position < other < |pauses| :: pauses[other].scope != pause.scope;
      && verdict.feedback.None?
      && (match verdict.continuation
          case ToFinal => verdict.decision == Pass || lastOfScope
          case Retry => verdict.decision == Fail)
      && verdict.scope == pause.scope && verdict.attempt == pause.attempt
      && pause.attempt == Ordinal(pauses, position)
      && verdict.goalIndex == pause.goalIndex
  }

  /** Whether the report accepts the retained verdicts rather than refusing the run. */
  predicate CollectReviewVerdicts(s: RunState) {
    forall i | 0 <= i < |s.pauses| :: ReportedVerdictValid(s.pauses, i)
  }
}
