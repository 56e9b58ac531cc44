/** Deciding a paused review: the boundary it must land on and the continuation it grants. */
module Supervision {
  import opened Prelude
  import opened TokenUsage
  import opened Instruction
  import opened GoalState

  predicate UndecidedBoundary(s: RunState) {
    && s.arm == PlainArm
    && s.sessionId.Some?
    && s.status == AwaitingVerdict
    && s.pauses != [] && s.goals != [] && s.processes != []
    && 0 < s.cursor <= |s.plan|
    && var pause, goal, entry := Last(s.pauses), Last(s.goals), s.plan[s.cursor - 1];
    && BoundaryOf(entry) == ReviewBoundary(pause.scope, pause.attempt)
    && !pause.resumed && pause.verdict.None?
    && goal.index == pause.goalIndex && goal.index == s.cursor - 1
    && goal.name == pause.afterGoal && goal.name == entry.name && goal.path == entry.path
    && Settled(goal) && Some(goal.native.value.thread) == s.sessionId
    && CleanProcess(Last(s.processes))
  }

  predicate NextIsFinal(s: RunState, scope: Scope) {
    s.cursor < |s.plan| && s.plan[s.cursor].kind == Base && s.plan[s.cursor].name == Final(scope)
  }

  /** Only a failure below the limit earns another attempt. */
  function ContinuationOf(decision: Decision, attempt: nat): Continuation {
    if decision == Pass || attempt >= REVIEW_SUPPLEMENT_LIMIT then ToFinal else Retry
  }

  /** Places the reminder a retry needs. */
  function PlanContinuation(s: RunState, continuation: Continuation): RunState
    requires s.pauses != [] && s.cursor <= |s.plan|
  {
    var pause := Last(s.pauses);
    if continuation == Retry then s.(plan := Insert(s.plan, s.cursor, Reminder(pause.scope, pause.attempt + 1))) else s
  }

  function RecordVerdict(s: RunState, decision: Decision): RunState
    requires s.pauses != [] && s.goals != [] && Last(s.goals).terminalTurn.Some?
  {
    var pause, goal := Last(s.pauses), Last(s.goals);
    var verdict := Verdict(
      pause.scope, pause.attempt, decision, ContinuationOf(decision, pause.attempt),
      goal.index, goal.terminalTurn.value, None);
    s.(pauses := SetLast(s.pauses, pause.(verdict := Some(verdict))))
  }

  /**
   Applies one decision to the pending pause. The state is left as it is where
   the original throws, except that a verdict whose file cannot be stored has
   already placed the reminder its retry needs.
   */
  function Apply(s: RunState, decision: Decision, stored: bool): RunState {
    if !UndecidedBoundary(s) || !NextIsFinal(s, Last(s.pauses).scope) then s
    else
      var planned := PlanContinuation(s, ContinuationOf(decision, Last(s.pauses).attempt));
      if stored then RecordVerdict(planned, decision) else planned
  }

  /** The boundary, the verdict and the next plan entry a resume relies on still agree. */
  predicate DecidedBoundary(s: RunState) {
    && s.status == AwaitingVerdict
    && s.pauses != [] && s.goals != []
    && var pause, goal := Last(s.pauses), Last(s.goals);
    && !pause.resumed && pause.verdict.Some?
    && goal.index == pause.goalIndex && goal.name == pause.afterGoal
    && goal.terminalTurn.Some? && goal.terminalCompleted && goal.idle
    && var verdict := pause.verdict.value;
    && verdict.scope == pause.scope && verdict.attempt == pause.attempt && verdict.goalIndex == goal.index
    && Some(verdict.terminalTurn) == goal.terminalTurn
    && match verdict.continuation
       case ToFinal =>
         NextIsFinal(s, pause.scope) && (verdict.decision == Pass || pause.attempt >= REVIEW_SUPPLEMENT_LIMIT)
       case Retry =>
         && verdict.decision == Decision.Fail && verdict.feedback.None?
         && s.cursor < |s.plan|
         && s.plan[s.cursor].kind == Supplement && s.plan[s.cursor].reviewScope == Some(pause.scope)
         && s.plan[s.cursor].reviewAttempt == Some(pause.attempt + 1) && s.plan[s.cursor].feedback.None?
  }
}
