/** What a benchmark run retains: its plan, its Goal records, its verdict pauses. */
module GoalState {
  import opened Prelude
  import opened TokenUsage
  import opened Instruction

  datatype GoalStatus = Active | Complete | Paused | Blocked | UsageLimited | BudgetLimited | OtherStatus

  /** A native Goal snapshot. */
  datatype Native = Native(thread: nat, objective: string, status: GoalStatus, tokensUsed: nat, timeUsed: nat)

  datatype Goal = Goal(
    index: nat, name: StageName, path: InstructionPath, objective: string,
    native: Option<Native>, terminalTurn: Option<nat>, terminalCompleted: bool, idle: bool,
    usageTurn: Option<nat>, start: Usage, end: Option<Usage>, usage: Usage)

  datatype Decision = Pass | Fail

  datatype Continuation = ToFinal | Retry

  datatype Verdict = Verdict(
    scope: Scope, attempt: nat, decision: Decision, continuation: Continuation,
    goalIndex: nat, terminalTurn: nat, feedback: Option<string>)

  datatype Pause = Pause(
    scope: Scope, attempt: nat, afterGoal: StageName, goalIndex: nat,
    inspections: nat, verdict: Option<Verdict>, resumed: bool)

  datatype Process = Process(exitCode: Option<int>, signalled: bool, forced: bool)

  datatype Interruption = CleanupFailure | OtherFailure

  datatype RunStatus = Ready | Live | AwaitingVerdict | Checkpointed | Completed | Interrupted

  datatype RunState = RunState(
    arm: Arm, plan: Plan, cursor: nat, goals: seq<Goal>, thread: Usage,
    nativeStart: nat, sessionId: Option<nat>, status: RunStatus, interruption: Option<Interruption>,
    processes: seq<Process>, pauses: seq<Pause>)

  const ATTEMPT_LIMIT: nat := 3

  function Create(arm: Arm): RunState {
    RunState(arm, BasePlan(arm), 0, [], Zero(), 0, None, Ready, None, [], [])
  }

  /** `goals.find(goal => goal.index === index)`. */
  function FindGoal(goals: seq<Goal>, index: nat): Option<Goal> {
    if goals == [] then None
    else if goals[0].index == index then Some(goals[0])
    else FindGoal(goals[1..], index)
  }

  predicate CleanProcess(p: Process) {
    (p.exitCode == Some(0) && !p.signalled) || p.forced
  }

  /** A Goal whose terminal turn, idle checkpoint and token boundary all agree. */
  predicate Settled(g: Goal) {
    && g.native.Some? && g.native.value.status == Complete
    && g.terminalTurn.Some? && g.terminalCompleted && g.idle
    && g.usageTurn == g.terminalTurn
    && g.end.Some?
  }

  predicate Measured(g: Goal) {
    g.end.Some? && Advanced(g.end.value, g.start) && g.usage == Subtract(g.end.value, g.start)
  }

  /** The counters the run's own thread begins with: its first Goal's start, or the total while that Goal has no record. */
  function ThreadStart(s: RunState): Usage {
    if s.nativeStart < |s.goals| then s.goals[s.nativeStart].start else s.thread
  }

  /** Where a Goal's counters must start: where the run's own thread begins, else where the previous Goal ended. */
  function ExpectedStart(s: RunState, i: nat): Usage {
    if i == s.nativeStart then ThreadStart(s)
    else if i == 0 || i > |s.goals| || s.goals[i - 1].end.None? then Zero()
    else s.goals[i - 1].end.value
  }

  lemma {:induction false} FindGoalAt(goals: seq<Goal>, base: nat, index: nat)
    requires forall i | 0 <= i < |goals| :: goals[i].index == base + i
    ensures FindGoal(goals, index) ==
      if base <= index < base + |goals| then Some(goals[index - base]) else None
  {
    if goals != [] && goals[0].index != index {
      FindGoalAt(goals[1..], base + 1, index);
    }
  }
}
