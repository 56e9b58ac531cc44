/**
 Runs of the Goal machine: a retained state on disk, a live one in memory while
 a native process is attached, and every event that may reach either. The
 process may be killed between any two events; a later launch starts from disk.
 */
module GoalMachine {
  import opened Prelude
  import opened TokenUsage
  import opened Instruction
  import opened GoalState
  import opened Validators
  import opened Supervision
  import opened GoalSession

  datatype InspectionResult = InspectionFailed | Submitted(decision: Decision, stored: bool)

  datatype Options = Options(
    fork: bool, stopAfter: Option<StageName>, text: string, processAlive: bool, inspection: InspectionResult)

  datatype Event =
    | Launch(options: Options)
    | ThreadAnswered(id: nat, idle: bool)
    | ForkReset
    | GoalAnswered(goal: Option<Native>, threadIdle: bool, turns: Option<seq<Turn>>)
    | Continued(ctx: Context)
    | Notified(message: Message, ctx: Context)
    | GoalSet(native: Native)
    | Disturbed                 // the process, its pipes, a request or a publication fails
    | Published                 // the live state reaches the disk
    | Ended(process: Process, cleanupFailed: bool, published: bool, inspection: InspectionResult)
    | Killed
    | Decided(decision: Decision)

  datatype Machine = Machine(disk: RunState, live: RunState, session: Option<Session>)

  function AtRest(s: RunState): Machine {
    Machine(s, s, None)
  }

  function Attached(disk: RunState, w: Work): Machine {
    Machine(disk, w.state, Some(w.session))
  }

  /** A state derived from a backend-start checkpoint carries that Goal and no thread of its own yet. */
  predicate Inherited(s: RunState) {
    && |s.goals| == 1
    && s == Create(s.arm).(cursor := 1, nativeStart := 1, goals := s.goals, thread := s.thread)
    && var g := s.goals[0];
    && g.index == 0 && g.name == s.plan[0].name && g.path == s.plan[0].path && g.start == Zero()
    && Settled(g) && Measured(g) && g.native.value.objective == g.objective
  }

  /** It continues the source's thread: it has none of its own yet, and stands at the total where the source's Goal ended. */
  predicate Forkable(s: RunState) {
    s.sessionId.None? && s.nativeStart == 1 == s.cursor && s.goals != [] && s.goals[0].end == Some(s.thread)
  }

  /** A run starts from nothing, or derived from a checkpoint: for a new thread at zero, or for a fork at the source's total. */
  predicate Initial(m: Machine) {
    && m == AtRest(m.disk)
    && (m.disk == Create(m.disk.arm) || (Inherited(m.disk) && (m.disk.thread == Zero() || Forkable(m.disk))))
  }

  // ----- inspecting a pending review -----

  predicate Undecided(s: RunState) {
    s.pauses != [] && Last(s.pauses).verdict.None?
  }

  predicate CanInspect(s: RunState) {
    Undecided(s) && Last(s.pauses).inspections < ATTEMPT_LIMIT
  }

  function Counted(s: RunState): RunState
    requires s.pauses != []
  {
    s.(pauses := SetLast(s.pauses, Last(s.pauses).(inspections := Last(s.pauses).inspections + 1)))
  }

  /** One bounded inspection: it is counted before it runs, and a failed one leaves the pause undecided. */
  function Inspect(s: RunState, result: InspectionResult): RunState {
    if s.pauses == [] || FindGoal(s.goals, Last(s.pauses).goalIndex).None?
      || Last(s.pauses).inspections >= ATTEMPT_LIMIT
    then s
    else
      match result
      case InspectionFailed => Counted(s)
      case Submitted(decision, stored) => Apply(Counted(s), decision, stored)
  }

  // ----- launching -----

  function NewSession(s: RunState, options: Options): Session {
    var mode := if options.fork then ForkedThread else if s.sessionId.None? then FreshThread else ResumedThread;
    Session(mode, Starting, None, mode == FreshThread, mode != FreshThread, None, false, false, None, [], false, None,
            options.stopAfter)
  }

  predicate Recoverable(s: RunState, processAlive: bool) {
    s.interruption == Some(CleanupFailure) && s.processes != [] && Last(s.processes).forced && !processAlive
  }

  /** A state whose plan is finished is completed without a process, or refused. */
  function Conclude(s: RunState, processAlive: bool): RunState {
    if s.interruption.Some? && !Recoverable(s, processAlive) then s.(status := Interrupted)
    else if ValidateCompletedState(s) then s.(status := Completed, interruption := None)
    else s.(status := Interrupted, interruption := Some(OtherFailure))
  }

  /** The state a process starts with. */
  function Prepared(s: RunState, text: string): RunState {
    Prepare(s, text).(status := Live, interruption := None, processes := s.processes + [Process(None, false, false)])
  }

  /** Only a state derived for it is launched as a fork. */
  function Attach(disk: RunState, s: RunState, options: Options): Machine {
    if s.cursor >= |s.plan| then AtRest(Conclude(s, options.processAlive))
    else if options.fork && !Forkable(s) then AtRest(disk)
    else Attached(disk, Work(Prepared(s, options.text), NewSession(s, options)))
  }

  predicate ResumeMatches(s: RunState) {
    && s.cursor > 0 && s.pauses != []
    && var pause, previous := Last(s.pauses), FindGoal(s.goals, s.cursor - 1);
    && previous.Some? && !pause.resumed && pause.verdict.Some?
    && pause.afterGoal == previous.value.name && pause.goalIndex == previous.value.index
  }

  function MarkResumed(s: RunState): RunState
    requires s.pauses != []
  {
    s.(pauses := SetLast(s.pauses, Last(s.pauses).(resumed := true)))
  }

  /** Starts a run from the retained state; nothing changes where the original throws. */
  function LaunchFrom(s: RunState, options: Options): Machine {
    if !ValidateInstructionPlan(s) then AtRest(s)
    else if s.arm == PlainArm && Undecided(s) && s.status == Live && s.interruption.None? then
      AtRest(s.(status := AwaitingVerdict))
    else if s.status == AwaitingVerdict then
      var inspected := if CanInspect(s) then Inspect(s, options.inspection) else s;
      if !DecidedBoundary(inspected) || !ResumeMatches(inspected) then AtRest(inspected)
      else Attach(inspected, MarkResumed(inspected), options)
    else Attach(s, s, options)
  }

  // ----- the end of a process -----

  function StatusOf(outcome: Outcome): RunStatus {
    match outcome
    case RunCompleted => Completed
    case RunCheckpointed => Checkpointed
    case RunAwaiting => AwaitingVerdict
    case RunInterrupted => Interrupted
  }

  /** The pause the run ended at is exactly the undecided boundary behind the cursor. */
  predicate PauseBoundary(s: RunState) {
    && s.cursor > 0 && s.pauses != []
    && var pause, goal := Last(s.pauses), FindGoal(s.goals, s.cursor - 1);
    && goal.Some? && pause.afterGoal == goal.value.name && pause.goalIndex == goal.value.index
    && pause.verdict.None? && !pause.resumed
  }

  function EndState(w: Work, process: Process, cleanupFailed: bool, published: bool): RunState
    requires w.session.outcome.Some?
  {
    var outcome := w.session.outcome.value;
    var failed := cleanupFailed || (outcome == RunCompleted && !CleanProcess(process));
    var interruption :=
      if w.state.interruption.Some? || !failed then w.state.interruption
      else if cleanupFailed then Some(CleanupFailure)
      else Some(OtherFailure);
    var clean := CleanProcess(process) && interruption.None? && published;
    w.state.(
      processes := if w.state.processes == [] then [process] else SetLast(w.state.processes, process),
      interruption := interruption,
      status := if clean then StatusOf(outcome) else Interrupted)
  }

  /** The process is gone: the run settles its status, inspects a pending review, and retains the result. */
  function End(disk: RunState, w: Work, process: Process, cleanupFailed: bool, published: bool, inspection: InspectionResult): Machine {
    var ended := if w.session.outcome.None? then Interrupt(w) else w;
    var s := EndState(ended, process, cleanupFailed, published);
    if !published || (s.status == AwaitingVerdict && !PauseBoundary(s)) then AtRest(disk)
    else if s.status == AwaitingVerdict then AtRest(Inspect(s, inspection))
    else AtRest(s)
  }

  // ----- events -----

  /**
   Notifications are handled one at a time, and not while the launching flow
   itself dispatches or replays. The thread never reports a Goal complete before
   it has answered the request that set it.
   */
  predicate Enabled(session: Session, message: Message) {
    && !session.phase.Dispatching? && !session.phase.Replaying?
    && (session.beginning.Some? ==> !(message.GoalUpdated? && message.goal.status == Complete))
  }

  function Act(w: Work, e: Event): Work {
    var session := w.session;
    match e
    case ThreadAnswered(id, idle) => if session.phase == Starting then ThreadReady(w, id, idle) else w
    case ForkReset => if session.phase == Clearing then ForkCleared(w) else w
    case GoalAnswered(goal, idle, turns) =>
      if session.phase == Resuming && (goal.None? || session.snapshot.Some? || session.outcome.Some?)
      then Resume(w, goal, idle, turns) else w
    case Continued(ctx) => if session.beginning.None? then Proceed(w, ctx) else w
    case Notified(message, ctx) => if Enabled(session, message) then Notify(w, message, ctx) else w
    case GoalSet(native) => GoalAccepted(w, native)
    case Disturbed => Interrupt(w)
    case _ => w
  }

  function Step(m: Machine, e: Event): Machine {
    match m.session
    case None =>
      (match e
       case Launch(options) => LaunchFrom(m.disk, options)
       case Decided(decision) => AtRest(Apply(m.disk, decision, true))
       case _ => m)
    case Some(session) =>
      match e
      case Launch(_) => m
      case Decided(_) => m
      case Published => m.(disk := m.live)
      case Killed => AtRest(m.disk)
      case Ended(process, cleanupFailed, published, inspection) =>
        End(m.disk, Work(m.live, session), process, cleanupFailed, published, inspection)
      case _ => Attached(m.disk, Act(Work(m.live, session), e))
  }

  function Run(m: Machine, events: seq<Event>): Machine {
    if events == [] then m else Step(Run(m, events[..|events| - 1]), events[|events| - 1])
  }
}
