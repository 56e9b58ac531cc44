/**
 The live half of a run: one native thread driven Goal by Goal. The functions
 take the retained state together with what the process remembers, and follow
 the runner's handlers branch by branch.
 */
module GoalSession {
  import opened Prelude
  import opened TokenUsage
  import opened Instruction
  import opened GoalState

  datatype Mode = FreshThread | ResumedThread | ForkedThread

  datatype Outcome = RunCompleted | RunCheckpointed | RunAwaiting | RunInterrupted

  datatype TurnStatus = TurnCompleted | TurnFailed | TurnInterrupted | TurnOpen

  datatype ThreadStatus = IdleThread | BusyThread | SystemError | NotLoaded

  /** A native notification about the retained thread. */
  datatype Message =
    | TokensUpdated(tokensTurn: Option<nat>, usage: Option<Usage>)
    | TurnStarted
    | GoalUpdated(goal: Native, goalTurn: Option<nat>)
    | TurnEnded(endedTurn: nat, turnStatus: TurnStatus)
    | StatusChanged(threadStatus: ThreadStatus)

  /** How far the launching flow has come; at Running only notifications drive the run. */
  datatype Phase = Starting | Clearing | Resuming | Replaying(thenBegin: bool) | Dispatching | Running

  datatype Replay = Replay(turn: nat, usage: Usage)

  datatype Snapshot = Snapshot(goal: Native, index: nat)

  /** Where an advance is cut off for good: it waits at two places for what it published. */
  datatype Cut = Through | AtCheckpoint | AtBoundary

  /**
   What a handler takes from outside: the composed objective text, whether the
   review ledger certifies a dry round (true when there is no ledger), and where
   the process dies or ends.
   */
  datatype Context = Context(text: string, gate: bool, cut: Cut)

  datatype Session = Session(
    mode: Mode, phase: Phase, outcome: Option<Outcome>,
    reconciled: bool, snapshotPending: bool, snapshot: Option<Snapshot>,
    adopted: bool, nativeCompleted: bool, replay: Option<Replay>, backlog: seq<Message>,
    advancing: bool, beginning: Option<nat>, stopAfter: Option<StageName>)

  datatype Work = Work(state: RunState, session: Session)

  datatype Turn = Turn(id: nat, interrupted: bool)

  // ----- the record at the cursor -----

  function Current(s: RunState): Option<Goal> {
    FindGoal(s.goals, s.cursor)
  }

  /** Replaces the first record that has the given record's index. */
  function ReplaceGoal(goals: seq<Goal>, g: Goal): seq<Goal> {
    if goals == [] then []
    else if goals[0].index == g.index then [g] + goals[1..]
    else [goals[0]] + ReplaceGoal(goals[1..], g)
  }

  function WithGoal(s: RunState, g: Goal): RunState {
    s.(goals := ReplaceGoal(s.goals, g))
  }

  function NewGoal(s: RunState, text: string): Goal
    requires s.cursor < |s.plan|
  {
    Goal(s.cursor, s.plan[s.cursor].name, s.plan[s.cursor].path, text, None, None, false, false, None, s.thread, None, Zero())
  }

  /** Retains the record at the cursor, starting a new one at the current thread total. */
  function Prepare(s: RunState, text: string): RunState {
    if Current(s).Some? || s.cursor >= |s.plan| then s
    else s.(goals := s.goals + [NewGoal(s, text)])
  }

  predicate NativeMatches(g: Goal, native: Native, session: Option<nat>) {
    Some(native.thread) == session && native.objective == g.objective
  }

  predicate InterruptedStatus(status: GoalStatus) {
    status == Paused || status == Blocked || status == UsageLimited || status == BudgetLimited
  }

  predicate RetainedStatus(status: GoalStatus) {
    status == Active || status == Complete || InterruptedStatus(status)
  }

  predicate OwnsReplay(status: GoalStatus) {
    status == Active || InterruptedStatus(status)
  }

  // ----- outcomes -----

  function Finish(w: Work, outcome: Outcome): Work {
    Work(w.state, w.session.(outcome := if w.session.outcome.Some? then w.session.outcome else Some(outcome)))
  }

  /** An exception or a failing notification: the first one is retained. */
  function Interrupt(w: Work): Work {
    Finish(
      Work(w.state.(interruption := if w.state.interruption.Some? then w.state.interruption else Some(OtherFailure)), w.session),
      RunInterrupted)
  }

  // ----- beginning and completing a Goal -----

  /** Clears the boundary fields of the record at the cursor and asks the thread for its Goal. */
  function BeginGoal(w: Work, text: string): Work {
    var s := Prepare(w.state, text);
    match Current(s)
    case None => Interrupt(Work(s, w.session))
    case Some(g) =>
      if s.sessionId.None? then Interrupt(Work(s, w.session))
      else
        Work(
          WithGoal(s, g.(terminalTurn := None, terminalCompleted := false, idle := false, usageTurn := None)),
          w.session.(beginning := Some(g.index)))
  }

  /** The thread answers the request: its Goal is validated and retained. */
  function GoalAccepted(w: Work, native: Native): Work {
    match w.session.beginning
    case None => w
    case Some(index) =>
      var answered := w.session.(beginning := None);
      match FindGoal(w.state.goals, index)
      case None => Interrupt(Work(w.state, answered))
      case Some(g) =>
        if !NativeMatches(g, native, w.state.sessionId) then Interrupt(Work(w.state, answered))
        else Work(WithGoal(w.state, g.(native := Some(native))), answered.(advancing := false))
  }

  /** A native Goal's clock is cumulative over its thread and never runs backwards. */
  predicate TimeBoundary(s: RunState, g: Goal)
    requires g.native.Some?
  {
    var previous := if g.index == 0 then None else FindGoal(s.goals, g.index - 1);
    var baseline :=
      if g.index == s.nativeStart then 0
      else if previous.Some? && previous.value.native.Some? then previous.value.native.value.timeUsed
      else 0;
    g.native.value.timeUsed >= baseline
  }

  predicate AtTerminal(g: Goal) {
    g.native.Some? && g.native.value.status == Complete && g.terminalTurn.Some? && g.terminalCompleted && g.idle
  }

  /** Measures the completed record at the thread total. */
  function Close(s: RunState, g: Goal): RunState {
    WithGoal(s, g.(end := Some(s.thread), usage := Subtract(s.thread, g.start)))
  }

  function BoundaryAfter(s: RunState, g: Goal): Boundary {
    if s.arm == EvidenceArm || g.index >= |s.plan| then NotReview else BoundaryOf(s.plan[g.index])
  }

  /** Moves the cursor past a measured Goal and records the pause a review boundary asks for. */
  function Cross(s: RunState, g: Goal, boundary: Boundary): RunState {
    s.(
      cursor := s.cursor + 1,
      pauses := s.pauses + (
        if boundary.ReviewBoundary?
        then [Pause(boundary.scope, boundary.attempt, g.name, g.index, 0, None, false)]
        else []))
  }

  /** Behind the crossing: the process dies, stops where asked, awaits a verdict, or has finished the plan. */
  function Halt(w: Work, name: StageName, boundary: Boundary, cut: Cut): Option<Work> {
    if cut == AtBoundary then Some(Work(w.state, w.session.(phase := Running)))
    else if w.session.stopAfter == Some(name) then
      Some(if name == Start(Backend) then Finish(w, RunCheckpointed) else Interrupt(w))
    else if boundary.ReviewBoundary? then Some(Finish(w, RunAwaiting))
    else if w.state.cursor == |w.state.plan| then Some(Finish(w, RunCompleted))
    else None
  }

  /** Otherwise the next Goal begins. */
  function Leave(w: Work, name: StageName, boundary: Boundary, ctx: Context): Work {
    var halted := Halt(w, name, boundary, ctx.cut);
    if halted.Some? then halted.value else BeginGoal(w, ctx.text)
  }

  function CompleteGoal(w: Work, g: Goal, ctx: Context): Work {
    var s := Close(w.state, g);
    var session := w.session.(advancing := true);
    var boundary := BoundaryAfter(s, g);
    if ctx.cut == AtCheckpoint && g.index == 0 then Work(s, session.(phase := Running))
    else if boundary == Malformed then Interrupt(Work(s, session))
    else Leave(Work(Cross(s, g, boundary), session), g.name, boundary, ctx)
  }

  predicate CanComplete(s: RunState, g: Goal, gate: bool)
    requires g.native.Some?
  {
    && (g.name == Review(Backend) ==> gate)
    && Advanced(s.thread, g.start)
    && g.usageTurn == g.terminalTurn
    && TimeBoundary(s, g)
  }

  /** Completes the Goal at the cursor once every boundary fact about it is in. */
  function Advance(w: Work, ctx: Context): Work {
    if w.session.outcome.Some? then w
    else
      match Current(w.state)
      case None => Interrupt(w)
      case Some(g) =>
        if !w.session.reconciled || w.session.snapshotPending || w.session.advancing || !AtTerminal(g) then w
        else if !CanComplete(w.state, g, ctx.gate) then Interrupt(w)
        else CompleteGoal(w, g, ctx)
  }

  // ----- notifications -----

  predicate ForkPending(session: Session) {
    session.mode == ForkedThread && (session.phase == Starting || session.phase == Clearing)
  }

  /** What a forked thread may still say about the Goal it was forked from. */
  predicate ForkReplayAllowed(s: RunState, message: Message) {
    match message
    case TokensUpdated(turn, usage) =>
      usage.Some? ==>
        && usage.value == s.thread
        && s.cursor > 0
        && FindGoal(s.goals, s.cursor - 1).Some?
        && turn == FindGoal(s.goals, s.cursor - 1).value.usageTurn
    case GoalUpdated(_, turn) => turn.None?
    case StatusChanged(status) => status == IdleThread
    case _ => false
  }

  function Buffer(w: Work, message: Message): Work {
    Work(w.state, w.session.(backlog := w.session.backlog + [message]))
  }

  /** A live token checkpoint. The total moves before the record at the cursor is looked up. */
  function MeasureTokens(w: Work, turn: nat, usage: Usage, ctx: Context): Work {
    var s := w.state.(thread := usage);
    match Current(s)
    case None => Interrupt(Work(s, w.session))
    case Some(g) => Advance(Work(WithGoal(s, g.(usageTurn := Some(turn))), w.session), ctx)
  }

  function PreviousGoal(s: RunState, g: Goal): Option<Goal> {
    if g.index == 0 then None else FindGoal(s.goals, g.index - 1)
  }

  /** The counters a resumed thread replays must prove a retained boundary. */
  function ReplayTokens(w: Work, turn: nat, usage: Usage): Work {
    match Current(w.state)
    case None => Interrupt(w)
    case Some(g) =>
      var total := w.state.thread;
      var checkpointed := g.native.Some? && g.usageTurn.Some?;
      var adoptable := g.native.Some? && OwnsReplay(g.native.value.status);
      var retained := if checkpointed then Some(g) else PreviousGoal(w.state, g);
      var exact := retained.Some? && usage == total && retained.value.usageTurn == Some(turn)
        && (checkpointed || (Settled(retained.value) && retained.value.end == Some(total)));
      var midTurn := !checkpointed && adoptable && g.usageTurn.None? && g.terminalTurn.None? && !g.terminalCompleted
        && g.end.None? && usage == total && Advanced(total, g.start);
      if exact then w
      else if midTurn then Work(WithGoal(w.state, g.(usageTurn := Some(turn))), w.session)
      else if adoptable && Advanced(usage, total)
        && (w.session.replay.None? || w.session.replay == Some(Replay(turn, usage)))
      then Work(w.state, w.session.(replay := Some(Replay(turn, usage))))
      else Interrupt(w)
  }

  /** Whether the Goal before the one at the cursor is a complete, measured boundary at the thread total. */
  predicate PreviousBoundaryComplete(s: RunState, g: Goal) {
    var previous := PreviousGoal(s, g);
    if g.index == 0 then true
    else previous.Some? && Settled(previous.value) && Measured(previous.value) && previous.value.end == Some(s.thread)
  }

  predicate RetainedMatches(g: Goal, native: Native, session: Option<nat>) {
    g.native.Some? && NativeMatches(g, g.native.value, session) && NativeMatches(g, native, session)
  }

  /** The Goal a resumed thread still holds must be the retained one, or the one about to be dispatched. */
  function TakeSnapshot(w: Work, native: Native): Work {
    match Current(w.state)
    case None => Interrupt(w)
    case Some(g) =>
      var s, session := w.state, w.session;
      var previous := PreviousGoal(s, g);
      var retained := if g.native.Some? then Some(g) else previous;
      var taken := session.(snapshotPending := false, snapshot := Some(Snapshot(native, g.index)));
      if !session.snapshotPending || session.snapshot.Some? then Interrupt(w)
      else if g.native.None? && PreviousBoundaryComplete(s, g) && g.terminalTurn.None? && !g.terminalCompleted
        && g.usageTurn.None? && g.end.None? && g.start == s.thread && g.usage == Zero()
        && native.status == Active && native.tokensUsed == 0 && native.timeUsed == 0
      then
        if previous.Some? && !NativeMatches(previous.value, previous.value.native.value, s.sessionId) then Interrupt(w)
        else if !NativeMatches(g, native, s.sessionId) then Interrupt(w)
        else Work(WithGoal(s, g.(native := Some(native))), taken.(adopted := true))
      else if g.native.Some? && g.native.value.status == Active && native.status == Complete
        && g.terminalTurn.None? && !g.terminalCompleted && !g.idle && g.usageTurn.Some? && g.end.None?
        && g.usage == Zero() && Advanced(s.thread, g.start)
      then
        if RetainedMatches(g, native, s.sessionId) then Work(s, taken.(nativeCompleted := true)) else Interrupt(w)
      else if retained.Some? && retained.value.native.Some? && retained.value.native.value.status == native.status
        && RetainedMatches(retained.value, native, s.sessionId)
      then Work(s, taken.(snapshot := Some(Snapshot(native, retained.value.index))))
      else Interrupt(w)
  }

  /** What a validated Goal update leaves in the record. */
  function Updated(g: Goal, native: Native, turn: Option<nat>): Goal {
    if native.status == Complete && turn.Some?
    then g.(native := Some(native), terminalTurn := turn, terminalCompleted := false, idle := false)
    else g.(native := Some(native))
  }

  function UpdateGoal(w: Work, native: Native, turn: Option<nat>, ctx: Context): Work {
    match Current(w.state)
    case None => Interrupt(w)
    case Some(g) =>
      if !NativeMatches(g, native, w.state.sessionId) then Interrupt(w)
      else
        var after := Work(WithGoal(w.state, Updated(g, native, turn)), w.session);
        if InterruptedStatus(native.status) || (native.status == Complete && turn.None?) then Interrupt(after)
        else Advance(after, ctx)
  }

  function EndTurn(w: Work, turn: nat, status: TurnStatus, ctx: Context): Work {
    match Current(w.state)
    case None => Interrupt(w)
    case Some(g) =>
      var ended := g.(terminalCompleted := g.terminalCompleted || (g.terminalTurn == Some(turn) && status == TurnCompleted));
      var after := Work(WithGoal(w.state, ended), w.session);
      if status == TurnFailed || status == TurnInterrupted then Interrupt(after) else Advance(after, ctx)
  }

  function ChangeStatus(w: Work, status: ThreadStatus, ctx: Context): Work {
    match Current(w.state)
    case None => Interrupt(w)
    case Some(g) =>
      var after := Work(WithGoal(w.state, g.(idle := status == IdleThread)), w.session);
      if status == SystemError || status == NotLoaded then Interrupt(after) else Advance(after, ctx)
  }

  function StartTurn(w: Work): Work {
    match Current(w.state)
    case None => Interrupt(w)
    case Some(g) => Work(WithGoal(w.state, g.(idle := false)), w.session)
  }

  function Notify(w: Work, message: Message, ctx: Context): Work {
    var session := w.session;
    if w.state.sessionId.None? then Interrupt(w)
    else if ForkPending(session) then
      if ForkReplayAllowed(w.state, message) then w else Interrupt(w)
    else
      match message
      case TokensUpdated(turn, usage) =>
        if usage.None? then Advance(w, ctx)
        else if turn.None? then Interrupt(w)
        else if session.reconciled then MeasureTokens(w, turn.value, usage.value, ctx)
        else if session.snapshotPending then ReplayTokens(w, turn.value, usage.value)
        else Buffer(w, message)
      case GoalUpdated(native, turn) =>
        if session.reconciled then UpdateGoal(w, native, turn, ctx)
        else if turn.None? then TakeSnapshot(w, native)
        else Buffer(w, message)
      case TurnStarted => if session.reconciled then StartTurn(w) else Buffer(w, message)
      case TurnEnded(turn, status) => if session.reconciled then EndTurn(w, turn, status, ctx) else Buffer(w, message)
      case StatusChanged(status) => if session.reconciled then ChangeStatus(w, status, ctx) else Buffer(w, message)
  }

  // ----- proving a resumed boundary -----

  /** `findIndex` of a turn, optionally only an interrupted one; the length when absent. */
  function FindTurn(turns: seq<Turn>, id: nat, interruptedOnly: bool, from: nat): nat
    decreases |turns| - from
  {
    if from >= |turns| then from
    else if turns[from].id == id && (interruptedOnly ==> turns[from].interrupted) then from
    else FindTurn(turns, id, interruptedOnly, from + 1)
  }

  predicate InterruptedFrom(turns: seq<Turn>, from: nat) {
    forall i | from <= i < |turns| :: turns[i].interrupted
  }

  /** The turn whose counters are retained for the record: its own, or that of the boundary before it. */
  function RetainedTurn(s: RunState, g: Goal): Option<nat> {
    var previous := PreviousGoal(s, g);
    if g.usageTurn.Some? then g.usageTurn
    else if previous.Some? && Settled(previous.value) && previous.value.end == Some(s.thread) then previous.value.usageTurn
    else None
  }

  predicate ReplayProven(s: RunState, g: Goal, replay: Replay, turns: Option<seq<Turn>>) {
    && g.native.Some? && OwnsReplay(g.native.value.status)
    && RetainedTurn(s, g).Some?
    && turns.Some?
    && var retained := FindTurn(turns.value, RetainedTurn(s, g).value, false, 0);
    var replayed := FindTurn(turns.value, replay.turn, true, 0);
    && retained < |turns.value| && replayed < |turns.value|
    && ((Some(replay.turn) == g.usageTurn && replayed == retained) || replayed == retained + 1)
    && InterruptedFrom(turns.value, replayed)
  }

  /** Adopts the counters of an interrupted turn; None where the original throws. */
  function ReconcileReplay(w: Work, g: Goal, turns: Option<seq<Turn>>): Option<Work> {
    match w.session.replay
    case None => Some(w)
    case Some(replay) =>
      if !ReplayProven(w.state, g, replay, turns) then None
      else
        Some(Work(
          WithGoal(w.state.(thread := replay.usage), g.(usageTurn := Some(replay.turn))),
          w.session.(replay := None)))
  }

  /** A Goal that completed natively while the runner was gone must end at an interrupted turn. */
  predicate CompletedNatively(s: RunState, g: Goal, idle: bool, turns: Option<seq<Turn>>) {
    && g.native.Some? && g.native.value.status == Active
    && g.terminalTurn.None? && !g.terminalCompleted && !g.idle
    && g.usageTurn.Some? && g.end.None? && g.usage == Zero()
    && Advanced(s.thread, g.start) && idle && turns.Some?
    && var at := FindTurn(turns.value, g.usageTurn.value, true, 0);
    && at < |turns.value| && InterruptedFrom(turns.value, at)
  }

  function Reconciled(w: Work, thenBegin: bool): Work {
    Work(w.state, w.session.(reconciled := true, phase := Replaying(thenBegin)))
  }

  function Abandon(w: Work): Work {
    Interrupt(Work(w.state, w.session.(phase := Running)))
  }

  predicate UndispatchedBoundary(s: RunState, previous: Option<Goal>, snapshot: Snapshot, goal: Native) {
    && previous.Some?
    && Settled(previous.value)
    && Advanced(previous.value.end.value, previous.value.start) && previous.value.end == Some(s.thread)
    && snapshot.index == previous.value.index
    && snapshot.goal.status == Complete && goal.status == Complete
    && RetainedMatches(previous.value, snapshot.goal, s.sessionId)
    && NativeMatches(previous.value, goal, s.sessionId)
  }

  /** Resumes at the record that already holds a Goal. */
  function ResumeGoal(w: Work, g: Goal, snapshot: Snapshot, goal: Native, idle: bool, turns: Option<seq<Turn>>): Work
    requires g.native.Some?
  {
    var s := w.state;
    if !RetainedMatches(g, snapshot.goal, s.sessionId) || !NativeMatches(g, goal, s.sessionId) then Abandon(w)
    else if snapshot.index != g.index || !RetainedStatus(goal.status)
      || (snapshot.goal.status == Complete && goal.status != Complete)
      || !RetainedStatus(g.native.value.status)
    then Abandon(w)
    else if w.session.nativeCompleted && snapshot.goal.status == Complete && goal.status == Complete then
      var reconciled := ReconcileReplay(w, g, turns);
      if reconciled.None? then Abandon(w)
      else
        match Current(reconciled.value.state)
        case None => Abandon(reconciled.value)
        case Some(proved) =>
          if CompletedNatively(reconciled.value.state, proved, idle, turns) then Reconciled(reconciled.value, true)
          else Abandon(reconciled.value)
    else if snapshot.goal.status == Complete
      && (g.terminalTurn.None? || !g.terminalCompleted || !g.idle || g.usageTurn != g.terminalTurn)
    then Abandon(w)
    else
      var reconciled := ReconcileReplay(w, g, turns);
      if reconciled.None? then Abandon(w)
      else Reconciled(reconciled.value, w.session.adopted || InterruptedStatus(goal.status))
  }

  /** Reconciles a resumed thread with the retained state once it has said which Goal it holds. */
  function Resume(w: Work, goal: Option<Native>, idle: bool, turns: Option<seq<Turn>>): Work {
    var s, session := w.state, w.session;
    if session.outcome.Some? then Work(s, session.(phase := Running))
    else
      match Current(s)
      case None => Abandon(w)
      case Some(g) =>
        if goal.None? then
          var cleared := Work(s, session.(snapshotPending := false, reconciled := true));
          if g.index != 0 || g.native.Some? || session.snapshot.Some? then Abandon(cleared) else Reconciled(cleared, true)
        else if session.snapshot.None? then Abandon(w)
        else if g.native.None? then
          if UndispatchedBoundary(s, PreviousGoal(s, g), session.snapshot.value, goal.value)
          then Reconciled(w, true) else Abandon(w)
        else ResumeGoal(w, g, session.snapshot.value, goal.value, idle, turns)
  }

  // ----- the launching flow -----

  /** The thread is known: a fresh one may be idle already, a forked one owns the inherited Goals from now on. */
  function ThreadReady(w: Work, id: nat, idle: bool): Work {
    var s, session := w.state, w.session;
    match session.mode
    case FreshThread =>
      var named := s.(sessionId := Some(id));
      (match Current(named)
       case None => Abandon(Work(named, session))
       case Some(g) => Work(WithGoal(named, g.(idle := idle)), session.(phase := Dispatching)))
    case ResumedThread =>
      if s.sessionId != Some(id) then Abandon(w) else Work(s, session.(phase := Resuming))
    case ForkedThread =>
      Work(s.(sessionId := Some(id), goals := Rethreaded(s.goals, s.cursor, id)), session.(phase := Clearing))
  }

  function RethreadedGoal(g: Goal, cursor: nat, id: nat): Goal {
    if g.index < cursor && g.native.Some? then g.(native := Some(g.native.value.(thread := id))) else g
  }

  function Rethreaded(goals: seq<Goal>, cursor: nat, id: nat): seq<Goal> {
    seq(|goals|, i requires 0 <= i < |goals| => RethreadedGoal(goals[i], cursor, id))
  }

  function ForkCleared(w: Work): Work {
    Work(w.state, w.session.(snapshotPending := false, reconciled := true, phase := Dispatching))
  }

  /** The launching flow's next step: dispatch the Goal, or handle one buffered notification. */
  function Proceed(w: Work, ctx: Context): Work {
    var s, session := w.state, w.session;
    if session.outcome.Some? then Work(s, session.(phase := Running))
    else
      match session.phase
      case Dispatching => BeginGoal(Work(s, session.(phase := Running)), ctx.text)
      case Replaying(thenBegin) =>
        if session.backlog != [] then Notify(Work(s, session.(backlog := session.backlog[1..])), session.backlog[0], ctx)
        else if thenBegin then BeginGoal(Work(s, session.(phase := Running)), ctx.text)
        else Advance(Work(s, session.(phase := Running)), ctx)
      case _ => w
  }
}
