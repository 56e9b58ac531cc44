/** Every handler of the live session keeps the invariant and every Goal's start. */
module GoalEvents {
  import opened Prelude
  import opened TokenUsage
  import opened Instruction
  import opened GoalState
  import opened GoalSession
  import opened GoalMachine
  import opened GoalSafety

  // ----- notifications -----

  /** A changed record at the cursor, after which the handler advances or stops. */
  lemma SetAndAdvance(w: Work, thread: Usage, g: Goal, ctx: Context, r: Reminders)
    requires WorkOk(w, r) && |w.state.goals| == w.state.cursor + 1 && SameRecord(w.state, g)
    requires w.session.beginning.Some? ==> g.terminalTurn.None?
    ensures var after := Work(WithGoal(w.state.(thread := thread), g), w.session);
      Kept(w, after, r) && Kept(w, Interrupt(after), r) && Kept(w, Advance(after, ctx), r)
  {
    RecordSet(w, thread, g, w.session, r);
    var after := Work(WithGoal(w.state.(thread := thread), g), w.session);
    InterruptAfter(w, after, r);
    AdvanceKeeps(after, ctx, r);
    KeptJoins(w, after, Advance(after, ctx), r);
  }

  lemma SameThread(s: RunState)
    ensures s.(thread := s.thread) == s
  {
  }

  lemma MeasureKeeps(w: Work, turn: nat, usage: Usage, ctx: Context, r: Reminders)
    requires WorkOk(w, r)
    ensures Kept(w, MeasureTokens(w, turn, usage, ctx), r)
  {
    var s := w.state.(thread := usage);
    FoundAt(w.state, w.state.cursor);
    if |s.goals| == s.cursor {
      InterruptWith(w, usage, r);
    } else {
      SetAndAdvance(w, usage, s.goals[s.cursor].(usageTurn := Some(turn)), ctx, r);
    }
  }

  lemma SessionMoves(w: Work, session: Session, r: Reminders)
    requires WorkOk(w, r)
    requires session == w.session.(
      snapshot := session.snapshot, snapshotPending := session.snapshotPending, adopted := session.adopted,
      nativeCompleted := session.nativeCompleted, replay := session.replay, backlog := session.backlog,
      advancing := session.advancing, reconciled := session.reconciled)
    ensures Kept(w, Work(w.state, session), r)
  {
  }

  lemma ReplayKeeps(w: Work, turn: nat, usage: Usage, r: Reminders)
    requires WorkOk(w, r)
    ensures Kept(w, ReplayTokens(w, turn, usage), r)
  {
    FoundAt(w.state, w.state.cursor);
    InterruptKeeps(w, r);
    SessionMoves(w, w.session.(replay := Some(Replay(turn, usage))), r);
    if |w.state.goals| == w.state.cursor + 1 {
      SameThread(w.state);
      SetAndAdvance(w, w.state.thread, w.state.goals[w.state.cursor].(usageTurn := Some(turn)), Context("", true, Through), r);
    }
  }

  lemma SnapshotKeeps(w: Work, native: Native, r: Reminders)
    requires WorkOk(w, r)
    ensures Kept(w, TakeSnapshot(w, native), r)
  {
    var s := w.state;
    FoundAt(s, s.cursor);
    InterruptKeeps(w, r);
    if |s.goals| == s.cursor + 1 {
      var g := s.goals[s.cursor];
      var taken := w.session.(snapshotPending := false, snapshot := Some(Snapshot(native, g.index)));
      SnapshotTaken(w, native, g, taken, r);
    }
  }

  lemma SnapshotTaken(w: Work, native: Native, g: Goal, taken: Session, r: Reminders)
    requires WorkOk(w, r) && |w.state.goals| == w.state.cursor + 1 && g == w.state.goals[w.state.cursor]
    requires taken == w.session.(snapshotPending := false, snapshot := Some(Snapshot(native, g.index)))
    ensures NativeMatches(g, native, w.state.sessionId) ==>
      Kept(w, Work(WithGoal(w.state, g.(native := Some(native))), taken.(adopted := true)), r)
    ensures Kept(w, Work(w.state, taken.(nativeCompleted := true)), r)
    ensures forall index: nat :: Kept(w, Work(w.state, taken.(snapshot := Some(Snapshot(native, index)))), r)
  {
    if NativeMatches(g, native, w.state.sessionId) {
      SameThread(w.state);
      RecordSet(w, w.state.thread, g.(native := Some(native)), taken.(adopted := true), r);
    }
    SessionMoves(w, taken.(nativeCompleted := true), r);
    forall index: nat ensures Kept(w, Work(w.state, taken.(snapshot := Some(Snapshot(native, index)))), r) {
      SessionMoves(w, taken.(snapshot := Some(Snapshot(native, index))), r);
    }
  }

  lemma UpdatedKeeps(w: Work, g: Goal, native: Native, turn: Option<nat>, ctx: Context, r: Reminders)
    requires WorkOk(w, r) && |w.state.goals| == w.state.cursor + 1 && g == w.state.goals[w.state.cursor]
    requires NativeMatches(g, native, w.state.sessionId)
    requires w.session.beginning.Some? ==> native.status != Complete
    ensures var after := Work(WithGoal(w.state, Updated(g, native, turn)), w.session);
      Kept(w, Interrupt(after), r) && Kept(w, Advance(after, ctx), r)
  {
    SameThread(w.state);
    SetAndAdvance(w, w.state.thread, Updated(g, native, turn), ctx, r);
  }

  lemma UpdateKeeps(w: Work, native: Native, turn: Option<nat>, ctx: Context, r: Reminders)
    requires WorkOk(w, r)
    requires w.session.beginning.Some? ==> native.status != Complete
    ensures Kept(w, UpdateGoal(w, native, turn, ctx), r)
  {
    var s := w.state;
    FoundAt(s, s.cursor);
    if |s.goals| == s.cursor || !NativeMatches(s.goals[s.cursor], native, s.sessionId) {
      InterruptKeeps(w, r);
    } else {
      UpdatedKeeps(w, s.goals[s.cursor], native, turn, ctx, r);
    }
  }

  lemma EndTurnKeeps(w: Work, turn: nat, status: TurnStatus, ctx: Context, r: Reminders)
    requires WorkOk(w, r)
    ensures Kept(w, EndTurn(w, turn, status, ctx), r)
  {
    var s := w.state;
    FoundAt(s, s.cursor);
    if |s.goals| == s.cursor {
      InterruptKeeps(w, r);
    } else {
      SameThread(s);
      var g := s.goals[s.cursor];
      SetAndAdvance(w, s.thread, g.(terminalCompleted := g.terminalCompleted || (g.terminalTurn == Some(turn) && status == TurnCompleted)), ctx, r);
    }
  }

  lemma IdleKeeps(w: Work, idle: bool, ctx: Context, r: Reminders)
    requires WorkOk(w, r) && |w.state.goals| == w.state.cursor + 1
    ensures var after := Work(WithGoal(w.state, w.state.goals[w.state.cursor].(idle := idle)), w.session);
      Kept(w, after, r) && Kept(w, Interrupt(after), r) && Kept(w, Advance(after, ctx), r)
  {
    SameThread(w.state);
    SetAndAdvance(w, w.state.thread, w.state.goals[w.state.cursor].(idle := idle), ctx, r);
  }

  lemma StatusKeeps(w: Work, status: ThreadStatus, ctx: Context, r: Reminders)
    requires WorkOk(w, r)
    ensures Kept(w, ChangeStatus(w, status, ctx), r)
  {
    FoundAt(w.state, w.state.cursor);
    if |w.state.goals| == w.state.cursor {
      InterruptKeeps(w, r);
    } else {
      IdleKeeps(w, status == IdleThread, ctx, r);
    }
  }

  lemma StartTurnKeeps(w: Work, r: Reminders)
    requires WorkOk(w, r)
    ensures Kept(w, StartTurn(w), r)
  {
    FoundAt(w.state, w.state.cursor);
    if |w.state.goals| == w.state.cursor {
      InterruptKeeps(w, r);
    } else {
      IdleKeeps(w, false, Context("", true, Through), r);
    }
  }

  /** What a reconciled session does with a notification. */
  lemma ReceivedKeeps(w: Work, message: Message, ctx: Context, r: Reminders)
    requires WorkOk(w, r) && w.session.reconciled && w.state.sessionId.Some? && !ForkPending(w.session)
    requires w.session.beginning.Some? ==> !(message.GoalUpdated? && message.goal.status == Complete)
    ensures Kept(w, Notify(w, message, ctx), r)
  {
    match message {
      case TokensUpdated(turn, usage) =>
        if usage.None? {
          AdvanceKeeps(w, ctx, r);
        } else if turn.None? {
          InterruptKeeps(w, r);
        } else {
          MeasureKeeps(w, turn.value, usage.value, ctx, r);
        }
      case GoalUpdated(native, turn) => UpdateKeeps(w, native, turn, ctx, r);
      case TurnStarted => StartTurnKeeps(w, r);
      case TurnEnded(turn, status) => EndTurnKeeps(w, turn, status, ctx, r);
      case StatusChanged(status) => StatusKeeps(w, status, ctx, r);
    }
  }

  lemma BufferKeeps(w: Work, message: Message, r: Reminders)
    requires WorkOk(w, r)
    ensures Kept(w, Buffer(w, message), r)
  {
    SessionMoves(w, w.session.(backlog := w.session.backlog + [message]), r);
  }

  /** What a session that is not reconciled yet does with a notification. */
  lemma DeferredKeeps(w: Work, message: Message, ctx: Context, r: Reminders)
    requires WorkOk(w, r) && !w.session.reconciled && w.state.sessionId.Some? && !ForkPending(w.session)
    ensures Kept(w, Notify(w, message, ctx), r)
  {
    if message.TokensUpdated? && message.usage.None? {
      AdvanceKeeps(w, ctx, r);
    } else if message.TokensUpdated? && message.tokensTurn.None? {
      InterruptKeeps(w, r);
    } else if message.TokensUpdated? && w.session.snapshotPending {
      ReplayKeeps(w, message.tokensTurn.value, message.usage.value, r);
    } else if message.GoalUpdated? && message.goalTurn.None? {
      SnapshotKeeps(w, message.goal, r);
    } else {
      BufferKeeps(w, message, r);
    }
  }

  lemma NotifyKeeps(w: Work, message: Message, ctx: Context, r: Reminders)
    requires WorkOk(w, r)
    requires w.session.beginning.Some? ==> !(message.GoalUpdated? && message.goal.status == Complete)
    ensures Kept(w, Notify(w, message, ctx), r)
  {
    if w.state.sessionId.None? || ForkPending(w.session) {
      KeptSelf(w, r);
      InterruptKeeps(w, r);
    } else if w.session.reconciled {
      ReceivedKeeps(w, message, ctx, r);
    } else {
      DeferredKeeps(w, message, ctx, r);
    }
  }

  // ----- resuming -----

  lemma PhaseMoves(w: Work, phase: Phase, r: Reminders)
    requires WorkOk(w, r)
    requires phase == Running || w.session.outcome.Some? || |w.state.goals| == w.state.cursor + 1
    requires phase != Starting || w.session.phase == Starting
    ensures Kept(w, Work(w.state, w.session.(phase := phase)), r)
  {
  }

  lemma AbandonKeeps(w: Work, r: Reminders)
    requires WorkOk(w, r)
    ensures Kept(w, Abandon(w), r)
  {
    PhaseMoves(w, Running, r);
    InterruptAfter(w, Work(w.state, w.session.(phase := Running)), r);
  }

  lemma ReconciledKeeps(w: Work, thenBegin: bool, r: Reminders)
    requires WorkOk(w, r) && (w.session.outcome.Some? || |w.state.goals| == w.state.cursor + 1)
    ensures Kept(w, Reconciled(w, thenBegin), r)
  {
    SessionMoves(w, w.session.(reconciled := true), r);
    PhaseMoves(Work(w.state, w.session.(reconciled := true)), Replaying(thenBegin), r);
  }

  lemma ReconcileKeeps(w: Work, g: Goal, turns: Option<seq<Turn>>, r: Reminders)
    requires WorkOk(w, r) && |w.state.goals| == w.state.cursor + 1 && g == w.state.goals[w.state.cursor]
    ensures var reconciled := ReconcileReplay(w, g, turns);
      reconciled.Some? ==>
        && Kept(w, reconciled.value, r) && |reconciled.value.state.goals| == reconciled.value.state.cursor + 1
  {
    if w.session.replay.Some? {
      var replay := w.session.replay.value;
      RecordSet(w, replay.usage, g.(usageTurn := Some(replay.turn)), w.session.(replay := None), r);
      ReplacedCurrent(w.state.(thread := replay.usage), g.(usageTurn := Some(replay.turn))) by {
        assert GoalFits(w.state, w.state.cursor);
        assert forall i | 0 <= i < |w.state.goals| :: GoalFits(w.state, i) ==> GoalFits(w.state.(thread := replay.usage), i);
      }
    }
  }

  /** Once reconciled, the resume either goes on to replay its backlog or is abandoned. */
  lemma AfterReconcile(w: Work, after: Work, thenBegin: bool, r: Reminders)
    requires WorkOk(w, r) && Kept(w, after, r) && |after.state.goals| == after.state.cursor + 1
    ensures Kept(w, Reconciled(after, thenBegin), r) && Kept(w, Abandon(after), r)
  {
    ReconciledKeeps(after, thenBegin, r);
    AbandonKeeps(after, r);
    KeptJoins(w, after, Reconciled(after, thenBegin), r);
    KeptJoins(w, after, Abandon(after), r);
  }

  /** Whatever the reconciliation allows, the resume goes on from it or is abandoned. */
  lemma ReconciledOrAbandoned(w: Work, g: Goal, turns: Option<seq<Turn>>, r: Reminders)
    requires WorkOk(w, r) && |w.state.goals| == w.state.cursor + 1 && g == w.state.goals[w.state.cursor]
    ensures var reconciled := ReconcileReplay(w, g, turns);
      reconciled.Some? ==>
        && (forall thenBegin :: Kept(w, Reconciled(reconciled.value, thenBegin), r))
        && Kept(w, Abandon(reconciled.value), r)
  {
    ReconcileKeeps(w, g, turns, r);
    var reconciled := ReconcileReplay(w, g, turns);
    if reconciled.Some? {
      forall thenBegin ensures Kept(w, Reconciled(reconciled.value, thenBegin), r) {
        AfterReconcile(w, reconciled.value, thenBegin, r);
      }
      AfterReconcile(w, reconciled.value, true, r);
    }
  }

  lemma ResumeGoalKeeps(
    w: Work, g: Goal, snapshot: Snapshot, goal: Native, idle: bool, turns: Option<seq<Turn>>, r: Reminders)
    requires WorkOk(w, r) && |w.state.goals| == w.state.cursor + 1 && g == w.state.goals[w.state.cursor]
    requires g.native.Some?
    ensures Kept(w, ResumeGoal(w, g, snapshot, goal, idle, turns), r)
  {
    AbandonKeeps(w, r);
    ReconciledOrAbandoned(w, g, turns, r);
  }

  lemma ResumeKeeps(w: Work, goal: Option<Native>, idle: bool, turns: Option<seq<Turn>>, r: Reminders)
    requires WorkOk(w, r)
    ensures Kept(w, Resume(w, goal, idle, turns), r)
  {
    var s, session := w.state, w.session;
    FoundAt(s, s.cursor);
    if session.outcome.Some? {
      PhaseMoves(w, Running, r);
    } else {
      AbandonKeeps(w, r);
      if |s.goals| == s.cursor + 1 {
        var g := s.goals[s.cursor];
        if goal.None? {
          var cleared := Work(s, session.(snapshotPending := false, reconciled := true));
          SessionMoves(w, cleared.session, r);
          AfterReconcile(w, cleared, true, r);
        } else if g.native.None? {
          ReconciledKeeps(w, true, r);
        } else if session.snapshot.Some? {
          ResumeGoalKeeps(w, g, session.snapshot.value, goal.value, idle, turns, r);
        }
      }
    }
  }

  // ----- the launching flow -----

  /** Naming a fresh thread: no record holds a Goal of the thread before it has a name. */
  lemma NamedFits(s: RunState, goals: seq<Goal>, id: nat)
    requires GoalsOk(s) && (s.sessionId.None? || s.sessionId == Some(id))
    requires goals == s.goals || goals == Rethreaded(s.goals, s.cursor, id)
    ensures var named := s.(sessionId := Some(id), goals := goals);
      forall i | 0 <= i < |named.goals| :: GoalFits(named, i) && named.goals[i].terminalTurn == s.goals[i].terminalTurn
  {
    var named := s.(sessionId := Some(id), goals := goals);
    forall i | 0 <= i < |named.goals|
      ensures GoalFits(named, i) && named.goals[i].terminalTurn == s.goals[i].terminalTurn
    {
      assert GoalFits(s, i);
    }
  }

  lemma NamedKeeps(w: Work, id: nat, goals: seq<Goal>, phase: Phase, r: Reminders)
    requires WorkOk(w, r) && w.state.sessionId.None?
    requires w.session.phase == Starting && phase != Starting
    requires goals == w.state.goals || goals == Rethreaded(w.state.goals, w.state.cursor, id)
    ensures Kept(w, Work(w.state.(sessionId := Some(id), goals := goals), w.session.(phase := phase)), r)
  {
    var s := w.state;
    var named := s.(sessionId := Some(id), goals := goals);
    NamedFits(s, goals, id);
    ShapeMoves(s, named, r);
  }

  lemma ThreadReadyKeeps(w: Work, id: nat, idle: bool, r: Reminders)
    requires WorkOk(w, r) && w.session.phase == Starting
    ensures Kept(w, ThreadReady(w, id, idle), r)
  {
    var s, session := w.state, w.session;
    match session.mode {
      case ResumedThread =>
        AbandonKeeps(w, r);
        PhaseMoves(w, Resuming, r);
      case ForkedThread =>
        NamedKeeps(w, id, Rethreaded(s.goals, s.cursor, id), Clearing, r);
      case FreshThread =>
        var named := Work(s.(sessionId := Some(id)), session.(phase := Running));
        assert s.(sessionId := Some(id), goals := s.goals) == named.state;
        NamedKeeps(w, id, s.goals, Running, r);
        NamedKeeps(w, id, s.goals, Dispatching, r);
        FoundAt(named.state, s.cursor);
        InterruptAfter(w, named, r);
        if |s.goals| == s.cursor + 1 {
          var dispatching := Work(named.state, session.(phase := Dispatching));
          IdleKeeps(dispatching, idle, Context("", true, Through), r);
          KeptJoins(w, dispatching, Work(WithGoal(named.state, s.goals[s.cursor].(idle := idle)), dispatching.session), r);
        }
    }
  }

  lemma DispatchKeeps(w: Work, running: Work, ctx: Context, r: Reminders)
    requires WorkOk(w, r) && w.session.phase != Running && w.session.outcome.None?
    requires running == Work(w.state, w.session.(phase := Running))
    ensures Kept(w, BeginGoal(running, ctx.text), r) && Kept(w, Advance(running, ctx), r)
  {
    PhaseMoves(w, Running, r);
    BeginKeeps(running, ctx.text, r);
    AdvanceKeeps(running, ctx, r);
  }

  lemma UnbufferKeeps(w: Work, ctx: Context, r: Reminders)
    requires WorkOk(w, r) && w.session.beginning.None? && w.session.backlog != []
    ensures Kept(w, Notify(Work(w.state, w.session.(backlog := w.session.backlog[1..])), w.session.backlog[0], ctx), r)
  {
    var popped := Work(w.state, w.session.(backlog := w.session.backlog[1..]));
    SessionMoves(w, popped.session, r);
    NotifyKeeps(popped, w.session.backlog[0], ctx, r);
  }

  lemma KeptSelf(w: Work, r: Reminders)
    requires WorkOk(w, r)
    ensures Kept(w, w, r)
  {
  }

  lemma ProceedKeeps(w: Work, ctx: Context, r: Reminders)
    requires WorkOk(w, r) && w.session.beginning.None?
    ensures Kept(w, Proceed(w, ctx), r)
  {
    if w.session.outcome.Some? {
      PhaseMoves(w, Running, r);
    } else if w.session.phase.Dispatching? || w.session.phase.Replaying? {
      if w.session.phase.Replaying? && w.session.backlog != [] {
        UnbufferKeeps(w, ctx, r);
      } else {
        DispatchKeeps(w, Work(w.state, w.session.(phase := Running)), ctx, r);
      }
    } else {
      KeptSelf(w, r);
    }
  }

  lemma ForkClearedKeeps(w: Work, r: Reminders)
    requires WorkOk(w, r) && w.session.phase == Clearing
    ensures Kept(w, ForkCleared(w), r)
  {
    SessionMoves(w, w.session.(snapshotPending := false, reconciled := true), r);
    PhaseMoves(Work(w.state, w.session.(snapshotPending := false, reconciled := true)), Dispatching, r);
  }

  lemma ActKeeps(w: Work, e: Event, r: Reminders)
    requires WorkOk(w, r)
    ensures Kept(w, Act(w, e), r)
  {
    KeptSelf(w, r);
    var session := w.session;
    match e {
      case ThreadAnswered(id, idle) => if session.phase == Starting { ThreadReadyKeeps(w, id, idle, r); }
      case ForkReset => if session.phase == Clearing { ForkClearedKeeps(w, r); }
      case GoalAnswered(goal, idle, turns) => ResumeKeeps(w, goal, idle, turns, r);
      case Continued(ctx) => if session.beginning.None? { ProceedKeeps(w, ctx, r); }
      case Notified(message, ctx) => if Enabled(session, message) { NotifyKeeps(w, message, ctx, r); }
      case GoalSet(native) => GoalAcceptedKeeps(w, native, r);
      case Disturbed => InterruptKeeps(w, r);
      case _ =>
    }
  }
}
