/**
 What live events do to the thread total and the cursor: over an honest thread
 the total never falls behind its first Goal, and the cursor moves one Goal at a time, past a Goal that
 ends at the total.
 */
module GoalProgress {
  import opened Prelude
  import opened TokenUsage
  import opened Instruction
  import opened GoalState
  import opened Supervision
  import opened GoalSession
  import opened GoalMachine
  import opened GoalSafety
  import opened GoalEvents
  import opened GoalLaunch
  import opened GoalHonest

  /** Counters a resume may still adopt are not below the total, and a resume that still reads is not reconciled. */
  predicate FlowOk(w: Work) {
    && (!w.session.reconciled && w.session.replay.Some? ==> AtLeast(w.session.replay.value.usage, w.state.thread))
    && (w.session.phase == Resuming || (w.session.phase == Starting && w.session.mode == ResumedThread) ==> !w.session.reconciled)
    && (w.session.phase == Resuming ==> w.state.sessionId.Some?)
  }

  predicate CrossesAtTotal(s: RunState, after: RunState) {
    after.cursor == s.cursor
    || (after.cursor == s.cursor + 1 && s.cursor < |after.goals| && after.goals[s.cursor].end == Some(after.thread))
  }

  /** Behind the first Goal of the run's own thread the total does not fall. */
  predicate NotFallen(s: RunState, total: Usage) {
    s.nativeStart < s.cursor ==> AtLeast(total, s.thread)
  }

  predicate Progress(w: Work, after: Work) {
    && FlowOk(after)
    && after.state.nativeStart == w.state.nativeStart && NotFallen(w.state, after.state.thread)
    && (w.state.sessionId.Some? ==> after.state.sessionId == w.state.sessionId)
    && (w.state.sessionId.None? ==> after.state.thread == w.state.thread)
    && CrossesAtTotal(w.state, after.state)
  }

  lemma ProgressJoins(a: Work, b: Work, c: Work)
    requires Progress(a, b) && b.state.cursor == a.state.cursor && a.state.sessionId.Some? && Progress(b, c)
    ensures Progress(a, c)
  {
  }

  /** Total, thread name and reconciliation stay. */
  predicate Calm(w: Work, after: Work) {
    && after.state.thread == w.state.thread && after.state.sessionId == w.state.sessionId
    && after.state.nativeStart == w.state.nativeStart
    && after.session.reconciled == w.session.reconciled && after.session.replay == w.session.replay
    && after.session.mode == w.session.mode
    && (after.session.phase == w.session.phase || after.session.phase == Running)
  }

  lemma CalmFlow(w: Work, after: Work)
    requires FlowOk(w) && Calm(w, after) && after.state.cursor == w.state.cursor
    ensures Progress(w, after)
  {
  }

  lemma BeginCalm(w: Work, text: string)
    ensures Calm(w, BeginGoal(w, text)) && BeginGoal(w, text).state.cursor == w.state.cursor
  {
  }

  lemma StopCalm(w: Work, outcome: Outcome)
    ensures Calm(w, Finish(w, outcome)) && Finish(w, outcome).state == w.state
    ensures Calm(w, Interrupt(w)) && Interrupt(w).state.cursor == w.state.cursor
  {
  }

  lemma HaltCalm(w: Work, name: StageName, boundary: Boundary, cut: Cut)
    requires Halt(w, name, boundary, cut).Some?
    ensures var halted := Halt(w, name, boundary, cut).value;
      Calm(w, halted) && halted.state.cursor == w.state.cursor
  {
    StopCalm(w, RunCheckpointed);
    StopCalm(w, RunAwaiting);
    StopCalm(w, RunCompleted);
  }

  lemma LeaveCalm(w: Work, name: StageName, boundary: Boundary, ctx: Context)
    ensures Calm(w, Leave(w, name, boundary, ctx)) && Leave(w, name, boundary, ctx).state.cursor == w.state.cursor
  {
    if Halt(w, name, boundary, ctx.cut).Some? {
      HaltCalm(w, name, boundary, ctx.cut);
    } else {
      BeginCalm(w, ctx.text);
    }
  }

  lemma InterruptProgress(w: Work)
    requires FlowOk(w)
    ensures Progress(w, Interrupt(w))
  {
  }

  lemma LeaveProgress(w: Work, crossed: Work, name: StageName, boundary: Boundary, ctx: Context, r: Reminders)
    requires FlowOk(w) && JustCrossed(crossed, boundary, r) && Calm(w, crossed)
    requires crossed.state.cursor == w.state.cursor + 1
    requires crossed.state.goals[w.state.cursor].end == Some(crossed.state.thread)
    ensures Progress(w, Leave(crossed, name, boundary, ctx))
  {
    LeaveKeeps(crossed, name, boundary, ctx, r);
    LeaveCalm(crossed, name, boundary, ctx);
    assert StartsKept(crossed.state, Leave(crossed, name, boundary, ctx).state);
  }

  /** A completed Goal ends at the total, and what follows leaves both. */
  lemma CompleteProgress(w: Work, ctx: Context, r: Reminders)
    requires WorkOk(w, r) && FlowOk(w) && |w.state.goals| == w.state.cursor + 1
    requires w.session.outcome.None? && w.session.beginning.None?
    requires AtTerminal(w.state.goals[w.state.cursor])
    requires CanComplete(w.state, w.state.goals[w.state.cursor], true)
    ensures Progress(w, CompleteGoal(w, w.state.goals[w.state.cursor], ctx))
  {
    var g := w.state.goals[w.state.cursor];
    var closed := Work(Close(w.state, g), w.session.(advancing := true));
    var boundary := BoundaryAfter(closed.state, g);
    CloseKeeps(w, r);
    if ctx.cut == AtCheckpoint && g.index == 0 {
    } else {
      CrossesOver(w, closed, r);
      LeaveProgress(w, Work(Cross(closed.state, g, boundary), closed.session), g.name, boundary, ctx, r);
    }
  }

  lemma AdvanceProgress(w: Work, ctx: Context, r: Reminders)
    requires WorkOk(w, r) && FlowOk(w)
    ensures Progress(w, Advance(w, ctx))
  {
    FoundAt(w.state, w.state.cursor);
    InterruptProgress(w);
    if w.session.outcome.None? && |w.state.goals| == w.state.cursor + 1 {
      var g := w.state.goals[w.state.cursor];
      if w.session.reconciled && !w.session.snapshotPending && !w.session.advancing && AtTerminal(g) && CanComplete(w.state, g, ctx.gate) {
        CompleteProgress(w, ctx, r);
      }
    }
  }

  /** A changed record at the cursor, a total that is not lower, and what the handler does then. */
  lemma SetProgress(w: Work, thread: Usage, g: Goal, ctx: Context, r: Reminders)
    requires WorkOk(w, r) && FlowOk(w) && |w.state.goals| == w.state.cursor + 1 && SameRecord(w.state, g)
    requires w.session.beginning.Some? ==> g.terminalTurn.None?
    requires w.state.sessionId.Some? && NotFallen(w.state, thread) && (w.session.reconciled || thread == w.state.thread)
    ensures var after := Work(WithGoal(w.state.(thread := thread), g), w.session);
      Progress(w, after) && Progress(w, Interrupt(after)) && Progress(w, Advance(after, ctx))
  {
    RecordSet(w, thread, g, w.session, r);
    var after := Work(WithGoal(w.state.(thread := thread), g), w.session);
    assert Progress(w, after);
    InterruptProgress(after);
    ProgressJoins(w, after, Interrupt(after));
    AdvanceProgress(after, ctx, r);
    ProgressJoins(w, after, Advance(after, ctx));
  }

  // ----- notifications -----

  lemma TokensProgress(w: Work, asked: set<nat>, turn: Option<nat>, usage: Option<Usage>, ctx: Context, r: Reminders)
    requires WorkOk(w, r) && FlowOk(w) && w.state.sessionId.Some? && !ForkPending(w.session)
    requires HonestMessage(w.state, asked, TokensUpdated(turn, usage))
    ensures Progress(w, Notify(w, TokensUpdated(turn, usage), ctx))
  {
    var s := w.state;
    FoundAt(s, s.cursor);
    InterruptProgress(w);
    AdvanceProgress(w, ctx, r);
    if usage.Some? && turn.Some? {
      if w.session.reconciled {
        if |s.goals| == s.cursor + 1 {
          SetProgress(w, usage.value, s.goals[s.cursor].(usageTurn := turn), ctx, r);
        } else {
          assert Current(s.(thread := usage.value)).None?;
        }
      } else if w.session.snapshotPending {
        ReplayProgress(w, turn.value, usage.value, r);
      }
    }
  }

  lemma ReplayProgress(w: Work, turn: nat, usage: Usage, r: Reminders)
    requires WorkOk(w, r) && FlowOk(w) && w.state.sessionId.Some?
    ensures Progress(w, ReplayTokens(w, turn, usage))
  {
    FoundAt(w.state, w.state.cursor);
    InterruptProgress(w);
  }

  lemma ReportProgress(w: Work, native: Native, turn: Option<nat>, ctx: Context, r: Reminders)
    requires WorkOk(w, r) && FlowOk(w) && w.state.sessionId.Some? && !ForkPending(w.session)
    requires w.session.beginning.Some? ==> native.status != Complete
    ensures Progress(w, Notify(w, GoalUpdated(native, turn), ctx))
  {
    var s := w.state;
    FoundAt(s, s.cursor);
    InterruptProgress(w);
    if w.session.reconciled {
      if |s.goals| == s.cursor + 1 && NativeMatches(s.goals[s.cursor], native, s.sessionId) {
        SameThread(s);
        SetProgress(w, s.thread, Updated(s.goals[s.cursor], native, turn), ctx, r);
      }
    } else if turn.None? {
      SnapshotProgress(w, native);
    }
  }

  lemma SnapshotProgress(w: Work, native: Native)
    requires FlowOk(w)
    ensures Progress(w, TakeSnapshot(w, native))
  {
    InterruptProgress(w);
  }

  lemma TurnProgress(w: Work, message: Message, ctx: Context, r: Reminders)
    requires WorkOk(w, r) && FlowOk(w) && w.state.sessionId.Some? && !ForkPending(w.session)
    requires message.TurnStarted? || message.TurnEnded? || message.StatusChanged?
    ensures Progress(w, Notify(w, message, ctx))
  {
    var s := w.state;
    FoundAt(s, s.cursor);
    InterruptProgress(w);
    if w.session.reconciled && |s.goals| == s.cursor + 1 {
      SameThread(s);
      var g := s.goals[s.cursor];
      match message
      case TurnStarted => SetProgress(w, s.thread, g.(idle := false), ctx, r);
      case TurnEnded(turn, status) =>
        SetProgress(w, s.thread, g.(terminalCompleted := g.terminalCompleted || (g.terminalTurn == Some(turn) && status == TurnCompleted)), ctx, r);
      case StatusChanged(status) => SetProgress(w, s.thread, g.(idle := status == IdleThread), ctx, r);
    }
  }

  lemma NotifyProgress(w: Work, asked: set<nat>, message: Message, ctx: Context, r: Reminders)
    requires WorkOk(w, r) && FlowOk(w) && HonestMessage(w.state, asked, message)
    requires w.session.beginning.Some? ==> !(message.GoalUpdated? && message.goal.status == Complete)
    ensures Progress(w, Notify(w, message, ctx))
  {
    if w.state.sessionId.None? || ForkPending(w.session) {
      InterruptProgress(w);
    } else {
      match message
      case TokensUpdated(turn, usage) => TokensProgress(w, asked, turn, usage, ctx, r);
      case GoalUpdated(native, turn) => ReportProgress(w, native, turn, ctx, r);
      case _ => TurnProgress(w, message, ctx, r);
    }
  }

  // ----- the launching flow -----

  lemma AbandonProgress(w: Work)
    requires FlowOk(w)
    ensures Progress(w, Abandon(w))
  {
  }

  /** Adopted counters are ahead of the total. */
  lemma ReconcileProgress(w: Work, g: Goal, turns: Option<seq<Turn>>, thenBegin: bool)
    requires FlowOk(w) && w.state.sessionId.Some? && !w.session.reconciled
    ensures var reconciled := ReconcileReplay(w, g, turns);
      reconciled.Some? ==> Progress(w, Reconciled(reconciled.value, thenBegin)) && Progress(w, Abandon(reconciled.value))
  {
  }

  lemma ResumeGoalProgress(w: Work, g: Goal, snapshot: Snapshot, goal: Native, idle: bool, turns: Option<seq<Turn>>)
    requires FlowOk(w) && w.state.sessionId.Some? && !w.session.reconciled && g.native.Some?
    ensures Progress(w, ResumeGoal(w, g, snapshot, goal, idle, turns))
  {
    AbandonProgress(w);
    ReconcileProgress(w, g, turns, true);
    ReconcileProgress(w, g, turns, false);
  }

  /** The thread says that it holds no Goal. */
  lemma ClearedProgress(w: Work, idle: bool, turns: Option<seq<Turn>>)
    requires FlowOk(w) && w.session.outcome.None?
    ensures Progress(w, Resume(w, None, idle, turns))
  {
    var cleared := Work(w.state, w.session.(snapshotPending := false, reconciled := true));
    AbandonProgress(w);
    ClearedSteps(w, cleared);
    assert Resume(w, None, idle, turns) in {Abandon(w), Abandon(cleared), Reconciled(cleared, true)};
  }

  lemma ClearedSteps(w: Work, cleared: Work)
    requires FlowOk(w) && cleared == Work(w.state, w.session.(snapshotPending := false, reconciled := true))
    ensures Progress(w, Abandon(cleared)) && Progress(w, Reconciled(cleared, true))
  {
  }

  lemma HeldProgress(w: Work, goal: Native, idle: bool, turns: Option<seq<Turn>>)
    requires FlowOk(w) && w.session.phase == Resuming && w.session.outcome.None?
    ensures Progress(w, Resume(w, Some(goal), idle, turns))
  {
    AbandonProgress(w);
    var current := Current(w.state);
    if current.Some? && w.session.snapshot.Some? && current.value.native.Some? {
      ResumeGoalProgress(w, current.value, w.session.snapshot.value, goal, idle, turns);
    }
  }

  lemma ResumeProgress(w: Work, goal: Option<Native>, idle: bool, turns: Option<seq<Turn>>)
    requires FlowOk(w) && w.session.phase == Resuming
    ensures Progress(w, Resume(w, goal, idle, turns))
  {
    if w.session.outcome.Some? {
    } else if goal.None? {
      ClearedProgress(w, idle, turns);
    } else {
      HeldProgress(w, goal.value, idle, turns);
    }
  }

  lemma FreshProgress(w: Work, id: nat, idle: bool)
    requires FlowOk(w) && w.session.mode == FreshThread && w.state.sessionId.None?
    ensures Progress(w, ThreadReady(w, id, idle))
  {
    var after := ThreadReady(w, id, idle);
    assert after.state.thread == w.state.thread && after.state.cursor == w.state.cursor;
  }

  lemma ThreadProgress(w: Work, id: nat, idle: bool)
    requires FlowOk(w) && w.session.phase == Starting
    requires w.session.mode != ResumedThread ==> w.state.sessionId.None?
    ensures Progress(w, ThreadReady(w, id, idle))
  {
    if w.session.mode == FreshThread {
      FreshProgress(w, id, idle);
    }
  }

  lemma PoppedProgress(w: Work, asked: set<nat>, ctx: Context, r: Reminders)
    requires WorkOk(w, r) && FlowOk(w) && w.session.beginning.None? && w.session.backlog != []
    requires HonestMessage(w.state, asked, w.session.backlog[0])
    ensures Progress(w, Notify(Work(w.state, w.session.(backlog := w.session.backlog[1..])), w.session.backlog[0], ctx))
  {
    var popped := Work(w.state, w.session.(backlog := w.session.backlog[1..]));
    SessionMoves(w, popped.session, r);
    NotifyProgress(popped, asked, w.session.backlog[0], ctx, r);
  }

  lemma RunningProgress(w: Work, ctx: Context, r: Reminders)
    requires WorkOk(w, r) && FlowOk(w)
    ensures var running := Work(w.state, w.session.(phase := Running));
      Progress(w, running) && Progress(w, BeginGoal(running, ctx.text)) && Progress(w, Advance(running, ctx))
  {
    var running := Work(w.state, w.session.(phase := Running));
    PhaseMoves(w, Running, r);
    AdvanceProgress(running, ctx, r);
    BeginCalm(running, ctx.text);
  }

  lemma ProceedProgress(w: Work, asked: set<nat>, ctx: Context, r: Reminders)
    requires WorkOk(w, r) && FlowOk(w) && HonestEvent(w, asked, Continued(ctx)) && w.session.beginning.None?
    ensures Progress(w, Proceed(w, ctx))
  {
    if w.session.outcome.None? && w.session.phase.Replaying? && w.session.backlog != [] {
      PoppedProgress(w, asked, ctx, r);
    } else {
      RunningProgress(w, ctx, r);
    }
  }

  lemma AcceptCalm(w: Work, native: Native)
    ensures Calm(w, GoalAccepted(w, native)) && GoalAccepted(w, native).state.cursor == w.state.cursor
  {
  }

  lemma AcceptProgress(w: Work, native: Native)
    requires FlowOk(w)
    ensures Progress(w, GoalAccepted(w, native))
  {
    AcceptCalm(w, native);
    CalmFlow(w, GoalAccepted(w, native));
  }

  lemma OtherProgress(w: Work, e: Event)
    requires FlowOk(w) && !e.ThreadAnswered? && !e.GoalAnswered? && !e.Continued? && !e.Notified? && !e.GoalSet?
    ensures Progress(w, Act(w, e))
  {
    InterruptProgress(w);
  }

  lemma NotifiedProgress(w: Work, asked: set<nat>, message: Message, ctx: Context, r: Reminders)
    requires WorkOk(w, r) && FlowOk(w) && HonestMessage(w.state, asked, message)
    ensures Progress(w, Act(w, Notified(message, ctx)))
  {
    if Enabled(w.session, message) {
      NotifyProgress(w, asked, message, ctx, r);
    }
  }

  lemma AnsweredProgress(w: Work, e: Event, r: Reminders)
    requires WorkOk(w, r) && FlowOk(w) && (e.ThreadAnswered? || e.GoalAnswered?)
    ensures Progress(w, Act(w, e))
  {
    if e.ThreadAnswered? && w.session.phase == Starting {
      ThreadProgress(w, e.id, e.idle);
    } else if e.GoalAnswered? && w.session.phase == Resuming {
      ResumeProgress(w, e.goal, e.threadIdle, e.turns);
    }
  }

  /** Every live event over an honest thread keeps the order of total and cursor. */
  lemma ActProgress(w: Work, asked: set<nat>, e: Event)
    requires LiveOk(w) && FlowOk(w) && HonestEvent(w, asked, e)
    ensures Progress(w, Act(w, e))
  {
    var r :| WorkOk(w, r);
    if e.ThreadAnswered? || e.GoalAnswered? {
      AnsweredProgress(w, e, r);
    } else if e.Continued? {
      if w.session.beginning.None? { ProceedProgress(w, asked, e.ctx, r); }
    } else if e.Notified? {
      NotifiedProgress(w, asked, e.message, e.ctx, r);
    } else if e.GoalSet? {
      AcceptProgress(w, e.native);
    } else {
      OtherProgress(w, e);
    }
  }
}
