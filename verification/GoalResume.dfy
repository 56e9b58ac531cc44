/**
 What a resumed process may take for granted: which counters it adopts, which
 Goal it accepts the thread to hold, and that it never leaves a finished Goal
 waiting.
 */
module GoalResume {
  import opened Prelude
  import opened TokenUsage
  import opened Instruction
  import opened GoalState
  import opened Supervision
  import opened GoalSession
  import opened GoalMachine
  import opened GoalSafety
  import opened GoalEvents
  import opened GoalLaunch
  import opened GoalHonest
  import opened GoalProgress
  import opened GoalGate

  // ----- which counters move the total -----

  lemma {:induction false} FoundTurn(turns: seq<Turn>, id: nat, interruptedOnly: bool, from: nat)
    requires from <= |turns|
    ensures var at := FindTurn(turns, id, interruptedOnly, from);
      && from <= at <= |turns|
      && (at < |turns| ==> turns[at].id == id && (interruptedOnly ==> turns[at].interrupted))
      && forall j | from <= j < at :: turns[j].id != id || (interruptedOnly && !turns[j].interrupted)
    decreases |turns| - from
  {
    if from < |turns| && !(turns[from].id == id && (interruptedOnly ==> turns[from].interrupted)) {
      FoundTurn(turns, id, interruptedOnly, from + 1);
    }
  }

  /** The turn whose counters the retained total stands at: the record's own, or that of the boundary before it. */
  predicate StandsAt(s: RunState, turn: nat) {
    && s.cursor < |s.goals|
    && var g := s.goals[s.cursor];
    if g.usageTurn.Some? then g.usageTurn == Some(turn)
    else
      && s.cursor > 0
      && var previous := s.goals[s.cursor - 1];
      && previous.native.Some? && previous.native.value.status == Complete
      && previous.terminalTurn == previous.usageTurn == Some(turn) && previous.terminalCompleted && previous.idle
      && previous.end == Some(s.thread)
  }

  /**
   The history shows the replayed turn to be the one the total stands at, or the
   next one, interrupted, and followed by interrupted turns only.
   */
  predicate ProvenBy(s: RunState, replay: Replay, turns: seq<Turn>) {
    exists at, k | 0 <= at < |turns| && 0 <= k < |turns| ::
      && StandsAt(s, turns[at].id)
      && turns[k].id == replay.turn && turns[k].interrupted
      && (k == at + 1 || (k == at && s.goals[s.cursor].usageTurn == Some(replay.turn)))
      && InterruptedSince(turns, k)
  }

  predicate InterruptedSince(turns: seq<Turn>, k: int) {
    forall j | k <= j < |turns| && 0 <= j :: turns[j].interrupted
  }

  /** A Goal that was running or stopped short. */
  predicate Unfinished(g: Goal) {
    && g.native.Some?
    && (g.native.value.status == Active || g.native.value.status == Paused || g.native.value.status == Blocked
        || g.native.value.status == UsageLimited || g.native.value.status == BudgetLimited)
  }

  /** The resume adopts the counters its thread replayed, with the turns it listed. */
  predicate Adopts(w: Work, e: Event, thread: Usage) {
    && e.GoalAnswered? && w.session.phase == Resuming && w.session.replay.Some? && e.turns.Some?
    && thread == w.session.replay.value.usage
    && w.state.cursor < |w.state.goals| && Unfinished(w.state.goals[w.state.cursor])
    && ProvenBy(w.state, w.session.replay.value, e.turns.value)
  }

  /** A reconciled thread reports its counters. */
  predicate Counts(w: Work, e: Event, thread: Usage) {
    && w.session.reconciled
    && match Handled(w.session, e)
       case Some((TokensUpdated(turn, usage), _)) => turn.Some? && usage == Some(thread)
       case _ => false
  }

  lemma AdvanceKeepsTotal(w: Work, ctx: Context, r: Reminders)
    requires WorkOk(w, r)
    ensures Advance(w, ctx).state.thread == w.state.thread
  {
    FoundAt(w.state, w.state.cursor);
    if w.session.outcome.None? && |w.state.goals| == w.state.cursor + 1 {
      var g := w.state.goals[w.state.cursor];
      if w.session.reconciled && !w.session.snapshotPending && !w.session.advancing && AtTerminal(g) && CanComplete(w.state, g, ctx.gate) {
        CompleteKeepsTotal(w, g, ctx);
      }
    }
  }

  lemma BeginKeepsTotal(w: Work, text: string)
    ensures BeginGoal(w, text).state.thread == w.state.thread
  {
  }

  lemma CompleteKeepsTotal(w: Work, g: Goal, ctx: Context)
    ensures CompleteGoal(w, g, ctx).state.thread == w.state.thread
  {
    var s := Close(w.state, g);
    var crossed := Work(Cross(s, g, BoundaryAfter(s, g)), w.session.(advancing := true));
    BeginKeepsTotal(crossed, ctx.text);
  }

  lemma SetTotal(w: Work, thread: Usage, g: Goal, ctx: Context, r: Reminders)
    requires WorkOk(w, r) && |w.state.goals| == w.state.cursor + 1 && SameRecord(w.state, g)
    requires w.session.beginning.Some? ==> g.terminalTurn.None?
    ensures Advance(Work(WithGoal(w.state.(thread := thread), g), w.session), ctx).state.thread == thread
  {
    RecordSet(w, thread, g, w.session, r);
    AdvanceKeepsTotal(Work(WithGoal(w.state.(thread := thread), g), w.session), ctx, r);
  }

  lemma TokensTotal(w: Work, turn: Option<nat>, usage: Option<Usage>, ctx: Context, r: Reminders)
    requires WorkOk(w, r)
    ensures var after := Notify(w, TokensUpdated(turn, usage), ctx).state.thread;
      after == w.state.thread || (w.session.reconciled && turn.Some? && usage == Some(after))
  {
    var s := w.state;
    FoundAt(s, s.cursor);
    AdvanceKeepsTotal(w, ctx, r);
    if usage.Some? && turn.Some? && w.session.reconciled {
      if |s.goals| == s.cursor + 1 {
        SetTotal(w, usage.value, s.goals[s.cursor].(usageTurn := turn), ctx, r);
      } else {
        assert Current(s.(thread := usage.value)).None?;
      }
    }
  }

  lemma ReportTotal(w: Work, native: Native, turn: Option<nat>, ctx: Context, r: Reminders)
    requires WorkOk(w, r) && (w.session.beginning.Some? ==> native.status != Complete)
    ensures UpdateGoal(w, native, turn, ctx).state.thread == w.state.thread
  {
    var s := w.state;
    FoundAt(s, s.cursor);
    SameThread(s);
    if |s.goals| == s.cursor + 1 && NativeMatches(s.goals[s.cursor], native, s.sessionId) {
      SetTotal(w, s.thread, Updated(s.goals[s.cursor], native, turn), ctx, r);
    }
  }

  lemma OtherTotal(w: Work, message: Message, ctx: Context, r: Reminders)
    requires WorkOk(w, r) && !message.TokensUpdated?
    requires w.session.beginning.Some? ==> !(message.GoalUpdated? && message.goal.status == Complete)
    ensures Notify(w, message, ctx).state.thread == w.state.thread
  {
    var s := w.state;
    FoundAt(s, s.cursor);
    SameThread(s);
    if w.session.reconciled && |s.goals| == s.cursor + 1 {
      var g := s.goals[s.cursor];
      match message
      case GoalUpdated(native, turn) => ReportTotal(w, native, turn, ctx, r);
      case TurnStarted =>
      case TurnEnded(turn, status) =>
        SetTotal(w, s.thread, g.(terminalCompleted := g.terminalCompleted || (g.terminalTurn == Some(turn) && status == TurnCompleted)), ctx, r);
      case StatusChanged(status) => SetTotal(w, s.thread, g.(idle := status == IdleThread), ctx, r);
    }
  }

  lemma NotifyTotal(w: Work, message: Message, ctx: Context, r: Reminders)
    requires WorkOk(w, r)
    requires w.session.beginning.Some? ==> !(message.GoalUpdated? && message.goal.status == Complete)
    ensures var after := Notify(w, message, ctx).state.thread;
      || after == w.state.thread
      || (w.session.reconciled && message.TokensUpdated? && message.tokensTurn.Some? && message.usage == Some(after))
  {
    match message
    case TokensUpdated(turn, usage) => TokensTotal(w, turn, usage, ctx, r);
    case _ => OtherTotal(w, message, ctx, r);
  }

  lemma ReplayIsProven(w: Work, g: Goal, replay: Replay, turns: Option<seq<Turn>>)
    requires GoalsOk(w.state) && |w.state.goals| == w.state.cursor + 1 && g == w.state.goals[w.state.cursor]
    requires ReplayProven(w.state, g, replay, turns)
    ensures turns.Some? && Unfinished(g) && ProvenBy(w.state, replay, turns.value)
  {
    var s := w.state;
    assert GoalFits(s, s.cursor);
    if s.cursor > 0 { FoundAt(s, s.cursor - 1); }
    FoundTurn(turns.value, RetainedTurn(s, g).value, false, 0);
    FoundTurn(turns.value, replay.turn, true, 0);
    var at := FindTurn(turns.value, RetainedTurn(s, g).value, false, 0);
    var k := FindTurn(turns.value, replay.turn, true, 0);
    assert StandsAt(s, turns.value[at].id);
    assert InterruptedSince(turns.value, k);
    assert k == at + 1 || (k == at && s.goals[s.cursor].usageTurn == Some(replay.turn));
  }

  lemma ReconcileTotal(w: Work, g: Goal, turns: Option<seq<Turn>>)
    requires GoalsOk(w.state) && |w.state.goals| == w.state.cursor + 1 && g == w.state.goals[w.state.cursor]
    ensures var after := ReconcileReplay(w, g, turns);
      after.Some? && after.value.state.thread != w.state.thread ==>
        && w.session.replay.Some? && after.value.state.thread == w.session.replay.value.usage
        && turns.Some? && Unfinished(g) && ProvenBy(w.state, w.session.replay.value, turns.value)
  {
    if w.session.replay.Some? && ReplayProven(w.state, g, w.session.replay.value, turns) {
      ReplayIsProven(w, g, w.session.replay.value, turns);
    }
  }

  lemma ResumeGoalTotal(w: Work, g: Goal, snapshot: Snapshot, goal: Native, idle: bool, turns: Option<seq<Turn>>)
    requires g.native.Some?
    ensures var after := ResumeGoal(w, g, snapshot, goal, idle, turns).state.thread;
      after == w.state.thread || (ReconcileReplay(w, g, turns).Some? && after == ReconcileReplay(w, g, turns).value.state.thread)
  {
  }

  lemma ResumeTotal(w: Work, goal: Option<Native>, idle: bool, turns: Option<seq<Turn>>)
    requires GoalsOk(w.state) && w.session.phase == Resuming
    ensures var after := Resume(w, goal, idle, turns).state.thread;
      after == w.state.thread || Adopts(w, GoalAnswered(goal, idle, turns), after)
  {
    FoundAt(w.state, w.state.cursor);
    if |w.state.goals| == w.state.cursor + 1 && w.state.goals[w.state.cursor].native.Some? && goal.Some? && w.session.snapshot.Some? {
      var g := w.state.goals[w.state.cursor];
      ResumeGoalTotal(w, g, w.session.snapshot.value, goal.value, idle, turns);
      ReconcileTotal(w, g, turns);
    }
  }

  lemma ProceedTotal(w: Work, ctx: Context, r: Reminders)
    requires WorkOk(w, r) && w.session.beginning.None?
    ensures var after := Proceed(w, ctx).state.thread; after == w.state.thread || Counts(w, Continued(ctx), after)
  {
    if w.session.outcome.None? {
      if w.session.phase.Replaying? && w.session.backlog != [] {
        var popped := Work(w.state, w.session.(backlog := w.session.backlog[1..]));
        SessionMoves(w, popped.session, r);
        NotifyTotal(popped, w.session.backlog[0], ctx, r);
      } else {
        var running := Work(w.state, w.session.(phase := Running));
        PhaseMoves(w, Running, r);
        AdvanceKeepsTotal(running, ctx, r);
        BeginKeepsTotal(running, ctx.text);
      }
    }
  }

  /**
   The total moves in two ways only: a thread whose state is reconciled reports
   counters for a turn, or a resume adopts counters its thread replayed before,
   for an unfinished Goal and proven by the turn history.
   */
  lemma TotalMovesOnly(w: Work, e: Event)
    requires LiveOk(w)
    ensures var after := Act(w, e).state.thread; after == w.state.thread || Counts(w, e, after) || Adopts(w, e, after)
  {
    var r :| WorkOk(w, r);
    match e
    case GoalAnswered(goal, idle, turns) => if w.session.phase == Resuming { ResumeTotal(w, goal, idle, turns); }
    case Continued(ctx) => if w.session.beginning.None? { ProceedTotal(w, ctx, r); }
    case Notified(message, ctx) => if Enabled(w.session, message) { NotifyTotal(w, message, ctx, r); }
    case _ =>
  }

  // ----- which replayed counters are remembered -----

  /** Counters are remembered while a resume still reads, for an unfinished Goal, if they are ahead of the total, and only one set of them. */
  predicate Remembers(w: Work, e: Event, replay: Replay) {
    && !w.session.reconciled && w.session.snapshotPending && w.session.replay.None?
    && w.state.cursor < |w.state.goals| && Unfinished(w.state.goals[w.state.cursor])
    && Advanced(replay.usage, w.state.thread)
    && match Handled(w.session, e)
       case Some((TokensUpdated(turn, usage), _)) => turn == Some(replay.turn) && usage == Some(replay.usage)
       case _ => false
  }

  lemma AdvanceReplay(w: Work, ctx: Context)
    ensures Advance(w, ctx).session.replay == w.session.replay
  {
    if w.session.outcome.None? && Current(w.state).Some? {
      var g := Current(w.state).value;
      if w.session.reconciled && !w.session.snapshotPending && !w.session.advancing && AtTerminal(g) && CanComplete(w.state, g, ctx.gate) {
        CompleteReplay(w, g, ctx);
      }
    }
  }

  lemma CompleteReplay(w: Work, g: Goal, ctx: Context)
    ensures CompleteGoal(w, g, ctx).session.replay == w.session.replay
  {
    var s := Close(w.state, g);
    LeaveCalm(Work(Cross(s, g, BoundaryAfter(s, g)), w.session.(advancing := true)), g.name, BoundaryAfter(s, g), ctx);
  }

  lemma ReplayTaken(w: Work, turn: nat, usage: Usage)
    requires GoalsOk(w.state)
    ensures var after := ReplayTokens(w, turn, usage).session.replay;
      || after == w.session.replay
      || (&& after == Some(Replay(turn, usage)) && w.session.replay.None? && Advanced(usage, w.state.thread)
          && w.state.cursor < |w.state.goals| && Unfinished(w.state.goals[w.state.cursor]))
  {
    FoundAt(w.state, w.state.cursor);
  }

  lemma MeasureReplay(w: Work, turn: nat, usage: Usage, ctx: Context)
    ensures MeasureTokens(w, turn, usage, ctx).session.replay == w.session.replay
  {
    var s := w.state.(thread := usage);
    if Current(s).Some? {
      AdvanceReplay(Work(WithGoal(s, Current(s).value.(usageTurn := Some(turn))), w.session), ctx);
    }
  }

  lemma ReportReplay(w: Work, native: Native, turn: Option<nat>, ctx: Context)
    ensures UpdateGoal(w, native, turn, ctx).session.replay == w.session.replay
  {
    if Current(w.state).Some? {
      AdvanceReplay(Work(WithGoal(w.state, Updated(Current(w.state).value, native, turn)), w.session), ctx);
    }
  }

  /** Taking a snapshot changes what the session has seen, and nothing of what it remembers or has reconciled. */
  predicate SameReading(a: Session, b: Session) {
    a.replay == b.replay && a.reconciled == b.reconciled
  }

  lemma AskedReplay(w: Work, native: Native, g: Goal)
    requires Current(w.state) == Some(g) && AskedLast(w.state, g, native)
    ensures SameReading(w.session, TakeSnapshot(w, native).session)
  {
  }

  lemma HeldReplay(w: Work, native: Native, g: Goal)
    requires Current(w.state) == Some(g) && !AskedLast(w.state, g, native)
    ensures SameReading(w.session, TakeSnapshot(w, native).session)
  {
  }

  lemma SnapshotReplay(w: Work, native: Native)
    ensures SameReading(w.session, TakeSnapshot(w, native).session)
  {
    if Current(w.state).Some? {
      if AskedLast(w.state, Current(w.state).value, native) {
        AskedReplay(w, native, Current(w.state).value);
      } else {
        HeldReplay(w, native, Current(w.state).value);
      }
    }
  }

  lemma EndReplay(w: Work, turn: nat, status: TurnStatus, ctx: Context)
    ensures EndTurn(w, turn, status, ctx).session.replay == w.session.replay
  {
    if Current(w.state).Some? {
      var g := Current(w.state).value;
      var ended := g.(terminalCompleted := g.terminalCompleted || (g.terminalTurn == Some(turn) && status == TurnCompleted));
      AdvanceReplay(Work(WithGoal(w.state, ended), w.session), ctx);
    }
  }

  lemma StatusReplay(w: Work, status: ThreadStatus, ctx: Context)
    ensures ChangeStatus(w, status, ctx).session.replay == w.session.replay
  {
    if Current(w.state).Some? {
      AdvanceReplay(Work(WithGoal(w.state, Current(w.state).value.(idle := status == IdleThread)), w.session), ctx);
    }
  }

  lemma StartReplay(w: Work)
    ensures StartTurn(w).session.replay == w.session.replay
  {
  }

  lemma OtherReplay(w: Work, message: Message, ctx: Context)
    requires !message.TokensUpdated?
    ensures Notify(w, message, ctx).session.replay == w.session.replay
  {
    if message.GoalUpdated? {
      ReportReplay(w, message.goal, message.goalTurn, ctx);
      SnapshotReplay(w, message.goal);
    } else if message.TurnEnded? {
      EndReplay(w, message.endedTurn, message.turnStatus, ctx);
    } else if message.StatusChanged? {
      StatusReplay(w, message.threadStatus, ctx);
    } else {
      StartReplay(w);
    }
  }

  lemma TokensReplay(w: Work, turn: Option<nat>, usage: Option<Usage>, ctx: Context)
    ensures Notify(w, TokensUpdated(turn, usage), ctx).session.replay == w.session.replay
      || (&& turn.Some? && usage.Some? && !w.session.reconciled && w.session.snapshotPending
          && Notify(w, TokensUpdated(turn, usage), ctx) == ReplayTokens(w, turn.value, usage.value))
  {
    AdvanceReplay(w, ctx);
    if turn.Some? && usage.Some? { MeasureReplay(w, turn.value, usage.value, ctx); }
  }

  lemma NotifyReplay(w: Work, message: Message, ctx: Context)
    requires GoalsOk(w.state)
    ensures var after := Notify(w, message, ctx).session.replay;
      || after == w.session.replay
      || (&& !w.session.reconciled && w.session.snapshotPending && w.session.replay.None? && after.Some?
          && message == TokensUpdated(Some(after.value.turn), Some(after.value.usage))
          && Advanced(after.value.usage, w.state.thread)
          && w.state.cursor < |w.state.goals| && Unfinished(w.state.goals[w.state.cursor]))
  {
    if message.TokensUpdated? {
      TokensReplay(w, message.tokensTurn, message.usage, ctx);
      if message.usage.Some? && message.tokensTurn.Some? {
        ReplayTaken(w, message.tokensTurn.value, message.usage.value);
      }
    } else {
      OtherReplay(w, message, ctx);
    }
  }

  /** A resume at a retained Goal gives up, as it is or with the counters it has proven, or goes on with those. */
  lemma ResumeGoalShape(w: Work, g: Goal, snapshot: Snapshot, goal: Native, idle: bool, turns: Option<seq<Turn>>)
    requires g.native.Some?
    ensures var after, proven := ResumeGoal(w, g, snapshot, goal, idle, turns), ReconcileReplay(w, g, turns);
      || after == Abandon(w)
      || (proven.Some? && (after == Abandon(proven.value) || after == Reconciled(proven.value, true) || after == Reconciled(proven.value, false)))
  {
  }

  lemma ReconciledReplay(w: Work, g: Goal, turns: Option<seq<Turn>>)
    ensures var after := ReconcileReplay(w, g, turns);
      after.Some? ==> after.value.session.replay.None?
  {
  }

  lemma ResumeGoalReplay(w: Work, g: Goal, snapshot: Snapshot, goal: Native, idle: bool, turns: Option<seq<Turn>>)
    requires g.native.Some?
    ensures var after := ResumeGoal(w, g, snapshot, goal, idle, turns).session.replay; after == w.session.replay || after.None?
  {
    ReconciledReplay(w, g, turns);
    ResumeGoalShape(w, g, snapshot, goal, idle, turns);
  }

  lemma ResumeCleared(w: Work, g: Goal, idle: bool, turns: Option<seq<Turn>>)
    requires Current(w.state) == Some(g) && w.session.outcome.None?
    ensures var cleared := Work(w.state, w.session.(snapshotPending := false, reconciled := true));
      Resume(w, None, idle, turns) == Abandon(cleared) || Resume(w, None, idle, turns) == Reconciled(cleared, true)
  {
  }

  lemma ResumeNone(w: Work, idle: bool, turns: Option<seq<Turn>>)
    ensures Resume(w, None, idle, turns).session.replay == w.session.replay
  {
    if Current(w.state).Some? && w.session.outcome.None? {
      ResumeCleared(w, Current(w.state).value, idle, turns);
    }
  }

  lemma ResumeBare(w: Work, g: Goal, goal: Native, idle: bool, turns: Option<seq<Turn>>)
    requires Current(w.state) == Some(g) && g.native.None?
    ensures Resume(w, Some(goal), idle, turns).session.replay == w.session.replay
  {
  }

  lemma ResumeRetained(w: Work, g: Goal, goal: Native, idle: bool, turns: Option<seq<Turn>>)
    requires Current(w.state) == Some(g) && g.native.Some? && w.session.outcome.None? && w.session.snapshot.Some?
    ensures Resume(w, Some(goal), idle, turns) == ResumeGoal(w, g, w.session.snapshot.value, goal, idle, turns)
  {
  }

  lemma ResumeReplay(w: Work, goal: Option<Native>, idle: bool, turns: Option<seq<Turn>>)
    ensures var after := Resume(w, goal, idle, turns).session.replay; after == w.session.replay || after.None?
  {
    var current := Current(w.state);
    if goal.None? {
      ResumeNone(w, idle, turns);
    } else if current.Some? && w.session.outcome.None? && w.session.snapshot.Some? {
      if current.value.native.None? {
        ResumeBare(w, current.value, goal.value, idle, turns);
      } else {
        ResumeRetained(w, current.value, goal.value, idle, turns);
        ResumeGoalReplay(w, current.value, w.session.snapshot.value, goal.value, idle, turns);
      }
    }
  }

  lemma ProceedReplay(w: Work, ctx: Context)
    requires GoalsOk(w.state)
    ensures var after := Proceed(w, ctx).session.replay;
      after == w.session.replay || (after.Some? && Remembers(w, Continued(ctx), after.value))
  {
    var running := Work(w.state, w.session.(phase := Running));
    AdvanceReplay(running, ctx);
    BeginCalm(running, ctx.text);
    if w.session.outcome.None? && w.session.phase.Replaying? && w.session.backlog != [] {
      NotifyReplay(Work(w.state, w.session.(backlog := w.session.backlog[1..])), w.session.backlog[0], ctx);
    }
  }

  /** No other event remembers counters, and none replaces what is remembered. */
  lemma ReplayRememberedOnly(w: Work, e: Event)
    requires LiveOk(w)
    ensures var after := Act(w, e).session.replay;
      after == w.session.replay || after.None? || Remembers(w, e, after.value)
  {
    LiveGoals(w);
    if e.GoalAnswered? {
      ResumeReplay(w, e.goal, e.threadIdle, e.turns);
    } else if e.Continued? {
      ProceedReplay(w, e.ctx);
    } else if e.Notified? {
      NotifyReplay(w, e.message, e.ctx);
    } else {
      FlowReplay(w, e);
    }
  }

  lemma FlowReplay(w: Work, e: Event)
    requires !e.GoalAnswered? && !e.Continued? && !e.Notified?
    ensures Act(w, e).session.replay == w.session.replay
  {
    if e.GoalSet? { AcceptCalm(w, e.native); }
  }

  lemma LiveGoals(w: Work)
    requires LiveOk(w)
    ensures GoalsOk(w.state)
  {
    var r :| WorkOk(w, r);
  }

  // ----- which Goal a resume accepts -----

  predicate Carries(native: Native, g: Goal, session: Option<nat>) {
    Some(native.thread) == session && native.objective == g.objective
  }

  /** The Goal ended by itself, at its measured turn, with the thread idle. */
  predicate Rests(g: Goal) {
    g.terminalTurn.Some? && g.terminalCompleted && g.idle && g.usageTurn == g.terminalTurn
  }

  /** The process died in a turn the thread then completed: the history shows that turn interrupted, as all behind it. */
  predicate EndedAlone(g: Goal, turn: Option<nat>, idle: bool, turns: Option<seq<Turn>>) {
    && g.native.Some? && g.native.value.status == Active && g.terminalTurn.None? && g.end.None?
    && idle && turns.Some? && turn.Some?
    && exists k | 0 <= k < |turns.value| ::
         turns.value[k].id == turn.value && turns.value[k].interrupted && InterruptedSince(turns.value, k)
  }

  /** The thread holds exactly the retained Goal. */
  predicate HoldsRetained(w: Work, after: Work, goal: Native, idle: bool, turns: Option<seq<Turn>>)
    requires w.state.cursor < |w.state.goals|
  {
    var s, g := w.state, w.state.goals[w.state.cursor];
    && w.session.snapshot.Some? && g.native.Some?
    && var taken := w.session.snapshot.value;
    && taken.index == s.cursor
    && Carries(g.native.value, g, s.sessionId) && Carries(taken.goal, g, s.sessionId) && Carries(goal, g, s.sessionId)
    && goal.status != OtherStatus && g.native.value.status != OtherStatus
    && (taken.goal.status == Complete ==> goal.status == Complete)
    && (taken.goal.status == Complete ==>
          || Rests(g)
          || (w.session.nativeCompleted && s.cursor < |after.state.goals|
              && EndedAlone(g, after.state.goals[s.cursor].usageTurn, idle, turns)))
  }

  /** The thread holds the completed Goal before the one at the cursor, which ended at the total. */
  predicate HoldsPrevious(w: Work, goal: Native)
    requires w.state.cursor < |w.state.goals|
  {
    var s := w.state;
    && w.session.snapshot.Some? && s.goals[s.cursor].native.None? && s.cursor > 0
    && var previous, taken := s.goals[s.cursor - 1], w.session.snapshot.value;
    && taken.index == s.cursor - 1 && previous.end == Some(s.thread)
    && previous.native.Some? && previous.native.value.status == Complete && taken.goal.status == Complete && goal.status == Complete
    && Carries(previous.native.value, previous, s.sessionId)
    && Carries(taken.goal, previous, s.sessionId) && Carries(goal, previous, s.sessionId)
  }

  /** The thread holds no Goal, and none was retained. */
  predicate HoldsNothing(w: Work)
    requires w.state.cursor < |w.state.goals|
  {
    w.state.cursor == 0 && w.state.goals[0].native.None? && w.session.snapshot.None?
  }

  lemma ResumeGoalMatches(w: Work, g: Goal, snapshot: Snapshot, goal: Native, idle: bool, turns: Option<seq<Turn>>)
    requires g.native.Some? && w.session.outcome.None?
    requires ResumeGoal(w, g, snapshot, goal, idle, turns).session.outcome.None?
    ensures RetainedMatches(g, snapshot.goal, w.state.sessionId) && NativeMatches(g, goal, w.state.sessionId)
    ensures ResumeChecked(g, snapshot, goal)
  {
    if !ResumeChecked(g, snapshot, goal) {
      ResumeUnchecked(w, g, snapshot, goal, idle, turns);
    }
  }

  predicate ResumeChecked(g: Goal, snapshot: Snapshot, goal: Native)
    requires g.native.Some?
  {
    && snapshot.index == g.index && RetainedStatus(goal.status) && RetainedStatus(g.native.value.status)
    && (snapshot.goal.status == Complete ==> goal.status == Complete)
  }

  lemma ResumeUnchecked(w: Work, g: Goal, snapshot: Snapshot, goal: Native, idle: bool, turns: Option<seq<Turn>>)
    requires g.native.Some? && !ResumeChecked(g, snapshot, goal)
    ensures ResumeGoal(w, g, snapshot, goal, idle, turns) == Abandon(w)
  {
  }

  lemma ResumeGoalProves(w: Work, g: Goal, snapshot: Snapshot, goal: Native, idle: bool, turns: Option<seq<Turn>>)
    requires g.native.Some? && w.session.outcome.None?
    requires ResumeGoal(w, g, snapshot, goal, idle, turns).session.outcome.None?
    ensures ReconcileReplay(w, g, turns).Some?
    ensures var after := ResumeGoal(w, g, snapshot, goal, idle, turns);
      after.state == ReconcileReplay(w, g, turns).value.state && after.session.reconciled && after.session.phase.Replaying?
  {
    ResumeGoalShape(w, g, snapshot, goal, idle, turns);
  }

  lemma ResumeGoalSaw(w: Work, g: Goal, snapshot: Snapshot, goal: Native, idle: bool, turns: Option<seq<Turn>>)
    requires g.native.Some? && w.session.outcome.None? && !w.session.nativeCompleted
    requires snapshot.goal.status == Complete && !Rests(g)
    ensures ResumeGoal(w, g, snapshot, goal, idle, turns) == Abandon(w)
  {
  }

  lemma ResumeGoalAlone(w: Work, g: Goal, snapshot: Snapshot, goal: Native, idle: bool, turns: Option<seq<Turn>>)
    requires g.native.Some? && w.session.outcome.None? && ReconcileReplay(w, g, turns).Some?
    requires ResumeGoal(w, g, snapshot, goal, idle, turns).session.outcome.None?
    requires snapshot.goal.status == Complete && goal.status == Complete && w.session.nativeCompleted
    ensures Current(ReconcileReplay(w, g, turns).value.state).Some?
    ensures CompletedNatively(
      ReconcileReplay(w, g, turns).value.state, Current(ReconcileReplay(w, g, turns).value.state).value, idle, turns)
  {
    var proven := ReconcileReplay(w, g, turns).value;
    assert Abandon(w).session.outcome.Some? && Abandon(proven).session.outcome.Some?;
  }

  lemma NativelyAlone(s: RunState, g: Goal, proved: Goal, idle: bool, turns: Option<seq<Turn>>)
    requires CompletedNatively(s, proved, idle, turns) && proved == g.(usageTurn := proved.usageTurn)
    ensures EndedAlone(g, proved.usageTurn, idle, turns)
  {
    FoundTurn(turns.value, proved.usageTurn.value, true, 0);
    assert InterruptedSince(turns.value, FindTurn(turns.value, proved.usageTurn.value, true, 0));
  }

  lemma ResumeGoalHolds(w: Work, g: Goal, goal: Native, idle: bool, turns: Option<seq<Turn>>)
    requires GoalsOk(w.state) && |w.state.goals| == w.state.cursor + 1 && g == w.state.goals[w.state.cursor] && g.native.Some?
    requires w.session.outcome.None? && w.session.snapshot.Some?
    requires ResumeGoal(w, g, w.session.snapshot.value, goal, idle, turns).session.outcome.None?
    ensures var after := ResumeGoal(w, g, w.session.snapshot.value, goal, idle, turns);
      HoldsRetained(w, after, goal, idle, turns) && after.session.reconciled && after.session.phase.Replaying?
  {
    assert GoalFits(w.state, w.state.cursor);
    ResumeGoalMatches(w, g, w.session.snapshot.value, goal, idle, turns);
    ResumeGoalProves(w, g, w.session.snapshot.value, goal, idle, turns);
    ReconciledRecord(w, g, turns);
    if w.session.snapshot.value.goal.status == Complete && !Rests(g) {
      if !w.session.nativeCompleted { ResumeGoalSaw(w, g, w.session.snapshot.value, goal, idle, turns); }
      ResumeGoalAlone(w, g, w.session.snapshot.value, goal, idle, turns);
      var after := ReconcileReplay(w, g, turns).value;
      NativelyAlone(after.state, g, Current(after.state).value, idle, turns);
    }
  }

  lemma ReconciledRecord(w: Work, g: Goal, turns: Option<seq<Turn>>)
    requires GoalsOk(w.state) && |w.state.goals| == w.state.cursor + 1 && g == w.state.goals[w.state.cursor]
    requires ReconcileReplay(w, g, turns).Some?
    ensures var after := ReconcileReplay(w, g, turns).value;
      && |after.state.goals| == w.state.cursor + 1 && after.state.cursor == w.state.cursor
      && Current(after.state) == Some(after.state.goals[w.state.cursor])
      && after.state.goals[w.state.cursor] == g.(usageTurn := after.state.goals[w.state.cursor].usageTurn)
  {
    assert GoalFits(w.state, w.state.cursor);
    FoundAt(w.state, w.state.cursor);
    if w.session.replay.Some? {
      var replay := w.session.replay.value;
      var proved := g.(usageTurn := Some(replay.turn));
      ReplacedCurrent(w.state, proved);
      SetStill(w.state, replay.usage, proved);
      var after := WithGoal(w.state.(thread := replay.usage), proved);
      forall i | 0 <= i < |after.goals| ensures after.goals[i].index == 0 + i { assert GoalFits(w.state, i); }
      FindGoalAt(after.goals, 0, w.state.cursor);
    }
  }

  lemma BoundaryHolds(w: Work, goal: Native)
    requires GoalsOk(w.state) && |w.state.goals| == w.state.cursor + 1 && w.state.goals[w.state.cursor].native.None?
    requires w.session.snapshot.Some?
    requires UndispatchedBoundary(w.state, PreviousGoal(w.state, w.state.goals[w.state.cursor]), w.session.snapshot.value, goal)
    ensures HoldsPrevious(w, goal)
  {
    assert GoalFits(w.state, w.state.cursor);
    if w.state.cursor > 0 {
      FoundAt(w.state, w.state.cursor - 1);
      assert GoalFits(w.state, w.state.cursor - 1);
    }
  }

  lemma ResumeCases(w: Work, g: Goal, goal: Option<Native>, idle: bool, turns: Option<seq<Turn>>)
    requires Current(w.state) == Some(g) && w.session.outcome.None?
    requires Resume(w, goal, idle, turns).session.outcome.None?
    ensures goal.None? ==>
      && g.index == 0 && g.native.None? && w.session.snapshot.None?
      && Resume(w, goal, idle, turns).session.reconciled && Resume(w, goal, idle, turns).session.phase == Replaying(true)
    ensures goal.Some? ==> w.session.snapshot.Some?
    ensures goal.Some? && g.native.None? ==>
      && UndispatchedBoundary(w.state, PreviousGoal(w.state, g), w.session.snapshot.value, goal.value)
      && Resume(w, goal, idle, turns) == Reconciled(w, true)
    ensures goal.Some? && g.native.Some? ==>
      Resume(w, goal, idle, turns) == ResumeGoal(w, g, w.session.snapshot.value, goal.value, idle, turns)
  {
  }

  /** The Goal at the cursor is asked for, again or for the first time, unless the thread is still at it or has just ended it. */
  predicate AsksAgain(w: Work, goal: Option<Native>)
    requires w.state.cursor < |w.state.goals|
  {
    || goal.None? || w.state.goals[w.state.cursor].native.None? || w.session.adopted
    || goal.value.status == Paused || goal.value.status == Blocked
    || goal.value.status == UsageLimited || goal.value.status == BudgetLimited
    || (w.session.nativeCompleted && w.session.snapshot.Some? && w.session.snapshot.value.goal.status == Complete
        && goal.value.status == Complete)
  }

  lemma ResumeGoalAsks(w: Work, g: Goal, snapshot: Snapshot, goal: Native, idle: bool, turns: Option<seq<Turn>>)
    requires g.native.Some? && w.session.outcome.None?
    requires ResumeGoal(w, g, snapshot, goal, idle, turns).session.outcome.None?
    requires ResumeGoal(w, g, snapshot, goal, idle, turns).session.phase.Replaying?
    ensures ResumeGoal(w, g, snapshot, goal, idle, turns).session.phase.thenBegin <==>
      || (w.session.nativeCompleted && snapshot.goal.status == Complete && goal.status == Complete)
      || w.session.adopted || InterruptedStatus(goal.status)
  {
    ResumeGoalShape(w, g, snapshot, goal, idle, turns);
  }

  /**
   A resume goes on only where the thread holds exactly what was retained: the
   Goal at the cursor, the completed one before it, or none where none was asked
   for. Everything else interrupts the run.
   */
  lemma ResumeAcceptsOnly(w: Work, goal: Option<Native>, idle: bool, turns: Option<seq<Turn>>)
    requires GoalsOk(w.state) && |w.state.goals| == w.state.cursor + 1 && w.session.outcome.None?
    requires Resume(w, goal, idle, turns).session.outcome.None?
    ensures var after := Resume(w, goal, idle, turns);
      && after.session.reconciled && after.session.phase.Replaying?
      && (after.session.phase.thenBegin <==> AsksAgain(w, goal))
      && if goal.None? then HoldsNothing(w)
         else HoldsPrevious(w, goal.value) || HoldsRetained(w, after, goal.value, idle, turns)
  {
    FoundAt(w.state, w.state.cursor);
    var g := w.state.goals[w.state.cursor];
    ResumeCases(w, g, goal, idle, turns);
    if goal.None? {
      assert GoalFits(w.state, w.state.cursor);
    } else if g.native.None? {
      BoundaryHolds(w, goal.value);
    } else {
      ResumeGoalHolds(w, g, goal.value, idle, turns);
      ResumeGoalAsks(w, g, w.session.snapshot.value, goal.value, idle, turns);
    }
  }

  // ----- which snapshot it takes -----

  /** The Goal the thread shows is the retained one, as it was retained. */
  predicate ShowsHeld(w: Work, native: Native, held: Goal) {
    held.native.Some? && held.native.value.status == native.status && Carries(native, held, w.state.sessionId)
  }

  /** Or the retained Goal, which has completed since in the turn the process died in. */
  predicate ShowsCompletion(w: Work, native: Native, g: Goal) {
    && g.native.Some? && g.native.value.status == Active && native.status == Complete && Carries(native, g, w.state.sessionId)
    && g.terminalTurn.None? && !g.terminalCompleted && !g.idle && g.usageTurn.Some? && g.end.None?
    && Advanced(w.state.thread, g.start)
  }

  /** Or the Goal that was asked for but not retained: active, with nothing spent, behind a boundary at the total. */
  predicate ShowsRequested(w: Work, native: Native, g: Goal)
    requires w.state.cursor < |w.state.goals|
  {
    && g.native.None? && native.status == Active && native.tokensUsed == 0 && native.timeUsed == 0
    && Carries(native, g, w.state.sessionId) && g.start == w.state.thread
    && (w.state.cursor > 0 ==> w.state.goals[w.state.cursor - 1].end == Some(w.state.thread))
  }

  /** The record looks as one does whose Goal was asked for last. */
  predicate AskedLast(s: RunState, g: Goal, native: Native) {
    && g.native.None? && PreviousBoundaryComplete(s, g) && g.terminalTurn.None? && !g.terminalCompleted
    && g.usageTurn.None? && g.end.None? && g.start == s.thread && g.usage == Zero()
    && native.status == Active && native.tokensUsed == 0 && native.timeUsed == 0
  }

  predicate CompletedSince(s: RunState, g: Goal, native: Native) {
    && g.native.Some? && g.native.value.status == Active && native.status == Complete
    && g.terminalTurn.None? && !g.terminalCompleted && !g.idle && g.usageTurn.Some? && g.end.None?
    && g.usage == Zero() && Advanced(s.thread, g.start)
  }

  lemma SnapshotOnce(w: Work, native: Native)
    requires w.session.outcome.None? && TakeSnapshot(w, native).session.outcome.None?
    ensures w.session.snapshotPending && w.session.snapshot.None? && Current(w.state).Some?
  {
  }

  lemma SnapshotAsked(w: Work, native: Native, g: Goal)
    requires Current(w.state) == Some(g) && w.session.outcome.None? && AskedLast(w.state, g, native)
    requires TakeSnapshot(w, native).session.outcome.None?
    ensures var after := TakeSnapshot(w, native);
      && after.session.snapshot.Some? && after.session.snapshot.value.goal == native
      && Carries(native, g, w.state.sessionId) && after.session.adopted
      && after.state == WithGoal(w.state, g.(native := Some(native)))
  {
  }

  lemma SnapshotCompleted(w: Work, native: Native, g: Goal)
    requires Current(w.state) == Some(g) && w.session.outcome.None? && CompletedSince(w.state, g, native)
    requires TakeSnapshot(w, native).session.outcome.None?
    ensures var after := TakeSnapshot(w, native);
      && after.session.snapshot.Some? && after.session.snapshot.value.goal == native
      && Carries(native, g, w.state.sessionId) && after.session.nativeCompleted
  {
  }

  lemma SnapshotHeld(w: Work, native: Native, g: Goal)
    requires Current(w.state) == Some(g) && w.session.outcome.None?
    requires !AskedLast(w.state, g, native) && !CompletedSince(w.state, g, native)
    requires TakeSnapshot(w, native).session.outcome.None?
    ensures var after, held := TakeSnapshot(w, native), if g.native.Some? then Some(g) else PreviousGoal(w.state, g);
      && held.Some? && after.session.snapshot == Some(Snapshot(native, held.value.index)) && ShowsHeld(w, native, held.value)
  {
  }

  /** A snapshot is taken only of what was retained, of its completion, or of the Goal asked for last. */
  lemma SnapshotShows(w: Work, native: Native)
    requires GoalsOk(w.state) && |w.state.goals| == w.state.cursor + 1 && w.session.outcome.None?
    requires TakeSnapshot(w, native).session.outcome.None?
    ensures w.session.snapshotPending && w.session.snapshot.None?
    ensures var after, g := TakeSnapshot(w, native), w.state.goals[w.state.cursor];
      && after.session.snapshot.Some? && after.session.snapshot.value.goal == native
      && (|| (ShowsHeld(w, native, g) && after.session.snapshot.value.index == w.state.cursor)
          || (g.native.None? && w.state.cursor > 0 && ShowsHeld(w, native, w.state.goals[w.state.cursor - 1])
              && after.session.snapshot.value.index == w.state.cursor - 1)
          || (ShowsCompletion(w, native, g) && after.session.nativeCompleted)
          || (ShowsRequested(w, native, g) && after.session.adopted && Current(after.state) == Some(g.(native := Some(native)))))
  {
    var s := w.state;
    var g := s.goals[s.cursor];
    FoundAt(s, s.cursor);
    assert GoalFits(s, s.cursor);
    if s.cursor > 0 {
      FoundAt(s, s.cursor - 1);
      assert GoalFits(s, s.cursor - 1);
    }
    SnapshotOnce(w, native);
    if AskedLast(s, g, native) {
      SnapshotAsked(w, native, g);
    } else if CompletedSince(s, g, native) {
      SnapshotCompleted(w, native, g);
    } else {
      SnapshotHeld(w, native, g);
    }
    SetFound(s, g.(native := Some(native)));
  }

  lemma SetFound(s: RunState, g: Goal)
    requires GoalsOk(s) && |s.goals| == s.cursor + 1 && g.index == s.cursor
    ensures Current(WithGoal(s, g)) == Some(g)
  {
    ReplacedCurrent(s, g);
    var after := WithGoal(s, g);
    forall i | 0 <= i < |after.goals| ensures after.goals[i].index == 0 + i { assert GoalFits(s, i); }
    FindGoalAt(after.goals, 0, s.cursor);
  }

  // ----- a finished Goal is never left waiting -----

  /** The Goal at the cursor is at its terminal while the session could complete it. */
  predicate LeftWaiting(w: Work) {
    && w.session.outcome.None? && w.session.reconciled && !w.session.snapshotPending && !w.session.advancing
    && w.session.phase == Running
    && w.state.cursor < |w.state.goals| && AtTerminal(w.state.goals[w.state.cursor])
  }

  lemma BeginSettles(w: Work, text: string)
    requires GoalsOk(w.state)
    ensures BeginGoal(w, text).session.advancing == w.session.advancing
    ensures !LeftWaiting(BeginGoal(w, text))
  {
    var s := w.state;
    FoundAt(s, s.cursor);
    if |s.goals| == s.cursor + 1 {
      assert GoalFits(s, s.cursor);
      ReplacedCurrent(s, Reset(s.goals[s.cursor]));
    } else if s.cursor < |s.plan| {
      PreparedFound(s, text);
      PreparedReset(s, text);
    }
  }

  lemma PreparedReset(s: RunState, text: string)
    requires GoalsOk(s) && |s.goals| == s.cursor < |s.plan|
    ensures WithGoal(Prepare(s, text), Reset(NewGoal(s, text))).goals == s.goals + [Reset(NewGoal(s, text))]
  {
    FoundAt(s, s.cursor);
    var prepared := Prepare(s, text);
    forall i | 0 <= i < |prepared.goals| ensures prepared.goals[i].index == 0 + i {
      if i < |s.goals| { assert GoalFits(s, i); }
    }
    ReplacedAt(prepared.goals, 0, Reset(NewGoal(s, text)));
  }

  lemma CompleteStaysBusy(w: Work, g: Goal, ctx: Context)
    ensures CompleteGoal(w, g, ctx).session.advancing
  {
    var s := Close(w.state, g);
    var crossed := Work(Cross(s, g, BoundaryAfter(s, g)), w.session.(advancing := true));
    LeaveStaysBusy(crossed, g.name, BoundaryAfter(s, g), ctx);
  }

  lemma LeaveStaysBusy(w: Work, name: StageName, boundary: Boundary, ctx: Context)
    requires w.session.advancing
    ensures Leave(w, name, boundary, ctx).session.advancing
  {
  }

  lemma AdvanceSettles(w: Work, ctx: Context)
    requires GoalsOk(w.state)
    ensures !LeftWaiting(Advance(w, ctx))
  {
    FoundAt(w.state, w.state.cursor);
    if w.session.outcome.None? && |w.state.goals| == w.state.cursor + 1 {
      var g := w.state.goals[w.state.cursor];
      if w.session.reconciled && !w.session.snapshotPending && !w.session.advancing && AtTerminal(g) && CanComplete(w.state, g, ctx.gate) {
        CompleteStaysBusy(w, g, ctx);
      }
    }
  }

  lemma SetSettles(w: Work, thread: Usage, g: Goal, ctx: Context, r: Reminders)
    requires WorkOk(w, r) && |w.state.goals| == w.state.cursor + 1 && SameRecord(w.state, g)
    requires w.session.beginning.Some? ==> g.terminalTurn.None?
    ensures !LeftWaiting(Advance(Work(WithGoal(w.state.(thread := thread), g), w.session), ctx))
  {
    RecordSet(w, thread, g, w.session, r);
    AdvanceSettles(Work(WithGoal(w.state.(thread := thread), g), w.session), ctx);
  }

  lemma ReportSettles(w: Work, native: Native, turn: Option<nat>, ctx: Context, r: Reminders)
    requires WorkOk(w, r) && |w.state.goals| == w.state.cursor + 1 && !LeftWaiting(w)
    requires w.session.beginning.Some? ==> native.status != Complete
    ensures !LeftWaiting(UpdateGoal(w, native, turn, ctx))
  {
    FoundAt(w.state, w.state.cursor);
    SameThread(w.state);
    var g := w.state.goals[w.state.cursor];
    ReportShape(w, g, native, turn, ctx);
    if NativeMatches(g, native, w.state.sessionId) {
      SetSettles(w, w.state.thread, Updated(g, native, turn), ctx, r);
    }
  }

  lemma ReportShape(w: Work, g: Goal, native: Native, turn: Option<nat>, ctx: Context)
    requires Current(w.state) == Some(g)
    ensures var changed, after := Work(WithGoal(w.state, Updated(g, native, turn)), w.session), UpdateGoal(w, native, turn, ctx);
      || after == Interrupt(w)
      || (NativeMatches(g, native, w.state.sessionId) && (after == Interrupt(changed) || after == Advance(changed, ctx)))
  {
  }

  lemma StartSettles(w: Work)
    requires GoalsOk(w.state) && |w.state.goals| == w.state.cursor + 1
    ensures !LeftWaiting(StartTurn(w))
  {
    FoundAt(w.state, w.state.cursor);
    assert GoalFits(w.state, w.state.cursor);
    ReplacedCurrent(w.state, w.state.goals[w.state.cursor].(idle := false));
  }

  lemma EndSettles(w: Work, turn: nat, status: TurnStatus, ctx: Context, r: Reminders)
    requires WorkOk(w, r) && |w.state.goals| == w.state.cursor + 1
    ensures !LeftWaiting(EndTurn(w, turn, status, ctx))
  {
    FoundAt(w.state, w.state.cursor);
    SameThread(w.state);
    var g := w.state.goals[w.state.cursor];
    SetSettles(w, w.state.thread, g.(terminalCompleted := g.terminalCompleted || (g.terminalTurn == Some(turn) && status == TurnCompleted)), ctx, r);
  }

  lemma StatusSettles(w: Work, status: ThreadStatus, ctx: Context, r: Reminders)
    requires WorkOk(w, r) && |w.state.goals| == w.state.cursor + 1
    ensures !LeftWaiting(ChangeStatus(w, status, ctx))
  {
    FoundAt(w.state, w.state.cursor);
    SameThread(w.state);
    SetSettles(w, w.state.thread, w.state.goals[w.state.cursor].(idle := status == IdleThread), ctx, r);
  }

  lemma ReconciledSettles(w: Work, message: Message, ctx: Context, r: Reminders)
    requires WorkOk(w, r) && w.session.reconciled && |w.state.goals| == w.state.cursor + 1 && !message.TokensUpdated?
    requires w.state.sessionId.Some? && !ForkPending(w.session) && !LeftWaiting(w)
    requires w.session.beginning.Some? ==> !(message.GoalUpdated? && message.goal.status == Complete)
    ensures !LeftWaiting(Notify(w, message, ctx))
  {
    if message.GoalUpdated? {
      ReportSettles(w, message.goal, message.goalTurn, ctx, r);
    } else if message.TurnEnded? {
      EndSettles(w, message.endedTurn, message.turnStatus, ctx, r);
    } else if message.StatusChanged? {
      StatusSettles(w, message.threadStatus, ctx, r);
    } else {
      StartSettles(w);
    }
  }

  lemma TokensSettle(w: Work, turn: Option<nat>, usage: Option<Usage>, ctx: Context, r: Reminders)
    requires WorkOk(w, r) && w.session.reconciled && w.state.sessionId.Some? && !ForkPending(w.session)
    ensures !LeftWaiting(Notify(w, TokensUpdated(turn, usage), ctx))
  {
    var s := w.state;
    FoundAt(s, s.cursor);
    AdvanceSettles(w, ctx);
    if usage.Some? && turn.Some? {
      if |s.goals| == s.cursor + 1 {
        SetSettles(w, usage.value, s.goals[s.cursor].(usageTurn := turn), ctx, r);
      } else {
        assert Current(s.(thread := usage.value)).None?;
      }
    }
  }

  lemma UnreconciledSettles(w: Work, message: Message, ctx: Context)
    requires !w.session.reconciled
    ensures !LeftWaiting(Notify(w, message, ctx))
  {
    if message.GoalUpdated? { SnapshotReplay(w, message.goal); }
    if message.TokensUpdated? {
      if message.usage.None? { assert Advance(w, ctx).session.reconciled ==> w.session.outcome.Some?; }
    }
  }

  lemma NotifySettles(w: Work, message: Message, ctx: Context, r: Reminders)
    requires WorkOk(w, r) && !LeftWaiting(w)
    requires w.session.beginning.Some? ==> !(message.GoalUpdated? && message.goal.status == Complete)
    ensures !LeftWaiting(Notify(w, message, ctx))
  {
    if w.state.sessionId.Some? && !ForkPending(w.session) {
      if !w.session.reconciled {
        UnreconciledSettles(w, message, ctx);
      } else if message.TokensUpdated? {
        TokensSettle(w, message.tokensTurn, message.usage, ctx, r);
      } else if |w.state.goals| == w.state.cursor + 1 {
        ReconciledSettles(w, message, ctx, r);
      } else {
        FoundAt(w.state, w.state.cursor);
      }
    }
  }

  lemma ProceedSettles(w: Work, ctx: Context, r: Reminders)
    requires WorkOk(w, r) && w.session.beginning.None? && !LeftWaiting(w)
    ensures !LeftWaiting(Proceed(w, ctx))
  {
    if w.session.outcome.None? {
      if w.session.phase.Replaying? && w.session.backlog != [] {
        var popped := Work(w.state, w.session.(backlog := w.session.backlog[1..]));
        SessionMoves(w, popped.session, r);
        NotifySettles(popped, w.session.backlog[0], ctx, r);
      } else {
        var running := Work(w.state, w.session.(phase := Running));
        AdvanceSettles(running, ctx);
        BeginSettles(running, ctx.text);
      }
    }
  }

  lemma AcceptSettles(w: Work, native: Native, r: Reminders)
    requires WorkOk(w, r) && !LeftWaiting(w)
    ensures !LeftWaiting(GoalAccepted(w, native))
  {
    if w.session.beginning.Some? {
      FoundAt(w.state, w.state.cursor);
      assert GoalFits(w.state, w.state.cursor);
      ReplacedCurrent(w.state, w.state.goals[w.state.cursor].(native := Some(native)));
    }
  }

  lemma ResumeSettles(w: Work, goal: Option<Native>, idle: bool, turns: Option<seq<Turn>>)
    requires GoalsOk(w.state) && |w.state.goals| == w.state.cursor + 1
    ensures !LeftWaiting(Resume(w, goal, idle, turns))
  {
    if w.session.outcome.None? && Resume(w, goal, idle, turns).session.outcome.None? {
      ResumeAcceptsOnly(w, goal, idle, turns);
    }
  }

  lemma NamedSettles(w: Work, id: nat, idle: bool)
    requires !LeftWaiting(w)
    ensures !LeftWaiting(ThreadReady(w, id, idle))
  {
  }

  /** No live event leaves a finished Goal waiting: it is completed, or the run is interrupted, or still busy with it. */
  lemma NothingLeftWaiting(w: Work, e: Event)
    requires LiveOk(w) && !LeftWaiting(w)
    ensures !LeftWaiting(Act(w, e))
  {
    var r :| WorkOk(w, r);
    match e
    case ThreadAnswered(id, idle) => NamedSettles(w, id, idle);
    case GoalAnswered(goal, idle, turns) =>
      if w.session.phase == Resuming && |w.state.goals| == w.state.cursor + 1 { ResumeSettles(w, goal, idle, turns); }
    case Continued(ctx) => if w.session.beginning.None? { ProceedSettles(w, ctx, r); }
    case Notified(message, ctx) => if Enabled(w.session, message) { NotifySettles(w, message, ctx, r); }
    case GoalSet(native) => AcceptSettles(w, native, r);
    case _ =>
  }
}
