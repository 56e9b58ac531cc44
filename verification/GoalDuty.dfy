/**
 What a live process owes its run: the first outcome stands, alarms end it, each
 boundary fact rests on a report, and a completed Goal is followed by what the
 plan asks for next.
 */
module GoalDuty {
  import opened Prelude
  import opened TokenUsage
  import opened Instruction
  import opened GoalState
  import opened Supervision
  import opened Validators
  import opened GoalSession
  import opened GoalMachine
  import opened GoalSafety
  import opened GoalEvents
  import opened GoalLaunch
  import opened GoalHonest
  import opened GoalGate

  // ----- the first outcome stands -----

  /** An outcome once reached and an interruption once retained are never replaced. */
  predicate Stands(w: Work, after: Work) {
    && (w.session.outcome.Some? ==> after.session.outcome == w.session.outcome)
    && (w.state.interruption.Some? ==> after.state.interruption == w.state.interruption)
    && (w.session.outcome.Some? ==> after.session.beginning == w.session.beginning || after.session.beginning.None?)
  }

  lemma StandsJoins(a: Work, b: Work, c: Work)
    requires Stands(a, b) && Stands(b, c)
    ensures Stands(a, c)
  {
  }

  lemma InterruptStands(w: Work)
    ensures Stands(w, Interrupt(w)) && Stands(w, Abandon(w)) && Interrupt(w).session.outcome.Some? && Abandon(w).session.outcome.Some?
  {
  }

  lemma BeginStands(w: Work, text: string)
    requires w.session.outcome.None?
    ensures Stands(w, BeginGoal(w, text))
  {
  }

  lemma HaltStands(w: Work, name: StageName, boundary: Boundary, cut: Cut)
    ensures Halt(w, name, boundary, cut).Some? ==> Stands(w, Halt(w, name, boundary, cut).value)
  {
  }

  lemma LeaveStands(w: Work, name: StageName, boundary: Boundary, ctx: Context)
    requires w.session.outcome.None?
    ensures Stands(w, Leave(w, name, boundary, ctx))
  {
    HaltStands(w, name, boundary, ctx.cut);
    BeginStands(w, ctx.text);
  }

  lemma CompleteStands(w: Work, g: Goal, ctx: Context)
    requires w.session.outcome.None?
    ensures Stands(w, CompleteGoal(w, g, ctx))
  {
    var s := Close(w.state, g);
    var closed := Work(s, w.session.(advancing := true));
    var crossed := Work(Cross(s, g, BoundaryAfter(s, g)), closed.session);
    InterruptStands(closed);
    LeaveStands(crossed, g.name, BoundaryAfter(s, g), ctx);
    StandsJoins(w, crossed, Leave(crossed, g.name, BoundaryAfter(s, g), ctx));
  }

  lemma AdvanceStands(w: Work, ctx: Context)
    ensures Stands(w, Advance(w, ctx))
    ensures w.session.outcome.Some? ==> Advance(w, ctx) == w
  {
    if w.session.outcome.None? && Current(w.state).Some? {
      var g := Current(w.state).value;
      if w.session.reconciled && !w.session.snapshotPending && !w.session.advancing && AtTerminal(g) && CanComplete(w.state, g, ctx.gate) {
        CompleteStands(w, g, ctx);
      }
    }
  }

  /** A changed record and total leave the session as it is. */
  lemma ChangedStands(w: Work, thread: Usage, g: Goal, ctx: Context)
    ensures var after := Work(WithGoal(w.state.(thread := thread), g), w.session);
      Stands(w, after) && Stands(w, Interrupt(after)) && Stands(w, Advance(after, ctx))
  {
    var after := Work(WithGoal(w.state.(thread := thread), g), w.session);
    InterruptStands(after);
    AdvanceStands(after, ctx);
    StandsJoins(w, after, Advance(after, ctx));
  }

  lemma TokensStand(w: Work, turn: Option<nat>, usage: Option<Usage>, ctx: Context)
    ensures Stands(w, Notify(w, TokensUpdated(turn, usage), ctx))
  {
    AdvanceStands(w, ctx);
    if usage.Some? && turn.Some? {
      MeasureStands(w, turn.value, usage.value, ctx);
      ReplayStands(w, turn.value, usage.value);
    }
  }

  lemma MeasureStands(w: Work, turn: nat, usage: Usage, ctx: Context)
    ensures Stands(w, MeasureTokens(w, turn, usage, ctx))
  {
    var s := w.state.(thread := usage);
    if Current(s).Some? { ChangedStands(w, usage, Current(s).value.(usageTurn := Some(turn)), ctx); }
  }

  lemma ReplayStands(w: Work, turn: nat, usage: Usage)
    ensures Stands(w, ReplayTokens(w, turn, usage))
  {
  }

  lemma UpdateStands(w: Work, native: Native, turn: Option<nat>, ctx: Context)
    ensures Stands(w, UpdateGoal(w, native, turn, ctx))
  {
    if Current(w.state).Some? {
      SameThread(w.state);
      ChangedStands(w, w.state.thread, Updated(Current(w.state).value, native, turn), ctx);
    }
  }

  lemma SnapshotStands(w: Work, native: Native)
    ensures Stands(w, TakeSnapshot(w, native))
  {
    InterruptStands(w);
  }

  lemma TurnStands(w: Work, message: Message, ctx: Context)
    requires message.TurnStarted? || message.TurnEnded? || message.StatusChanged?
    ensures Stands(w, Notify(w, message, ctx))
  {
    SameThread(w.state);
    if Current(w.state).Some? {
      var g := Current(w.state).value;
      match message
      case TurnStarted => ChangedStands(w, w.state.thread, g.(idle := false), ctx);
      case TurnEnded(turn, status) =>
        ChangedStands(w, w.state.thread, g.(terminalCompleted := g.terminalCompleted || (g.terminalTurn == Some(turn) && status == TurnCompleted)), ctx);
      case StatusChanged(status) => ChangedStands(w, w.state.thread, g.(idle := status == IdleThread), ctx);
    }
  }

  lemma NotifyStands(w: Work, message: Message, ctx: Context)
    ensures Stands(w, Notify(w, message, ctx))
  {
    if message.TokensUpdated? {
      TokensStand(w, message.tokensTurn, message.usage, ctx);
    } else if message.GoalUpdated? {
      UpdateStands(w, message.goal, message.goalTurn, ctx);
      SnapshotStands(w, message.goal);
    } else {
      TurnStands(w, message, ctx);
    }
  }

  lemma ResumeGoalStands(w: Work, g: Goal, snapshot: Snapshot, goal: Native, idle: bool, turns: Option<seq<Turn>>)
    requires g.native.Some? && w.session.outcome.None?
    ensures Stands(w, ResumeGoal(w, g, snapshot, goal, idle, turns))
  {
    InterruptStands(w);
    var proven := ReconcileReplay(w, g, turns);
    if proven.Some? {
      assert Stands(w, proven.value);
      InterruptStands(proven.value);
    }
  }

  lemma ResumeStands(w: Work, goal: Option<Native>, idle: bool, turns: Option<seq<Turn>>)
    ensures Stands(w, Resume(w, goal, idle, turns))
  {
    InterruptStands(w);
    var current := Current(w.state);
    if w.session.outcome.None? && current.Some? && current.value.native.Some? && goal.Some? && w.session.snapshot.Some? {
      ResumeGoalStands(w, current.value, w.session.snapshot.value, goal.value, idle, turns);
    }
  }

  lemma ProceedStands(w: Work, ctx: Context)
    ensures Stands(w, Proceed(w, ctx))
  {
    if w.session.outcome.None? {
      var running := Work(w.state, w.session.(phase := Running));
      BeginStands(running, ctx.text);
      AdvanceStands(running, ctx);
      if w.session.phase.Replaying? && w.session.backlog != [] {
        NotifyStands(Work(w.state, w.session.(backlog := w.session.backlog[1..])), w.session.backlog[0], ctx);
      }
    }
  }

  lemma FlowStands(w: Work, e: Event)
    requires !e.GoalAnswered? && !e.Continued? && !e.Notified?
    ensures Stands(w, Act(w, e))
  {
    InterruptStands(w);
    if e.ThreadAnswered? { ThreadStands(w, e.id, e.idle); }
    if e.GoalSet? { AcceptStands(w, e.native); }
  }

  lemma ThreadStands(w: Work, id: nat, idle: bool)
    ensures Stands(w, ThreadReady(w, id, idle))
  {
    InterruptStands(w);
  }

  lemma AcceptStands(w: Work, native: Native)
    ensures Stands(w, GoalAccepted(w, native))
  {
    InterruptStands(w);
  }

  /** No event replaces the outcome a process has reached or the interruption it has retained, or starts a Goal behind it. */
  lemma FirstOutcomeStands(w: Work, e: Event)
    ensures Stands(w, Act(w, e))
  {
    if e.GoalAnswered? {
      ResumeStands(w, e.goal, e.threadIdle, e.turns);
    } else if e.Continued? {
      ProceedStands(w, e.ctx);
    } else if e.Notified? {
      NotifyStands(w, e.message, e.ctx);
    } else {
      FlowStands(w, e);
    }
  }

  // ----- what must end a run -----

  /** A report about the run's own Goal that leaves nothing to go on with. */
  predicate Alarm(g: Goal, session: Option<nat>, message: Message) {
    match message
    case TokensUpdated(turn, usage) => usage.Some? && turn.None?
    case GoalUpdated(goal, turn) =>
      || Some(goal.thread) != session || goal.objective != g.objective
      || goal.status == Paused || goal.status == Blocked || goal.status == UsageLimited || goal.status == BudgetLimited
      || (goal.status == Complete && turn.None?)
    case TurnEnded(_, status) => status == TurnFailed || status == TurnInterrupted
    case StatusChanged(status) => status == SystemError || status == NotLoaded
    case TurnStarted => false
  }

  /** Every alarm ends the run, as does every report without a thread or a record it could belong to. */
  lemma AlarmsEnd(w: Work, message: Message, ctx: Context)
    requires GoalsOk(w.state) && w.session.reconciled && !ForkPending(w.session)
    requires w.state.sessionId.None? || |w.state.goals| == w.state.cursor
      || Alarm(w.state.goals[w.state.cursor], w.state.sessionId, message)
    requires !(message.TokensUpdated? && message.usage.None?)
    ensures Notify(w, message, ctx).session.outcome.Some?
  {
    FoundAt(w.state, w.state.cursor);
    InterruptStands(w);
    if message.TokensUpdated? && message.usage.Some? {
      assert Current(w.state.(thread := message.usage.value)) == Current(w.state);
    }
  }

  /** A thread that resumes as another one ends the run. */
  lemma OtherThreadEnds(w: Work, id: nat, idle: bool)
    requires w.session.mode == ResumedThread && w.state.sessionId != Some(id)
    ensures ThreadReady(w, id, idle).session.outcome.Some?
  {
    InterruptStands(w);
  }

  // ----- what each boundary fact rests on -----

  predicate SameFacts(a: Goal, b: Goal) {
    a.terminalTurn == b.terminalTurn && a.terminalCompleted == b.terminalCompleted && a.idle == b.idle && a.usageTurn == b.usageTurn
  }

  /** A fact that was not there before was reported, for the very turn it names. */
  predicate FactsReported(a: Goal, b: Goal, message: Message) {
    && (b.terminalCompleted && !a.terminalCompleted ==>
          message.TurnEnded? && message.turnStatus == TurnCompleted && a.terminalTurn == Some(message.endedTurn))
    && (b.terminalTurn.Some? && b.terminalTurn != a.terminalTurn ==>
          message.GoalUpdated? && message.goal.status == Complete && message.goalTurn == b.terminalTurn)
    && (b.idle && !a.idle ==> message == StatusChanged(IdleThread))
    && (b.usageTurn.Some? && b.usageTurn != a.usageTurn ==>
          message.TokensUpdated? && message.usage.Some? && message.tokensTurn == b.usageTurn)
  }

  lemma CompleteFacts(w: Work, ctx: Context, r: Reminders)
    requires WorkOk(w, r) && |w.state.goals| == w.state.cursor + 1 && w.session.outcome.None? && w.session.beginning.None?
    requires AtTerminal(w.state.goals[w.state.cursor]) && CanComplete(w.state, w.state.goals[w.state.cursor], ctx.gate)
    ensures var g, after := w.state.goals[w.state.cursor], CompleteGoal(w, w.state.goals[w.state.cursor], ctx).state;
      w.state.cursor < |after.goals| && SameFacts(g, after.goals[w.state.cursor])
  {
    var g := w.state.goals[w.state.cursor];
    var closed := Work(Close(w.state, g), w.session.(advancing := true));
    var boundary := BoundaryAfter(closed.state, g);
    CrossPasses(w, ctx.gate, r);
    CloseKeeps(w, r);
    if !(ctx.cut == AtCheckpoint && g.index == 0) {
      CrossesOver(w, closed, r);
      var crossed := Work(Cross(closed.state, g, boundary), closed.session);
      LeaveStill(crossed, g.name, boundary, ctx, r);
      assert Same(crossed.state.goals[w.state.cursor], Leave(crossed, g.name, boundary, ctx).state.goals[w.state.cursor]);
    }
  }

  lemma AdvanceFacts(w: Work, ctx: Context, r: Reminders)
    requires WorkOk(w, r) && |w.state.goals| == w.state.cursor + 1
    ensures var after := Advance(w, ctx).state;
      w.state.cursor < |after.goals| && SameFacts(w.state.goals[w.state.cursor], after.goals[w.state.cursor])
  {
    FoundAt(w.state, w.state.cursor);
    var g := w.state.goals[w.state.cursor];
    if w.session.outcome.None? && w.session.reconciled && !w.session.snapshotPending && !w.session.advancing
      && AtTerminal(g) && CanComplete(w.state, g, ctx.gate)
    {
      CompleteFacts(w, ctx, r);
    }
  }

  lemma SetFacts(w: Work, thread: Usage, g: Goal, ctx: Context, r: Reminders)
    requires WorkOk(w, r) && |w.state.goals| == w.state.cursor + 1 && SameRecord(w.state, g)
    requires w.session.beginning.Some? ==> g.terminalTurn.None?
    ensures var changed := Work(WithGoal(w.state.(thread := thread), g), w.session);
      && changed.state.goals == w.state.goals[w.state.cursor := g]
      && w.state.cursor < |Advance(changed, ctx).state.goals| && SameFacts(g, Advance(changed, ctx).state.goals[w.state.cursor])
  {
    var changed := Work(WithGoal(w.state.(thread := thread), g), w.session);
    RecordSet(w, thread, g, w.session, r);
    assert GoalFits(w.state, w.state.cursor);
    ReplacedCurrent(w.state, g);
    assert changed.state == WithGoal(w.state, g).(thread := thread);
    AdvanceFacts(changed, ctx, r);
  }

  /** The record at the cursor as an event leaves it. */
  function After(w: Work, after: Work): Goal
    requires w.state.cursor < |after.state.goals|
  {
    after.state.goals[w.state.cursor]
  }

  lemma TokensFacts(w: Work, turn: Option<nat>, usage: Option<Usage>, ctx: Context, r: Reminders)
    requires WorkOk(w, r) && |w.state.goals| == w.state.cursor + 1
    ensures var after := Notify(w, TokensUpdated(turn, usage), ctx);
      w.state.cursor < |after.state.goals|
      && FactsReported(w.state.goals[w.state.cursor], After(w, after), TokensUpdated(turn, usage))
  {
    var g := w.state.goals[w.state.cursor];
    FoundAt(w.state, w.state.cursor);
    AdvanceFacts(w, ctx, r);
    if usage.Some? && turn.Some? {
      if w.session.reconciled {
        SetFacts(w, usage.value, g.(usageTurn := turn), ctx, r);
      } else {
        assert GoalFits(w.state, w.state.cursor);
        ReplacedCurrent(w.state, g.(usageTurn := turn));
      }
    }
  }

  lemma ReportFacts(w: Work, native: Native, turn: Option<nat>, ctx: Context, r: Reminders)
    requires WorkOk(w, r) && |w.state.goals| == w.state.cursor + 1 && (w.session.beginning.Some? ==> native.status != Complete)
    ensures var after := UpdateGoal(w, native, turn, ctx);
      w.state.cursor < |after.state.goals|
      && FactsReported(w.state.goals[w.state.cursor], After(w, after), GoalUpdated(native, turn))
  {
    var g := w.state.goals[w.state.cursor];
    FoundAt(w.state, w.state.cursor);
    SameThread(w.state);
    if NativeMatches(g, native, w.state.sessionId) {
      SetFacts(w, w.state.thread, Updated(g, native, turn), ctx, r);
    }
  }

  lemma ShownFacts(w: Work, native: Native)
    requires GoalsOk(w.state) && |w.state.goals| == w.state.cursor + 1
    ensures var after := TakeSnapshot(w, native);
      w.state.cursor < |after.state.goals| && SameFacts(w.state.goals[w.state.cursor], After(w, after))
  {
    var g := w.state.goals[w.state.cursor];
    FoundAt(w.state, w.state.cursor);
    assert GoalFits(w.state, w.state.cursor);
    ReplacedCurrent(w.state, g.(native := Some(native)));
  }

  lemma UnreadFacts(w: Work, message: Message, ctx: Context)
    requires message.TurnStarted? || message.TurnEnded? || message.StatusChanged?
    requires w.state.sessionId.None? || ForkPending(w.session) || !w.session.reconciled
    ensures Notify(w, message, ctx).state.goals == w.state.goals
  {
  }

  lemma EndFacts(w: Work, turn: nat, status: TurnStatus, ctx: Context, r: Reminders)
    requires WorkOk(w, r) && |w.state.goals| == w.state.cursor + 1
    ensures var after := EndTurn(w, turn, status, ctx);
      w.state.cursor < |after.state.goals| && FactsReported(w.state.goals[w.state.cursor], After(w, after), TurnEnded(turn, status))
  {
    var g := w.state.goals[w.state.cursor];
    FoundAt(w.state, w.state.cursor);
    SameThread(w.state);
    SetFacts(w, w.state.thread, g.(terminalCompleted := g.terminalCompleted || (g.terminalTurn == Some(turn) && status == TurnCompleted)), ctx, r);
  }

  lemma StatusFacts(w: Work, status: ThreadStatus, ctx: Context, r: Reminders)
    requires WorkOk(w, r) && |w.state.goals| == w.state.cursor + 1
    ensures var after := ChangeStatus(w, status, ctx);
      w.state.cursor < |after.state.goals| && FactsReported(w.state.goals[w.state.cursor], After(w, after), StatusChanged(status))
    ensures var started := StartTurn(w);
      w.state.cursor < |started.state.goals| && FactsReported(w.state.goals[w.state.cursor], After(w, started), TurnStarted)
  {
    var g := w.state.goals[w.state.cursor];
    FoundAt(w.state, w.state.cursor);
    SameThread(w.state);
    SetFacts(w, w.state.thread, g.(idle := status == IdleThread), ctx, r);
    SetFacts(w, w.state.thread, g.(idle := false), ctx, r);
  }

  lemma TurnFacts(w: Work, message: Message, ctx: Context, r: Reminders)
    requires WorkOk(w, r) && |w.state.goals| == w.state.cursor + 1
    requires message.TurnStarted? || message.TurnEnded? || message.StatusChanged?
    ensures var after := Notify(w, message, ctx);
      w.state.cursor < |after.state.goals| && FactsReported(w.state.goals[w.state.cursor], After(w, after), message)
  {
    if w.state.sessionId.None? || ForkPending(w.session) || !w.session.reconciled {
      UnreadFacts(w, message, ctx);
    } else if message.TurnEnded? {
      EndFacts(w, message.endedTurn, message.turnStatus, ctx, r);
    } else if message.StatusChanged? {
      StatusFacts(w, message.threadStatus, ctx, r);
    } else {
      StatusFacts(w, IdleThread, ctx, r);
    }
  }

  /** A notification gives the record at the cursor no boundary fact but the one it reports. */
  lemma FactsRestOnReports(w: Work, message: Message, ctx: Context, r: Reminders)
    requires WorkOk(w, r) && |w.state.goals| == w.state.cursor + 1
    requires w.session.beginning.Some? ==> !(message.GoalUpdated? && message.goal.status == Complete)
    ensures var after := Notify(w, message, ctx);
      w.state.cursor < |after.state.goals| && FactsReported(w.state.goals[w.state.cursor], After(w, after), message)
  {
    if message.TokensUpdated? {
      TokensFacts(w, message.tokensTurn, message.usage, ctx, r);
    } else if message.GoalUpdated? {
      ReportFacts(w, message.goal, message.goalTurn, ctx, r);
      ShownFacts(w, message.goal);
    } else {
      TurnFacts(w, message, ctx, r);
    }
  }

  // ----- what follows a completed Goal -----

  /** A review of a Plain plan, or a reminder of one. */
  predicate IsReview(s: RunState, entry: PlanEntry) {
    s.arm == PlainArm && (entry.name.Review? || entry.kind == Supplement)
  }

  /**
   Behind a completed Goal the run stops where it was asked to, pauses behind a
   review, is complete behind the last entry, and otherwise asks for the next Goal.
   */
  predicate GoesOn(w: Work, after: Work) {
    var c, s := w.state.cursor, after.state;
    && c < |w.state.plan| && s.cursor == c + 1
    && var entry := w.state.plan[c];
    if w.session.stopAfter == Some(entry.name) then
      after.session.outcome == Some(if entry.name == Start(Backend) then RunCheckpointed else RunInterrupted)
    else if IsReview(w.state, entry) then
      && after.session.outcome == Some(RunAwaiting)
      && |s.pauses| == |w.state.pauses| + 1 && s.pauses[..|w.state.pauses|] == w.state.pauses
      && Last(s.pauses).goalIndex == c && Last(s.pauses).afterGoal == entry.name
      && Last(s.pauses).verdict.None? && Last(s.pauses).inspections == 0 && !Last(s.pauses).resumed
    else if c + 1 == |w.state.plan| then after.session.outcome == Some(RunCompleted)
    else
      && after.session.outcome.None? && after.session.beginning == Some(c + 1)
      && |s.goals| == c + 2 && s.goals[c + 1].name == w.state.plan[c + 1].name && s.goals[c + 1].start == s.thread
  }

  lemma ReviewIsBoundary(s: RunState, g: Goal, r: Reminders)
    requires Shape(s, r) && g.index == s.cursor < |s.plan|
    ensures BoundaryAfter(s, g).ReviewBoundary? <==> IsReview(s, s.plan[s.cursor])
    ensures BoundaryAfter(s, g) != Malformed
  {
    if s.arm == PlainArm { BoundaryIsStop(r, s.cursor); }
  }

  /** A crossed boundary and the state it was crossed from. */
  predicate CrossedFrom(w: Work, crossed: Work, g: Goal, r: Reminders) {
    && JustCrossed(crossed, BoundaryAfter(w.state, g), r) && Shape(w.state, r)
    && g.index == w.state.cursor < |w.state.plan| && g.name == w.state.plan[w.state.cursor].name
    && crossed.state.plan == w.state.plan && crossed.state.arm == w.state.arm && crossed.state.cursor == w.state.cursor + 1
    && crossed.session.stopAfter == w.session.stopAfter && w.state.sessionId.Some? && crossed.state.sessionId == w.state.sessionId
    && crossed.state.pauses == Cross(w.state, g, BoundaryAfter(w.state, g)).pauses
  }

  lemma HaltGoesOn(w: Work, crossed: Work, g: Goal, r: Reminders)
    requires CrossedFrom(w, crossed, g, r)
    ensures var halted := Halt(crossed, g.name, BoundaryAfter(w.state, g), Through);
      && (halted.Some? ==> GoesOn(w, halted.value))
      && (halted.None? ==>
            && w.session.stopAfter != Some(g.name) && !IsReview(w.state, w.state.plan[w.state.cursor])
            && w.state.cursor + 1 < |w.state.plan|)
  {
    ReviewIsBoundary(w.state, g, r);
  }

  lemma BegunGoesOn(w: Work, crossed: Work, g: Goal, text: string, r: Reminders)
    requires CrossedFrom(w, crossed, g, r) && w.session.stopAfter != Some(g.name)
    requires !IsReview(w.state, w.state.plan[w.state.cursor]) && w.state.cursor + 1 < |w.state.plan|
    ensures GoesOn(w, BeginGoal(crossed, text))
  {
    PreparedFound(crossed.state, text);
    PreparedAppended(crossed.state, text);
    assert crossed.session.outcome.None?;
  }

  lemma LeaveGoesOn(w: Work, crossed: Work, g: Goal, ctx: Context, r: Reminders)
    requires CrossedFrom(w, crossed, g, r) && ctx.cut == Through
    ensures GoesOn(w, Leave(crossed, g.name, BoundaryAfter(w.state, g), ctx))
  {
    HaltGoesOn(w, crossed, g, r);
    if Halt(crossed, g.name, BoundaryAfter(w.state, g), Through).None? {
      BegunGoesOn(w, crossed, g, ctx.text, r);
    }
  }

  lemma PreparedAppended(s: RunState, text: string)
    requires GoalsOk(s) && |s.goals| == s.cursor < |s.plan|
    ensures WithGoal(Prepare(s, text), Reset(NewGoal(s, text))).goals == s.goals + [Reset(NewGoal(s, text))]
  {
    FoundAt(s, s.cursor);
    var prepared := Prepare(s, text);
    forall i | 0 <= i < |prepared.goals| ensures prepared.goals[i].index == 0 + i {
      if i < |s.goals| { assert GoalFits(s, i); }
    }
    ReplacedAt(prepared.goals, 0, Reset(NewGoal(s, text)));
  }

  lemma CompleteGoesOn(w: Work, ctx: Context, r: Reminders)
    requires WorkOk(w, r) && |w.state.goals| == w.state.cursor + 1 && w.session.outcome.None? && w.session.beginning.None?
    requires AtTerminal(w.state.goals[w.state.cursor]) && CanComplete(w.state, w.state.goals[w.state.cursor], ctx.gate)
    requires ctx.cut == Through
    ensures GoesOn(w, CompleteGoal(w, w.state.goals[w.state.cursor], ctx))
  {
    var g := w.state.goals[w.state.cursor];
    var closed := Work(Close(w.state, g), w.session.(advancing := true));
    assert GoalFits(w.state, w.state.cursor);
    CloseKeeps(w, r);
    CrossesOver(w, closed, r);
    assert BoundaryAfter(closed.state, g) == BoundaryAfter(w.state, g);
    LeaveGoesOn(w, Work(Cross(closed.state, g, BoundaryAfter(w.state, g)), closed.session), g, ctx, r);
  }

  /** Whatever completes the Goal at the cursor goes on as the plan and the operator ask. */
  lemma AdvanceGoesOn(w: Work, ctx: Context, r: Reminders)
    requires WorkOk(w, r) && ctx.cut == Through && Advance(w, ctx).state.cursor > w.state.cursor
    ensures GoesOn(w, Advance(w, ctx))
  {
    FoundAt(w.state, w.state.cursor);
    CompleteGoesOn(w, ctx, r);
  }

  lemma SetGoesOn(w: Work, thread: Usage, g: Goal, ctx: Context, r: Reminders)
    requires WorkOk(w, r) && |w.state.goals| == w.state.cursor + 1 && SameRecord(w.state, g) && ctx.cut == Through
    requires w.session.beginning.Some? ==> g.terminalTurn.None?
    ensures var changed := Work(WithGoal(w.state.(thread := thread), g), w.session);
      Advance(changed, ctx).state.cursor > w.state.cursor ==> GoesOn(w, Advance(changed, ctx))
  {
    var changed := Work(WithGoal(w.state.(thread := thread), g), w.session);
    RecordSet(w, thread, g, w.session, r);
    if Advance(changed, ctx).state.cursor > w.state.cursor { AdvanceGoesOn(changed, ctx, r); }
  }

  lemma TokensGoOn(w: Work, turn: Option<nat>, usage: Option<Usage>, ctx: Context, r: Reminders)
    requires WorkOk(w, r) && ctx.cut == Through && |w.state.goals| == w.state.cursor + 1
    ensures var after := Notify(w, TokensUpdated(turn, usage), ctx);
      after.state.cursor > w.state.cursor ==> GoesOn(w, after)
  {
    FoundAt(w.state, w.state.cursor);
    if Advance(w, ctx).state.cursor > w.state.cursor { AdvanceGoesOn(w, ctx, r); }
    if usage.Some? && turn.Some? {
      SetGoesOn(w, usage.value, w.state.goals[w.state.cursor].(usageTurn := turn), ctx, r);
      ReplayStill(w, turn.value, usage.value);
    }
  }

  lemma EndGoesOn(w: Work, turn: nat, status: TurnStatus, ctx: Context, r: Reminders)
    requires WorkOk(w, r) && ctx.cut == Through && |w.state.goals| == w.state.cursor + 1
    ensures EndTurn(w, turn, status, ctx).state.cursor > w.state.cursor ==> GoesOn(w, EndTurn(w, turn, status, ctx))
  {
    FoundAt(w.state, w.state.cursor);
    SameThread(w.state);
    var g := w.state.goals[w.state.cursor];
    SetGoesOn(w, w.state.thread, g.(terminalCompleted := g.terminalCompleted || (g.terminalTurn == Some(turn) && status == TurnCompleted)), ctx, r);
  }

  lemma StatusGoesOn(w: Work, status: ThreadStatus, ctx: Context, r: Reminders)
    requires WorkOk(w, r) && ctx.cut == Through && |w.state.goals| == w.state.cursor + 1
    ensures ChangeStatus(w, status, ctx).state.cursor > w.state.cursor ==> GoesOn(w, ChangeStatus(w, status, ctx))
  {
    FoundAt(w.state, w.state.cursor);
    SameThread(w.state);
    SetGoesOn(w, w.state.thread, w.state.goals[w.state.cursor].(idle := status == IdleThread), ctx, r);
  }

  lemma StartGoesOn(w: Work)
    ensures StartTurn(w).state.cursor == w.state.cursor
  {
  }

  lemma NotifyGoesOn(w: Work, message: Message, ctx: Context, r: Reminders)
    requires WorkOk(w, r) && ctx.cut == Through && Notify(w, message, ctx).state.cursor > w.state.cursor
    requires w.session.beginning.Some? ==> !(message.GoalUpdated? && message.goal.status == Complete)
    ensures GoesOn(w, Notify(w, message, ctx))
  {
    NotifyPasses(w, message, ctx, r);
    if message.TokensUpdated? {
      TokensGoOn(w, message.tokensTurn, message.usage, ctx, r);
    } else if message.GoalUpdated? {
      ReportGoesOn(w, message.goal, message.goalTurn, ctx, r);
      SnapshotStill(w, message.goal);
    } else if message.TurnEnded? {
      EndGoesOn(w, message.endedTurn, message.turnStatus, ctx, r);
    } else if message.StatusChanged? {
      StatusGoesOn(w, message.threadStatus, ctx, r);
    } else {
      StartGoesOn(w);
    }
  }

  lemma ReportGoesOn(w: Work, native: Native, turn: Option<nat>, ctx: Context, r: Reminders)
    requires WorkOk(w, r) && |w.state.goals| == w.state.cursor + 1 && ctx.cut == Through
    requires w.session.beginning.Some? ==> native.status != Complete
    ensures UpdateGoal(w, native, turn, ctx).state.cursor > w.state.cursor ==> GoesOn(w, UpdateGoal(w, native, turn, ctx))
  {
    FoundAt(w.state, w.state.cursor);
    SameThread(w.state);
    if NativeMatches(w.state.goals[w.state.cursor], native, w.state.sessionId) {
      SetGoesOn(w, w.state.thread, Updated(w.state.goals[w.state.cursor], native, turn), ctx, r);
    }
  }

  lemma PoppedGoesOn(w: Work, ctx: Context, r: Reminders)
    requires WorkOk(w, r) && w.session.beginning.None? && w.session.backlog != [] && ctx.cut == Through
    ensures var after := Notify(Work(w.state, w.session.(backlog := w.session.backlog[1..])), w.session.backlog[0], ctx);
      after.state.cursor > w.state.cursor ==> GoesOn(w, after)
  {
    var popped := Work(w.state, w.session.(backlog := w.session.backlog[1..]));
    SessionMoves(w, popped.session, r);
    if Notify(popped, w.session.backlog[0], ctx).state.cursor > w.state.cursor { NotifyGoesOn(popped, w.session.backlog[0], ctx, r); }
  }

  lemma RunningGoesOn(w: Work, ctx: Context, r: Reminders)
    requires WorkOk(w, r) && ctx.cut == Through
    ensures var running := Work(w.state, w.session.(phase := Running));
      && (Advance(running, ctx).state.cursor > w.state.cursor ==> GoesOn(w, Advance(running, ctx)))
      && BeginGoal(running, ctx.text).state.cursor == w.state.cursor
  {
    var running := Work(w.state, w.session.(phase := Running));
    PhaseMoves(w, Running, r);
    BeginStill(running, ctx.text, r);
    if Advance(running, ctx).state.cursor > w.state.cursor { AdvanceGoesOn(running, ctx, r); }
  }

  lemma ProceedGoesOn(w: Work, ctx: Context, r: Reminders)
    requires WorkOk(w, r) && w.session.beginning.None? && ctx.cut == Through && Proceed(w, ctx).state.cursor > w.state.cursor
    ensures GoesOn(w, Proceed(w, ctx))
  {
    if w.session.phase.Replaying? && w.session.backlog != [] {
      PoppedGoesOn(w, ctx, r);
    } else {
      RunningGoesOn(w, ctx, r);
    }
  }

  /** Unless its process dies at the boundary, every event that completes a Goal leaves the run where the plan and the operator want it. */
  lemma ActGoesOn(w: Work, e: Event)
    requires LiveOk(w) && Act(w, e).state.cursor > w.state.cursor
    ensures e.Continued? || e.Notified?
    ensures e.ctx.cut == Through ==> GoesOn(w, Act(w, e))
  {
    var r :| WorkOk(w, r);
    match e
    case ThreadAnswered(id, idle) => NamedStill(w, id, idle);
    case GoalAnswered(goal, idle, turns) => ResumeStill(w, goal, idle, turns);
    case Continued(ctx) => if ctx.cut == Through { ProceedGoesOn(w, ctx, r); }
    case Notified(message, ctx) => if ctx.cut == Through { NotifyGoesOn(w, message, ctx, r); }
    case GoalSet(native) => AcceptStill(w, native, r);
    case _ =>
  }

  // ----- a fork before its Goal is cleared -----

  /** Until the source's Goal is cleared a forked thread may only repeat the retained boundary. */
  lemma ForkRepeatsOnly(w: Work, message: Message, ctx: Context)
    requires GoalsOk(w.state) && w.session.mode == ForkedThread && (w.session.phase == Starting || w.session.phase == Clearing)
    requires w.session.outcome.None? && w.state.sessionId.Some?
    ensures Notify(w, message, ctx).session.outcome.None? <==>
      match message
      case TokensUpdated(turn, usage) =>
        usage.Some? ==>
          && usage.value == w.state.thread && 0 < w.state.cursor <= |w.state.goals|
          && turn == w.state.goals[w.state.cursor - 1].usageTurn
      case GoalUpdated(_, turn) => turn.None?
      case StatusChanged(status) => status == IdleThread
      case _ => false
    ensures Notify(w, message, ctx).session.outcome.None? ==> Notify(w, message, ctx) == w
  {
    if w.state.cursor > 0 { FoundAt(w.state, w.state.cursor - 1); }
  }

  // ----- counters a resume reads -----

  /** The counters prove the retained checkpoint, or the boundary before it, to be where the total stands. */
  predicate ProvesCheckpoint(s: RunState, turn: nat, usage: Usage)
    requires s.cursor < |s.goals|
  {
    var g := s.goals[s.cursor];
    && usage == s.thread
    && if g.native.Some? && g.usageTurn.Some? then g.usageTurn == Some(turn)
       else
         && s.cursor > 0
         && var previous := s.goals[s.cursor - 1];
         && previous.usageTurn == Some(turn) && Settled(previous) && previous.end == Some(s.thread)
  }

  predicate StillOpen(g: Goal) {
    && g.native.Some?
    && (g.native.value.status == Active || g.native.value.status == Paused || g.native.value.status == Blocked
        || g.native.value.status == UsageLimited || g.native.value.status == BudgetLimited)
  }

  /** Or a turn whose name the process lost: the total is there, past the Goal's start, and no checkpoint is. */
  predicate NamesTurn(s: RunState, usage: Usage)
    requires s.cursor < |s.goals|
  {
    var g := s.goals[s.cursor];
    && StillOpen(g) && g.usageTurn.None? && g.terminalTurn.None? && !g.terminalCompleted && g.end.None?
    && usage == s.thread && Advanced(s.thread, g.start)
  }

  /** Counters read by a resume prove the checkpoint, name a lost turn, or are remembered; any others end the run. */
  lemma ReplayReadsExactly(w: Work, turn: nat, usage: Usage)
    requires GoalsOk(w.state) && |w.state.goals| == w.state.cursor + 1
    ensures var after, g := ReplayTokens(w, turn, usage), w.state.goals[w.state.cursor];
      if ProvesCheckpoint(w.state, turn, usage) then after == w
      else if NamesTurn(w.state, usage) then
        after.session == w.session && after.state == w.state.(goals := w.state.goals[w.state.cursor := g.(usageTurn := Some(turn))])
      else if StillOpen(g) && Advanced(usage, w.state.thread)
        && (w.session.replay.None? || w.session.replay == Some(Replay(turn, usage)))
      then after == Work(w.state, w.session.(replay := Some(Replay(turn, usage))))
      else after == Interrupt(w)
  {
    var g := w.state.goals[w.state.cursor];
    FoundAt(w.state, w.state.cursor);
    assert GoalFits(w.state, w.state.cursor);
    if w.state.cursor > 0 { FoundAt(w.state, w.state.cursor - 1); }
    ReplacedCurrent(w.state, g.(usageTurn := Some(turn)));
    assert WithGoal(w.state, g.(usageTurn := Some(turn)))
        == w.state.(goals := w.state.goals[w.state.cursor := g.(usageTurn := Some(turn))]);
  }

  // ----- how a process leaves its run -----

  /** It ended by itself or was made to, and nothing went wrong. */
  predicate EndedWell(w: Work, process: Process, cleanupFailed: bool, published: bool) {
    && published && !cleanupFailed && w.state.interruption.None?
    && ((process.exitCode == Some(0) && !process.signalled) || process.forced)
  }

  /**
   A run keeps the outcome its process reached exactly when the process ended well;
   otherwise it is interrupted, or nothing of its end is retained at all.
   */
  lemma EndKeepsOutcomeExactly(disk: RunState, w: Work, process: Process, cleanupFailed: bool, published: bool)
    requires LiveOk(w) && w.session.outcome.Some? && w.session.outcome != Some(RunAwaiting)
    ensures var after := End(disk, w, process, cleanupFailed, published, InspectionFailed);
      && after == AtRest(after.disk)
      && if !published then after.disk == disk
         else
           && after.disk.goals == w.state.goals && after.disk.cursor == w.state.cursor && after.disk.thread == w.state.thread
           && after.disk.processes != [] && Last(after.disk.processes) == process
           && after.disk.status ==
                (if !EndedWell(w, process, cleanupFailed, published) then Interrupted
                 else match w.session.outcome.value
                      case RunCompleted => Completed
                      case RunCheckpointed => Checkpointed
                      case _ => Interrupted)
           && (w.state.interruption.Some? ==> after.disk.interruption == w.state.interruption)
           && (w.state.interruption.None? && cleanupFailed ==> after.disk.interruption == Some(CleanupFailure))
  {
  }

  /** A finished plan is concluded by the next launch: accepted, or interrupted; an interruption stays unless it was a forced, dead process's. */
  lemma ConcludesExactly(s: RunState, options: Options)
    requires s.cursor >= |s.plan|
    ensures var after := Attach(s, s, options);
      var cleaned := s.interruption == Some(CleanupFailure) && s.processes != [] && Last(s.processes).forced && !options.processAlive;
      && after == AtRest(after.disk)
      && if s.interruption.Some? && !cleaned then after.disk == s.(status := Interrupted)
         else if ValidateCompletedState(s) then after.disk == s.(status := Completed, interruption := None)
         else after.disk == s.(status := Interrupted, interruption := Some(OtherFailure))
  {
  }
}
