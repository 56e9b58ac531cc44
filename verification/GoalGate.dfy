/**
 What it takes for the cursor to move: one event completes at most one Goal, and
 only on the terms the original demands of it. What lies behind the cursor
 stays as it was.
 */
module GoalGate {
  import opened Prelude
  import opened TokenUsage
  import opened Instruction
  import opened GoalState
  import opened Supervision
  import opened GoalSession
  import opened GoalMachine
  import opened GoalSafety
  import opened GoalEvents
  import opened GoalLaunch
  import opened PlanAcceptance
  import opened GoalTheorems

  // ----- what an event does to the records -----

  /** The same record, though a fork may have renamed its thread. */
  predicate Same(a: Goal, b: Goal) {
    b == a || (a.native.Some? && b.native.Some? && b == a.(native := Some(a.native.value.(thread := b.native.value.thread))))
  }

  predicate SameBehind(s: RunState, after: RunState) {
    && after.plan == s.plan && after.nativeStart == s.nativeStart
    && s.cursor <= |s.goals| <= |after.goals|
    && forall i | 0 <= i < s.cursor :: Same(s.goals[i], after.goals[i])
  }

  /** A Goal's clock counts on from the clock of the Goal before it on its thread. */
  predicate ClockOk(s: RunState, i: nat)
    requires i < |s.goals|
  {
    i != 0 && i != s.nativeStart && s.goals[i].native.Some? && s.goals[i - 1].native.Some? ==>
      s.goals[i].native.value.timeUsed >= s.goals[i - 1].native.value.timeUsed
  }

  predicate Still(s: RunState, after: RunState) {
    SameBehind(s, after) && after.cursor == s.cursor
  }

  /** The Goal at the cursor was completed: at the total, on its clock, and a backend review only through an open gate. */
  predicate Passed(s: RunState, after: RunState, gate: bool, ready: bool) {
    && ready
    && SameBehind(s, after) && after.cursor == s.cursor + 1 && s.cursor < |s.goals|
    && (s.goals[s.cursor].name == Review(Backend) ==> gate)
    && after.goals[s.cursor].end == Some(after.thread)
    && Advanced(after.thread, s.goals[s.cursor].start)
    && ClockOk(after, s.cursor)
  }

  /** The session has no outcome yet, knows what its thread holds and is not completing another Goal. */
  predicate Attentive(session: Session) {
    session.outcome.None? && session.reconciled && !session.snapshotPending && !session.advancing
  }

  predicate Carries(s: RunState, after: RunState, gate: bool, ready: bool) {
    Still(s, after) || Passed(s, after, gate, ready)
  }

  predicate OnlyLast(a: RunState, b: RunState) {
    && Still(a, b) && |b.goals| == |a.goals|
    && (a.cursor < |a.goals| ==> b.goals[a.cursor].name == a.goals[a.cursor].name && b.goals[a.cursor].start == a.goals[a.cursor].start)
  }

  lemma CarriesJoins(a: RunState, b: RunState, c: RunState, gate: bool, ready: bool)
    requires OnlyLast(a, b) && Carries(b, c, gate, ready)
    ensures Carries(a, c, gate, ready)
  {
    forall i | 0 <= i < a.cursor ensures Same(a.goals[i], c.goals[i]) {
      assert Same(b.goals[i], c.goals[i]);
    }
  }

  lemma StillSelf(s: RunState)
    requires s.cursor <= |s.goals|
    ensures Still(s, s) && OnlyLast(s, s)
  {
  }

  lemma SetStill(s: RunState, thread: Usage, g: Goal)
    requires GoalsOk(s) && |s.goals| == s.cursor + 1 && g.index == s.cursor
    ensures Still(s, WithGoal(s.(thread := thread), g))
    ensures g.name == s.goals[s.cursor].name && g.start == s.goals[s.cursor].start ==> OnlyLast(s, WithGoal(s.(thread := thread), g))
  {
    ReplacedCurrent(s, g);
    assert WithGoal(s.(thread := thread), g) == WithGoal(s, g).(thread := thread);
  }

  // ----- completing a Goal -----

  lemma BeginStill(w: Work, text: string, r: Reminders)
    requires GoalsOk(w.state)
    ensures Still(w.state, BeginGoal(w, text).state) && BeginGoal(w, text).state.thread == w.state.thread
  {
    FoundAt(w.state, w.state.cursor);
    if |w.state.goals| == w.state.cursor + 1 {
      BeginSetStill(w.state);
    } else if w.state.cursor < |w.state.plan| {
      PreparedFound(w.state, text);
    }
  }

  function Reset(g: Goal): Goal {
    g.(terminalTurn := None, terminalCompleted := false, idle := false, usageTurn := None)
  }

  lemma BeginSetStill(s: RunState)
    requires GoalsOk(s) && |s.goals| == s.cursor + 1
    ensures Still(s, WithGoal(s, Reset(s.goals[s.cursor])))
  {
    assert GoalFits(s, s.cursor);
    SetStill(s, s.thread, Reset(s.goals[s.cursor]));
    SameThread(s);
  }

  lemma PreparedFound(s: RunState, text: string)
    requires GoalsOk(s) && |s.goals| == s.cursor < |s.plan|
    ensures Current(s).None? && Current(Prepare(s, text)) == Some(NewGoal(s, text))
    ensures Still(s, Prepare(s, text)) && Still(s, WithGoal(Prepare(s, text), Reset(NewGoal(s, text))))
  {
    FoundAt(s, s.cursor);
    var prepared := Prepare(s, text);
    forall i | 0 <= i < |prepared.goals| ensures prepared.goals[i].index == 0 + i {
      if i < |s.goals| { assert GoalFits(s, i); }
    }
    FindGoalAt(prepared.goals, 0, s.cursor);
    ReplacedAt(prepared.goals, 0, Reset(NewGoal(s, text)));
  }

  lemma LeaveStill(w: Work, name: StageName, boundary: Boundary, ctx: Context, r: Reminders)
    requires GoalsOk(w.state)
    ensures Still(w.state, Leave(w, name, boundary, ctx).state) && Leave(w, name, boundary, ctx).state.thread == w.state.thread
  {
    if Halt(w, name, boundary, ctx.cut).None? {
      BeginStill(w, ctx.text, r);
    }
  }

  lemma ClosedClock(s: RunState, after: RunState, g: Goal)
    requires GoalsOk(s) && |s.goals| == s.cursor + 1 && g == s.goals[s.cursor] && g.native.Some?
    requires TimeBoundary(s, g)
    requires |after.goals| == |s.goals| && after.nativeStart == s.nativeStart && after.goals[s.cursor].native == g.native
    requires s.cursor > 0 ==> after.goals[s.cursor - 1] == s.goals[s.cursor - 1]
    ensures ClockOk(after, s.cursor)
  {
    assert GoalFits(s, s.cursor);
    if s.cursor > 0 { FoundAt(s, s.cursor - 1); }
  }

  lemma CrossPasses(w: Work, gate: bool, r: Reminders)
    requires WorkOk(w, r) && |w.state.goals| == w.state.cursor + 1 && w.session.outcome.None? && w.session.beginning.None?
    requires AtTerminal(w.state.goals[w.state.cursor]) && CanComplete(w.state, w.state.goals[w.state.cursor], gate)
    ensures var g, closed := w.state.goals[w.state.cursor], Close(w.state, w.state.goals[w.state.cursor]);
      && Still(w.state, closed) && Passed(w.state, Cross(closed, g, BoundaryAfter(closed, g)), gate, true)
  {
    var g, closed := w.state.goals[w.state.cursor], Close(w.state, w.state.goals[w.state.cursor]);
    CloseKeeps(w, r);
    assert GoalFits(w.state, w.state.cursor);
    SetStill(w.state, w.state.thread, g.(end := Some(w.state.thread), usage := Subtract(w.state.thread, g.start)));
    SameThread(w.state);
    ReplacedCurrent(w.state, g.(end := Some(w.state.thread), usage := Subtract(w.state.thread, g.start)));
    ClosedClock(w.state, Cross(closed, g, BoundaryAfter(closed, g)), g);
  }

  /** What follows the crossing leaves the records as they were. */
  lemma PassedOn(s: RunState, crossed: RunState, after: RunState, gate: bool)
    requires Passed(s, crossed, gate, true) && Still(crossed, after) && after.thread == crossed.thread
    ensures Passed(s, after, gate, true)
  {
    forall i | 0 <= i < s.cursor ensures Same(s.goals[i], after.goals[i]) {
      assert Same(crossed.goals[i], after.goals[i]);
    }
    assert Same(crossed.goals[s.cursor], after.goals[s.cursor]);
    if s.cursor > 0 { assert Same(crossed.goals[s.cursor - 1], after.goals[s.cursor - 1]); }
  }

  lemma CompletePasses(w: Work, ctx: Context, r: Reminders)
    requires WorkOk(w, r) && |w.state.goals| == w.state.cursor + 1 && w.session.outcome.None? && w.session.beginning.None?
    requires AtTerminal(w.state.goals[w.state.cursor]) && CanComplete(w.state, w.state.goals[w.state.cursor], ctx.gate)
    ensures Carries(w.state, CompleteGoal(w, w.state.goals[w.state.cursor], ctx).state, ctx.gate, true)
  {
    var g := w.state.goals[w.state.cursor];
    var closed := Work(Close(w.state, g), w.session.(advancing := true));
    var boundary := BoundaryAfter(closed.state, g);
    CrossPasses(w, ctx.gate, r);
    if !(ctx.cut == AtCheckpoint && g.index == 0) {
      CrossesOver(w, closed, r);
      var crossed := Work(Cross(closed.state, g, boundary), closed.session);
      LeaveStill(crossed, g.name, boundary, ctx, r);
      PassedOn(w.state, crossed.state, Leave(crossed, g.name, boundary, ctx).state, ctx.gate);
    }
  }

  lemma AdvancePasses(w: Work, ctx: Context, r: Reminders)
    requires WorkOk(w, r)
    ensures Carries(w.state, Advance(w, ctx).state, ctx.gate, Attentive(w.session))
  {
    FoundAt(w.state, w.state.cursor);
    StillSelf(w.state);
    if w.session.outcome.None? && |w.state.goals| == w.state.cursor + 1 {
      var g := w.state.goals[w.state.cursor];
      if w.session.reconciled && !w.session.snapshotPending && !w.session.advancing && AtTerminal(g) && CanComplete(w.state, g, ctx.gate) {
        CompletePasses(w, ctx, r);
      }
    }
  }

  // ----- notifications -----

  lemma SetPasses(w: Work, thread: Usage, g: Goal, ctx: Context, r: Reminders)
    requires WorkOk(w, r) && |w.state.goals| == w.state.cursor + 1 && SameRecord(w.state, g)
    requires w.session.beginning.Some? ==> g.terminalTurn.None?
    ensures var after := Work(WithGoal(w.state.(thread := thread), g), w.session);
      && Carries(w.state, after.state, ctx.gate, Attentive(w.session)) && Carries(w.state, Interrupt(after).state, ctx.gate, Attentive(w.session))
      && Carries(w.state, Advance(after, ctx).state, ctx.gate, Attentive(w.session))
  {
    var after := Work(WithGoal(w.state.(thread := thread), g), w.session);
    RecordSet(w, thread, g, w.session, r);
    assert GoalFits(w.state, w.state.cursor);
    SetStill(w.state, thread, g);
    AdvancePasses(after, ctx, r);
    CarriesJoins(w.state, after.state, Advance(after, ctx).state, ctx.gate, Attentive(w.session));
  }

  lemma TokensPass(w: Work, turn: Option<nat>, usage: Option<Usage>, ctx: Context, r: Reminders)
    requires WorkOk(w, r) && !ForkPending(w.session)
    ensures Carries(w.state, Notify(w, TokensUpdated(turn, usage), ctx).state, ctx.gate, Attentive(w.session))
  {
    var s := w.state;
    FoundAt(s, s.cursor);
    StillSelf(s);
    AdvancePasses(w, ctx, r);
    if usage.Some? && turn.Some? {
      if w.session.reconciled {
        if |s.goals| == s.cursor + 1 {
          SetPasses(w, usage.value, s.goals[s.cursor].(usageTurn := turn), ctx, r);
        } else {
          assert Current(s.(thread := usage.value)).None?;
        }
      } else if |s.goals| == s.cursor + 1 {
        ReplayStill(w, turn.value, usage.value);
      }
    }
  }

  lemma ReplayStill(w: Work, turn: nat, usage: Usage)
    requires GoalsOk(w.state) && |w.state.goals| == w.state.cursor + 1
    ensures Still(w.state, ReplayTokens(w, turn, usage).state)
  {
    FoundAt(w.state, w.state.cursor);
    assert GoalFits(w.state, w.state.cursor);
    SetStill(w.state, w.state.thread, w.state.goals[w.state.cursor].(usageTurn := Some(turn)));
    SameThread(w.state);
    StillSelf(w.state);
  }

  lemma SnapshotStill(w: Work, native: Native)
    requires GoalsOk(w.state) && |w.state.goals| == w.state.cursor + 1
    ensures Still(w.state, TakeSnapshot(w, native).state)
  {
    FoundAt(w.state, w.state.cursor);
    assert GoalFits(w.state, w.state.cursor);
    SetStill(w.state, w.state.thread, w.state.goals[w.state.cursor].(native := Some(native)));
    SameThread(w.state);
    StillSelf(w.state);
  }

  lemma ReportPasses(w: Work, native: Native, turn: Option<nat>, ctx: Context, r: Reminders)
    requires WorkOk(w, r) && !ForkPending(w.session) && (w.session.beginning.Some? ==> native.status != Complete)
    ensures Carries(w.state, Notify(w, GoalUpdated(native, turn), ctx).state, ctx.gate, Attentive(w.session))
  {
    var s := w.state;
    FoundAt(s, s.cursor);
    StillSelf(s);
    if |s.goals| == s.cursor + 1 {
      if w.session.reconciled {
        if NativeMatches(s.goals[s.cursor], native, s.sessionId) {
          SameThread(s);
          SetPasses(w, s.thread, Updated(s.goals[s.cursor], native, turn), ctx, r);
        }
      } else if turn.None? {
        SnapshotStill(w, native);
      }
    }
  }

  lemma TurnPasses(w: Work, message: Message, ctx: Context, r: Reminders)
    requires WorkOk(w, r) && !ForkPending(w.session)
    requires message.TurnStarted? || message.TurnEnded? || message.StatusChanged?
    ensures Carries(w.state, Notify(w, message, ctx).state, ctx.gate, Attentive(w.session))
  {
    var s := w.state;
    FoundAt(s, s.cursor);
    StillSelf(s);
    if w.session.reconciled && |s.goals| == s.cursor + 1 {
      SameThread(s);
      var g := s.goals[s.cursor];
      match message
      case TurnStarted => SetPasses(w, s.thread, g.(idle := false), ctx, r);
      case TurnEnded(turn, status) =>
        SetPasses(w, s.thread, g.(terminalCompleted := g.terminalCompleted || (g.terminalTurn == Some(turn) && status == TurnCompleted)), ctx, r);
      case StatusChanged(status) => SetPasses(w, s.thread, g.(idle := status == IdleThread), ctx, r);
    }
  }

  lemma NotifyPasses(w: Work, message: Message, ctx: Context, r: Reminders)
    requires WorkOk(w, r)
    requires w.session.beginning.Some? ==> !(message.GoalUpdated? && message.goal.status == Complete)
    ensures Carries(w.state, Notify(w, message, ctx).state, ctx.gate, Attentive(w.session))
  {
    StillSelf(w.state);
    if w.state.sessionId.Some? && !ForkPending(w.session) {
      match message
      case TokensUpdated(turn, usage) => TokensPass(w, turn, usage, ctx, r);
      case GoalUpdated(native, turn) => ReportPasses(w, native, turn, ctx, r);
      case _ => TurnPasses(w, message, ctx, r);
    }
  }

  // ----- the launching flow -----

  lemma ReconcileStill(w: Work, g: Goal, turns: Option<seq<Turn>>)
    requires GoalsOk(w.state) && |w.state.goals| == w.state.cursor + 1 && g == w.state.goals[w.state.cursor]
    ensures ReconcileReplay(w, g, turns).Some? ==> Still(w.state, ReconcileReplay(w, g, turns).value.state)
  {
    assert GoalFits(w.state, w.state.cursor);
    StillSelf(w.state);
    if w.session.replay.Some? {
      SetStill(w.state, w.session.replay.value.usage, g.(usageTurn := Some(w.session.replay.value.turn)));
    }
  }

  lemma ResumeGoalStill(w: Work, g: Goal, snapshot: Snapshot, goal: Native, idle: bool, turns: Option<seq<Turn>>)
    requires GoalsOk(w.state) && |w.state.goals| == w.state.cursor + 1 && g == w.state.goals[w.state.cursor] && g.native.Some?
    ensures Still(w.state, ResumeGoal(w, g, snapshot, goal, idle, turns).state)
  {
    StillSelf(w.state);
    ReconcileStill(w, g, turns);
  }

  lemma ResumeStill(w: Work, goal: Option<Native>, idle: bool, turns: Option<seq<Turn>>)
    requires GoalsOk(w.state)
    ensures Still(w.state, Resume(w, goal, idle, turns).state)
  {
    FoundAt(w.state, w.state.cursor);
    StillSelf(w.state);
    if |w.state.goals| == w.state.cursor + 1 && w.state.goals[w.state.cursor].native.Some? && goal.Some? && w.session.snapshot.Some? {
      ResumeGoalStill(w, w.state.goals[w.state.cursor], w.session.snapshot.value, goal.value, idle, turns);
    }
  }

  lemma NamedStill(w: Work, id: nat, idle: bool)
    requires GoalsOk(w.state)
    ensures Still(w.state, ThreadReady(w, id, idle).state)
  {
    var s := w.state;
    FoundAt(s, s.cursor);
    StillSelf(s);
    if w.session.mode == FreshThread && |s.goals| == s.cursor + 1 {
      assert GoalFits(s, s.cursor);
      SetStill(s, s.thread, s.goals[s.cursor].(idle := idle));
      SameThread(s);
      assert WithGoal(s.(sessionId := Some(id)), s.goals[s.cursor].(idle := idle))
          == WithGoal(s, s.goals[s.cursor].(idle := idle)).(sessionId := Some(id));
    }
  }

  lemma AcceptStill(w: Work, native: Native, r: Reminders)
    requires WorkOk(w, r)
    ensures Still(w.state, GoalAccepted(w, native).state)
  {
    StillSelf(w.state);
    if w.session.beginning.Some? {
      FoundAt(w.state, w.state.cursor);
      assert GoalFits(w.state, w.state.cursor);
      SetStill(w.state, w.state.thread, w.state.goals[w.state.cursor].(native := Some(native)));
      SameThread(w.state);
    }
  }

  lemma PoppedPasses(w: Work, ctx: Context, r: Reminders)
    requires WorkOk(w, r) && w.session.beginning.None? && w.session.backlog != []
    ensures var popped := Work(w.state, w.session.(backlog := w.session.backlog[1..]));
      Carries(w.state, Notify(popped, w.session.backlog[0], ctx).state, ctx.gate, Attentive(w.session))
  {
    var popped := Work(w.state, w.session.(backlog := w.session.backlog[1..]));
    SessionMoves(w, popped.session, r);
    NotifyPasses(popped, w.session.backlog[0], ctx, r);
  }

  lemma RunningPasses(w: Work, ctx: Context, r: Reminders)
    requires WorkOk(w, r)
    ensures var running := Work(w.state, w.session.(phase := Running));
      && Carries(w.state, Advance(running, ctx).state, ctx.gate, Attentive(w.session))
      && Still(w.state, BeginGoal(running, ctx.text).state)
  {
    var running := Work(w.state, w.session.(phase := Running));
    PhaseMoves(w, Running, r);
    AdvancePasses(running, ctx, r);
    BeginStill(running, ctx.text, r);
  }

  lemma ProceedPasses(w: Work, ctx: Context, r: Reminders)
    requires WorkOk(w, r) && w.session.beginning.None?
    ensures Carries(w.state, Proceed(w, ctx).state, ctx.gate, Attentive(w.session))
  {
    StillSelf(w.state);
    if w.session.outcome.None? {
      if w.session.phase.Replaying? && w.session.backlog != [] {
        PoppedPasses(w, ctx, r);
      } else {
        RunningPasses(w, ctx, r);
      }
    }
  }

  /** Whether an event comes with an open gate. */
  predicate Opens(e: Event) {
    (e.Continued? || e.Notified?) && e.ctx.gate
  }

  /**
   One live event leaves every Goal behind the cursor alone and completes at most
   the one at the cursor: at a total beyond its start, on a clock that has not
   fallen behind the previous Goal's, and a backend review only where the gate
   the event comes with is open. A run that is over, still reads or completes
   another Goal completes none.
   */
  lemma ActPasses(w: Work, e: Event)
    requires LiveOk(w)
    ensures Carries(w.state, Act(w, e).state, Opens(e), Attentive(w.session))
  {
    var r :| WorkOk(w, r);
    StillSelf(w.state);
    match e
    case ThreadAnswered(id, idle) => NamedStill(w, id, idle);
    case GoalAnswered(goal, idle, turns) => ResumeStill(w, goal, idle, turns);
    case Continued(ctx) => if w.session.beginning.None? { ProceedPasses(w, ctx, r); }
    case Notified(message, ctx) => if Enabled(w.session, message) { NotifyPasses(w, message, ctx, r); }
    case GoalSet(native) => AcceptStill(w, native, r);
    case _ =>
  }

  // ----- over runs -----

  /** The clocks behind the cursor do not fall, on each thread. */
  predicate ClocksOk(s: RunState) {
    forall i | 0 <= i < s.cursor && i < |s.goals| :: ClockOk(s, i)
  }

  lemma ClocksCarry(s: RunState, after: RunState, gate: bool, ready: bool)
    requires ClocksOk(s) && Carries(s, after, gate, ready)
    ensures ClocksOk(after)
  {
    forall i | 0 <= i < after.cursor && i < |after.goals| ensures ClockOk(after, i) {
      if i < s.cursor {
        assert ClockOk(s, i) && Same(s.goals[i], after.goals[i]);
        if i > 0 { assert Same(s.goals[i - 1], after.goals[i - 1]); }
      }
    }
  }

  /** The records behind the cursor are those of another state. */
  predicate BehindSame(s: RunState, after: RunState) {
    && after.cursor == s.cursor && after.nativeStart == s.nativeStart && s.cursor <= |s.goals| <= |after.goals|
    && forall i | 0 <= i < |s.goals| :: after.goals[i] == s.goals[i]
  }

  lemma PreparedBehind(s: RunState, text: string)
    requires s.cursor <= |s.goals|
    ensures BehindSame(s, Prepared(s, text))
  {
  }

  lemma LaunchBehind(s: RunState, options: Options)
    requires Sound(s)
    ensures BehindSame(s, LaunchFrom(s, options).disk) && BehindSame(s, LaunchFrom(s, options).live)
  {
    SoundGoals(s);
    LaunchDisk(s, options);
    LaunchAtRest(s, options);
    if LaunchFrom(s, options).session.Some? {
      LaunchShape(s, options);
      BaseSound(s, options);
      PreparedBehind(s, options.text);
      if s.status == AwaitingVerdict {
        PreparedBehind(MarkResumed(LaunchBase(s, options)), options.text);
      }
    }
  }

  lemma StepBehind(m: Machine, e: Event)
    requires MachineOk(m)
    ensures m.session.None? ==> BehindSame(m.disk, Step(m, e).disk) && BehindSame(m.disk, Step(m, e).live)
    ensures m.session.Some? ==>
      || Step(m, e).disk == m.disk || SameRecords(m.live, Step(m, e).disk)
    ensures m.session.Some? ==>
      || Step(m, e).live == Step(m, e).disk || Carries(m.live, Step(m, e).live, Opens(e), Attentive(m.session.value))
  {
    if m.session.None? {
      SoundGoals(m.disk);
      if e.Launch? {
        LaunchBehind(m.disk, e.options);
      } else if e.Decided? {
        InspectRecords(m.disk, InspectionFailed, e.decision, true);
      }
    } else {
      var w := Work(m.live, m.session.value);
      LiveIsShaped(m);
      StillSelf(m.live);
      if e.Ended? {
        EndStepRecords(m, m.session.value, e);
      } else if !e.Launch? && !e.Decided? && !e.Published? && !e.Killed? {
        ActPasses(w, e);
        assert Step(m, e) == Attached(m.disk, Act(w, e));
      }
    }
  }

  lemma ClocksSame(s: RunState, after: RunState)
    requires ClocksOk(s) && BehindSame(s, after)
    ensures ClocksOk(after)
  {
    forall i | 0 <= i < after.cursor && i < |after.goals| ensures ClockOk(after, i) {
      assert ClockOk(s, i);
    }
  }

  lemma StepClocks(m: Machine, e: Event)
    requires MachineOk(m) && ClocksOk(m.disk) && ClocksOk(m.live)
    ensures ClocksOk(Step(m, e).disk) && ClocksOk(Step(m, e).live)
  {
    StepBehind(m, e);
    var after := Step(m, e);
    if m.session.None? {
      ClocksSame(m.disk, after.disk);
      ClocksSame(m.disk, after.live);
    } else {
      if after.disk != m.disk { ClocksSameRecords(m.live, after.disk); }
      if after.live != after.disk { ClocksCarry(m.live, after.live, Opens(e), Attentive(m.session.value)); }
    }
  }

  lemma ClocksSameRecords(s: RunState, after: RunState)
    requires ClocksOk(s) && SameRecords(s, after)
    ensures ClocksOk(after)
  {
    forall i | 0 <= i < after.cursor && i < |after.goals| ensures ClockOk(after, i) {
      assert ClockOk(s, i);
    }
  }

  /** Over every run the retained clocks behind the cursor do not fall. */
  lemma {:induction false} RunClocks(m: Machine, events: seq<Event>)
    requires Initial(m)
    ensures ClocksOk(Run(m, events).disk) && ClocksOk(Run(m, events).live)
  {
    if events != [] {
      var front := events[..|events| - 1];
      RunClocks(m, front);
      RunSound(m, front);
      StepClocks(Run(m, front), events[|events| - 1]);
    }
  }

  // ----- the gate -----

  lemma ReviewIsSecond(s: RunState, r: Reminders)
    requires Shape(s, r)
    ensures |s.plan| > 1 && s.plan[1].name == Review(Backend)
  {
  }

  lemma ClosedGateHolds(s: RunState, after: RunState, r: Reminders, ready: bool)
    requires Shape(s, r) && s.cursor <= 1 && Carries(s, after, false, ready)
    ensures after.cursor <= 1
  {
    ReviewIsSecond(s, r);
    if s.cursor == 1 < |s.goals| {
      assert GoalFits(s, 1);
    }
  }

  lemma StepHeld(m: Machine, e: Event)
    requires MachineOk(m) && m.disk.cursor <= 1 && m.live.cursor <= 1 && !Opens(e)
    ensures Step(m, e).disk.cursor <= 1 && Step(m, e).live.cursor <= 1
  {
    StepBehind(m, e);
    if m.session.Some? {
      var r :| WorkOk(Work(m.live, m.session.value), r);
      if Carries(m.live, Step(m, e).live, false, Attentive(m.session.value)) {
        ClosedGateHolds(m.live, Step(m, e).live, r, Attentive(m.session.value));
      }
    }
  }

  /** While no event comes with an open gate, no run of either arm gets past its backend review. */
  lemma {:induction false} ClosedGateHoldsRuns(m: Machine, events: seq<Event>)
    requires Initial(m) && forall i | 0 <= i < |events| :: !Opens(events[i])
    ensures Run(m, events).disk.cursor <= 1 && Run(m, events).live.cursor <= 1
  {
    if events != [] {
      var front := events[..|events| - 1];
      ClosedGateHoldsRuns(m, front);
      RunSound(m, front);
      StepHeld(Run(m, front), events[|events| - 1]);
    }
  }

  /** An event that completes the backend review comes with an open gate. */
  lemma ReviewNeedsGate(w: Work, e: Event)
    requires LiveOk(w) && Act(w, e).state.cursor > w.state.cursor
    ensures Act(w, e).state.cursor == w.state.cursor + 1 && w.state.cursor < |w.state.plan|
    ensures w.state.plan[w.state.cursor].name == Review(Backend) ==> (e.Continued? || e.Notified?) && e.ctx.gate
  {
    ActPasses(w, e);
    var r :| WorkOk(w, r);
    assert GoalFits(w.state, w.state.cursor);
  }
}
