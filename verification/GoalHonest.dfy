/**
 Runs over an honest thread: its counters do not fall behind the run's first own
 Goal, and it reports a Goal only after it was asked for it. In such runs a Goal that would start elsewhere than
 its predecessor ended is never begun, so every completed Goal is exact.
 */
module GoalHonest {
  import opened Prelude
  import opened TokenUsage
  import opened Instruction
  import opened GoalState
  import opened Validators
  import opened Supervision
  import opened GoalSession
  import opened GoalMachine
  import opened GoalSafety
  import opened GoalEvents
  import opened GoalLaunch
  import opened PlanAcceptance
  import opened GoalTheorems

  // ----- honest threads -----

  /** The request for a Goal is sent once the record that begins has been retained. */
  function Requests(m: Machine, e: Event): set<nat> {
    if e.Published? && m.session.Some? && m.session.value.beginning.Some? then {m.session.value.beginning.value} else {}
  }

  /** The indexes of the Goals asked for so far. */
  function Asked(m: Machine, before: set<nat>, events: seq<Event>): set<nat> {
    if events == [] then before
    else Asked(m, before, events[..|events| - 1]) + Requests(Run(m, events[..|events| - 1]), events[|events| - 1])
  }

  /** The notification an event handles: the one that arrives, or the next one of the backlog. */
  function Handled(session: Session, e: Event): Option<(Message, Context)> {
    match e
    case Notified(message, ctx) => Some((message, ctx))
    case Continued(ctx) =>
      if session.phase.Replaying? && session.backlog != [] then Some((session.backlog[0], ctx)) else None
    case _ => None
  }

  /** The report carries the objective of the record at the cursor. */
  predicate ReportsCurrent(s: RunState, goal: Native) {
    Current(s).Some? && NativeMatches(Current(s).value, goal, s.sessionId)
  }

  /**
   Counters do not fall below the total once the thread has completed a Goal of
   the run: a new thread of a run derived for a fork begins below it. A Goal that has not been asked for is
   not reported: a report with its very objective, which a scope's reminders
   share, then only repeats the snapshot of a completed Goal, which names no turn.
   */
  predicate HonestMessage(s: RunState, asked: set<nat>, message: Message) {
    match message
    case TokensUpdated(_, usage) => usage.Some? && s.nativeStart < s.cursor ==> AtLeast(usage.value, s.thread)
    case GoalUpdated(goal, turn) =>
      s.cursor in asked || !ReportsCurrent(s, goal) || (goal.status == Complete && turn.None?)
    case _ => true
  }

  predicate HonestEvent(w: Work, asked: set<nat>, e: Event) {
    Handled(w.session, e).Some? ==> HonestMessage(w.state, asked, Handled(w.session, e).value.0)
  }

  predicate HonestStep(m: Machine, asked: set<nat>, e: Event) {
    m.session.Some? ==> HonestEvent(Work(m.live, m.session.value), asked, e)
  }

  predicate HonestRun(m: Machine, before: set<nat>, events: seq<Event>) {
    events == [] || (
      var front := events[..|events| - 1];
      && HonestRun(m, before, front)
      && HonestStep(Run(m, front), Asked(m, before, front), events[|events| - 1]))
  }

  // ----- honest reachability -----

  /** Where a run starts, and what its thread was asked for before. */
  datatype Origin = Origin(m: Machine, before: set<nat>)

  /** An honest run leads there, in which at least the known Goals have been asked for. */
  ghost predicate Reaches(o: Origin, known: set<nat>, t: Machine) {
    exists events :: HonestRun(o.m, o.before, events) && Run(o.m, events) == t && known <= Asked(o.m, o.before, events)
  }

  lemma ReachesSelf(o: Origin)
    ensures Reaches(o, o.before, o.m)
  {
    assert HonestRun(o.m, o.before, []) && Run(o.m, []) == o.m && Asked(o.m, o.before, []) == o.before;
  }

  lemma HonestMore(m: Machine, known: set<nat>, asked: set<nat>, e: Event)
    requires HonestStep(m, known, e) && known <= asked
    ensures HonestStep(m, asked, e)
  {
  }

  lemma RunMore(o: Origin, events: seq<Event>, e: Event)
    requires HonestRun(o.m, o.before, events) && HonestStep(Run(o.m, events), Asked(o.m, o.before, events), e)
    ensures HonestRun(o.m, o.before, events + [e]) && Run(o.m, events + [e]) == Step(Run(o.m, events), e)
    ensures Asked(o.m, o.before, events + [e]) == Asked(o.m, o.before, events) + Requests(Run(o.m, events), e)
  {
    var more := events + [e];
    assert more[..|more| - 1] == events && more[|more| - 1] == e;
  }

  lemma ReachesStep(o: Origin, known: set<nat>, t: Machine, e: Event)
    requires Reaches(o, known, t) && HonestStep(t, known, e)
    ensures Reaches(o, known + Requests(t, e), Step(t, e))
  {
    var events :| HonestRun(o.m, o.before, events) && Run(o.m, events) == t && known <= Asked(o.m, o.before, events);
    HonestMore(t, known, Asked(o.m, o.before, events), e);
    RunMore(o, events, e);
  }

  predicate OfLive(e: Event) {
    e.ThreadAnswered? || e.ForkReset? || e.GoalAnswered? || e.Continued? || e.Notified? || e.GoalSet? || e.Disturbed?
  }

  lemma ReachesAct(o: Origin, known: set<nat>, disk: RunState, w: Work, e: Event)
    requires Reaches(o, known, Attached(disk, w)) && OfLive(e) && HonestEvent(w, known, e)
    ensures Reaches(o, known, Attached(disk, Act(w, e)))
  {
    assert Work(w.state, w.session) == w;
    ReachesStep(o, known, Attached(disk, w), e);
    assert known + Requests(Attached(disk, w), e) == known;
  }

  /** Launches, ends and kills ask for nothing and handle no notification. */
  lemma ReachesOther(o: Origin, known: set<nat>, t: Machine, e: Event)
    requires Reaches(o, known, t) && (e.Launch? || e.Ended? || e.Killed? || e.Decided?)
    ensures Reaches(o, known, Step(t, e))
  {
    ReachesStep(o, known, t, e);
    assert known + Requests(t, e) == known;
  }

  lemma ReachesRetained(o: Origin, known: set<nat>, disk: RunState, w: Work)
    requires Reaches(o, known, Attached(disk, w)) && w.session.beginning.None?
    ensures Reaches(o, known, Attached(w.state, w))
  {
    ReachesStep(o, known, Attached(disk, w), Published);
    assert known + Requests(Attached(disk, w), Published) == known;
    assert Step(Attached(disk, w), Published) == Attached(w.state, w);
  }

  lemma EndedStep(disk: RunState, w: Work, e: Event)
    requires e.Ended?
    ensures Step(Attached(disk, w), e) == End(disk, w, e.process, e.cleanupFailed, e.published, e.inspection)
  {
    assert Work(w.state, w.session) == w;
  }

  lemma ReachesEnded(o: Origin, known: set<nat>, disk: RunState, w: Work, e: Event)
    requires Reaches(o, known, Attached(disk, w)) && e.Ended?
    ensures Reaches(o, known, End(disk, w, e.process, e.cleanupFailed, e.published, e.inspection))
  {
    ReachesOther(o, known, Attached(disk, w), e);
    EndedStep(disk, w, e);
  }

  lemma KilledStep(disk: RunState, w: Work)
    ensures Step(Attached(disk, w), Killed) == AtRest(disk)
  {
  }

  lemma ReachesKilled(o: Origin, known: set<nat>, disk: RunState, w: Work)
    requires Reaches(o, known, Attached(disk, w))
    ensures Reaches(o, known, AtRest(disk))
  {
    ReachesOther(o, known, Attached(disk, w), Killed);
    KilledStep(disk, w);
  }

  // ----- a record that cannot be begun -----

  /** It has seen no terminal turn, and holds at most the snapshot of a completed Goal. */
  predicate Untouched(g: Goal) {
    g.terminalTurn.None? && (g.native.None? || g.native.value.status == Complete)
  }

  /** The total has gone beyond where the Goal at the cursor must start. */
  predicate Moved(s: RunState) {
    s.thread != ExpectedStart(s, s.cursor) && AtLeast(s.thread, ExpectedStart(s, s.cursor))
  }

  predicate Stuck(s: RunState, asked: set<nat>) {
    && s.sessionId.Some? && s.nativeStart < s.cursor && s.cursor !in asked && Moved(s)
    && (|s.goals| == s.cursor + 1 ==> Untouched(s.goals[s.cursor]))
  }

  predicate StuckWork(w: Work, asked: set<nat>) {
    && Stuck(w.state, asked)
    && (|w.state.goals| == w.state.cursor + 1 ==>
          && w.session.mode == ResumedThread && w.session.beginning.None? && w.session.replay.None?
          && (w.session.snapshot.Some? ==> w.session.snapshot.value.goal.status == Complete)
          && (w.session.phase == Starting || w.session.phase == Resuming || w.session.phase == Running))
  }

  /** Nothing but the record at the cursor, the total and what the session remembers has changed. */
  predicate Stays(w: Work, after: Work, asked: set<nat>) {
    StuckWork(after, asked) && after.state.cursor == w.state.cursor && |after.state.goals| == |w.state.goals|
  }

  lemma AtLeastJoins(a: Usage, b: Usage, c: Usage)
    requires AtLeast(a, b) && AtLeast(b, c)
    ensures AtLeast(a, c) && (a == c ==> b == c)
  {
  }

  /** A further total is further still from where the Goal must start. */
  lemma MovedOn(s: RunState, after: RunState)
    requires Moved(s) && AtLeast(after.thread, s.thread)
    requires ExpectedStart(after, after.cursor) == ExpectedStart(s, s.cursor)
    ensures Moved(after)
  {
    AtLeastJoins(after.thread, s.thread, ExpectedStart(s, s.cursor));
  }

  lemma StuckSession(w: Work, asked: set<nat>, session: Session, interruption: Option<Interruption>)
    requires StuckWork(w, asked)
    requires session.mode == w.session.mode && session.beginning == w.session.beginning && session.replay == w.session.replay
    requires session.phase == w.session.phase || session.phase == Running || session.phase == Resuming
    requires session.snapshot == w.session.snapshot || (session.snapshot.Some? && session.snapshot.value.goal.status == Complete)
    ensures Stays(w, Work(w.state.(interruption := interruption), session), asked)
  {
    MovedOn(w.state, w.state.(interruption := interruption));
  }

  lemma StuckInterrupt(w: Work, asked: set<nat>)
    requires StuckWork(w, asked)
    ensures Stays(w, Interrupt(w), asked) && Stays(w, Abandon(w), asked)
  {
    StuckSession(w, asked, Interrupt(w).session, Interrupt(w).state.interruption);
    StuckSession(w, asked, Abandon(w).session, Abandon(w).state.interruption);
  }

  lemma StuckSet(w: Work, asked: set<nat>, g: Goal, thread: Usage, r: Reminders)
    requires WorkOk(w, r) && StuckWork(w, asked) && |w.state.goals| == w.state.cursor + 1
    requires Untouched(g) && g.index == w.state.cursor && AtLeast(thread, w.state.thread)
    ensures Stays(w, Work(WithGoal(w.state.(thread := thread), g), w.session), asked)
    ensures Stays(w, Interrupt(Work(WithGoal(w.state.(thread := thread), g), w.session)), asked)
    ensures forall ctx ::
      Stays(w, Advance(Work(WithGoal(w.state.(thread := thread), g), w.session), ctx), asked)
  {
    var after := WithGoal(w.state.(thread := thread), g);
    ReplacedCurrent(w.state, g);
    assert after.goals == w.state.goals[w.state.cursor := g];
    MovedOn(w.state, after);
    var changed := Work(after, w.session);
    assert StuckWork(changed, asked);
    StuckInterrupt(changed, asked);
    FoundCurrent(w.state, g, thread);
    assert forall ctx :: Advance(changed, ctx) == changed;
  }

  lemma FoundCurrent(s: RunState, g: Goal, thread: Usage)
    requires GoalsOk(s) && |s.goals| == s.cursor + 1 && g.index == s.cursor
    ensures Current(WithGoal(s.(thread := thread), g)) == Some(g)
  {
    ReplacedCurrent(s, g);
    var after := WithGoal(s.(thread := thread), g);
    forall i | 0 <= i < |after.goals| ensures after.goals[i].index == 0 + i {
      assert GoalFits(s, i);
    }
    FindGoalAt(after.goals, 0, s.cursor);
  }

  // ----- every live event leaves it there -----

  lemma StuckTokens(w: Work, asked: set<nat>, turn: Option<nat>, usage: Option<Usage>, ctx: Context, r: Reminders)
    requires WorkOk(w, r) && StuckWork(w, asked) && HonestMessage(w.state, asked, TokensUpdated(turn, usage))
    requires |w.state.goals| == w.state.cursor + 1
    ensures Stays(w, Notify(w, TokensUpdated(turn, usage), ctx), asked)
  {
    var s := w.state;
    FoundAt(s, s.cursor);
    assert GoalFits(s, s.cursor);
    StuckInterrupt(w, asked);
    StuckSession(w, asked, w.session.(backlog := w.session.backlog + [TokensUpdated(turn, usage)]), s.interruption);
    if usage.Some? && turn.Some? && w.session.reconciled {
      StuckSet(w, asked, s.goals[s.cursor].(usageTurn := turn), usage.value, r);
      FoundAt(s, s.cursor);
    }
  }

  lemma StuckReport(w: Work, asked: set<nat>, native: Native, turn: Option<nat>, ctx: Context, r: Reminders)
    requires WorkOk(w, r) && StuckWork(w, asked) && HonestMessage(w.state, asked, GoalUpdated(native, turn))
    requires |w.state.goals| == w.state.cursor + 1
    ensures Stays(w, Notify(w, GoalUpdated(native, turn), ctx), asked)
  {
    var s := w.state;
    FoundAt(s, s.cursor);
    assert GoalFits(s, s.cursor);
    StuckInterrupt(w, asked);
    if w.session.reconciled {
      SameThread(s);
      if ReportsCurrent(s, native) {
        StuckSet(w, asked, Updated(s.goals[s.cursor], native, turn), s.thread, r);
      }
    } else {
      StuckSnapshot(w, asked, native, r);
    }
  }

  /** A snapshot is taken only of a completed Goal: the record's own, or the one before it. */
  lemma StuckTakes(w: Work, asked: set<nat>, native: Native, r: Reminders)
    requires WorkOk(w, r) && StuckWork(w, asked) && |w.state.goals| == w.state.cursor + 1
    ensures var after := TakeSnapshot(w, native);
      after == Interrupt(w)
      || (native.status == Complete
          && exists index :: after == Work(w.state, w.session.(snapshotPending := false, snapshot := Some(Snapshot(native, index)))))
  {
    FoundAt(w.state, w.state.cursor);
    FoundAt(w.state, w.state.cursor - 1);
    assert GoalFits(w.state, w.state.cursor) && GoalFits(w.state, w.state.cursor - 1);
  }

  lemma StuckSnapshot(w: Work, asked: set<nat>, native: Native, r: Reminders)
    requires WorkOk(w, r) && StuckWork(w, asked) && |w.state.goals| == w.state.cursor + 1
    ensures Stays(w, TakeSnapshot(w, native), asked)
  {
    StuckTakes(w, asked, native, r);
    StuckInterrupt(w, asked);
    var after := TakeSnapshot(w, native);
    assert after == Interrupt(w) || after == Work(w.state, after.session);
    if after != Interrupt(w) {
      StuckSession(w, asked, after.session, w.state.interruption);
    }
  }

  lemma StuckTurn(w: Work, asked: set<nat>, message: Message, ctx: Context, r: Reminders)
    requires WorkOk(w, r) && StuckWork(w, asked) && |w.state.goals| == w.state.cursor + 1
    requires message.TurnStarted? || message.TurnEnded? || message.StatusChanged?
    ensures Stays(w, Notify(w, message, ctx), asked)
  {
    var s := w.state;
    FoundAt(s, s.cursor);
    assert GoalFits(s, s.cursor);
    var g := s.goals[s.cursor];
    StuckSession(w, asked, w.session.(backlog := w.session.backlog + [message]), s.interruption);
    SameThread(s);
    match message
    case TurnStarted => StuckSet(w, asked, g.(idle := false), s.thread, r);
    case TurnEnded(turn, status) => StuckSet(w, asked, g.(terminalCompleted := g.terminalCompleted), s.thread, r);
    case StatusChanged(status) => StuckSet(w, asked, g.(idle := status == IdleThread), s.thread, r);
  }

  lemma StuckNotify(w: Work, asked: set<nat>, message: Message, ctx: Context, r: Reminders)
    requires WorkOk(w, r) && StuckWork(w, asked) && HonestMessage(w.state, asked, message)
    requires |w.state.goals| == w.state.cursor + 1
    ensures Stays(w, Notify(w, message, ctx), asked)
  {
    match message
    case TokensUpdated(turn, usage) => StuckTokens(w, asked, turn, usage, ctx, r);
    case GoalUpdated(goal, turn) => StuckReport(w, asked, goal, turn, ctx, r);
    case _ => StuckTurn(w, asked, message, ctx, r);
  }

  /** A record that holds the snapshot of a completed Goal has no terminal turn to resume at. */
  lemma StuckResumeGoal(w: Work, asked: set<nat>, g: Goal, goal: Native, idle: bool, turns: Option<seq<Turn>>)
    requires StuckWork(w, asked) && |w.state.goals| == w.state.cursor + 1 && g == w.state.goals[w.state.cursor]
    requires g.native.Some? && w.session.snapshot.Some? && Current(w.state) == Some(g)
    ensures ResumeGoal(w, g, w.session.snapshot.value, goal, idle, turns) == Abandon(w)
  {
  }

  /** The Goal before it did not end at the present total. */
  lemma StuckBoundary(w: Work, asked: set<nat>, snapshot: Snapshot, goal: Native, r: Reminders)
    requires WorkOk(w, r) && StuckWork(w, asked) && |w.state.goals| == w.state.cursor + 1
    ensures !UndispatchedBoundary(w.state, PreviousGoal(w.state, w.state.goals[w.state.cursor]), snapshot, goal)
  {
    var s := w.state;
    FoundAt(s, s.cursor - 1);
    assert GoalFits(s, s.cursor) && GoalFits(s, s.cursor - 1);
  }

  lemma StuckCleared(w: Work, asked: set<nat>, g: Goal, idle: bool, turns: Option<seq<Turn>>)
    requires StuckWork(w, asked) && Current(w.state) == Some(g) && g.index != 0 && w.session.outcome.None?
    ensures Stays(w, Resume(w, None, idle, turns), asked)
  {
    var cleared := Work(w.state, w.session.(snapshotPending := false, reconciled := true));
    StuckSession(w, asked, cleared.session, w.state.interruption);
    assert Stays(w, cleared, asked);
    StuckInterrupt(cleared, asked);
  }

  lemma StuckHeld(w: Work, asked: set<nat>, goal: Native, idle: bool, turns: Option<seq<Turn>>, r: Reminders)
    requires WorkOk(w, r) && StuckWork(w, asked) && |w.state.goals| == w.state.cursor + 1 && w.session.outcome.None?
    ensures Resume(w, Some(goal), idle, turns) == Abandon(w)
  {
    FoundAt(w.state, w.state.cursor);
    var g := w.state.goals[w.state.cursor];
    if w.session.snapshot.Some? {
      if g.native.None? {
        StuckBoundary(w, asked, w.session.snapshot.value, goal, r);
      } else {
        StuckResumeGoal(w, asked, g, goal, idle, turns);
      }
    }
  }

  lemma StuckResume(w: Work, asked: set<nat>, goal: Option<Native>, idle: bool, turns: Option<seq<Turn>>, r: Reminders)
    requires WorkOk(w, r) && StuckWork(w, asked) && |w.state.goals| == w.state.cursor + 1
    ensures Stays(w, Resume(w, goal, idle, turns), asked)
  {
    if w.session.outcome.Some? {
      StuckSession(w, asked, w.session.(phase := Running), w.state.interruption);
    } else if goal.None? {
      FoundAt(w.state, w.state.cursor);
      assert GoalFits(w.state, w.state.cursor);
      StuckCleared(w, asked, w.state.goals[w.state.cursor], idle, turns);
    } else {
      StuckHeld(w, asked, goal.value, idle, turns, r);
      StuckInterrupt(w, asked);
    }
  }

  /** Without a record at the cursor only the total, the interruption and the session can change. */
  predicate OnlyTotal(s: RunState, after: RunState) {
    after == s.(thread := after.thread, interruption := after.interruption)
  }

  lemma BareTokens(w: Work, turn: Option<nat>, usage: Option<Usage>, ctx: Context)
    requires Current(w.state).None? && (usage.Some? ==> Current(w.state.(thread := usage.value)).None?)
    ensures var after := Notify(w, TokensUpdated(turn, usage), ctx).state;
      OnlyTotal(w.state, after) && (after.thread == w.state.thread || usage == Some(after.thread))
  {
  }

  lemma BareOther(w: Work, message: Message, ctx: Context)
    requires Current(w.state).None? && !message.TokensUpdated?
    ensures var after := Notify(w, message, ctx).state;
      OnlyTotal(w.state, after) && after.thread == w.state.thread
  {
  }

  lemma BareNotify(w: Work, message: Message, ctx: Context, r: Reminders)
    requires WorkOk(w, r) && |w.state.goals| == w.state.cursor
    ensures var after := Notify(w, message, ctx).state;
      OnlyTotal(w.state, after)
      && (after.thread == w.state.thread || (message.TokensUpdated? && message.usage == Some(after.thread)))
  {
    FoundAt(w.state, w.state.cursor);
    if message.TokensUpdated? {
      assert message.usage.Some? ==> Current(w.state.(thread := message.usage.value)) == Current(w.state);
      BareTokens(w, message.tokensTurn, message.usage, ctx);
    } else {
      BareOther(w, message, ctx);
    }
  }

  lemma BareAct(w: Work, e: Event, r: Reminders)
    requires WorkOk(w, r) && |w.state.goals| == w.state.cursor && w.state.sessionId.Some? && !e.Notified?
    ensures var after := Act(w, e).state;
      after == w.state.(interruption := after.interruption)
  {
    FoundAt(w.state, w.state.cursor);
  }

  lemma StuckBare(w: Work, asked: set<nat>, e: Event, r: Reminders)
    requires WorkOk(w, r) && StuckWork(w, asked) && |w.state.goals| == w.state.cursor && HonestEvent(w, asked, e)
    ensures Stays(w, Act(w, e), asked)
  {
    var after := Act(w, e).state;
    if e.Notified? {
      BareNotify(w, e.message, e.ctx, r);
    } else {
      BareAct(w, e, r);
    }
    MovedOn(w.state, after);
  }

  /** The launching flow's own events. */
  lemma StuckFlow(w: Work, asked: set<nat>, e: Event)
    requires StuckWork(w, asked) && |w.state.goals| == w.state.cursor + 1 && !e.Notified? && !e.GoalAnswered?
    ensures Stays(w, Act(w, e), asked)
  {
    StuckSession(w, asked, w.session, w.state.interruption);
    assert Work(w.state.(interruption := w.state.interruption), w.session) == w;
    StuckInterrupt(w, asked);
    StuckSession(w, asked, w.session.(phase := Resuming), w.state.interruption);
    StuckSession(w, asked, w.session.(phase := Running), w.state.interruption);
    assert w.state.(interruption := w.state.interruption) == w.state;
  }

  lemma StuckSelf(w: Work, asked: set<nat>)
    requires StuckWork(w, asked)
    ensures Stays(w, w, asked)
  {
  }

  lemma StuckRecord(w: Work, asked: set<nat>, e: Event, r: Reminders)
    requires WorkOk(w, r) && StuckWork(w, asked) && |w.state.goals| == w.state.cursor + 1 && HonestEvent(w, asked, e)
    ensures Stays(w, Act(w, e), asked)
  {
    StuckSelf(w, asked);
    if e.Notified? {
      StuckNotify(w, asked, e.message, e.ctx, r);
    } else if e.GoalAnswered? {
      StuckResume(w, asked, e.goal, e.threadIdle, e.turns, r);
    } else {
      StuckFlow(w, asked, e);
    }
  }

  /** No live event of an honest thread begins or completes a Goal the total has gone past. */
  lemma StuckAct(w: Work, asked: set<nat>, e: Event)
    requires LiveOk(w) && StuckWork(w, asked) && HonestEvent(w, asked, e)
    ensures Stays(w, Act(w, e), asked)
  {
    var r :| WorkOk(w, r);
    if |w.state.goals| == w.state.cursor {
      StuckBare(w, asked, e, r);
    } else {
      StuckRecord(w, asked, e, r);
    }
  }
}
