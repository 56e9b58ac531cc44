/** What every event keeps of the retained state and of the live session. */
module GoalSafety {
  import opened Prelude
  import opened TokenUsage
  import opened Instruction
  import opened GoalState
  import opened Supervision
  import opened GoalSession

  // ----- the retained state -----

  /** A record belongs to its plan entry and thread; behind the cursor it is settled and measured. */
  predicate GoalFits(s: RunState, i: nat)
    requires i < |s.goals| <= |s.plan|
  {
    var g := s.goals[i];
    && g.index == i && g.name == s.plan[i].name && g.path == s.plan[i].path
    && (g.native.Some? ==>
          && g.native.value.objective == g.objective
          && (i >= s.nativeStart ==> Some(g.native.value.thread) == s.sessionId))
    && (i < s.cursor ==> Settled(g) && Measured(g))
  }

  predicate GoalsOk(s: RunState) {
    && s.cursor <= |s.goals| <= s.cursor + 1
    && |s.goals| <= |s.plan|
    && s.nativeStart <= 1 && s.nativeStart <= s.cursor
    && forall i | 0 <= i < |s.goals| :: GoalFits(s, i)
  }

  predicate PlanOk(s: RunState, r: Reminders) {
    && Bounded(r)
    && s.plan == (if s.arm == PlainArm then AdaptivePlan(r) else BasePlan(EvidenceArm))
    && (s.arm == EvidenceArm ==> s.pauses == [])
  }

  /** The last pause stands directly behind the cursor, and its successor has not been prepared. */
  predicate AtPause(s: RunState) {
    s.pauses != [] && |s.goals| == s.cursor == Last(s.pauses).goalIndex + 1
  }

  /** A pause is the plan's stop of the same number; its verdict is the one its decision earns. */
  predicate PauseFits(s: RunState, r: Reminders, j: nat)
    requires j < |s.pauses|
  {
    var pause, stop := s.pauses[j], StopAt(r, j);
    && pause.scope == stop.scope && pause.attempt == stop.attempt && pause.goalIndex == stop.goalIndex
    && pause.goalIndex < s.cursor <= |s.goals|
    && pause.afterGoal == EntryAt(r, stop.goalIndex).name
    && pause.inspections <= ATTEMPT_LIMIT
    && match pause.verdict
       case None => j == |s.pauses| - 1 && !pause.resumed && AtPause(s)
       case Some(verdict) =>
         && s.goals[pause.goalIndex].terminalTurn.Some?
         && verdict == Verdict(
              stop.scope, stop.attempt, verdict.decision, ContinuationOf(verdict.decision, stop.attempt),
              stop.goalIndex, s.goals[pause.goalIndex].terminalTurn.value, None)
         && (verdict.continuation == Retry <==> stop.attempt < Count(r, stop.scope))
         && (!pause.resumed ==> j == |s.pauses| - 1 && s.status == AwaitingVerdict && AtPause(s))
  }

  /** A stop still ahead is the last attempt its scope has been granted. */
  predicate StopAhead(s: RunState, r: Reminders, j: nat) {
    |s.pauses| <= j < StopCount(r) ==>
      StopAt(r, j).goalIndex >= s.cursor && StopAt(r, j).attempt == Count(r, StopAt(r, j).scope)
  }

  predicate PausesOk(s: RunState, r: Reminders) {
    && (s.arm == PlainArm ==>
          && |s.pauses| <= StopCount(r)
          && (forall j | 0 <= j < |s.pauses| :: PauseFits(s, r, j))
          && (forall j: nat | j < StopCount(r) :: StopAhead(s, r, j)))
    && (s.status == AwaitingVerdict ==> AtPause(s) && !Last(s.pauses).resumed)
  }

  predicate Shape(s: RunState, r: Reminders) {
    GoalsOk(s) && PlanOk(s, r) && PausesOk(s, r)
  }

  // ----- where counters start -----

  /** The thread total has moved while no record was there to own it. */
  predicate Drifted(s: RunState) {
    |s.goals| == s.cursor && s.thread != ExpectedStart(s, s.cursor)
  }

  predicate DriftNoted(s: RunState) {
    Drifted(s) ==> s.interruption.Some?
  }

  /** Every Goal starts exactly where the one before it ended. */
  predicate Exact(s: RunState) {
    forall i | 0 <= i < |s.goals| :: s.goals[i].start == ExpectedStart(s, i)
  }

  /** The plan stays, no record changes its start, no completed record its end, and every new record starts where it must. */
  predicate StartsKept(s: RunState, after: RunState) {
    && s.nativeStart == after.nativeStart && s.arm == after.arm && s.plan == after.plan
    && s.cursor <= after.cursor <= |after.goals| && |s.goals| <= |after.goals|
    && (forall i | 0 <= i < |s.goals| :: after.goals[i].start == s.goals[i].start)
    && (forall i | 0 <= i < s.cursor && i < |s.goals| :: after.goals[i].end == s.goals[i].end)
    && (forall i | |s.goals| <= i < |after.goals| :: after.goals[i].start == ExpectedStart(after, i))
  }

  lemma StartsKeptExact(s: RunState, after: RunState)
    requires StartsKept(s, after) && s.cursor <= |s.goals| <= s.cursor + 1
    ensures Exact(after) <==> Exact(s)
  {
    assert forall i | 0 <= i < |s.goals| :: ExpectedStart(after, i) == ExpectedStart(s, i);
  }

  lemma StartsKeptJoins(a: RunState, b: RunState, c: RunState)
    requires a.cursor <= |a.goals| <= a.cursor + 1 && b.cursor <= |b.goals| <= b.cursor + 1
    requires |c.goals| <= c.cursor + 1
    requires StartsKept(a, b) && StartsKept(b, c)
    ensures StartsKept(a, c)
  {
    forall i | |a.goals| <= i < |c.goals|
      ensures c.goals[i].start == ExpectedStart(c, i)
    {
      if i < |b.goals| {
        assert b.goals[i].start == ExpectedStart(b, i);
        assert i == 0 || c.goals[i - 1].end == b.goals[i - 1].end;
      }
    }
  }

  // ----- the live session -----

  predicate SessionOk(s: RunState, session: Session) {
    && (session.phase != Running && session.outcome.None? ==> |s.goals| == s.cursor + 1)
    && (session.beginning.Some? ==>
          && session.beginning.value == s.cursor && |s.goals| == s.cursor + 1
          && s.goals[s.cursor].terminalTurn.None?)
    && (session.outcome == Some(RunAwaiting) ==> AtPause(s) && Last(s.pauses).verdict.None?)
    && (session.outcome == Some(RunCompleted) ==> s.cursor == |s.plan|)
    && (session.mode != ResumedThread && session.phase == Starting ==> s.sessionId.None?)
  }

  /** The last process has not reported its exit. */
  predicate Attending(s: RunState) {
    s.processes != [] && Last(s.processes) == Process(None, false, false)
  }

  predicate WorkOk(w: Work, r: Reminders) {
    && Shape(w.state, r) && w.state.status == Live && DriftNoted(w.state) && SessionOk(w.state, w.session)
    && Attending(w.state)
  }

  predicate Kept(w: Work, after: Work, r: Reminders) {
    WorkOk(after, r) && StartsKept(w.state, after.state)
  }

  // ----- reading and replacing the record at the cursor -----

  lemma FoundAt(s: RunState, index: nat)
    requires GoalsOk(s)
    ensures FindGoal(s.goals, index) == if index < |s.goals| then Some(s.goals[index]) else None
  {
    assert forall i | 0 <= i < |s.goals| :: GoalFits(s, i) && s.goals[i].index == 0 + i;
    FindGoalAt(s.goals, 0, index);
  }

  lemma {:induction false} ReplacedAt(goals: seq<Goal>, base: nat, g: Goal)
    requires forall i | 0 <= i < |goals| :: goals[i].index == base + i
    requires base <= g.index < base + |goals|
    ensures ReplaceGoal(goals, g) == goals[g.index - base := g]
  {
    if goals[0].index != g.index {
      ReplacedAt(goals[1..], base + 1, g);
      assert goals == [goals[0]] + goals[1..];
    }
  }

  lemma ReplacedCurrent(s: RunState, g: Goal)
    requires GoalsOk(s) && |s.goals| == s.cursor + 1 && g.index == s.cursor
    ensures WithGoal(s, g).goals == s.goals[s.cursor := g]
  {
    assert forall i | 0 <= i < |s.goals| :: GoalFits(s, i) && s.goals[i].index == 0 + i;
    ReplacedAt(s.goals, 0, g);
  }

  /** A record that still belongs to the entry and thread of the one it replaces. */
  predicate SameRecord(s: RunState, g: Goal)
    requires |s.goals| == s.cursor + 1
  {
    var old_ := s.goals[s.cursor];
    && g.index == old_.index && g.name == old_.name && g.path == old_.path && g.objective == old_.objective
    && g.start == old_.start
    && (g.native == old_.native || (g.native.Some? && NativeMatches(g, g.native.value, s.sessionId)))
  }

  /** Fields the shape does not depend on may change freely while the run is live. */
  lemma ShapeMoves(s: RunState, after: RunState, r: Reminders)
    requires Shape(s, r)
    requires after.arm == s.arm && after.plan == s.plan && after.cursor == s.cursor
    requires after.nativeStart == s.nativeStart && after.pauses == s.pauses && |after.goals| == |s.goals|
    requires forall i | 0 <= i < |after.goals| :: GoalFits(after, i)
    requires forall i | 0 <= i < s.cursor :: after.goals[i].terminalTurn == s.goals[i].terminalTurn
    requires after.status == s.status
    ensures Shape(after, r)
  {
    if s.arm == PlainArm {
      forall j | 0 <= j < |after.pauses| ensures PauseFits(after, r, j) {
        assert PauseFits(s, r, j);
      }
      forall j: nat | j < StopCount(r) ensures StopAhead(after, r, j) {
        assert StopAhead(s, r, j);
      }
    }
  }

  /** Only the last pause and the status of the run may change while its records, plan and thread stay. */
  lemma ShapeFrame(s: RunState, after: RunState, r: Reminders)
    requires Shape(s, r)
    requires after.arm == s.arm && after.plan == s.plan && after.cursor == s.cursor && after.goals == s.goals
    requires after.nativeStart == s.nativeStart && after.sessionId == s.sessionId
    requires |after.pauses| == |s.pauses| && forall j | 0 <= j < |s.pauses| - 1 :: after.pauses[j] == s.pauses[j]
    requires s.arm == PlainArm && s.pauses != [] ==> PauseFits(after, r, |s.pauses| - 1)
    requires after.status == AwaitingVerdict ==> AtPause(after) && !Last(after.pauses).resumed
    ensures Shape(after, r)
  {
    forall i | 0 <= i < |after.goals| ensures GoalFits(after, i) {
      assert GoalFits(s, i);
    }
    if s.arm == PlainArm {
      forall j | 0 <= j < |after.pauses| ensures PauseFits(after, r, j) {
        assert PauseFits(s, r, j);
      }
      forall j: nat | j < StopCount(r) ensures StopAhead(after, r, j) {
        assert StopAhead(s, r, j);
      }
    }
  }

  lemma RecordSet(w: Work, thread: Usage, g: Goal, session: Session, r: Reminders)
    requires WorkOk(w, r) && |w.state.goals| == w.state.cursor + 1 && SameRecord(w.state, g)
    requires session.mode == w.session.mode && session.outcome == w.session.outcome
    requires session.phase == w.session.phase || session.phase == Running
    requires session.beginning.Some? ==> session.beginning.value == w.state.cursor && g.terminalTurn.None?
    ensures var after := Work(WithGoal(w.state.(thread := thread), g), session);
      Kept(w, after, r) && Current(after.state) == Some(g)
  {
    var s := w.state;
    var moved := s.(thread := thread);
    forall i | 0 <= i < |moved.goals| ensures GoalFits(moved, i) {
      assert GoalFits(s, i);
    }
    var after := WithGoal(moved, g);
    assert GoalFits(s, s.cursor);
    ReplacedCurrent(moved, g);
    forall i | 0 <= i < |after.goals| ensures GoalFits(after, i) {
      assert GoalFits(s, i);
    }
    ShapeMoves(s, after, r);
    FoundAt(after, after.cursor);
  }

  // ----- outcomes -----

  lemma InterruptKeeps(w: Work, r: Reminders)
    requires WorkOk(w, r)
    ensures Kept(w, Interrupt(w), r)
  {
    InterruptWith(w, w.state.thread, r);
  }

  /** An exception after the thread total moved: the drift it may leave is always noted. */
  lemma InterruptWith(w: Work, thread: Usage, r: Reminders)
    requires WorkOk(w, r)
    ensures var after := Interrupt(Work(w.state.(thread := thread), w.session));
      Kept(w, after, r) && after.state.interruption.Some? && after.session.outcome.Some?
  {
    var s := w.state;
    var after := Interrupt(Work(s.(thread := thread), w.session));
    forall i | 0 <= i < |after.state.goals| ensures GoalFits(after.state, i) {
      assert GoalFits(s, i);
    }
    ShapeMoves(s, after.state, r);
  }

  lemma KeptJoins(a: Work, b: Work, c: Work, r: Reminders)
    requires WorkOk(a, r) && Kept(a, b, r) && Kept(b, c, r)
    ensures Kept(a, c, r)
  {
    StartsKeptJoins(a.state, b.state, c.state);
  }

  lemma InterruptAfter(w: Work, after: Work, r: Reminders)
    requires WorkOk(w, r) && Kept(w, after, r)
    ensures Kept(w, Interrupt(after), r)
  {
    InterruptKeeps(after, r);
    KeptJoins(w, after, Interrupt(after), r);
  }

  // ----- beginning -----

  /** The reset of the record at the cursor, where it exists. */
  lemma BeginKeeps(w: Work, text: string, r: Reminders)
    requires WorkOk(w, r) && |w.state.goals| == w.state.cursor + 1
    ensures Kept(w, BeginGoal(w, text), r)
  {
    var s := w.state;
    FoundAt(s, s.cursor);
    var g := s.goals[s.cursor];
    assert GoalFits(s, s.cursor);
    if s.sessionId.None? {
      InterruptKeeps(w, r);
    } else {
      var reset := g.(terminalTurn := None, terminalCompleted := false, idle := false, usageTurn := None);
      RecordSet(w, s.thread, reset, w.session.(beginning := Some(g.index)), r);
      assert s.(thread := s.thread) == s;
    }
  }

  lemma GoalAcceptedKeeps(w: Work, native: Native, r: Reminders)
    requires WorkOk(w, r)
    ensures Kept(w, GoalAccepted(w, native), r)
  {
    var s := w.state;
    match w.session.beginning {
      case None =>
      case Some(index) =>
        FoundAt(s, index);
        var g := s.goals[index];
        assert GoalFits(s, index);
        var answered := w.session.(beginning := None);
        assert WorkOk(Work(s, answered), r);
        if NativeMatches(g, native, s.sessionId) {
          RecordSet(Work(s, answered), s.thread, g.(native := Some(native)), answered.(advancing := false), r);
          assert s.(thread := s.thread) == s;
        } else {
          InterruptKeeps(Work(s, answered), r);
        }
    }
  }

  // ----- completing -----

  /** Every stop of the plan either carries a pause or lies at or beyond the cursor, so a boundary just reached is the next stop. */
  lemma NextStop(s: RunState, r: Reminders)
    requires Shape(s, r) && s.arm == PlainArm && |s.goals| == s.cursor + 1
    ensures BoundaryOf(s.plan[s.cursor]) != Malformed
    ensures BoundaryOf(s.plan[s.cursor]).ReviewBoundary? ==>
      && |s.pauses| < StopCount(r)
      && StopAt(r, |s.pauses|).goalIndex == s.cursor
      && BoundaryOf(s.plan[s.cursor]) == ReviewBoundary(StopAt(r, |s.pauses|).scope, StopAt(r, |s.pauses|).attempt)
    ensures BoundaryOf(s.plan[s.cursor]) == NotReview ==>
      forall j | |s.pauses| <= j < StopCount(r) :: StopAt(r, j).goalIndex > s.cursor
  {
    var c := s.cursor;
    BoundaryIsStop(r, c);
    forall j | |s.pauses| <= j < StopCount(r) ensures StopAt(r, j).goalIndex >= c {
      assert StopAhead(s, r, j);
    }
    if BoundaryOf(s.plan[c]).ReviewBoundary? {
      var k := StopIndex(r, c);
      forall j | 0 <= j < |s.pauses| ensures StopAt(r, j).goalIndex < c {
        assert PauseFits(s, r, j);
      }
      if |s.pauses| < k {
        StopsAscend(r, |s.pauses|, k);
        assert false;
      }
      StopIsBoundary(r, k);
    }
  }

  lemma CrossShape(s: RunState, r: Reminders)
    requires Shape(s, r) && s.status == Live && |s.goals| == s.cursor + 1
    requires Settled(s.goals[s.cursor]) && Measured(s.goals[s.cursor])
    ensures var g := s.goals[s.cursor];
      && BoundaryAfter(s, g) != Malformed
      && Shape(Cross(s, g, BoundaryAfter(s, g)), r)
  {
    var c := s.cursor;
    var g := s.goals[c];
    assert GoalFits(s, c);
    var boundary := BoundaryAfter(s, g);
    var crossed := Cross(s, g, boundary);
    forall i | 0 <= i < |crossed.goals| ensures GoalFits(crossed, i) {
      assert GoalFits(s, i);
    }
    if s.arm == PlainArm {
      NextStop(s, r);
      CrossPauses(s, r);
    }
  }

  lemma CrossPauses(s: RunState, r: Reminders)
    requires Shape(s, r) && s.status == Live && |s.goals| == s.cursor + 1 && s.arm == PlainArm
    requires Settled(s.goals[s.cursor])
    ensures var g := s.goals[s.cursor];
      PausesOk(Cross(s, g, BoundaryAfter(s, g)), r)
  {
    NextStop(s, r);
    var g := s.goals[s.cursor];
    assert GoalFits(s, s.cursor);
    var crossed := Cross(s, g, BoundaryAfter(s, g));
    forall j | 0 <= j < |crossed.pauses| ensures PauseFits(crossed, r, j) {
      if j < |s.pauses| {
        assert PauseFits(s, r, j);
      } else {
        assert StopAhead(s, r, j);
      }
    }
    forall j: nat | j < StopCount(r) ensures StopAhead(crossed, r, j) {
      assert StopAhead(s, r, j);
      if |crossed.pauses| <= j && |crossed.pauses| > |s.pauses| {
        StopsAscend(r, |s.pauses|, j);
      }
    }
  }

  /** The record at the cursor is measured at the thread total, which is where the next Goal must start. */
  lemma CloseKeeps(w: Work, r: Reminders)
    requires WorkOk(w, r) && |w.state.goals| == w.state.cursor + 1
    requires AtTerminal(w.state.goals[w.state.cursor])
    requires w.state.goals[w.state.cursor].usageTurn == w.state.goals[w.state.cursor].terminalTurn
    requires Advanced(w.state.thread, w.state.goals[w.state.cursor].start)
    ensures var g := w.state.goals[w.state.cursor];
      var closed := Close(w.state, g);
      && Kept(w, Work(closed, w.session.(advancing := true)), r)
      && |closed.goals| == closed.cursor + 1
      && closed.goals[closed.cursor] == g.(end := Some(closed.thread), usage := Subtract(closed.thread, g.start))
  {
    var s := w.state;
    var g := s.goals[s.cursor];
    var measured := g.(end := Some(s.thread), usage := Subtract(s.thread, g.start));
    assert GoalFits(s, s.cursor);
    RecordSet(w, s.thread, measured, w.session.(advancing := true), r);
    assert s.(thread := s.thread) == s;
    ReplacedCurrent(s, measured);
  }

  /** A closed Goal is crossed: the successor, where one is begun, starts at the total its predecessor ended with. */
  lemma CrossKeeps(w: Work, r: Reminders)
    requires WorkOk(w, r) && |w.state.goals| == w.state.cursor + 1
    requires w.session.outcome.None? && w.session.beginning.None?
    requires Settled(w.state.goals[w.state.cursor]) && Measured(w.state.goals[w.state.cursor])
    requires w.state.goals[w.state.cursor].end == Some(w.state.thread)
    ensures var g := w.state.goals[w.state.cursor];
      var boundary := BoundaryAfter(w.state, g);
      var crossed := Cross(w.state, g, boundary);
      && boundary != Malformed
      && Shape(crossed, r) && crossed.status == Live && !Drifted(crossed) && StartsKept(w.state, crossed)
      && crossed.cursor == |crossed.goals|
      && (boundary.ReviewBoundary? ==> AtPause(crossed) && Last(crossed.pauses).verdict.None?)
      && (boundary == NotReview ==> crossed.pauses == w.state.pauses)
  {
    CrossShape(w.state, r);
    var s := w.state;
    var g := s.goals[s.cursor];
    var crossed := Cross(s, g, BoundaryAfter(s, g));
    assert s.pauses + [] == s.pauses;
    assert GoalFits(s, s.cursor);
    assert !Drifted(crossed) && StartsKept(s, crossed);
  }

  /** The first record of a Goal, prepared where the total is the previous end. */
  lemma PreparedShape(s: RunState, text: string, r: Reminders)
    requires Shape(s, r) && |s.goals| == s.cursor < |s.plan|
    requires s.pauses == [] || (Last(s.pauses).verdict.Some? && Last(s.pauses).resumed)
    ensures Prepare(s, text) == s.(goals := s.goals + [NewGoal(s, text)])
    ensures Shape(Prepare(s, text), r)
    ensures !Drifted(s) ==> StartsKept(s, Prepare(s, text))
  {
    FoundAt(s, s.cursor);
    var after := Prepare(s, text);
    forall i | 0 <= i < |after.goals| ensures GoalFits(after, i) {
      if i < |s.goals| { assert GoalFits(s, i); }
    }
    if s.arm == PlainArm {
      forall j | 0 <= j < |after.pauses| ensures PauseFits(after, r, j) {
        assert PauseFits(s, r, j);
      }
      forall j: nat | j < StopCount(r) ensures StopAhead(after, r, j) {
        assert StopAhead(s, r, j);
      }
    }
  }

  /** The work just behind a crossing, before the handler decides where to go. */
  predicate JustCrossed(w: Work, boundary: Boundary, r: Reminders) {
    && Shape(w.state, r) && w.state.status == Live && !Drifted(w.state) && Attending(w.state)
    && |w.state.goals| == w.state.cursor
    && w.session.outcome.None? && w.session.beginning.None?
    && (w.session.mode != ResumedThread && w.session.phase == Starting ==> w.state.sessionId.None?)
    && (if boundary.ReviewBoundary? then AtPause(w.state) && Last(w.state.pauses).verdict.None?
        else w.state.pauses == [] || (Last(w.state.pauses).verdict.Some? && Last(w.state.pauses).resumed))
  }

  lemma BeginNextKeeps(w: Work, text: string, boundary: Boundary, r: Reminders)
    requires JustCrossed(w, boundary, r) && !boundary.ReviewBoundary? && w.state.cursor < |w.state.plan|
    ensures Kept(w, BeginGoal(w, text), r)
  {
    PreparedShape(w.state, text, r);
    var prepared := Work(Prepare(w.state, text), w.session);
    FoundAt(w.state, w.state.cursor);
    FoundAt(prepared.state, prepared.state.cursor);
    assert WorkOk(prepared, r);
    BeginKeeps(prepared, text, r);
    StartsKeptJoins(w.state, prepared.state, BeginGoal(prepared, text).state);
    assert BeginGoal(w, text) == BeginGoal(prepared, text);
  }

  lemma StopKeeps(w: Work, session: Session, boundary: Boundary, r: Reminders)
    requires JustCrossed(w, boundary, r)
    requires session.beginning.None? && session.mode == w.session.mode
    requires session.phase == Running || (session.phase == w.session.phase && session.outcome.Some?)
    requires session.outcome == Some(RunAwaiting) ==> boundary.ReviewBoundary?
    requires session.outcome == Some(RunCompleted) ==> w.state.cursor == |w.state.plan|
    ensures Kept(w, Work(w.state, session), r)
  {
  }

  lemma StopWithError(w: Work, boundary: Boundary, r: Reminders)
    requires JustCrossed(w, boundary, r)
    ensures Kept(w, Interrupt(w), r)
  {
    var stopped := Work(w.state, w.session.(outcome := Some(RunInterrupted)));
    StopKeeps(w, stopped.session, boundary, r);
    InterruptKeeps(stopped, r);
  }

  lemma FinishKeeps(w: Work, outcome: Outcome, boundary: Boundary, r: Reminders)
    requires JustCrossed(w, boundary, r)
    requires outcome == RunAwaiting ==> boundary.ReviewBoundary?
    requires outcome == RunCompleted ==> w.state.cursor == |w.state.plan|
    ensures Kept(w, Finish(w, outcome), r)
  {
    StopKeeps(w, w.session.(outcome := Some(outcome)), boundary, r);
  }

  lemma StopAfterKeeps(w: Work, name: StageName, boundary: Boundary, r: Reminders)
    requires JustCrossed(w, boundary, r)
    ensures Kept(w, if name == Start(Backend) then Finish(w, RunCheckpointed) else Interrupt(w), r)
  {
    if name == Start(Backend) {
      FinishKeeps(w, RunCheckpointed, boundary, r);
    } else {
      StopWithError(w, boundary, r);
    }
  }

  lemma EndKeeps(w: Work, boundary: Boundary, r: Reminders)
    requires JustCrossed(w, boundary, r)
    ensures boundary.ReviewBoundary? ==> Kept(w, Finish(w, RunAwaiting), r)
    ensures w.state.cursor == |w.state.plan| ==> Kept(w, Finish(w, RunCompleted), r)
  {
    if boundary.ReviewBoundary? { FinishKeeps(w, RunAwaiting, boundary, r); }
    if w.state.cursor == |w.state.plan| { FinishKeeps(w, RunCompleted, boundary, r); }
  }

  lemma HaltKeeps(w: Work, name: StageName, boundary: Boundary, cut: Cut, r: Reminders)
    requires JustCrossed(w, boundary, r)
    ensures var halted := Halt(w, name, boundary, cut);
      if halted.Some? then Kept(w, halted.value, r) else !boundary.ReviewBoundary? && w.state.cursor < |w.state.plan|
  {
    if cut == AtBoundary {
      StopKeeps(w, w.session.(phase := Running), boundary, r);
    } else if w.session.stopAfter == Some(name) {
      StopAfterKeeps(w, name, boundary, r);
    } else {
      EndKeeps(w, boundary, r);
    }
  }

  lemma LeaveKeeps(w: Work, name: StageName, boundary: Boundary, ctx: Context, r: Reminders)
    requires JustCrossed(w, boundary, r)
    ensures Kept(w, Leave(w, name, boundary, ctx), r)
  {
    HaltKeeps(w, name, boundary, ctx.cut, r);
    if Halt(w, name, boundary, ctx.cut).None? {
      BeginNextKeeps(w, ctx.text, boundary, r);
    }
  }

  lemma CompleteKeeps(w: Work, ctx: Context, r: Reminders)
    requires WorkOk(w, r) && |w.state.goals| == w.state.cursor + 1
    requires w.session.outcome.None? && w.session.beginning.None?
    requires AtTerminal(w.state.goals[w.state.cursor])
    requires CanComplete(w.state, w.state.goals[w.state.cursor], ctx.gate)
    ensures Kept(w, CompleteGoal(w, w.state.goals[w.state.cursor], ctx), r)
  {
    var g := w.state.goals[w.state.cursor];
    CloseKeeps(w, r);
    if !(ctx.cut == AtCheckpoint && g.index == 0) {
      CloseAndLeaveKeeps(w, ctx, r);
    }
  }

  lemma CloseAndLeaveKeeps(w: Work, ctx: Context, r: Reminders)
    requires WorkOk(w, r) && |w.state.goals| == w.state.cursor + 1
    requires w.session.outcome.None? && w.session.beginning.None?
    requires AtTerminal(w.state.goals[w.state.cursor])
    requires CanComplete(w.state, w.state.goals[w.state.cursor], ctx.gate)
    ensures var g := w.state.goals[w.state.cursor];
      var closed := Close(w.state, g);
      var boundary := BoundaryAfter(closed, g);
      && boundary != Malformed
      && Kept(w, Leave(Work(Cross(closed, g, boundary), w.session.(advancing := true)), g.name, boundary, ctx), r)
  {
    var s := w.state;
    var g := s.goals[s.cursor];
    CloseKeeps(w, r);
    var closed := Work(Close(s, g), w.session.(advancing := true));
    CrossesOver(w, closed, r);
    var boundary := BoundaryAfter(closed.state, g);
    var crossed := Work(Cross(closed.state, g, boundary), closed.session);
    LeaveKeeps(crossed, g.name, boundary, ctx, r);
    StartsKeptJoins(s, crossed.state, Leave(crossed, g.name, boundary, ctx).state);
  }

  /** The closed record is crossed; the boundary depends only on its index. */
  lemma CrossesOver(w: Work, closed: Work, r: Reminders)
    requires WorkOk(w, r) && |w.state.goals| == w.state.cursor + 1
    requires AtTerminal(w.state.goals[w.state.cursor])
    requires CanComplete(w.state, w.state.goals[w.state.cursor], true)
    requires w.session.outcome.None? && w.session.beginning.None?
    requires closed == Work(Close(w.state, w.state.goals[w.state.cursor]), w.session.(advancing := true))
    ensures var g := w.state.goals[w.state.cursor];
      var boundary := BoundaryAfter(closed.state, g);
      var crossed := Work(Cross(closed.state, g, boundary), closed.session);
      boundary != Malformed && JustCrossed(crossed, boundary, r) && StartsKept(w.state, crossed.state)
  {
    var s := w.state;
    var g := s.goals[s.cursor];
    CloseKeeps(w, r);
    var measured := closed.state.goals[s.cursor];
    assert GoalFits(closed.state, s.cursor) && GoalFits(s, s.cursor);
    CrossKeeps(closed, r);
    var boundary := BoundaryAfter(closed.state, measured);
    assert s.pauses == [] || s.arm == EvidenceArm || PauseFits(s, r, |s.pauses| - 1);
    StartsKeptJoins(s, closed.state, Cross(closed.state, measured, boundary));
  }

  lemma AdvanceKeeps(w: Work, ctx: Context, r: Reminders)
    requires WorkOk(w, r)
    ensures Kept(w, Advance(w, ctx), r)
  {
    FoundAt(w.state, w.state.cursor);
    if w.session.outcome.None? {
      if |w.state.goals| == w.state.cursor {
        InterruptKeeps(w, r);
      } else {
        var g := w.state.goals[w.state.cursor];
        if w.session.reconciled && !w.session.snapshotPending && !w.session.advancing && AtTerminal(g) {
          if CanComplete(w.state, g, ctx.gate) {
            CompleteKeeps(w, ctx, r);
          } else {
            InterruptKeeps(w, r);
          }
        }
      }
    }
  }
}
