/**
 The run object whose handlers mutate the retained state. Each method is shown
 to do to its fields exactly what the machine's function says, so every theorem
 about runs of the machine is about these handlers.
 */
module GoalRunner {
  import opened Prelude
  import opened TokenUsage
  import opened Instruction
  import opened GoalState
  import opened GoalSession
  import Supervision

  lemma {:induction false} ReplacedFirst(goals: seq<Goal>, g: Goal, i: nat)
    requires i <= |goals| && forall k | 0 <= k < i :: goals[k].index != g.index
    requires i < |goals| ==> goals[i].index == g.index
    ensures ReplaceGoal(goals, g) == if i < |goals| then goals[i := g] else goals
  {
    if i > 0 {
      ReplacedFirst(goals[1..], g, i - 1);
      assert goals == [goals[0]] + goals[1..];
    }
  }

  class Runner {
    const arm: Arm
    const nativeStart: nat
    var plan: Plan
    var cursor: nat
    var goals: seq<Goal>
    var thread: Usage
    var sessionId: Option<nat>
    var status: RunStatus
    var interruption: Option<Interruption>
    var processes: seq<Process>
    var pauses: seq<Pause>
    var session: Session

    function State(): RunState
      reads this
    {
      RunState(arm, plan, cursor, goals, thread, nativeStart, sessionId, status, interruption, processes, pauses)
    }

    function Contents(): Work
      reads this
    {
      Work(State(), session)
    }

    constructor (w: Work)
      ensures Contents() == w
    {
      var s := w.state;
      arm, nativeStart, plan, cursor, goals := s.arm, s.nativeStart, s.plan, s.cursor, s.goals;
      thread, sessionId, status, interruption := s.thread, s.sessionId, s.status, s.interruption;
      processes, pauses, session := s.processes, s.pauses, w.session;
    }

    method Stop(outcome: Outcome)
      modifies this`session
      ensures Contents() == Finish(old(Contents()), outcome)
    {
      if session.outcome.None? { session := session.(outcome := Some(outcome)); }
    }

    method Throw()
      modifies this`session, this`interruption
      ensures Contents() == Interrupt(old(Contents()))
    {
      if interruption.None? { interruption := Some(OtherFailure); }
      Stop(RunInterrupted);
    }

    /** Overwrites the first record that has the given record's index. */
    method Put(g: Goal)
      modifies this`goals
      ensures State() == WithGoal(old(State()), g)
    {
      var i := 0;
      while i < |goals| && goals[i].index != g.index
        invariant i <= |goals| && goals == old(goals)
        invariant forall k | 0 <= k < i :: goals[k].index != g.index
      {
        i := i + 1;
      }
      ReplacedFirst(goals, g, i);
      if i < |goals| { goals := goals[i := g]; }
    }

    method PrepareGoal(text: string)
      modifies this`goals
      ensures State() == Prepare(old(State()), text)
    {
      if FindGoal(goals, cursor).None? && cursor < |plan| {
        var entry := plan[cursor];
        goals := goals + [Goal(cursor, entry.name, entry.path, text, None, None, false, false, None, thread, None, Zero())];
      }
    }

    method Begin(text: string)
      modifies this`goals, this`session, this`interruption
      ensures Contents() == BeginGoal(old(Contents()), text)
    {
      PrepareGoal(text);
      var found := FindGoal(goals, cursor);
      if found.None? || sessionId.None? {
        Throw();
        return;
      }
      Put(found.value.(terminalTurn := None, terminalCompleted := false, idle := false, usageTurn := None));
      session := session.(beginning := Some(found.value.index));
    }

    method Accept(native: Native)
      modifies this`goals, this`session, this`interruption
      ensures Contents() == GoalAccepted(old(Contents()), native)
    {
      if session.beginning.None? { return; }
      var found := FindGoal(goals, session.beginning.value);
      session := session.(beginning := None);
      if found.None? || !NativeMatches(found.value, native, sessionId) {
        Throw();
        return;
      }
      Put(found.value.(native := Some(native)));
      session := session.(advancing := false);
    }

    method CompleteCurrent(g: Goal, ctx: Context)
      modifies this`goals, this`cursor, this`pauses, this`session, this`interruption
      ensures Contents() == CompleteGoal(old(Contents()), g, ctx)
    {
      session := session.(advancing := true);
      Put(g.(end := Some(thread), usage := Subtract(thread, g.start)));
      if ctx.cut == AtCheckpoint && g.index == 0 {
        session := session.(phase := Running);
        return;
      }
      var boundary := BoundaryAfter(State(), g);
      if boundary == Malformed {
        Throw();
        return;
      }
      cursor := cursor + 1;
      if boundary.ReviewBoundary? {
        pauses := pauses + [Pause(boundary.scope, boundary.attempt, g.name, g.index, 0, None, false)];
      } else {
        assert pauses + [] == pauses;
      }
      if ctx.cut == AtBoundary {
        session := session.(phase := Running);
      } else if session.stopAfter == Some(g.name) {
        if g.name == Start(Backend) { Stop(RunCheckpointed); } else { Throw(); }
      } else if boundary.ReviewBoundary? {
        Stop(RunAwaiting);
      } else if cursor == |plan| {
        Stop(RunCompleted);
      } else {
        Begin(ctx.text);
      }
    }

    method TryAdvance(ctx: Context)
      modifies this`goals, this`cursor, this`pauses, this`session, this`interruption
      ensures Contents() == Advance(old(Contents()), ctx)
    {
      if session.outcome.Some? { return; }
      var found := FindGoal(goals, cursor);
      if found.None? {
        Throw();
        return;
      }
      var g := found.value;
      if !session.reconciled || session.snapshotPending || session.advancing || !AtTerminal(g) { return; }
      if !CanComplete(State(), g, ctx.gate) {
        Throw();
        return;
      }
      CompleteCurrent(g, ctx);
    }

    method Measure(turn: nat, usage: Usage, ctx: Context)
      modifies this`thread, this`goals, this`cursor, this`pauses, this`session, this`interruption
      ensures Contents() == MeasureTokens(old(Contents()), turn, usage, ctx)
    {
      thread := usage;
      var found := FindGoal(goals, cursor);
      if found.None? {
        Throw();
        return;
      }
      Put(found.value.(usageTurn := Some(turn)));
      TryAdvance(ctx);
    }

    method Update(native: Native, turn: Option<nat>, ctx: Context)
      modifies this`goals, this`cursor, this`pauses, this`session, this`interruption
      ensures Contents() == UpdateGoal(old(Contents()), native, turn, ctx)
    {
      var found := FindGoal(goals, cursor);
      if found.None? || !NativeMatches(found.value, native, sessionId) {
        Throw();
        return;
      }
      var g := found.value.(native := Some(native));
      if native.status == Complete && turn.Some? {
        g := g.(terminalTurn := turn, terminalCompleted := false, idle := false);
      }
      Put(g);
      if InterruptedStatus(native.status) || (native.status == Complete && turn.None?) {
        Throw();
        return;
      }
      TryAdvance(ctx);
    }

    method FinishTurn(turn: nat, turnStatus: TurnStatus, ctx: Context)
      modifies this`goals, this`cursor, this`pauses, this`session, this`interruption
      ensures Contents() == EndTurn(old(Contents()), turn, turnStatus, ctx)
    {
      var found := FindGoal(goals, cursor);
      if found.None? {
        Throw();
        return;
      }
      var g := found.value;
      Put(g.(terminalCompleted := g.terminalCompleted || (g.terminalTurn == Some(turn) && turnStatus == TurnCompleted)));
      if turnStatus == TurnFailed || turnStatus == TurnInterrupted {
        Throw();
        return;
      }
      TryAdvance(ctx);
    }

    method Change(threadStatus: ThreadStatus, ctx: Context)
      modifies this`goals, this`cursor, this`pauses, this`session, this`interruption
      ensures Contents() == ChangeStatus(old(Contents()), threadStatus, ctx)
    {
      var found := FindGoal(goals, cursor);
      if found.None? {
        Throw();
        return;
      }
      Put(found.value.(idle := threadStatus == IdleThread));
      if threadStatus == SystemError || threadStatus == NotLoaded {
        Throw();
        return;
      }
      TryAdvance(ctx);
    }

    /** Adopts the counters of an interrupted turn; false where the original throws. */
    method Adopt(g: Goal, turns: Option<seq<Turn>>) returns (proven: bool)
      modifies this`thread, this`goals, this`session
      ensures proven == ReconcileReplay(old(Contents()), g, turns).Some?
      ensures Contents() == if proven then ReconcileReplay(old(Contents()), g, turns).value else old(Contents())
    {
      if session.replay.None? { return true; }
      var replay := session.replay.value;
      if !ReplayProven(State(), g, replay, turns) { return false; }
      thread := replay.usage;
      Put(g.(usageTurn := Some(replay.turn)));
      session := session.(replay := None);
      return true;
    }

    /** Places the reminder a retry needs and records the verdict, as the splice and the assignment do. */
    method Decide(decision: Decision, stored: bool)
      modifies this`plan, this`pauses
      ensures State() == Supervision.Apply(old(State()), decision, stored)
    {
      if !Supervision.UndecidedBoundary(State()) { return; }
      var pause, goal := Last(pauses), Last(goals);
      if !Supervision.NextIsFinal(State(), pause.scope) { return; }
      var continuation := Supervision.ContinuationOf(decision, pause.attempt);
      if continuation == Retry {
        plan := plan[..cursor] + [Reminder(pause.scope, pause.attempt + 1)] + plan[cursor..];
      }
      if !stored { return; }
      var verdict := Verdict(
        pause.scope, pause.attempt, decision, continuation, goal.index, goal.terminalTurn.value, None);
      pauses := pauses[|pauses| - 1 := pause.(verdict := Some(verdict))];
    }
  }
}
