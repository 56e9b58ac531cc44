/**
 Runs of the Plain arm that lose a verdict: they reach a review pause that no
 later event can ever decide.
 */
module GoalStranding {
  import opened Prelude
  import opened TokenUsage
  import opened Instruction
  import opened GoalState
  import opened Validators
  import opened Supervision
  import opened GoalSession
  import opened GoalMachine
  import opened GoalSafety
  import opened GoalEvents
  import opened GoalLaunch
  import opened PlanAcceptance
  import opened GoalVerdicts
  import opened GoalHonest
  import opened GoalScript

  // ----- a run to its first review pause -----

  lemma StartCrossed(w: Work, g: Goal, r: Reminders) returns (t: Work, next: Goal)
    requires Reaches(New(PlainArm), {}, Attached(Create(PlainArm), w)) && Requested(w, g, r)
    requires w.state.arm == PlainArm && w.state.plan == BasePlan(PlainArm) && w.state.cursor == 0
    ensures Reaches(New(PlainArm), {0}, Attached(w.state, t)) && Requested(t, next, r)
    ensures t.state.arm == PlainArm && t.state.plan == BasePlan(PlainArm) && t.state.cursor == 1
    ensures t.state.pauses == w.state.pauses && t.state.interruption == w.state.interruption
  {
    Asks(New(PlainArm), {}, Create(PlainArm), w);
    assert {} + {0} == {0};
    GoalCompletes(New(PlainArm), {0}, w.state, w, g, r, 0, Through);
    EndIsReady(w, g, r, 0);
    var end, played := AtEnd(w, g, 0), Ran(g, Answer(w, g, Complete), 0, true);
    Completes(end, played, r, Anyhow());
    assert GoalFits(w.state, 0);
    NextBegins(end, played, r);
    t := Next(end, played);
    next := NewGoal(Behind(end, played).state, "");
    assert w.state.pauses + [] == w.state.pauses;
  }

  /** The run stopped behind its first review. */
  predicate Paused(w: Work) {
    && w.session.outcome == Some(RunAwaiting)
    && w.state.arm == PlainArm && w.state.plan == BasePlan(PlainArm) && w.state.cursor == 2
    && w.state.interruption.None?
    && w.state.pauses == [Pause(Backend, 0, Review(Backend), 1, 0, None, false)]
  }

  lemma ReviewCrossed(disk: RunState, w: Work, g: Goal, r: Reminders) returns (t: Work)
    requires Reaches(New(PlainArm), {0}, Attached(disk, w)) && Requested(w, g, r)
    requires w.state.arm == PlainArm && w.state.plan == BasePlan(PlainArm) && w.state.cursor == 1
    requires w.state.pauses == [] && w.state.interruption.None?
    ensures Reaches(New(PlainArm), {0, 1}, Attached(w.state, t)) && WorkOk(t, r) && Paused(t)
  {
    Asks(New(PlainArm), {0}, disk, w);
    assert {0} + {1} == {0, 1};
    GoalCompletes(New(PlainArm), {0, 1}, w.state, w, g, r, 0, Through);
    EndIsReady(w, g, r, 0);
    var end, played := AtEnd(w, g, 0), Ran(g, Answer(w, g, Complete), 0, true);
    assert GoalFits(w.state, 1);
    RunEnds(end, played, r);
    t := Finish(Behind(end, played), RunAwaiting);
  }

  lemma PauseReached() returns (disk: RunState, w: Work)
    ensures Reaches(New(PlainArm), {0, 1}, Attached(disk, w)) && LiveOk(w) && Paused(w)
  {
    var begun, r := NewRequested(PlainArm);
    var reviewing, g := StartCrossed(begun, begun.state.goals[0], r);
    w := ReviewCrossed(begun.state, reviewing, g, r);
    disk := reviewing.state;
  }

  // ----- killed before its exit was retained -----

  lemma PausedAsksNothing(w: Work)
    requires LiveOk(w) && Paused(w)
    ensures w.session.beginning.None?
  {
    var r :| WorkOk(w, r);
  }

  lemma KilledReaches(disk: RunState, w: Work)
    requires Reaches(New(PlainArm), {0, 1}, Attached(disk, w)) && w.session.beginning.None?
    ensures Reaches(New(PlainArm), {0, 1}, AtRest(w.state))
  {
    ReachesRetained(New(PlainArm), {0, 1}, disk, w);
    ReachesKilled(New(PlainArm), {0, 1}, w.state, w);
  }

  /** An honest run that is killed right after its pause was retained waits for a verdict forever. */
  lemma KilledRunIsStranded() returns (s: RunState)
    ensures Reaches(New(PlainArm), {0, 1}, AtRest(s)) && Undecided(s)
    ensures forall events :: Undecided(Run(AtRest(s), events).disk)
  {
    var disk, w := PauseReached();
    PausedAsksNothing(w);
    KilledReaches(disk, w);
    s := w.state;
    ReachesOk(New(PlainArm), {0, 1}, Attached(disk, w));
    forall events ensures Undecided(Run(AtRest(s), events).disk) {
      CrashStrandsVerdict(Attached(disk, w), events);
    }
  }

  // ----- a retry that could not be stored -----

  lemma UnstoredKeeps(s: RunState, decision: Decision)
    requires Sound(s) && s.status == AwaitingVerdict && Undecided(s) && Decidable(s)
    ensures var left := Apply(s, decision, false);
      && Sound(left) && Undecided(left) && left.status == AwaitingVerdict
      && (Decidable(left) <==> ContinuationOf(decision, Last(s.pauses).attempt) == ToFinal)
  {
    BoundaryAccepted(s);
    ApplySound(s, decision, false);
  }

  /**
   A verdict whose file could not be stored stays undecided. It can still be
   recorded exactly when its decision leads to the Final: a retry has placed its
   reminder already, and then nothing ever decides the pause.
   */
  lemma UnstoredVerdict(s: RunState, decision: Decision)
    requires Sound(s) && s.status == AwaitingVerdict && Undecided(s) && Decidable(s)
    ensures var left := Apply(s, decision, false);
      && Undecided(left)
      && ((exists events :: !Undecided(Run(AtRest(left), events).disk))
            <==> ContinuationOf(decision, Last(s.pauses).attempt) == ToFinal)
  {
    UnstoredKeeps(s, decision);
    var left := Apply(s, decision, false);
    DecisionReachable(left);
    assert Resumable(left);
  }

  lemma InspectedAtEnd(disk: RunState, w: Work, decision: Decision, stored: bool)
    requires LiveOk(w) && Paused(w)
    ensures var s := EndState(w, Exited(), false, true);
      && Sound(s) && s.status == AwaitingVerdict && Undecided(Counted(s)) && Decidable(Counted(s)) && Sound(Counted(s))
      && End(disk, w, Exited(), false, true, Submitted(decision, stored))
           == AtRest(Apply(Counted(s), decision, stored))
  {
    var s := EndState(w, Exited(), false, true);
    var r :| WorkOk(w, r);
    EndRest(w, Exited(), false, true, r);
    CountedRest(s, r);
    FoundAt(s, 1);
  }

  /** The pause as the inspection at the end of its process finds it. */
  function Inspected(w: Work): RunState
    requires w.session.outcome.Some?
    requires EndState(w, Exited(), false, true).pauses != []
  {
    Counted(EndState(w, Exited(), false, true))
  }

  lemma InspectionReaches(disk: RunState, w: Work, decision: Decision, stored: bool)
    requires Reaches(New(PlainArm), {0, 1}, Attached(disk, w)) && LiveOk(w) && Paused(w)
    ensures Reaches(New(PlainArm), {0, 1}, AtRest(Apply(Inspected(w), decision, stored)))
  {
    var ended := Ended(Exited(), false, true, Submitted(decision, stored));
    InspectedAtEnd(disk, w, decision, stored);
    ReachesEnded(New(PlainArm), {0, 1}, disk, w, ended);
  }

  lemma FailedStranded(disk: RunState, w: Work)
    requires LiveOk(w) && Paused(w)
    ensures var s := Apply(Inspected(w), Decision.Fail, false);
      Undecided(s) && forall events :: Undecided(Run(AtRest(s), events).disk)
  {
    InspectedAtEnd(disk, w, Decision.Fail, false);
    UnstoredVerdict(Inspected(w), Decision.Fail);
  }

  /** A first review that fails while its verdict cannot be stored waits forever. */
  lemma UnstoredRetryIsStranded() returns (s: RunState)
    ensures Reaches(New(PlainArm), {0, 1}, AtRest(s)) && Undecided(s)
    ensures forall events :: Undecided(Run(AtRest(s), events).disk)
  {
    var disk, w := PauseReached();
    InspectionReaches(disk, w, Decision.Fail, false);
    FailedStranded(disk, w);
    s := Apply(Inspected(w), Decision.Fail, false);
  }
}
