/**
 Runs written event by event: what a Goal's own notifications do to its record,
 whatever the run, and the states they lead through.
 */
module GoalScript {
  import opened Prelude
  import opened TokenUsage
  import opened Instruction
  import opened GoalState
  import opened Validators
  import opened Supervision
  import opened GoalSession
  import opened GoalMachine
  import opened GoalSafety
  import opened GoalEvents
  import opened GoalLaunch
  import opened PlanAcceptance
  import opened GoalHonest

  // ----- reachability -----

  lemma ReachesOk(o: Origin, known: set<nat>, t: Machine)
    requires Initial(o.m) && Reaches(o, known, t)
    ensures MachineOk(t)
  {
    var events :| HonestRun(o.m, o.before, events) && Run(o.m, events) == t && known <= Asked(o.m, o.before, events);
    RunSound(o.m, events);
  }

  /** The begun record is retained, and its Goal asked for. */
  lemma Asks(o: Origin, known: set<nat>, disk: RunState, w: Work)
    requires Reaches(o, known, Attached(disk, w)) && w.session.beginning == Some(w.state.cursor)
    ensures Reaches(o, known + {w.state.cursor}, Attached(w.state, w))
  {
    ReachesStep(o, known, Attached(disk, w), Published);
    assert Step(Attached(disk, w), Published) == Attached(w.state, w);
  }

  // ----- one record under way -----

  /** The record at the cursor of a reconciled run that only notifications drive. */
  predicate Playing(w: Work, g: Goal, r: Reminders) {
    && WorkOk(w, r) && |w.state.goals| == w.state.cursor + 1 && w.state.goals[w.state.cursor] == g
    && w.state.sessionId.Some?
    && w.session.reconciled && !w.session.snapshotPending && w.session.phase == Running
  }

  /** The work with another record at the cursor and another thread total. */
  function Put(w: Work, g: Goal, thread: Usage): Work
    requires w.state.cursor < |w.state.goals|
  {
    Work(w.state.(goals := w.state.goals[w.state.cursor := g], thread := thread), w.session)
  }

  function Anyhow(): Context { Context("", true, Through) }

  lemma Replaces(w: Work, g: Goal, r: Reminders, changed: Goal, thread: Usage)
    requires Playing(w, g, r) && changed.index == g.index
    ensures g.index == w.state.cursor
    ensures Current(w.state.(thread := thread)) == Some(g)
    ensures Work(WithGoal(w.state.(thread := thread), changed), w.session) == Put(w, changed, thread)
  {
    assert GoalFits(w.state, w.state.cursor);
    FoundAt(w.state, w.state.cursor);
    ReplacedCurrent(w.state, changed);
    assert WithGoal(w.state.(thread := thread), changed) == WithGoal(w.state, changed).(thread := thread);
  }

  /** Nothing is advanced: the run is over, or the record is not at its terminal. */
  predicate Waits(w: Work, g: Goal) {
    w.session.outcome.Some? || !AtTerminal(g)
  }

  lemma PutWaits(w: Work, g: Goal, r: Reminders, changed: Goal, thread: Usage, ctx: Context)
    requires Playing(w, g, r) && changed.index == g.index && Waits(w, changed)
    requires WorkOk(Put(w, changed, thread), r)
    ensures Advance(Put(w, changed, thread), ctx) == Put(w, changed, thread)
    ensures Playing(Put(w, changed, thread), changed, r)
  {
    FoundAt(Put(w, changed, thread).state, w.state.cursor);
    assert GoalFits(w.state, w.state.cursor);
  }

  lemma PutOk(w: Work, g: Goal, r: Reminders, changed: Goal, thread: Usage)
    requires Playing(w, g, r) && SameRecord(w.state, changed)
    requires w.session.beginning.Some? ==> changed.terminalTurn.None?
    ensures WorkOk(Put(w, changed, thread), r)
  {
    RecordSet(w, thread, changed, w.session, r);
    Replaces(w, g, r, changed, thread);
  }

  lemma Tokens(w: Work, g: Goal, r: Reminders, turn: nat, usage: Usage)
    requires Playing(w, g, r) && Waits(w, g)
    ensures var after := Put(w, g.(usageTurn := Some(turn)), usage);
      && Act(w, Notified(TokensUpdated(Some(turn), Some(usage)), Anyhow())) == after
      && Playing(after, g.(usageTurn := Some(turn)), r)
  {
    var changed := g.(usageTurn := Some(turn));
    Replaces(w, g, r, changed, usage);
    PutOk(w, g, r, changed, usage);
    PutWaits(w, g, r, changed, usage, Anyhow());
  }

  lemma Done(w: Work, g: Goal, r: Reminders, native: Native, turn: nat)
    requires Playing(w, g, r) && NativeMatches(g, native, w.state.sessionId) && native.status == Complete
    requires w.session.beginning.None?
    ensures var changed := Updated(g, native, Some(turn));
      && Act(w, Notified(GoalUpdated(native, Some(turn)), Anyhow())) == Put(w, changed, w.state.thread)
      && Playing(Put(w, changed, w.state.thread), changed, r)
  {
    var changed := Updated(g, native, Some(turn));
    SameThread(w.state);
    Replaces(w, g, r, changed, w.state.thread);
    PutOk(w, g, r, changed, w.state.thread);
    PutWaits(w, g, r, changed, w.state.thread, Anyhow());
  }

  lemma TurnOver(w: Work, g: Goal, r: Reminders, turn: nat)
    requires Playing(w, g, r) && g.terminalTurn == Some(turn) && !g.idle
    ensures var changed := g.(terminalCompleted := true);
      && Act(w, Notified(TurnEnded(turn, TurnCompleted), Anyhow())) == Put(w, changed, w.state.thread)
      && Playing(Put(w, changed, w.state.thread), changed, r)
  {
    var changed := g.(terminalCompleted := true);
    SameThread(w.state);
    Replaces(w, g, r, changed, w.state.thread);
    assert w.session.beginning.None?;
    PutOk(w, g, r, changed, w.state.thread);
    PutWaits(w, g, r, changed, w.state.thread, Anyhow());
  }

  lemma Idles(w: Work, g: Goal, r: Reminders, ctx: Context)
    requires Playing(w, g, r)
    ensures var changed := g.(idle := true);
      && Act(w, Notified(StatusChanged(IdleThread), ctx)) == Advance(Put(w, changed, w.state.thread), ctx)
      && Playing(Put(w, changed, w.state.thread), changed, r)
  {
    var changed := g.(idle := true);
    SameThread(w.state);
    Replaces(w, g, r, changed, w.state.thread);
    PutOk(w, g, r, changed, w.state.thread);
  }

  lemma Accepts(w: Work, g: Goal, r: Reminders, native: Native)
    requires Playing(w, g, r) && NativeMatches(g, native, w.state.sessionId)
    requires w.session.beginning == Some(w.state.cursor)
    ensures var changed, session := g.(native := Some(native)), w.session.(beginning := None, advancing := false);
      && Act(w, GoalSet(native)) == Work(Put(w, changed, w.state.thread).state, session)
      && Playing(Work(Put(w, changed, w.state.thread).state, session), changed, r)
  {
    var changed := g.(native := Some(native));
    SameThread(w.state);
    Replaces(w, g, r, changed, w.state.thread);
    GoalAcceptedKeeps(w, native, r);
  }

  // ----- a turn from its first counters to its end -----

  /** The record of a Goal that completed in a turn with these counters. */
  function Ran(g: Goal, native: Native, turn: nat, idle: bool): Goal {
    g.(usageTurn := Some(turn), native := Some(native), terminalTurn := Some(turn), terminalCompleted := true, idle := idle)
  }

  lemma PutTwice(w: Work, a: Goal, b: Goal, x: Usage, y: Usage)
    requires w.state.cursor < |w.state.goals|
    ensures Put(Put(w, a, x), b, y) == Put(w, b, y)
  {
  }

  lemma TurnRuns(o: Origin, known: set<nat>, disk: RunState, w: Work, g: Goal, r: Reminders, native: Native, turn: nat, usage: Usage)
    requires Reaches(o, known, Attached(disk, w)) && Playing(w, g, r) && Waits(w, g) && w.session.beginning.None?
    requires w.state.cursor in known && AtLeast(usage, w.state.thread)
    requires NativeMatches(g, native, w.state.sessionId) && native.status == Complete
    ensures var after := Put(w, Ran(g, native, turn, false), usage);
      Reaches(o, known, Attached(disk, after)) && Playing(after, Ran(g, native, turn, false), r)
  {
    Tokens(w, g, r, turn, usage);
    ReachesAct(o, known, disk, w, Notified(TokensUpdated(Some(turn), Some(usage)), Anyhow()));
    var measured := g.(usageTurn := Some(turn));
    TurnReports(o, known, disk, Put(w, measured, usage), measured, r, native, turn);
    PutTwice(w, measured, Ran(g, native, turn, false), usage, usage);
  }

  lemma TurnReports(o: Origin, known: set<nat>, disk: RunState, w: Work, g: Goal, r: Reminders, native: Native, turn: nat)
    requires Reaches(o, known, Attached(disk, w)) && Playing(w, g, r) && w.session.beginning.None? && g.usageTurn == Some(turn)
    requires w.state.cursor in known
    requires NativeMatches(g, native, w.state.sessionId) && native.status == Complete
    ensures var after := Put(w, Ran(g, native, turn, false), w.state.thread);
      Reaches(o, known, Attached(disk, after)) && Playing(after, Ran(g, native, turn, false), r)
  {
    Done(w, g, r, native, turn);
    ReachesAct(o, known, disk, w, Notified(GoalUpdated(native, Some(turn)), Anyhow()));
    var reported := Updated(g, native, Some(turn));
    var next := Put(w, reported, w.state.thread);
    TurnOver(next, reported, r, turn);
    ReachesAct(o, known, disk, next, Notified(TurnEnded(turn, TurnCompleted), Anyhow()));
    PutTwice(w, reported, Ran(g, native, turn, false), w.state.thread, w.state.thread);
    assert reported.(terminalCompleted := true) == Ran(g, native, turn, false);
  }

  // ----- a Goal from its request to its boundary -----

  /** A Goal just asked for. */
  predicate Requested(w: Work, g: Goal, r: Reminders) {
    && Playing(w, g, r)
    && w.session.beginning == Some(w.state.cursor) && w.session.outcome.None? && w.session.stopAfter.None?
    && g.end.None? && g.start == w.state.thread
  }

  /** What the previous Goal's clock shows. */
  function Clock(s: RunState): nat {
    if 0 < s.cursor <= |s.goals| && s.goals[s.cursor - 1].native.Some?
    then s.goals[s.cursor - 1].native.value.timeUsed else 0
  }

  function Answer(w: Work, g: Goal, status: GoalStatus): Native
    requires w.state.sessionId.Some?
  {
    Native(w.state.sessionId.value, g.objective, status, 0, Clock(w.state))
  }

  function Ahead(usage: Usage): Usage {
    usage.(total := usage.total + 1)
  }

  /** The Goal answered, run in one turn, and the thread idle: what remains is its completion. */
  function AtEnd(w: Work, g: Goal, turn: nat): Work
    requires w.state.sessionId.Some? && w.state.cursor < |w.state.goals|
  {
    Work(
      Put(w, Ran(g, Answer(w, g, Complete), turn, true), Ahead(g.start)).state,
      w.session.(beginning := None, advancing := false))
  }

  /** The request is answered: the Goal is active. */
  function Answered(w: Work, g: Goal): Work
    requires w.state.sessionId.Some? && w.state.cursor < |w.state.goals|
  {
    Work(Put(w, g.(native := Some(Answer(w, g, Active))), w.state.thread).state, w.session.(beginning := None, advancing := false))
  }

  lemma GoalAnswers(o: Origin, known: set<nat>, disk: RunState, w: Work, g: Goal, r: Reminders)
    requires Reaches(o, known, Attached(disk, w)) && Requested(w, g, r)
    ensures Reaches(o, known, Attached(disk, Answered(w, g))) && g.terminalTurn.None?
    ensures Playing(Answered(w, g), g.(native := Some(Answer(w, g, Active))), r)
  {
    Accepts(w, g, r, Answer(w, g, Active));
    ReachesAct(o, known, disk, w, GoalSet(Answer(w, g, Active)));
  }

  lemma GoalRuns(o: Origin, known: set<nat>, disk: RunState, w: Work, g: Goal, r: Reminders, turn: nat)
    requires Reaches(o, known, Attached(disk, w)) && Requested(w, g, r) && w.state.cursor in known
    ensures var before := Put(AtEnd(w, g, turn), Ran(g, Answer(w, g, Complete), turn, false), Ahead(g.start));
      Reaches(o, known, Attached(disk, before)) && Playing(before, Ran(g, Answer(w, g, Complete), turn, false), r)
  {
    var active, answered := Answer(w, g, Active), Answered(w, g);
    GoalAnswers(o, known, disk, w, g, r);
    TurnRuns(o, known, disk, answered, g.(native := Some(active)), r, Answer(w, g, Complete), turn, Ahead(g.start));
    assert Ran(g.(native := Some(active)), Answer(w, g, Complete), turn, false) == Ran(g, Answer(w, g, Complete), turn, false);
  }

  lemma EndCanComplete(w: Work, g: Goal, r: Reminders, turn: nat)
    requires Requested(w, g, r)
    ensures var played := Ran(g, Answer(w, g, Complete), turn, true);
      AtTerminal(played) && CanComplete(AtEnd(w, g, turn).state, played, true)
  {
    assert GoalFits(w.state, w.state.cursor);
    if w.state.cursor > 0 {
      PreviousKept(w, AtEnd(w, g, turn).state);
    }
  }

  lemma PreviousKept(w: Work, after: RunState)
    requires GoalsOk(w.state) && 0 < w.state.cursor < |w.state.goals| == |after.goals|
    requires forall i | 0 <= i < w.state.cursor :: after.goals[i] == w.state.goals[i]
    requires after.goals[w.state.cursor].index == w.state.cursor
    ensures FindGoal(after.goals, w.state.cursor - 1) == Some(w.state.goals[w.state.cursor - 1])
    ensures w.state.goals[w.state.cursor - 1].native.Some?
  {
    forall i | 0 <= i < |after.goals| ensures after.goals[i].index == 0 + i {
      assert GoalFits(w.state, i);
    }
    assert GoalFits(w.state, w.state.cursor - 1);
    FindGoalAt(after.goals, 0, w.state.cursor - 1);
  }

  /** The thread falls idle and the Goal completes. */
  lemma GoalCompletes(o: Origin, known: set<nat>, disk: RunState, w: Work, g: Goal, r: Reminders, turn: nat, cut: Cut)
    requires Reaches(o, known, Attached(disk, w)) && Requested(w, g, r) && w.state.cursor in known
    ensures var played, end := Ran(g, Answer(w, g, Complete), turn, true), AtEnd(w, g, turn);
      && Playing(end, played, r)
      && Reaches(o, known, Attached(disk, CompleteGoal(end, played, Context("", true, cut))))
  {
    GoalRuns(o, known, disk, w, g, r, turn);
    var ctx := Context("", true, cut);
    var running, played := Ran(g, Answer(w, g, Complete), turn, false), Ran(g, Answer(w, g, Complete), turn, true);
    var before := Put(AtEnd(w, g, turn), running, Ahead(g.start));
    Idles(before, running, r, ctx);
    ReachesAct(o, known, disk, before, Notified(StatusChanged(IdleThread), ctx));
    assert Put(before, played, Ahead(g.start)) == AtEnd(w, g, turn);
    EndCanComplete(w, g, r, turn);
    EndAdvances(AtEnd(w, g, turn), played, r, ctx);
  }

  lemma EndAdvances(w: Work, g: Goal, r: Reminders, ctx: Context)
    requires Playing(w, g, r) && w.session.outcome.None? && !w.session.advancing && ctx.gate
    requires AtTerminal(g) && CanComplete(w.state, g, true)
    ensures Advance(w, ctx) == CompleteGoal(w, g, ctx)
  {
    FoundAt(w.state, w.state.cursor);
  }

  // ----- where a completed Goal leaves the run -----

  /** The work behind the boundary of a Goal that ends at the present total. */
  function Behind(w: Work, g: Goal): Work
    requires w.state.cursor < |w.state.goals|
  {
    var closed := g.(end := Some(w.state.thread), usage := Subtract(w.state.thread, g.start));
    var s := w.state.(goals := w.state.goals[w.state.cursor := closed]);
    Work(Cross(s, g, BoundaryAfter(s, g)), w.session.(advancing := true))
  }

  predicate Completable(w: Work, g: Goal, r: Reminders) {
    && Playing(w, g, r) && w.session.outcome.None? && w.session.stopAfter.None? && w.session.beginning.None?
    && AtTerminal(g) && CanComplete(w.state, g, true)
  }

  lemma Completes(w: Work, g: Goal, r: Reminders, ctx: Context)
    requires Completable(w, g, r) && ctx.cut != AtCheckpoint
    ensures BoundaryAfter(w.state, g) != Malformed && JustCrossed(Behind(w, g), BoundaryAfter(w.state, g), r)
    ensures CompleteGoal(w, g, ctx) == Leave(Behind(w, g), g.name, BoundaryAfter(w.state, g), ctx)
  {
    var closed := g.(end := Some(w.state.thread), usage := Subtract(w.state.thread, g.start));
    Replaces(w, g, r, closed, w.state.thread);
    SameThread(w.state);
    assert Close(w.state, g) == w.state.(goals := w.state.goals[w.state.cursor := closed]);
    CrossesOver(w, Work(Close(w.state, g), w.session.(advancing := true)), r);
  }

  /** The next Goal asked for. */
  function Next(w: Work, g: Goal): Work
    requires w.state.cursor + 1 == |w.state.goals| < |w.state.plan|
  {
    var behind := Behind(w, g);
    Work(behind.state.(goals := behind.state.goals + [NewGoal(behind.state, "")]),
         behind.session.(beginning := Some(behind.state.cursor)))
  }

  /** A record that was just prepared is requested as it is. */
  lemma FreshBegins(w: Work, r: Reminders)
    requires WorkOk(w, r) && |w.state.goals| == w.state.cursor + 1 && w.state.cursor < |w.state.plan|
    requires w.state.sessionId.Some?
    requires var g := w.state.goals[w.state.cursor]; g.terminalTurn.None? && !g.terminalCompleted && !g.idle && g.usageTurn.None?
    ensures BeginGoal(w, "") == Work(w.state, w.session.(beginning := Some(w.state.cursor)))
  {
    var s := w.state;
    FoundAt(s, s.cursor);
    assert GoalFits(s, s.cursor);
    ReplacedCurrent(s, s.goals[s.cursor]);
    assert s.goals[s.cursor := s.goals[s.cursor]] == s.goals;
  }

  lemma NextBegins(w: Work, g: Goal, r: Reminders)
    requires Completable(w, g, r) && BoundaryAfter(w.state, g) == NotReview && w.state.cursor + 1 < |w.state.plan|
    ensures Leave(Behind(w, g), g.name, NotReview, Anyhow()) == Next(w, g)
    ensures Requested(Next(w, g), NewGoal(Behind(w, g).state, ""), r)
  {
    Completes(w, g, r, Anyhow());
    var behind := Behind(w, g);
    PreparedShape(behind.state, "", r);
    var prepared := Work(Prepare(behind.state, ""), behind.session);
    assert WorkOk(prepared, r);
    FreshBegins(prepared, r);
    BeginNextKeeps(behind, "", NotReview, r);
    FoundAt(behind.state, behind.state.cursor);
    assert BeginGoal(behind, "") == BeginGoal(prepared, "") by { FoundAt(prepared.state, prepared.state.cursor); }
  }

  /** A finished plan, or a review to decide: the run is over. */
  lemma RunEnds(w: Work, g: Goal, r: Reminders)
    requires Completable(w, g, r)
    requires BoundaryAfter(w.state, g).ReviewBoundary? || w.state.cursor + 1 == |w.state.plan|
    ensures var over := if BoundaryAfter(w.state, g).ReviewBoundary? then RunAwaiting else RunCompleted;
      && CompleteGoal(w, g, Anyhow()) == Finish(Behind(w, g), over)
      && WorkOk(Finish(Behind(w, g), over), r)
  {
    Completes(w, g, r, Anyhow());
    EndKeeps(Behind(w, g), BoundaryAfter(w.state, g), r);
  }

  /** The process dies right behind the boundary. */
  lemma RunDies(w: Work, g: Goal, r: Reminders)
    requires Completable(w, g, r)
    ensures CompleteGoal(w, g, Context("", true, AtBoundary)) == Behind(w, g)
    ensures JustCrossed(Behind(w, g), BoundaryAfter(w.state, g), r)
  {
    Completes(w, g, r, Context("", true, AtBoundary));
  }

  lemma EndIsReady(w: Work, g: Goal, r: Reminders, turn: nat)
    requires Requested(w, g, r)
    requires Playing(AtEnd(w, g, turn), Ran(g, Answer(w, g, Complete), turn, true), r)
    ensures Completable(AtEnd(w, g, turn), Ran(g, Answer(w, g, Complete), turn, true), r)
  {
    EndCanComplete(w, g, r, turn);
  }

  // ----- the rest of an Evidence run -----

  /** Everything before the cursor is still there. */
  predicate Continues(s: RunState, after: RunState) {
    && after.arm == s.arm && after.plan == s.plan && after.nativeStart == s.nativeStart
    && after.interruption == s.interruption && after.pauses == s.pauses
    && s.cursor <= |s.goals| && s.cursor < after.cursor <= |after.goals|
    && forall i | 0 <= i < s.cursor :: after.goals[i] == s.goals[i]
  }

  lemma EvidenceGoal(o: Origin, known: set<nat>, disk: RunState, w: Work, g: Goal, r: Reminders)
    returns (t: Work)
    requires Reaches(o, known, Attached(disk, w)) && Requested(w, g, r) && w.state.arm == EvidenceArm
    ensures Reaches(o, known + {w.state.cursor}, Attached(w.state, t)) && WorkOk(t, r) && Continues(w.state, t.state)
    ensures t.state.cursor == w.state.cursor + 1
    ensures t.state.cursor < |w.state.plan| ==> exists next :: Requested(t, next, r)
    ensures t.state.cursor == |w.state.plan| ==> t.session.outcome == Some(RunCompleted)
  {
    Asks(o, known, disk, w);
    GoalCompletes(o, known + {w.state.cursor}, w.state, w, g, r, 0, Through);
    t := EvidenceBehind(w, g, r);
  }

  lemma EvidenceBehind(w: Work, g: Goal, r: Reminders) returns (t: Work)
    requires Requested(w, g, r) && w.state.arm == EvidenceArm
    requires Playing(AtEnd(w, g, 0), Ran(g, Answer(w, g, Complete), 0, true), r)
    ensures t == CompleteGoal(AtEnd(w, g, 0), Ran(g, Answer(w, g, Complete), 0, true), Anyhow())
    ensures WorkOk(t, r) && Continues(w.state, t.state) && t.state.cursor == w.state.cursor + 1
    ensures t.state.cursor < |w.state.plan| ==> exists next :: Requested(t, next, r)
    ensures t.state.cursor == |w.state.plan| ==> t.session.outcome == Some(RunCompleted)
  {
    EndIsReady(w, g, r, 0);
    var end, played := AtEnd(w, g, 0), Ran(g, Answer(w, g, Complete), 0, true);
    if w.state.cursor + 1 < |w.state.plan| {
      Completes(end, played, r, Anyhow());
      NextBegins(end, played, r);
      t := Next(end, played);
    } else {
      RunEnds(end, played, r);
      t := Finish(Behind(end, played), RunCompleted);
    }
  }

  lemma {:induction false} EvidenceRuns(o: Origin, known: set<nat>, disk: RunState, w: Work, g: Goal, r: Reminders)
    returns (asked: set<nat>, left: RunState, t: Work)
    requires Reaches(o, known, Attached(disk, w)) && Requested(w, g, r) && w.state.arm == EvidenceArm
    ensures Reaches(o, asked, Attached(left, t)) && WorkOk(t, r) && Continues(w.state, t.state)
    ensures t.state.cursor == |t.state.plan| && t.session.outcome == Some(RunCompleted)
    decreases |w.state.plan| - w.state.cursor
  {
    t := EvidenceGoal(o, known, disk, w, g, r);
    asked, left := known + {w.state.cursor}, w.state;
    if t.state.cursor < |w.state.plan| {
      var next :| Requested(t, next, r);
      asked, left, t := EvidenceRuns(o, asked, left, t, next, r);
    }
  }

  // ----- the first Goal of a new run -----

  function New(arm: Arm): Origin {
    Origin(AtRest(Create(arm)), {})
  }

  /** A process that ended by itself. */
  function Exited(): Process {
    Process(Some(0), false, false)
  }

  function Plainly(): Options {
    Options(false, None, "", false, InspectionFailed)
  }

  /** A new run whose thread has been named. */
  function Named(arm: Arm): Work {
    Work(Prepared(Create(arm), "").(sessionId := Some(1)), NewSession(Create(arm), Plainly()).(phase := Dispatching))
  }

  lemma LaunchesNew(arm: Arm)
    ensures LaunchFrom(Create(arm), Plainly())
         == Attached(Create(arm), Work(Prepared(Create(arm), ""), NewSession(Create(arm), Plainly())))
  {
    InitialSound(AtRest(Create(arm)));
    PlanAccepted(Create(arm));
  }

  lemma NamesNew(arm: Arm)
    ensures Act(Work(Prepared(Create(arm), ""), NewSession(Create(arm), Plainly())), ThreadAnswered(1, false)) == Named(arm)
  {
  }

  lemma BeginsNew(arm: Arm, r: Reminders)
    requires WorkOk(Named(arm), r)
    ensures Act(Named(arm), Continued(Anyhow()))
         == Work(Named(arm).state, Named(arm).session.(phase := Running, beginning := Some(0)))
  {
    var running := Work(Named(arm).state, Named(arm).session.(phase := Running));
    PhaseMoves(Named(arm), Running, r);
    FreshBegins(running, r);
  }

  lemma NewNamed(arm: Arm)
    ensures Reaches(New(arm), {}, Attached(Create(arm), Named(arm)))
  {
    var o := New(arm);
    ReachesSelf(o);
    ReachesOther(o, {}, o.m, Launch(Plainly()));
    LaunchesNew(arm);
    ReachesAct(o, {}, Create(arm), Work(Prepared(Create(arm), ""), NewSession(Create(arm), Plainly())), ThreadAnswered(1, false));
    NamesNew(arm);
  }

  /** A launch from nothing leads to its first Goal's request. */
  lemma NewRequested(arm: Arm) returns (w: Work, r: Reminders)
    ensures Reaches(New(arm), {}, Attached(Create(arm), w)) && |w.state.goals| == 1 && Requested(w, w.state.goals[0], r)
    ensures w.state == Prepared(Create(arm), "").(sessionId := Some(1)) && w.session.mode == FreshThread
  {
    NewNamed(arm);
    ReachesOk(New(arm), {}, Attached(Create(arm), Named(arm)));
    r :| WorkOk(Named(arm), r);
    ReachesAct(New(arm), {}, Create(arm), Named(arm), Continued(Anyhow()));
    BeginsNew(arm, r);
    w := Work(Named(arm).state, Named(arm).session.(phase := Running, beginning := Some(0)));
  }

  // ----- a whole run -----

  lemma EndsCompleted(o: Origin, known: set<nat>, disk: RunState, w: Work)
    requires Reaches(o, known, Attached(disk, w)) && w.session.outcome == Some(RunCompleted) && w.state.interruption.None?
    requires w.state.processes != []
    ensures Reaches(o, known, AtRest(w.state.(status := Completed, processes := SetLast(w.state.processes, Exited()))))
  {
    ReachesEnded(o, known, disk, w, Ended(Exited(), false, true, InspectionFailed));
  }

  /** An honest Evidence run to its retained completion. */
  lemma EvidenceCompletes() returns (asked: set<nat>, s: RunState)
    ensures Reaches(New(EvidenceArm), asked, AtRest(s)) && s.status == Completed && s.cursor == |s.plan| && s.arm == EvidenceArm
  {
    var w, r := NewRequested(EvidenceArm);
    var left, t;
    asked, left, t := EvidenceRuns(New(EvidenceArm), {}, Create(EvidenceArm), w, w.state.goals[0], r);
    EndsCompleted(New(EvidenceArm), asked, left, t);
    s := t.state.(status := Completed, processes := SetLast(t.state.processes, Exited()));
  }
}
