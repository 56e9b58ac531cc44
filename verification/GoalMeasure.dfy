/**
 Why a run ends: what is left of its base plan and of the reminders it can still
 be granted never grows, and shrinks with every Goal that is retained as done.
 */
module GoalMeasure {
  import opened Prelude
  import opened TokenUsage
  import opened Instruction
  import opened GoalState
  import opened Validators
  import opened Supervision
  import opened GoalSession
  import opened GoalMachine
  import opened GoalSafety
  import opened GoalEvents
  import opened GoalLaunch
  import opened PlanAcceptance
  import opened GoalTheorems

  /** Base entries behind the cursor. */
  function BasesDone(s: RunState): nat
    requires s.cursor <= |s.plan|
  {
    |BaseEntries(s.plan[..s.cursor])|
  }

  function BasesLeft(s: RunState): int
    requires s.cursor <= |s.plan|
  {
    |BasePlan(s.arm)| - BasesDone(s)
  }

  function SupplementsLeft(s: RunState): int
    requires s.cursor <= |s.plan|
  {
    (if s.arm == PlainArm then 3 * REVIEW_SUPPLEMENT_LIMIT else 0) - (s.cursor - BasesDone(s))
  }

  /** Less of the base plan is left, or as much of it and fewer reminders. */
  predicate Below(a: RunState, b: RunState)
    requires a.cursor <= |a.plan| && b.cursor <= |b.plan|
  {
    BasesLeft(a) < BasesLeft(b) || (BasesLeft(a) == BasesLeft(b) && SupplementsLeft(a) < SupplementsLeft(b))
  }

  /** The measure follows the cursor: it falls when the cursor moves and stays when it stays. */
  predicate Follows(s: RunState, after: RunState) {
    && s.cursor <= |s.plan| && after.cursor <= |after.plan| && s.cursor <= after.cursor
    && (s.cursor < after.cursor ==> Below(after, s))
    && (s.cursor == after.cursor ==> BasesLeft(after) == BasesLeft(s) && SupplementsLeft(after) == SupplementsLeft(s))
  }

  lemma FollowsJoins(a: RunState, b: RunState, c: RunState)
    requires Follows(a, b) && Follows(b, c)
    ensures Follows(a, c)
  {
  }

  lemma {:induction false} PrefixCounts(plan: Plan, i: nat, j: nat)
    requires i <= j <= |plan|
    ensures |BaseEntries(plan[..i])| <= |BaseEntries(plan[..j])| <= |BaseEntries(plan[..i])| + (j - i)
    decreases j
  {
    if i < j {
      PrefixCounts(plan, i, j - 1);
      assert plan[..j] == plan[..j - 1] + [plan[j - 1]];
      BasesNext(plan[..j - 1], plan[j - 1]);
    }
  }

  /** The same plan, further on. */
  lemma FurtherOn(s: RunState, after: RunState)
    requires after.arm == s.arm && after.plan == s.plan && s.cursor <= after.cursor <= |s.plan|
    ensures Follows(s, after)
  {
    PrefixCounts(s.plan, s.cursor, after.cursor);
  }

  /** A plan extended at the cursor leaves everything behind it as it was. */
  lemma Extended(s: RunState, after: RunState)
    requires after.arm == s.arm && after.cursor == s.cursor <= |s.plan| && s.cursor <= |after.plan|
    requires after.plan[..s.cursor] == s.plan[..s.cursor]
    ensures Follows(s, after) && Follows(after, s)
  {
  }

  lemma ApplyFollows(s: RunState, decision: Decision, stored: bool)
    requires s.cursor <= |s.plan|
    ensures Follows(s, Apply(s, decision, stored))
  {
    Extended(s, Apply(s, decision, stored));
  }

  lemma InspectFollows(s: RunState, result: InspectionResult)
    requires s.cursor <= |s.plan|
    ensures Follows(s, Inspect(s, result))
  {
    Extended(s, s);
    if s.pauses != [] {
      Extended(s, Counted(s));
      if result.Submitted? {
        ApplyFollows(Counted(s), result.decision, result.stored);
      }
    }
  }

  lemma SoundCursor(s: RunState)
    requires Sound(s)
    ensures s.cursor <= |s.plan|
  {
  }

  /** What is in memory never lags behind what is retained. */
  predicate Leads(m: Machine) {
    Follows(m.disk, m.live)
  }

  lemma LaunchFollows(s: RunState, options: Options)
    requires Sound(s)
    ensures var m := LaunchFrom(s, options); Follows(s, m.disk) && Leads(m)
  {
    SoundCursor(s);
    LaunchShape(s, options);
    var base := LaunchBase(s, options);
    InspectFollows(s, options.inspection);
    Extended(s, s);
    Extended(base, base);
    Extended(s, s.(status := AwaitingVerdict));
    AttachFollows(s, s, options);
    if DecidedBoundary(base) {
      AttachFollows(base, MarkResumed(base), options);
      FollowsJoins(s, base, Attach(base, MarkResumed(base), options).disk);
    }
  }

  lemma AttachFollows(disk: RunState, s: RunState, options: Options)
    requires disk.cursor <= |disk.plan| && s.arm == disk.arm && s.plan == disk.plan && s.cursor == disk.cursor
    ensures var m := Attach(disk, s, options); Follows(disk, m.disk) && Leads(m)
  {
    var m := Attach(disk, s, options);
    FurtherOn(disk, m.disk);
    FurtherOn(m.disk, m.live);
  }

  lemma EndFollows(m: Machine, session: Session, e: Event)
    requires m.session == Some(session) && e.Ended? && Leads(m)
    ensures Follows(m.disk, Step(m, e).disk) && Leads(Step(m, e))
  {
    var w := Work(m.live, session);
    var ended := if w.session.outcome.None? then Interrupt(w) else w;
    var s := EndState(ended, e.process, e.cleanupFailed, e.published);
    FurtherOn(m.live, s);
    InspectFollows(s, e.inspection);
    FollowsJoins(m.live, s, Inspect(s, e.inspection));
    FollowsJoins(m.disk, m.live, Inspect(s, e.inspection));
    FollowsJoins(m.disk, m.live, s);
    Extended(m.disk, m.disk);
    var after := Step(m, e);
    assert after == AtRest(m.disk) || after == AtRest(s) || after == AtRest(Inspect(s, e.inspection));
    Extended(after.disk, after.disk);
  }

  lemma ActFollows(w: Work, e: Event)
    requires LiveOk(w)
    ensures Follows(w.state, Act(w, e).state)
  {
    var r :| WorkOk(w, r);
    ActKeeps(w, e, r);
    FurtherOn(w.state, Act(w, e).state);
  }

  lemma LiveFollows(m: Machine, session: Session, e: Event)
    requires m.session == Some(session) && LiveOk(Work(m.live, session)) && Leads(m)
    ensures Follows(m.disk, Step(m, e).disk) && Leads(Step(m, e))
  {
    Extended(m.disk, m.disk);
    Extended(m.live, m.live);
    if e.Ended? {
      EndFollows(m, session, e);
    } else if !e.Launch? && !e.Decided? && !e.Published? && !e.Killed? {
      ActFollows(Work(m.live, session), e);
      FollowsJoins(m.disk, m.live, Act(Work(m.live, session), e).state);
    }
  }

  /** Every step keeps the measure of what is retained, or lowers it with the cursor. */
  lemma StepFollows(m: Machine, e: Event)
    requires MachineOk(m) && Leads(m)
    ensures Follows(m.disk, Step(m, e).disk) && Leads(Step(m, e))
  {
    SoundCursor(m.disk);
    if m.session.Some? {
      LiveFollows(m, m.session.value, e);
    } else {
      Extended(m.disk, m.disk);
      if e.Launch? {
        LaunchFollows(m.disk, e.options);
      } else if e.Decided? {
        ApplyFollows(m.disk, e.decision, true);
        var after := Apply(m.disk, e.decision, true);
        Extended(after, after);
      }
    }
  }

  // ----- from below -----

  lemma {:induction false} EvidenceBases(i: nat)
    requires i <= |BasePlan(EvidenceArm)|
    ensures |BaseEntries(BasePlan(EvidenceArm)[..i])| == i
  {
    if i > 0 {
      var plan := BasePlan(EvidenceArm);
      EvidenceBases(i - 1);
      assert plan[..i] == plan[..i - 1] + [plan[i - 1]];
      BasesNext(plan[..i - 1], plan[i - 1]);
    }
  }

  lemma MeasureBounded(s: RunState)
    requires Sound(s)
    ensures s.cursor <= |s.plan| && BasesLeft(s) >= 0 && SupplementsLeft(s) >= 0
  {
    var r :| RestOk(s, r);
    if s.arm == PlainArm {
      AdaptiveBases(r, s.cursor);
    } else {
      EvidenceBases(s.cursor);
    }
  }

  // ----- runs -----

  lemma {:induction false} RunLeads(m: Machine, events: seq<Event>)
    requires Initial(m)
    ensures MachineOk(Run(m, events)) && Leads(Run(m, events))
  {
    if events == [] {
      InitialSound(m);
      SoundCursor(m.disk);
      Extended(m.disk, m.disk);
    } else {
      RunLeads(m, events[..|events| - 1]);
      StepFollows(Run(m, events[..|events| - 1]), events[|events| - 1]);
      StepSound(Run(m, events[..|events| - 1]), events[|events| - 1]);
    }
  }

  /**
   Over every run, at every event, the pair of remaining base entries and
   remaining reminders of the retained state is non-negative, falls
   lexicographically with every Goal newly retained as completed, and is kept by
   everything else: verdicts and their reminders, inspections, crashes and
   resumes.
   */
  lemma RunsGoDown(m: Machine, events: seq<Event>, e: Event)
    requires Initial(m)
    ensures var before, after := Run(m, events).disk, Run(m, events + [e]).disk;
      && Follows(before, after)
      && BasesLeft(after) >= 0 && SupplementsLeft(after) >= 0
  {
    RunLeads(m, events);
    assert (events + [e])[..|events|] == events;
    StepFollows(Run(m, events), e);
    StepSound(Run(m, events), e);
    MeasureBounded(Run(m, events + [e]).disk);
  }
}
