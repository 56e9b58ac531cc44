/** What the report gives each stage as its own, and who receives the rest. */
module DashboardTimes {
  import opened Prelude
  import opened TokenUsage
  import opened Dashboard
  import opened DashboardConservation

  // ----- a Goal's own time -----

  /** The cumulative clock retained for an index. */
  function ClockAt(s: State, index: nat): Option<real> {
    var found := Find(s.goals, index);
    if found.Some? then found.value.timeUsed else None
  }

  /** From an index where a clock starts at zero up to another, all clocks are retained and none falls. */
  predicate Clocked(s: State, from: nat, n: nat) {
    && from <= n <= s.cursor && (from == 0 || from == s.nativeStart)
    && (s.nativeStart <= from || n <= s.nativeStart)
    && forall k | from <= k < n :: ClockAt(s, k).Some? && ClockAt(s, k).value >= ClockBefore(s, from, k)
  }

  function ClockBefore(s: State, from: nat, k: nat): real {
    if k <= from || ClockAt(s, k - 1).None? then 0.0 else ClockAt(s, k - 1).value
  }

  /** What the records with these indexes are given as their own time. */
  function TimesOf(s: State, from: nat, n: nat): real {
    if n <= from then 0.0
    else TimesOf(s, from, n - 1) + (if Find(s.goals, n - 1).Some? then RetainedElapsed(s, Find(s.goals, n - 1).value) else 0.0)
  }

  lemma {:induction false} FoundHasIndex(goals: seq<Instruction>, index: int)
    ensures Find(goals, index).Some? ==> Find(goals, index).value in goals && Find(goals, index).value.index == index
  {
    if goals != [] && goals[0].index != index {
      FoundHasIndex(goals[1..], index);
    }
  }

  lemma ClockedFront(s: State, from: nat, n: nat)
    requires from < n && Clocked(s, from, n)
    ensures Clocked(s, from, n - 1) && ClockAt(s, n - 1).Some? && ClockAt(s, n - 1).value >= ClockBefore(s, from, n - 1)
    ensures n - 1 > from ==> ClockAt(s, n - 2).Some?
  {
    assert n - 1 > from ==> ClockAt(s, n - 2).Some?;
  }

  function Milliseconds(seconds: real): real {
    seconds * 1000.0
  }

  lemma OneTime(s: State, from: nat, k: nat)
    requires from <= k && Clocked(s, from, k + 1)
    ensures Find(s.goals, k).Some?
    ensures RetainedElapsed(s, Find(s.goals, k).value) == Milliseconds(ClockAt(s, k).value) - Milliseconds(ClockBefore(s, from, k))
  {
    FoundHasIndex(s.goals, k);
    ClockedFront(s, from, k + 1);
  }

  /**
   Goals whose clocks are retained and do not fall are given times that add up to
   the last clock: no Goal is given the time of those before it on its thread.
   */
  lemma {:induction false} TimesAreTheClock(s: State, from: nat, n: nat)
    requires Clocked(s, from, n)
    ensures TimesOf(s, from, n) == Milliseconds(ClockBefore(s, from, n))
  {
    if n > from {
      ClockedFront(s, from, n);
      TimesAreTheClock(s, from, n - 1);
      OneTime(s, from, n - 1);
    }
  }

  /** A record at the cursor or behind it, one without a clock, and one whose clock fell keep their own elapsed time. */
  lemma UnclockedKeeps(s: State, g: Instruction)
    requires g.index >= s.cursor || g.timeUsed.None?
      || (0 < g.index != s.nativeStart && (ClockAt(s, g.index - 1).None? || g.timeUsed.value < ClockAt(s, g.index - 1).value))
    ensures RetainedElapsed(s, g) == g.elapsed
  {
  }

  // ----- without its suspensions -----

  function OwnTimesOf(s: State, suspensions: seq<Suspension>, from: nat, n: nat): real {
    if n <= from then 0.0
    else
      var found := Find(s.goals, n - 1);
      var own := if found.Some? then CorrectedElapsed(s, found.value, suspensions) else None;
      OwnTimesOf(s, suspensions, from, n - 1) + (if own.Some? then own.value else 0.0)
  }

  /** The suspensions attributed to a range of indexes. */
  function SuspendedAmong(suspensions: seq<Suspension>, from: nat, n: nat): real {
    if suspensions == [] then 0.0
    else
      var last := Last(suspensions);
      SuspendedAmong(suspensions[..|suspensions| - 1], from, n)
        + (if last.instruction.Some? && from <= last.instruction.value < n then last.elapsed else 0.0)
  }

  lemma {:induction false} SuspendedNext(suspensions: seq<Suspension>, from: nat, n: nat)
    requires from <= n
    ensures SuspendedAmong(suspensions, from, n + 1) == SuspendedAmong(suspensions, from, n) + SuspendedIn(suspensions, n)
    ensures SuspendedAmong(suspensions, from, from) == 0.0
  {
    if suspensions != [] { SuspendedNext(suspensions[..|suspensions| - 1], from, n); }
  }

  /** With suspensions, the own times add up to the clock without what is attributed to these Goals. */
  lemma {:induction false} OwnTimesAreTheClock(s: State, suspensions: seq<Suspension>, from: nat, n: nat)
    requires Clocked(s, from, n) && Correctable(s, suspensions)
    ensures OwnTimesOf(s, suspensions, from, n)
         == Milliseconds(ClockBefore(s, from, n)) - SuspendedAmong(suspensions, from, n)
  {
    if n == from {
      SuspendedNext(suspensions, from, n);
    } else {
      ClockedFront(s, from, n);
      OwnTimesAreTheClock(s, suspensions, from, n - 1);
      OwnStep(s, suspensions, from, n);
    }
  }

  lemma OwnStep(s: State, suspensions: seq<Suspension>, from: nat, n: nat)
    requires from < n && Clocked(s, from, n) && Correctable(s, suspensions) && ClockAt(s, n - 1).Some?
    ensures OwnTimesOf(s, suspensions, from, n) == OwnTimesOf(s, suspensions, from, n - 1)
      + Milliseconds(ClockBefore(s, from, n)) - Milliseconds(ClockBefore(s, from, n - 1)) - SuspendedIn(suspensions, n - 1)
    ensures SuspendedAmong(suspensions, from, n) == SuspendedAmong(suspensions, from, n - 1) + SuspendedIn(suspensions, n - 1)
  {
    OneTime(s, from, n - 1);
    OwnTime(s, suspensions, n - 1);
    OwnNext(s, suspensions, from, n);
  }

  lemma OwnNext(s: State, suspensions: seq<Suspension>, from: nat, n: nat)
    requires from < n && Find(s.goals, n - 1).Some?
    requires var g := Find(s.goals, n - 1).value;
      CorrectedElapsed(s, g, suspensions) == Some(RetainedElapsed(s, g) - SuspendedIn(suspensions, n - 1))
    ensures OwnTimesOf(s, suspensions, from, n)
         == OwnTimesOf(s, suspensions, from, n - 1) + RetainedElapsed(s, Find(s.goals, n - 1).value) - SuspendedIn(suspensions, n - 1)
    ensures SuspendedAmong(suspensions, from, n) == SuspendedAmong(suspensions, from, n - 1) + SuspendedIn(suspensions, n - 1)
  {
    SuspendedNext(suspensions, from, n - 1);
  }

  lemma OwnTime(s: State, suspensions: seq<Suspension>, index: nat)
    requires Correctable(s, suspensions) && Find(s.goals, index).Some?
    ensures var g := Find(s.goals, index).value;
      CorrectedElapsed(s, g, suspensions) == Some(RetainedElapsed(s, g) - SuspendedIn(suspensions, index))
  {
    FoundHasIndex(s.goals, index);
    var i :| 0 <= i < |s.goals| && s.goals[i] == Find(s.goals, index).value;
    assert CorrectedElapsed(s, s.goals[i], suspensions).Some?;
  }

  // ----- who receives the rest -----

  /** The first record at the cursor; without one, and unless the status is settled, the last record. */
  predicate Receives(s: State, i: nat)
    requires i < |s.goals|
  {
    if s.goals[i].index == s.cursor then forall j | 0 <= j < i :: s.goals[j].index != s.cursor
    else !s.settled && i == |s.goals| - 1 && forall j | 0 <= j < |s.goals| :: s.goals[j].index != s.cursor
  }

  lemma {:induction false} PositionMeaning(goals: seq<Instruction>, index: nat, from: nat)
    requires from <= |goals|
    ensures var at := PositionOf(goals, index, from);
      && from <= at <= |goals| && (at < |goals| ==> goals[at].index == index)
      && forall j | from <= j < at :: goals[j].index != index
    decreases |goals| - from
  {
    if from < |goals| && goals[from].index != index { PositionMeaning(goals, index, from + 1); }
  }

  lemma CurrentMeaning(s: State, i: nat)
    requires i < |s.goals|
    ensures i == CurrentAt(s) <==> Receives(s, i)
  {
    PositionMeaning(s.goals, s.cursor, 0);
  }

  /** What judging one Goal cost, over the pauses that name it. */
  function JudgingOf(pauses: seq<Pause>, index: nat): Amount {
    if pauses == [] then Nothing()
    else if Last(pauses).goalIndex == Some(index) then Plus(JudgingOf(pauses[..|pauses| - 1], index), Inspected(Last(pauses).inspections))
    else JudgingOf(pauses[..|pauses| - 1], index)
  }

  lemma {:induction false} JudgingMeaning(pauses: seq<Pause>, index: nat)
    ensures InspectedAt(pauses, index) == JudgingOf(pauses, index)
  {
    if pauses != [] { JudgingMeaning(pauses[..|pauses| - 1], index); }
  }

  /** What no record accounts for. */
  predicate Rest(s: State, totalElapsed: real, detached: bool, suspensions: seq<Suspension>, rest: Amount)
    requires Correctable(s, suspensions)
  {
    && rest.tokens >= 0 && rest.elapsed >= 0.0
    && (rest.tokens > 0 ==> rest.tokens == s.thread.total - RetainedTokens(s, s.goals, detached))
    && (rest.tokens == 0 ==> s.thread.total <= RetainedTokens(s, s.goals, detached))
    && (rest.elapsed > 0.0 ==> rest.elapsed == totalElapsed - Total(Owns(s, suspensions)).elapsed)
    && (rest.elapsed == 0.0 ==> totalElapsed <= Total(Owns(s, suspensions)).elapsed)
  }

  lemma RestMeaning(s: State, totalElapsed: real, detached: bool, suspensions: seq<Suspension>)
    requires Correctable(s, suspensions)
    ensures Rest(s, totalElapsed, detached, suspensions, Residual(s, totalElapsed, detached, suspensions))
  {
  }

  lemma StageParts(s: State, own: Amount, rest: Amount, share: real, i: nat)
    requires i < |s.goals| && own.tokens == s.goals[i].usage.total
    ensures var stage, judging := Stage(s, i, own, rest, share), JudgingOf(s.pauses, s.goals[i].index);
      && stage.tokens == s.goals[i].usage.total + (if Receives(s, i) then rest.tokens else 0) + judging.tokens
      && stage.elapsed == own.elapsed + (if Receives(s, i) then rest.elapsed else 0.0) + share + judging.elapsed
  {
    CurrentMeaning(s, i);
    JudgingMeaning(s.pauses, s.goals[i].index);
  }

  lemma SomeoneReceives(s: State)
    ensures InFlight(s) <==> exists k | 0 <= k < |s.goals| :: Receives(s, k)
  {
    if InFlight(s) { CurrentMeaning(s, CurrentAt(s)); }
    forall k | 0 <= k < |s.goals| ensures Receives(s, k) ==> InFlight(s) { CurrentMeaning(s, k); }
  }

  /** What a record is given of a residual time that no stage receives as a whole. */
  function Share(rest: real, own: real, spent: real): real {
    if spent == 0.0 then 0.0 else Portion(rest, own, spent)
  }

  /**
   A stage has its record's tokens and own time, what judging it cost, and of the
   rest: all of it where it receives, nothing where another stage does, and where
   none does a share of the time in proportion to its own.
   */
  lemma StageMeaning(s: State, totalElapsed: real, detached: bool, suspensions: seq<Suspension>, i: nat)
    requires Correctable(s, suspensions) && i < |s.goals|
    ensures StageMeasurements(s, totalElapsed, detached, suspensions).Some?
    ensures |StageMeasurements(s, totalElapsed, detached, suspensions).value| == |s.goals|
    ensures var stage := StageMeasurements(s, totalElapsed, detached, suspensions).value[i];
      var rest := Residual(s, totalElapsed, detached, suspensions);
      var own := CorrectedElapsed(s, s.goals[i], suspensions).value;
      var judging := JudgingOf(s.pauses, s.goals[i].index);
      && Rest(s, totalElapsed, detached, suspensions, rest)
      && stage.tokens == s.goals[i].usage.total + (if Receives(s, i) then rest.tokens else 0) + judging.tokens
      && stage.elapsed == own + judging.elapsed
           + (if Receives(s, i) then rest.elapsed
              else if exists k | 0 <= k < |s.goals| :: Receives(s, k) then 0.0
              else Share(rest.elapsed, own, Total(Owns(s, suspensions)).elapsed))
  {
    var owns, rest := Owns(s, suspensions), Residual(s, totalElapsed, detached, suspensions);
    RestMeaning(s, totalElapsed, detached, suspensions);
    SomeoneReceives(s);
    assert owns[i] == Own(s, i, suspensions) && CorrectedElapsed(s, s.goals[i], suspensions).Some?;
    StageParts(s, owns[i], rest, Shares(s, rest.elapsed, owns)[i], i);
  }
}
