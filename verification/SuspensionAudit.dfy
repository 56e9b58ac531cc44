/**
 Auditing runs against verified power intervals. Times are whole milliseconds,
 and a suspension log that does not exist is an empty one. The events file is
 read twice by different means: the audit matches the start of a line, the
 report parses the line as a whole. Both means are values handed in.
 */
module SuspensionAudit {
  import opened Prelude
  import opened Sorting
  import opened LineReader

  datatype Interval = Interval(start: int, end: int)

  datatype Event = Event(recordedAt: int, process: nat)

  datatype Goal = Goal(index: nat, completedAt: Option<int>)

  datatype State = State(cursor: nat, completed: bool, goals: seq<Goal>, processes: nat)

  datatype Suspension = Suspension(process: nat, instruction: Option<nat>, interval: Interval)

  /** A run as the audit sees it. */
  datatype Run = Run(launchedAt: int, lastRecordedAt: int, state: State, events: seq<Event>)

  /** The events file, and when the state file beside it was created. */
  datatype EventFile = EventFile(text: string, born: int)

  /** What parsing a whole line yields: nothing, no time, or the time it was recorded at. */
  datatype Parsed = Broken | Untimed | Timed(at: int)

  /**
   `stamp` finds a time at the start of a line and `process` the process behind
   it, both also in a line that breaks off later; `json` parses a whole line,
   `trim` strips the blanks around one.
   */
  datatype Readers = Readers(
    stamp: string -> Option<int>, process: string -> Option<nat>, json: string -> Parsed, trim: string -> string)

  /** What the log shows around one interval. */
  datatype Observation = Observation(before: Option<Event>, after: Option<Event>, inside: bool)

  // ----- verified intervals -----

  predicate Positive(i: Interval) {
    i.start < i.end
  }

  predicate Disjoint(intervals: seq<Interval>) {
    forall i | 0 <= i < |intervals| - 1 :: intervals[i].end <= intervals[i + 1].start
  }

  function StartOf(i: Interval): int {
    i.start
  }

  /** The intervals in order; None where an invalid or overlapping one is refused. */
  function Verify(intervals: seq<Interval>): Option<seq<Interval>> {
    var ordered := SortByKey(intervals, StartOf);
    if (forall i | 0 <= i < |intervals| :: Positive(intervals[i])) && Disjoint(ordered) then Some(ordered) else None
  }

  /** Later intervals start no earlier than earlier ones end. */
  lemma {:induction false} DisjointFar(intervals: seq<Interval>, i: nat, j: nat)
    requires Disjoint(intervals) && i < j < |intervals| && forall k | 0 <= k < |intervals| :: Positive(intervals[k])
    ensures intervals[i].end <= intervals[j].start
    decreases j
  {
    if i < j - 1 {
      DisjointFar(intervals, i, j - 1);
      assert intervals[j - 1].end <= intervals[j - 1 + 1].start;
    } else {
      assert intervals[i].end <= intervals[i + 1].start;
    }
  }

  lemma VerifiedIsOrdered(intervals: seq<Interval>)
    requires Verify(intervals).Some?
    ensures var verified := Verify(intervals).value;
      && Disjoint(verified) && (forall i | 0 <= i < |verified| :: Positive(verified[i]))
      && multiset(verified) == multiset(intervals)
  {
    SortedByKey(intervals, StartOf);
    var verified := Verify(intervals).value;
    forall i | 0 <= i < |verified| ensures Positive(verified[i]) {
      SortedMember(intervals, StartOf, verified[i]);
      assert verified[i] in verified;
    }
  }

  // ----- what the audit reads -----

  function EventOf(r: Readers, line: string): Option<Event> {
    if r.stamp(line).Some? && r.process(line).Some? then Some(Event(r.stamp(line).value, r.process(line).value)) else None
  }

  function EventsOf(r: Readers, lines: seq<string>): seq<Event> {
    if lines == [] then []
    else
      var rest := EventsOf(r, lines[..|lines| - 1]);
      if EventOf(r, Last(lines)).Some? then rest + [EventOf(r, Last(lines)).value] else rest
  }

  /** The time at the start of the first line, or else when the state file was created. */
  function AuditLaunch(r: Readers, file: EventFile): int {
    var lines := Reported(file.text);
    if lines != [] && r.stamp(lines[0]).Some? then r.stamp(lines[0]).value else file.born
  }

  function AuditEnd(r: Readers, file: EventFile): int {
    var last := LastMatch(Lines(file.text), r.stamp);
    if last.Some? then last.value else AuditLaunch(r, file)
  }

  function AuditedRun(r: Readers, file: EventFile, state: State): Run {
    Run(AuditLaunch(r, file), AuditEnd(r, file), state, EventsOf(r, Reported(file.text)))
  }

  // ----- observing the log -----

  /** One more line: the event may precede, fall into, or follow the interval. */
  function Observe(o: Observation, interval: Interval, event: Event): Observation {
    if event.recordedAt < interval.start then o.(before := Some(event))
    else if event.recordedAt <= interval.end then o.(inside := true)
    else if o.after.None? then o.(after := Some(event))
    else o
  }

  function Observed(interval: Interval, events: seq<Event>): Observation {
    if events == [] then Observation(None, None, false)
    else Observe(Observed(interval, events[..|events| - 1]), interval, Last(events))
  }

  function AllObserved(intervals: seq<Interval>, events: seq<Event>): seq<Observation> {
    seq(|intervals|, i requires 0 <= i < |intervals| => Observed(intervals[i], events))
  }

  lemma ObservedNext(interval: Interval, events: seq<Event>, event: Event)
    ensures Observed(interval, events + [event]) == Observe(Observed(interval, events), interval, event)
  {
    assert (events + [event])[..|events|] == events;
  }

  /** One event, shown to every observation. */
  method ObserveEvent(before: seq<Observation>, intervals: seq<Interval>, event: Event, ghost events: seq<Event>)
    returns (observations: seq<Observation>)
    requires before == AllObserved(intervals, events)
    ensures observations == AllObserved(intervals, events + [event])
  {
    observations := before;
    var i := 0;
    while i < |intervals|
      invariant i <= |intervals| == |observations|
      invariant forall k | 0 <= k < |intervals| ::
        observations[k] == Observed(intervals[k], if k < i then events + [event] else events)
    {
      ObservedNext(intervals[i], events, event);
      observations := observations[i := Observe(observations[i], intervals[i], event)];
      i := i + 1;
    }
  }

  /** Sets before, after and inside on every observation, line by line; a line without an event is passed over. */
  method ObserveEventNeighbors(r: Readers, lines: seq<string>, intervals: seq<Interval>) returns (observations: seq<Observation>)
    ensures observations == AllObserved(intervals, EventsOf(r, lines))
  {
    observations := seq(|intervals|, _ => Observation(None, None, false));
    var e := 0;
    while e < |lines|
      invariant e <= |lines|
      invariant observations == AllObserved(intervals, EventsOf(r, lines[..e]))
    {
      assert lines[..e + 1][..e] == lines[..e];
      if EventOf(r, lines[e]).Some? {
        observations := ObserveEvent(observations, intervals, EventOf(r, lines[e]).value, EventsOf(r, lines[..e]));
      }
      e := e + 1;
    }
    assert lines[..e] == lines;
  }

  // ----- which instruction was active -----

  function IndexOfGoal(g: Goal): int {
    g.index
  }

  /** The first of the ordered Goals that completed no earlier than a time. */
  function FirstCompleted(goals: seq<Goal>, at: int): Option<nat> {
    if goals == [] then None
    else if goals[0].completedAt.Some? && at <= goals[0].completedAt.value then Some(goals[0].index)
    else FirstCompleted(goals[1..], at)
  }

  predicate HasGoal(goals: seq<Goal>, index: nat) {
    exists i | 0 <= i < |goals| :: goals[i].index == index
  }

  function ActiveInstruction(s: State, at: int): Option<nat> {
    var completed := FirstCompleted(SortByKey(s.goals, IndexOfGoal), at);
    if completed.Some? then completed
    else if s.completed then None
    else if HasGoal(s.goals, s.cursor) then Some(s.cursor)
    else None
  }

  lemma {:induction false} FirstCompletedMeaning(goals: seq<Goal>, at: int)
    ensures var found := FirstCompleted(goals, at);
      if found.None? then forall i | 0 <= i < |goals| :: goals[i].completedAt.None? || goals[i].completedAt.value < at
      else exists i | 0 <= i < |goals| ::
        && goals[i].index == found.value && goals[i].completedAt.Some? && at <= goals[i].completedAt.value
        && forall j | 0 <= j < i :: goals[j].completedAt.None? || goals[j].completedAt.value < at
  {
    if goals != [] && !(goals[0].completedAt.Some? && at <= goals[0].completedAt.value) {
      FirstCompletedMeaning(goals[1..], at);
      var found := FirstCompleted(goals[1..], at);
      if found.Some? {
        var i :| 0 <= i < |goals[1..]| && goals[1..][i].index == found.value && goals[1..][i].completedAt.Some?
          && at <= goals[1..][i].completedAt.value
          && forall j | 0 <= j < i :: goals[1..][j].completedAt.None? || goals[1..][j].completedAt.value < at;
        assert goals[i + 1].index == found.value;
        forall j | 0 <= j < i + 1 ensures goals[j].completedAt.None? || goals[j].completedAt.value < at {
          assert j > 0 ==> goals[j] == goals[1..][j - 1];
        }
      }
    }
  }

  /** A Goal that completed no earlier than a time. */
  predicate CompletedLater(s: State, i: nat, at: int)
    requires i < |s.goals|
  {
    s.goals[i].completedAt.Some? && at <= s.goals[i].completedAt.value
  }

  lemma {:induction false} FirstFound(goals: seq<Goal>, at: int)
    ensures FirstCompleted(goals, at).Some? ==>
      exists i | 0 <= i < |goals| :: goals[i].index == FirstCompleted(goals, at).value && goals[i].completedAt.Some? && at <= goals[i].completedAt.value
  {
    FirstCompletedMeaning(goals, at);
  }

  /**
   The active instruction is the lowest of those completed no earlier than the
   suspension began; without such a one it is the one at the cursor of a run that
   has not completed, where there is a record for it, and otherwise none.
   */
  lemma ActiveInstructionIs(s: State, at: int)
    ensures var active := ActiveInstruction(s, at);
      if exists i | 0 <= i < |s.goals| :: CompletedLater(s, i, at)
      then && (exists i | 0 <= i < |s.goals| :: CompletedLater(s, i, at) && active == Some(s.goals[i].index))
           && (forall i | 0 <= i < |s.goals| :: CompletedLater(s, i, at) ==> active.Some? && active.value <= s.goals[i].index)
      else active == (if !s.completed && HasGoal(s.goals, s.cursor) then Some(s.cursor) else None)
  {
    var ordered := SortByKey(s.goals, IndexOfGoal);
    SortedByKey(s.goals, IndexOfGoal);
    ActiveInstructionMeaning(s, at);
    FirstFound(ordered, at);
    var found := FirstCompleted(ordered, at);
    if found.Some? {
      var k :| 0 <= k < |ordered| && ordered[k].index == found.value && ordered[k].completedAt.Some? && at <= ordered[k].completedAt.value;
      SortedMember(s.goals, IndexOfGoal, ordered[k]);
      assert ordered[k] in s.goals;
      var i :| 0 <= i < |s.goals| && s.goals[i] == ordered[k];
      assert CompletedLater(s, i, at);
    } else {
      FirstCompletedMeaning(ordered, at);
      forall i | 0 <= i < |s.goals| ensures !CompletedLater(s, i, at) {
        SortedMember(s.goals, IndexOfGoal, s.goals[i]);
        assert s.goals[i] in s.goals && s.goals[i] in ordered;
      }
    }
  }

  /** The active instruction is the lowest one completed no earlier than the suspension began, else the one at the cursor. */
  lemma ActiveInstructionMeaning(s: State, at: int)
    ensures var active := ActiveInstruction(s, at);
      && (active.Some? ==> HasGoal(s.goals, active.value))
      && forall i | 0 <= i < |s.goals| && s.goals[i].completedAt.Some? && at <= s.goals[i].completedAt.value ::
           active.Some? && active.value <= s.goals[i].index
  {
    var ordered := SortByKey(s.goals, IndexOfGoal);
    SortedByKey(s.goals, IndexOfGoal);
    FirstCompletedMeaning(ordered, at);
    var found := FirstCompleted(ordered, at);
    forall g | g in s.goals ensures g in ordered {
      SortedMember(s.goals, IndexOfGoal, g);
    }
    if found.Some? {
      var i :| 0 <= i < |ordered| && ordered[i].index == found.value && ordered[i].completedAt.Some?
        && at <= ordered[i].completedAt.value
        && forall j | 0 <= j < i :: ordered[j].completedAt.None? || ordered[j].completedAt.value < at;
      SortedMember(s.goals, IndexOfGoal, ordered[i]);
      assert ordered[i] in s.goals;
      forall k | 0 <= k < |s.goals| && s.goals[k].completedAt.Some? && at <= s.goals[k].completedAt.value
        ensures found.value <= s.goals[k].index
      {
        assert s.goals[k] in s.goals;
        var j :| 0 <= j < |ordered| && ordered[j] == s.goals[k];
        assert IndexOfGoal(ordered[i]) <= IndexOfGoal(ordered[j]);
      }
    } else {
      forall k | 0 <= k < |s.goals| ensures s.goals[k].completedAt.None? || s.goals[k].completedAt.value < at {
        assert s.goals[k] in s.goals && s.goals[k] in ordered;
      }
    }
  }

  // ----- auditing one run -----

  predicate Known(log: seq<Suspension>, interval: Interval) {
    exists i | 0 <= i < |log| :: log[i].interval == interval
  }

  predicate Candidate(run: Run, log: seq<Suspension>, interval: Interval) {
    interval.start >= run.launchedAt && interval.end <= run.lastRecordedAt && !Known(log, interval)
  }

  /** The interval lies between two events of one process with nothing recorded inside. */
  predicate Suspended(interval: Interval, events: seq<Event>) {
    var o := Observed(interval, events);
    !o.inside && o.before.Some? && o.after.Some? && o.before.value.process == o.after.value.process
  }

  predicate Added(run: Run, log: seq<Suspension>, interval: Interval) {
    Candidate(run, log, interval) && Suspended(interval, run.events)
  }

  function Record(run: Run, interval: Interval): Suspension
    requires Suspended(interval, run.events)
  {
    Suspension(Observed(interval, run.events).before.value.process, ActiveInstruction(run.state, interval.start), interval)
  }

  function Additions(run: Run, log: seq<Suspension>, intervals: seq<Interval>): seq<Suspension> {
    if intervals == [] then []
    else
      var rest := Additions(run, log, intervals[..|intervals| - 1]);
      if Added(run, log, Last(intervals)) then rest + [Record(run, Last(intervals))] else rest
  }

  function StartOfSuspension(s: Suspension): int {
    s.interval.start
  }

  /** The log after an audit; None where an event names a process the run does not have. */
  function AuditedLog(run: Run, log: seq<Suspension>, intervals: seq<Interval>): Option<seq<Suspension>> {
    var additions := Additions(run, log, intervals);
    if exists i | 0 <= i < |additions| :: additions[i].process >= run.state.processes then None
    else if additions == [] then Some(log)
    else Some(SortByKey(log + additions, StartOfSuspension))
  }

  lemma ConcatOne(text: string)
    ensures Concat([text]) == text
  {
    assert [text][..0] == [] && "" + text == text;
  }

  /** The launch and end the audit bounds a run by, read from its events file. */
  method ScanRun(r: Readers, file: EventFile, chunk: nat) returns (launchedAt: int, lastRecordedAt: int)
    requires chunk > 0 && r.stamp("").None?
    ensures launchedAt == AuditLaunch(r, file) && lastRecordedAt == AuditEnd(r, file)
  {
    ConcatOne(file.text);
    var lines := ForEachLine([file.text], chunk);
    launchedAt := file.born;
    if lines != [] && r.stamp(lines[0]).Some? {
      launchedAt := r.stamp(lines[0]).value;
    }
    var last, _ := ReadLast(file.text, chunk, r.stamp);
    lastRecordedAt := if last.Some? then last.value else launchedAt;
  }

  method AuditRun(
    r: Readers, file: EventFile, chunk: nat, state: State, log: seq<Suspension>, intervals: seq<Interval>)
    returns (audited: Option<seq<Suspension>>, added: nat)
    requires chunk > 0 && r.stamp("").None?
    ensures audited == AuditedLog(AuditedRun(r, file, state), log, intervals)
    ensures audited.Some? ==> added == |Additions(AuditedRun(r, file, state), log, intervals)|
  {
    added := 0;
    var launchedAt, lastRecordedAt := ScanRun(r, file, chunk);
    ConcatOne(file.text);
    var lines := ForEachLine([file.text], chunk);
    ghost var run := AuditedRun(r, file, state);
    var additions: seq<Suspension> := [];
    var observations := ObserveEventNeighbors(r, lines, intervals);
    var i := 0;
    while i < |intervals|
      invariant i <= |intervals|
      invariant additions == Additions(run, log, intervals[..i])
      invariant forall k | 0 <= k < |additions| :: additions[k].process < state.processes
    {
      assert intervals[..i + 1][..i] == intervals[..i];
      var interval, o := intervals[i], observations[i];
      if interval.start >= launchedAt && interval.end <= lastRecordedAt && !Known(log, interval)
        && !o.inside && o.before.Some? && o.after.Some? && o.before.value.process == o.after.value.process
      {
        if o.before.value.process >= state.processes {
          AdditionsGrow(run, log, intervals, i);
          return None, 0;
        }
        additions := additions +
          [Suspension(o.before.value.process, ActiveInstruction(state, interval.start), interval)];
      }
      i := i + 1;
    }
    assert intervals[..i] == intervals;
    added := |additions|;
    audited := if additions == [] then Some(log) else Some(SortByKey(log + additions, StartOfSuspension));
  }

  /** An addition for an interval stays among the additions for all of them. */
  lemma {:induction false} AdditionsKeep(run: Run, log: seq<Suspension>, intervals: seq<Interval>, i: nat)
    requires i < |intervals| && Added(run, log, intervals[i])
    ensures Record(run, intervals[i]) in Additions(run, log, intervals)
  {
    if i < |intervals| - 1 {
      AdditionsKeep(run, log, intervals[..|intervals| - 1], i);
    }
  }

  lemma AdditionsGrow(run: Run, log: seq<Suspension>, intervals: seq<Interval>, i: nat)
    requires i < |intervals| && Added(run, log, intervals[i])
    requires Record(run, intervals[i]).process >= run.state.processes
    ensures AuditedLog(run, log, intervals).None?
  {
    AdditionsKeep(run, log, intervals, i);
    var additions := Additions(run, log, intervals);
    var k :| 0 <= k < |additions| && additions[k] == Record(run, intervals[i]);
    assert additions[k].process >= run.state.processes;
  }

  // ----- pairing power rows -----

  datatype PowerState = Disconnected | Connected | UnknownPower

  datatype Row = Row(recordedAt: int, power: PowerState)

  predicate RowsOrdered(rows: seq<Row>) {
    forall i | 0 <= i < |rows| - 1 :: rows[i].recordedAt <= rows[i + 1].recordedAt
  }

  /** Pairs each disconnection with the next connection; over ordered rows the pairs are positive and disjoint. */
  method PairRows(rows: seq<Row>) returns (intervals: seq<Interval>)
    ensures forall i | 0 <= i < |intervals| ::
      && Positive(intervals[i])
      && Row(intervals[i].start, Disconnected) in rows && Row(intervals[i].end, Connected) in rows
    ensures RowsOrdered(rows) ==> Disjoint(intervals) && Verify(intervals) == Some(intervals)
  {
    intervals := [];
    var disconnectedAt: Option<int> := None;
    var i := 0;
    while i < |rows|
      invariant i <= |rows|
      invariant disconnectedAt.Some? ==> Row(disconnectedAt.value, Disconnected) in rows
      invariant forall k | 0 <= k < |intervals| ::
        && Positive(intervals[k])
        && Row(intervals[k].start, Disconnected) in rows && Row(intervals[k].end, Connected) in rows
      invariant RowsOrdered(rows) ==>
        && Disjoint(intervals)
        && (disconnectedAt.Some? ==> i > 0 && disconnectedAt.value <= rows[i - 1].recordedAt)
        && (intervals != [] ==> i > 0 && Last(intervals).end <= rows[i - 1].recordedAt)
        && (intervals != [] && disconnectedAt.Some? ==> Last(intervals).end <= disconnectedAt.value)
    {
      if i > 0 { assert RowsOrdered(rows) ==> rows[i - 1].recordedAt <= rows[i - 1 + 1].recordedAt; }
      assert rows[i] in rows;
      if rows[i].power == Disconnected {
        assert rows[i] == Row(rows[i].recordedAt, Disconnected);
        disconnectedAt := Some(rows[i].recordedAt);
      } else if rows[i].power == Connected && disconnectedAt.Some? {
        assert rows[i] == Row(rows[i].recordedAt, Connected);
        if rows[i].recordedAt > disconnectedAt.value {
          intervals := intervals + [Interval(disconnectedAt.value, rows[i].recordedAt)];
        }
        disconnectedAt := None;
      }
      i := i + 1;
    }
    if RowsOrdered(rows) {
      forall a, b | 0 <= a < b < |intervals| ensures StartOf(intervals[a]) <= StartOf(intervals[b]) {
        DisjointFar(intervals, a, b);
      }
      SortedStays(intervals, StartOf);
    }
  }
}
