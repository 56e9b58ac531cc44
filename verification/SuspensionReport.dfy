/**
 What the dashboard's report makes of an audited log. The audit and the report
 bound a run by the same events file and read it differently; where they differ
 the report can refuse what the audit wrote.
 */
module SuspensionReport {
  import opened Prelude
  import opened Sorting
  import opened LineReader
  import opened SuspensionAudit
  import opened SuspensionTheorems

  // ----- what the report reads -----

  const FIRST_READ: nat := 64 * 1024

  /** No end means the report does not check one. */
  datatype Bounds = Bounds(launchedAt: int, lastRecordedAt: Option<int>)

  /** The first line, cut off where the report stops reading it. */
  function FirstRead(text: string): string {
    Lines(if |text| <= FIRST_READ then text else text[..FIRST_READ])[0]
  }

  /** None where the first line is not empty and does not parse: the report throws. */
  function ReportLaunch(r: Readers, file: EventFile): Option<int> {
    var line := FirstRead(file.text);
    if line == "" then Some(file.born)
    else
      match r.json(line)
      case Broken => None
      case Untimed => Some(file.born)
      case Timed(at) => Some(at)
  }

  /** The time of a line that parses as a whole. */
  function WholeTime(r: Readers): string -> Option<int> {
    line => if r.trim(line) != "" && r.json(r.trim(line)).Timed? then Some(r.json(r.trim(line)).at) else None
  }

  function ReportEnd(r: Readers, file: EventFile): Option<int> {
    LastMatch(Lines(file.text), WholeTime(r))
  }

  /** The bounds the report reads, the end by reading the file backwards in chunks. */
  method ReadBounds(r: Readers, file: EventFile, chunk: nat) returns (bounds: Option<Bounds>)
    requires chunk > 0 && r.trim("") == ""
    ensures bounds == match ReportLaunch(r, file)
                      case None => None
                      case Some(launchedAt) => Some(Bounds(launchedAt, ReportEnd(r, file)))
  {
    var line := FirstRead(file.text);
    var launchedAt := file.born;
    if line != "" {
      var parsed := r.json(line);
      if parsed.Broken? { return None; }
      if parsed.Timed? { launchedAt := parsed.at; }
    }
    var end, _ := ReadLast(file.text, chunk, WholeTime(r));
    bounds := Some(Bounds(launchedAt, end));
  }

  // ----- the report accepts what the audit writes -----

  predicate SuspensionValid(s: Suspension, state: State) {
    && s.process < state.processes
    && (s.instruction.Some? ==> HasGoal(state.goals, s.instruction.value))
    && Positive(s.interval)
  }

  /** The interval lies in the run as the report bounds it. */
  predicate Inside(bounds: Bounds, interval: Interval) {
    && interval.start >= bounds.launchedAt
    && (bounds.lastRecordedAt.Some? ==> interval.end <= bounds.lastRecordedAt.value)
  }

  predicate Misplaced(bounds: Bounds, ordered: seq<Suspension>, i: nat)
    requires i < |ordered|
  {
    !Inside(bounds, ordered[i].interval) || (i > 0 && ordered[i - 1].interval.end > ordered[i].interval.start)
  }

  /** The report's reading of a log, in order; None where it refuses it. */
  function ReadSuspensions(state: State, bounds: Bounds, log: seq<Suspension>): Option<seq<Suspension>> {
    var ordered := SortByKey(log, StartOfSuspension);
    if (exists i | 0 <= i < |log| :: !SuspensionValid(log[i], state)) then None
    else if exists i | 0 <= i < |ordered| :: Misplaced(bounds, ordered, i) then None
    else Some(ordered)
  }

  /** The report's reading of a run's log; it refuses a run whose first line does not parse, too. */
  function ReadReport(r: Readers, file: EventFile, state: State, log: seq<Suspension>): Option<seq<Suspension>> {
    match ReportLaunch(r, file)
    case None => None
    case Some(launchedAt) => ReadSuspensions(state, Bounds(launchedAt, ReportEnd(r, file)), log)
  }

  predicate AllInside(bounds: Bounds, log: seq<Suspension>) {
    forall i | 0 <= i < |log| :: Inside(bounds, log[i].interval)
  }

  predicate Unrepeated(log: seq<Suspension>) {
    forall i, j | 0 <= i < j < |log| :: log[i].interval != log[j].interval
  }

  /** A log that holds only verified intervals, each once, in the run as the audit bounds it. */
  predicate Drawn(run: Run, log: seq<Suspension>, intervals: seq<Interval>) {
    && Unrepeated(log)
    && forall i | 0 <= i < |log| ::
         && log[i].interval in intervals && SuspensionValid(log[i], run.state)
         && log[i].interval.start >= run.launchedAt && log[i].interval.end <= run.lastRecordedAt
  }

  lemma {:induction false} AdditionsUnrepeated(run: Run, log: seq<Suspension>, intervals: seq<Interval>)
    requires Disjoint(intervals) && forall i | 0 <= i < |intervals| :: Positive(intervals[i])
    ensures Unrepeated(Additions(run, log, intervals))
  {
    if intervals != [] {
      var front := intervals[..|intervals| - 1];
      assert Disjoint(front) by {
        forall i | 0 <= i < |front| - 1 ensures front[i].end <= front[i + 1].start {
          assert intervals[i].end <= intervals[i + 1].start;
        }
      }
      AdditionsUnrepeated(run, log, front);
      AdditionsMembers(run, log, front);
      forall k | 0 <= k < |front| ensures front[k] != Last(intervals) {
        DisjointFar(intervals, k, |intervals| - 1);
      }
    }
  }

  lemma {:induction false} SortedUnrepeated(log: seq<Suspension>)
    requires Unrepeated(log)
    ensures Unrepeated(SortByKey(log, StartOfSuspension))
  {
    if log != [] {
      var front := log[..|log| - 1];
      SortedUnrepeated(front);
      var sorted := SortByKey(front, StartOfSuspension);
      forall i | 0 <= i < |sorted| ensures sorted[i].interval != Last(log).interval {
        SortedMember(front, StartOfSuspension, sorted[i]);
        assert sorted[i] in sorted;
        var k :| 0 <= k < |front| && front[k] == sorted[i];
        assert log[k].interval != log[|log| - 1].interval;
      }
      InsertedUnrepeated(sorted, Last(log));
    }
  }

  lemma {:induction false} InsertedUnrepeated(sorted: seq<Suspension>, x: Suspension)
    requires Unrepeated(sorted) && forall i | 0 <= i < |sorted| :: sorted[i].interval != x.interval
    ensures Unrepeated(InsertByKey(sorted, x, StartOfSuspension))
  {
    if sorted != [] && StartOfSuspension(sorted[|sorted| - 1]) > StartOfSuspension(x) {
      var front := sorted[..|sorted| - 1];
      InsertedUnrepeated(front, x);
      InsertedMembers(front, x, StartOfSuspension);
      var inserted := InsertByKey(front, x, StartOfSuspension);
      forall i | 0 <= i < |inserted| ensures inserted[i].interval != sorted[|sorted| - 1].interval {
        assert inserted[i] in inserted;
        if inserted[i] in front {
          var k :| 0 <= k < |front| && front[k] == inserted[i];
          assert sorted[k] == inserted[i];
        }
      }
    }
  }

  lemma AdditionsDrawn(run: Run, log: seq<Suspension>, intervals: seq<Interval>)
    requires Disjoint(intervals) && forall i | 0 <= i < |intervals| :: Positive(intervals[i])
    requires Drawn(run, log, intervals) && AuditedLog(run, log, intervals).Some?
    ensures Drawn(run, log + Additions(run, log, intervals), intervals)
  {
    var additions := Additions(run, log, intervals);
    var joined := log + additions;
    AdditionsUnrepeated(run, log, intervals);
    AdditionsMembers(run, log, intervals);
    forall i | 0 <= i < |additions| ensures SuspensionValid(additions[i], run.state) {
      ActiveInstructionMeaning(run.state, additions[i].interval.start);
      var k :| 0 <= k < |intervals| && intervals[k] == additions[i].interval;
      assert Positive(intervals[k]);
    }
    forall i, j | 0 <= i < j < |joined| ensures joined[i].interval != joined[j].interval {
      if i < |log| <= j {
        assert joined[j] == additions[j - |log|];
        assert !Known(log, additions[j - |log|].interval);
        assert joined[i] == log[i];
      } else if |log| <= i {
        assert joined[i] == additions[i - |log|] && joined[j] == additions[j - |log|];
      }
    }
  }

  lemma SortedDrawn(run: Run, log: seq<Suspension>, intervals: seq<Interval>)
    requires Drawn(run, log, intervals)
    ensures Drawn(run, SortByKey(log, StartOfSuspension), intervals)
  {
    SortedUnrepeated(log);
    var sorted := SortByKey(log, StartOfSuspension);
    forall i | 0 <= i < |sorted|
      ensures sorted[i] in log
    {
      SortedMember(log, StartOfSuspension, sorted[i]);
      assert sorted[i] in sorted;
    }
  }

  /** Distinct members of a disjoint list, in order of their starts, do not overlap. */
  lemma DrawnApart(run: Run, log: seq<Suspension>, intervals: seq<Interval>, i: nat)
    requires Disjoint(intervals) && forall k | 0 <= k < |intervals| :: Positive(intervals[k])
    requires Drawn(run, log, intervals) && SortedBy(log, StartOfSuspension) && i + 1 < |log|
    ensures log[i].interval.end <= log[i + 1].interval.start
  {
    assert log[i].interval in intervals && log[i + 1].interval in intervals;
    var a :| 0 <= a < |intervals| && intervals[a] == log[i].interval;
    var b :| 0 <= b < |intervals| && intervals[b] == log[i + 1].interval;
    assert log[i].interval != log[i + 1].interval;
    assert StartOfSuspension(log[i]) <= StartOfSuspension(log[i + 1]);
    assert Positive(intervals[a]) && Positive(intervals[b]);
    if a < b {
      DisjointFar(intervals, a, b);
    } else if b < a {
      DisjointFar(intervals, b, a);
      assert false;
    }
  }

  /** An ordered log of that kind is read as written exactly when the report finds all of it inside the run. */
  lemma DrawnReadable(run: Run, log: seq<Suspension>, intervals: seq<Interval>, bounds: Bounds)
    requires Disjoint(intervals) && forall k | 0 <= k < |intervals| :: Positive(intervals[k])
    requires Drawn(run, log, intervals) && SortedBy(log, StartOfSuspension)
    ensures ReadSuspensions(run.state, bounds, log) == if AllInside(bounds, log) then Some(log) else None
  {
    SortedStays(log, StartOfSuspension);
    forall i | 0 <= i < |log| ensures Misplaced(bounds, log, i) <==> !Inside(bounds, log[i].interval) {
      if i > 0 { DrawnApart(run, log, intervals, i - 1); }
    }
  }

  /** The audited log is inside the report's bounds exactly when the log before it was and everything to be added is. */
  lemma AuditedInside(run: Run, log: seq<Suspension>, intervals: seq<Interval>, bounds: Bounds)
    requires AuditedLog(run, log, intervals).Some?
    ensures AllInside(bounds, AuditedLog(run, log, intervals).value) <==>
      && AllInside(bounds, log)
      && forall i | 0 <= i < |intervals| && Added(run, log, intervals[i]) :: Inside(bounds, intervals[i])
  {
    var audited := AuditedLog(run, log, intervals).value;
    AdditionsMembers(run, log, intervals);
    forall s: Suspension ensures s in audited <==> s in log || s in Additions(run, log, intervals) {
      AuditedMember(run, log, intervals, s);
    }
    if AllInside(bounds, audited) {
      forall i | 0 <= i < |log| ensures Inside(bounds, log[i].interval) {
        assert log[i] in audited;
      }
      forall i | 0 <= i < |intervals| && Added(run, log, intervals[i]) ensures Inside(bounds, intervals[i]) {
        AdditionsKeep(run, log, intervals, i);
        assert Record(run, intervals[i]) in audited;
      }
    }
    if AllInside(bounds, log) && forall i | 0 <= i < |intervals| && Added(run, log, intervals[i]) :: Inside(bounds, intervals[i]) {
      forall k | 0 <= k < |audited| ensures Inside(bounds, audited[k].interval) {
        assert audited[k] in audited;
        assert audited[k] in log || audited[k] in Additions(run, log, intervals);
      }
    }
  }

  /**
   Starting from the empty log, or from any log drawn from the same verified
   intervals, the audited log is drawn from them too, ordered and free of
   overlap. The report reads it exactly as written when the log before the audit
   and every interval to be added lie in the run as the report bounds it, and
   otherwise refuses it.
   */
  lemma AuditIsReadable(run: Run, log: seq<Suspension>, intervals: seq<Interval>, bounds: Bounds)
    requires Disjoint(intervals) && forall k | 0 <= k < |intervals| :: Positive(intervals[k])
    requires Drawn(run, log, intervals) && SortedBy(log, StartOfSuspension)
    requires AuditedLog(run, log, intervals).Some?
    ensures var audited := AuditedLog(run, log, intervals).value;
      var fits := AllInside(bounds, log)
        && forall i | 0 <= i < |intervals| && Added(run, log, intervals[i]) :: Inside(bounds, intervals[i]);
      && Drawn(run, audited, intervals) && SortedBy(audited, StartOfSuspension)
      && ReadSuspensions(run.state, bounds, audited) == if fits then Some(audited) else None
  {
    var audited := AuditedLog(run, log, intervals).value;
    var joined := log + Additions(run, log, intervals);
    AdditionsDrawn(run, log, intervals);
    SortedDrawn(run, joined, intervals);
    SortedByKey(joined, StartOfSuspension);
    if Additions(run, log, intervals) == [] {
      assert joined == log;
    }
    DrawnReadable(run, audited, intervals, bounds);
    AuditedInside(run, log, intervals, bounds);
  }

  // ----- what the report accepts -----

  /** One ends before the other starts. */
  predicate Apart(a: Suspension, b: Suspension) {
    a.interval.end <= b.interval.start || b.interval.end <= a.interval.start
  }

  predicate AllApart(log: seq<Suspension>) {
    forall i, j | 0 <= i < j < |log| :: Apart(log[i], log[j])
  }

  predicate ApartFrom(log: seq<Suspension>, x: Suspension) {
    forall i | 0 <= i < |log| :: Apart(log[i], x)
  }

  lemma ApartNext(log: seq<Suspension>, x: Suspension)
    ensures AllApart(log + [x]) <==> AllApart(log) && ApartFrom(log, x)
  {
    var longer := log + [x];
    if AllApart(longer) {
      forall i | 0 <= i < |log| ensures Apart(log[i], x) {
        assert Apart(longer[i], longer[|log|]);
      }
      forall i, j | 0 <= i < j < |log| ensures Apart(log[i], log[j]) {
        assert Apart(longer[i], longer[j]);
      }
    }
  }

  lemma ApartNextFrom(log: seq<Suspension>, y: Suspension, x: Suspension)
    ensures ApartFrom(log + [y], x) <==> ApartFrom(log, x) && Apart(y, x)
  {
    var longer := log + [y];
    if ApartFrom(longer, x) {
      forall i | 0 <= i < |log| ensures Apart(log[i], x) {
        assert Apart(longer[i], x);
      }
      assert Apart(longer[|log|], x);
    }
  }

  lemma {:induction false} InsertedApart(sorted: seq<Suspension>, x: Suspension)
    ensures AllApart(InsertByKey(sorted, x, StartOfSuspension)) <==> AllApart(sorted) && ApartFrom(sorted, x)
    ensures forall y :: ApartFrom(InsertByKey(sorted, x, StartOfSuspension), y) <==> ApartFrom(sorted, y) && Apart(x, y)
  {
    if sorted == [] || StartOfSuspension(sorted[|sorted| - 1]) <= StartOfSuspension(x) {
      assert InsertByKey(sorted, x, StartOfSuspension) == sorted + [x];
      ApartNext(sorted, x);
      forall y ensures ApartFrom(sorted + [x], y) <==> ApartFrom(sorted, y) && Apart(x, y) {
        ApartNextFrom(sorted, x, y);
      }
    } else {
      var front, last := sorted[..|sorted| - 1], sorted[|sorted| - 1];
      assert sorted == front + [last];
      InsertedApart(front, x);
      ApartNext(front, last);
      ApartNext(InsertByKey(front, x, StartOfSuspension), last);
      forall y ensures ApartFrom(InsertByKey(sorted, x, StartOfSuspension), y) <==> ApartFrom(sorted, y) && Apart(x, y) {
        ApartNextFrom(InsertByKey(front, x, StartOfSuspension), last, y);
        ApartNextFrom(front, last, y);
      }
      ApartNextFrom(front, last, x);
    }
  }

  lemma {:induction false} SortedApart(log: seq<Suspension>)
    ensures AllApart(SortByKey(log, StartOfSuspension)) <==> AllApart(log)
    ensures forall y :: ApartFrom(SortByKey(log, StartOfSuspension), y) <==> ApartFrom(log, y)
  {
    if log != [] {
      var front := log[..|log| - 1];
      assert log == front + [Last(log)];
      SortedApart(front);
      InsertedApart(SortByKey(front, StartOfSuspension), Last(log));
      ApartNext(front, Last(log));
      forall y ensures ApartFrom(log, y) <==> ApartFrom(front, y) && Apart(Last(log), y) {
        ApartNextFrom(front, Last(log), y);
      }
    }
  }

  predicate Follow(ordered: seq<Suspension>) {
    forall i | 0 < i < |ordered| :: ordered[i - 1].interval.end <= ordered[i].interval.start
  }

  lemma {:induction false} FollowFar(ordered: seq<Suspension>, i: nat, j: nat)
    requires Follow(ordered) && i < j < |ordered| && forall k | 0 <= k < |ordered| :: Positive(ordered[k].interval)
    ensures ordered[i].interval.end <= ordered[j].interval.start
  {
    if i + 1 < j {
      FollowFar(ordered, i, j - 1);
      assert Positive(ordered[j - 1].interval);
      assert ordered[j - 1].interval.end <= ordered[j].interval.start;
    }
  }

  /** In start order, positive intervals are apart exactly when each ends before the next starts. */
  lemma FollowIffApart(ordered: seq<Suspension>)
    requires SortedBy(ordered, StartOfSuspension) && forall k | 0 <= k < |ordered| :: Positive(ordered[k].interval)
    ensures Follow(ordered) <==> AllApart(ordered)
  {
    if Follow(ordered) {
      forall i, j | 0 <= i < j < |ordered| ensures Apart(ordered[i], ordered[j]) {
        FollowFar(ordered, i, j);
      }
    }
    if AllApart(ordered) {
      forall i | 0 < i < |ordered| ensures ordered[i - 1].interval.end <= ordered[i].interval.start {
        assert Apart(ordered[i - 1], ordered[i]);
        assert StartOfSuspension(ordered[i - 1]) <= StartOfSuspension(ordered[i]);
        assert Positive(ordered[i].interval) && Positive(ordered[i - 1].interval);
      }
    }
  }

  /** An entry of a process and a Goal of the run, of some length, inside the run as the report bounds it. */
  predicate Admissible(s: Suspension, state: State, bounds: Bounds) {
    && s.process < state.processes
    && (s.instruction.Some? ==> exists k | 0 <= k < |state.goals| :: state.goals[k].index == s.instruction.value)
    && bounds.launchedAt <= s.interval.start < s.interval.end
    && (bounds.lastRecordedAt.Some? ==> s.interval.end <= bounds.lastRecordedAt.value)
  }

  /**
   The report reads a log exactly when each entry is admissible and no two
   overlap, in whatever order they stand, and then shows the same entries in the
   order of their starts.
   */
  lemma ReadExactly(state: State, bounds: Bounds, log: seq<Suspension>)
    ensures var read := ReadSuspensions(state, bounds, log);
      && (read.Some? <==> (forall i | 0 <= i < |log| :: Admissible(log[i], state, bounds)) && AllApart(log))
      && (read.Some? ==> SortedBy(read.value, StartOfSuspension) && multiset(read.value) == multiset(log))
  {
    var ordered := SortByKey(log, StartOfSuspension);
    SortedByKey(log, StartOfSuspension);
    SortedApart(log);
    forall i | 0 <= i < |log| ensures Admissible(log[i], state, bounds) <==> SuspensionValid(log[i], state) && Inside(bounds, log[i].interval) {
    }
    if forall i | 0 <= i < |log| :: SuspensionValid(log[i], state) {
      MembersAlike(log, bounds);
      forall k | 0 <= k < |ordered| ensures Positive(ordered[k].interval) {
        SortedMember(log, StartOfSuspension, ordered[k]);
        assert ordered[k] in ordered;
        var i :| 0 <= i < |log| && log[i] == ordered[k];
        assert SuspensionValid(log[i], state);
      }
      FollowIffApart(ordered);
      assert (forall i | 0 <= i < |ordered| :: !Misplaced(bounds, ordered, i)) <==> AllInside(bounds, ordered) && Follow(ordered) by {
        if forall i | 0 <= i < |ordered| :: !Misplaced(bounds, ordered, i) {
          forall i | 0 < i < |ordered| ensures ordered[i - 1].interval.end <= ordered[i].interval.start {
            assert !Misplaced(bounds, ordered, i);
          }
          forall i | 0 <= i < |ordered| ensures Inside(bounds, ordered[i].interval) {
            assert !Misplaced(bounds, ordered, i);
          }
        }
      }
    }
  }

  lemma MembersAlike(log: seq<Suspension>, bounds: Bounds)
    ensures AllInside(bounds, SortByKey(log, StartOfSuspension)) <==> AllInside(bounds, log)
  {
    var ordered := SortByKey(log, StartOfSuspension);
    if AllInside(bounds, ordered) {
      forall i | 0 <= i < |log| ensures Inside(bounds, log[i].interval) {
        SortedMember(log, StartOfSuspension, log[i]);
        assert log[i] in log;
        var k :| 0 <= k < |ordered| && ordered[k] == log[i];
        assert Inside(bounds, ordered[k].interval);
      }
    }
    if AllInside(bounds, log) {
      forall k | 0 <= k < |ordered| ensures Inside(bounds, ordered[k].interval) {
        SortedMember(log, StartOfSuspension, ordered[k]);
        assert ordered[k] in ordered;
        var i :| 0 <= i < |log| && log[i] == ordered[k];
        assert Inside(bounds, log[i].interval);
      }
    }
  }

  /**
   A run's log is read exactly when its first line, as far as it is read, is empty
   or parses, and the log is readable behind the time that line carries, or the
   file's own where it carries none, and before the last line that parses as a whole.
   */
  lemma ReportExactly(r: Readers, file: EventFile, state: State, log: seq<Suspension>)
    ensures var line := FirstRead(file.text);
      var bounds := Bounds(if line != "" && r.json(line).Timed? then r.json(line).at else file.born, LastMatch(Lines(file.text), WholeTime(r)));
      ReadReport(r, file, state, log).Some? <==>
        && (line == "" || !r.json(line).Broken?)
        && (forall i | 0 <= i < |log| :: Admissible(log[i], state, bounds)) && AllApart(log)
  {
    var line := FirstRead(file.text);
    ReadExactly(state, Bounds(if line != "" && r.json(line).Timed? then r.json(line).at else file.born, LastMatch(Lines(file.text), WholeTime(r))), log);
  }

  // ----- where the two readers agree -----

  /** The last line a reader accepts. */
  predicate LastAccepted<T>(lines: seq<string>, read: string -> Option<T>, i: nat) {
    i < |lines| && read(lines[i]).Some? && forall j | i < j < |lines| :: read(lines[j]).None?
  }

  /** Whatever the second reader accepts the first reads alike, and the last line the first accepts the second accepts. */
  predicate EndsAgree(lines: seq<string>, first: string -> Option<int>, second: string -> Option<int>) {
    && (forall i | 0 <= i < |lines| && second(lines[i]).Some? :: first(lines[i]) == second(lines[i]))
    && (forall i | 0 <= i < |lines| && LastAccepted(lines, first, i) :: second(lines[i]).Some?)
  }

  lemma {:induction false} EndsAgreeMatch(lines: seq<string>, first: string -> Option<int>, second: string -> Option<int>)
    requires EndsAgree(lines, first, second)
    ensures LastMatch(lines, first) == LastMatch(lines, second)
  {
    LastMatchMeaning(lines, first);
    LastMatchMeaning(lines, second);
    if LastMatch(lines, first).Some? {
      var i :| 0 <= i < |lines| && first(lines[i]) == LastMatch(lines, first) && forall j | i < j < |lines| :: first(lines[j]).None?;
      assert LastAccepted(lines, first, i);
      var k :| 0 <= k < |lines| && second(lines[k]) == LastMatch(lines, second) && forall j | k < j < |lines| :: second(lines[j]).None?;
      assert k == i;
    }
  }

  /** The first line is short enough to be read whole and both readers find the same there. */
  predicate StartsAgree(r: Readers, file: EventFile) {
    var line := Lines(file.text)[0];
    && FirstRead(file.text) == line
    && (line == "" ==> r.stamp(line).None?)
    && (line != "" ==>
          match r.json(line)
          case Broken => false
          case Untimed => r.stamp(line).None?
          case Timed(at) => r.stamp(line) == Some(at))
  }

  /** Where both ends of the file read alike, the report reads every audited log as written. */
  lemma AgreedAuditIsReadable(r: Readers, file: EventFile, state: State, log: seq<Suspension>, intervals: seq<Interval>)
    requires StartsAgree(r, file) && EndsAgree(Lines(file.text), r.stamp, WholeTime(r))
    requires Disjoint(intervals) && forall k | 0 <= k < |intervals| :: Positive(intervals[k])
    requires Drawn(AuditedRun(r, file, state), log, intervals) && SortedBy(log, StartOfSuspension)
    requires AuditedLog(AuditedRun(r, file, state), log, intervals).Some?
    ensures ReadReport(r, file, state, AuditedLog(AuditedRun(r, file, state), log, intervals).value)
         == AuditedLog(AuditedRun(r, file, state), log, intervals)
  {
    EndsAgreeMatch(Lines(file.text), r.stamp, WholeTime(r));
    var run, bounds := AuditedRun(r, file, state), Bounds(ReportLaunch(r, file).value, ReportEnd(r, file));
    assert bounds.launchedAt == run.launchedAt;
    assert bounds.lastRecordedAt.Some? ==> bounds.lastRecordedAt.value == run.lastRecordedAt;
    AuditIsReadable(run, log, intervals, bounds);
  }

  // ----- where they do not -----

  lemma JoinedEnds(first: string, second: string)
    ensures Joined([first], ["", ""]) == [first, ""] && Joined([first, ""], [second]) == [first, second]
  {
    assert first + "" == first && "" + second == second;
    assert [first][..0] == [] && [first, ""][..1] == [first];
  }

  lemma NewLine()
    ensures Lines("\n") == ["", ""]
  {
    assert "\n"[1..] == "";
  }

  lemma TwoLines(first: string, second: string)
    requires '\n' !in first && '\n' !in second && second != ""
    ensures Lines(first + "\n" + second) == [first, second] == Reported(first + "\n" + second)
  {
    JoinedEnds(first, second);
    LinesUnbroken(first);
    LinesUnbroken(second);
    NewLine();
    LinesJoin(first, "\n");
    LinesJoin(first + "\n", second);
  }

  /** The JSON reader does not accept a line that breaks off. */
  predicate Unfinished(r: Readers, line: string) {
    line != "" && '\n' !in line && r.json(r.trim(line)).Broken?
  }

  /** A complete first line, of this time and process, that both sides read alike. */
  predicate Complete(r: Readers, line: string, at: int, process: nat) {
    && line != "" && |line| <= FIRST_READ && '\n' !in line
    && EventOf(r, line) == Some(Event(at, process))
    && r.json(line) == Timed(at) && r.trim(line) == line
  }

  lemma TwoEvents(r: Readers, first: string, last: string)
    requires EventOf(r, first).Some? && EventOf(r, last).Some?
    ensures EventsOf(r, [first, last]) == [EventOf(r, first).value, EventOf(r, last).value]
    ensures LastMatch([first, last], r.stamp) == r.stamp(last)
  {
    assert [first, last][..1] == [first] && [first][..0] == [];
    assert EventsOf(r, [first]) == [EventOf(r, first).value];
  }

  /** A killed writer's file: a complete line, then one that breaks off behind its time and process. */
  function KilledFile(first: string, last: string, born: int): EventFile {
    EventFile(first + "\n" + last, born)
  }

  lemma KilledAudit(r: Readers, first: string, last: string, at: int, after: int, process: nat, state: State, born: int)
    requires Complete(r, first, at, process)
    requires Unfinished(r, last) && EventOf(r, last) == Some(Event(after, process))
    ensures AuditedRun(r, KilledFile(first, last, born), state)
         == SuspensionAudit.Run(at, after, state, [Event(at, process), Event(after, process)])
  {
    TwoLines(first, last);
    TwoEvents(r, first, last);
  }

  lemma KilledLaunch(r: Readers, first: string, last: string, at: int, process: nat, born: int)
    requires Complete(r, first, at, process) && Unfinished(r, last)
    ensures ReportLaunch(r, KilledFile(first, last, born)) == Some(at)
  {
    var text := first + "\n" + last;
    TwoLines(first, last);
    if |text| > FIRST_READ {
      var rest := text[|first|..FIRST_READ];
      assert text[..FIRST_READ] == first + rest;
      LinesJoin(first, rest);
      LinesUnbroken(first);
      assert first + "" == first;
      if |first| < FIRST_READ {
        assert rest[0] == '\n' && Lines(rest)[0] == "";
      }
    }
  }

  lemma KilledEnd(r: Readers, first: string, last: string, at: int, process: nat, born: int)
    requires Complete(r, first, at, process) && Unfinished(r, last)
    ensures ReportEnd(r, KilledFile(first, last, born)) == Some(at)
  {
    TwoLines(first, last);
    assert [first, last][..1] == [first] && [first][..0] == [];
    var read := WholeTime(r);
    assert read(last).None? && read(first) == Some(at);
    assert LastMatch([first], read) == Some(at);
  }

  /**
   The process of such a file slept between the two lines. The audit records
   it, and the report refuses the run for it: the audit takes the unfinished
   line for the end of the run, the report the finished one.
   */
  lemma KilledRunIsRefused(
    r: Readers, first: string, last: string, at: int, after: int, process: nat, state: State, born: int, slept: Interval)
    requires Complete(r, first, at, process)
    requires Unfinished(r, last) && EventOf(r, last) == Some(Event(after, process))
    requires at < slept.start < slept.end < after && process < state.processes
    ensures var audited := AuditedLog(AuditedRun(r, KilledFile(first, last, born), state), [], [slept]);
      && audited.Some? && |audited.value| == 1 && audited.value[0].interval == slept
      && ReadReport(r, KilledFile(first, last, born), state, audited.value) == None
  {
    KilledAudit(r, first, last, at, after, process, state, born);
    KilledLaunch(r, first, last, at, process, born);
    KilledEnd(r, first, last, at, process, born);
    var run := AuditedRun(r, KilledFile(first, last, born), state);
    GapObserved(slept, run.events[0], run.events[1]);
    OneAddition(run, slept);
    AuditIsReadable(run, [], [slept], Bounds(at, Some(at)));
    assert [slept][0] == slept && !Inside(Bounds(at, Some(at)), slept);
  }

  lemma GapObserved(interval: Interval, before: Event, after: Event)
    requires before.recordedAt < interval.start && interval.end < after.recordedAt && Positive(interval)
    requires before.process == after.process
    ensures Observed(interval, [before, after]) == Observation(Some(before), Some(after), false)
  {
    assert [before, after][..1] == [before] && [before][..0] == [];
    assert Observed(interval, [before]) == Observation(Some(before), None, false);
  }

  lemma OneAddition(run: SuspensionAudit.Run, interval: Interval)
    requires Added(run, [], interval) && Record(run, interval).process < run.state.processes
    ensures AuditedLog(run, [], [interval]) == Some([Record(run, interval)])
  {
    assert [interval][..0] == [] && [] + [Record(run, interval)] == [Record(run, interval)];
    assert [Record(run, interval)][..0] == [];
    assert Additions(run, [], [interval]) == [Record(run, interval)];
    assert SortByKey([Record(run, interval)], StartOfSuspension) == [Record(run, interval)];
  }

  /** Two lines as a writer leaves them when it is killed inside the second. */
  function SampleReaders(): Readers {
    Readers(
      line => if line == "whole" then Some(0) else if line == "torn" then Some(100) else None,
      line => if line == "whole" || line == "torn" then Some(0) else None,
      line => if line == "whole" then Timed(0) else Broken,
      line => line)
  }

  lemma SampleRunIsRefused()
    ensures var r, file, state := SampleReaders(), KilledFile("whole", "torn", 0), State(0, false, [], 1);
      var audited := AuditedLog(AuditedRun(r, file, state), [], [Interval(20, 80)]);
      audited.Some? && |audited.value| == 1 && ReadReport(r, file, state, audited.value) == None
  {
    KilledRunIsRefused(SampleReaders(), "whole", "torn", 0, 100, 0, State(0, false, [], 1), 0, Interval(20, 80));
  }
}
