/** What an audit guarantees of the log it writes. */
module SuspensionTheorems {
  import opened Prelude
  import opened Sorting
  import opened SuspensionAudit

  // ----- the gap between two events -----

  predicate EventsOrdered(events: seq<Event>) {
    forall i, j | 0 <= i < j < |events| :: events[i].recordedAt <= events[j].recordedAt
  }

  /** Two consecutive events of one process enclose the interval. */
  predicate InGap(interval: Interval, events: seq<Event>, k: nat) {
    && k + 1 < |events|
    && events[k].recordedAt < interval.start && interval.end < events[k + 1].recordedAt
    && events[k].process == events[k + 1].process
  }

  /** How many of the ordered events precede a time. */
  function CountBefore(events: seq<Event>, at: int): nat {
    if events == [] then 0
    else CountBefore(events[..|events| - 1], at) + (if Last(events).recordedAt < at then 1 else 0)
  }

  lemma {:induction false} ObservedOrdered(interval: Interval, events: seq<Event>)
    requires EventsOrdered(events) && Positive(interval)
    ensures var n, o := CountBefore(events, interval.start), Observed(interval, events);
      && n <= |events|
      && (forall i | 0 <= i < n :: events[i].recordedAt < interval.start)
      && (forall i | n <= i < |events| :: events[i].recordedAt >= interval.start)
      && o.before == (if n == 0 then None else Some(events[n - 1]))
      && (o.inside <==> n < |events| && events[n].recordedAt <= interval.end)
      && (!o.inside ==> o.after == if n < |events| then Some(events[n]) else None)
  {
    if events != [] {
      var front := events[..|events| - 1];
      ObservedOrdered(interval, front);
      var m := CountBefore(front, interval.start);
      if m < |front| {
        assert front[m].recordedAt >= interval.start;
        assert events[m].recordedAt <= events[|events| - 1].recordedAt;
      }
    }
  }

  /** In a time-ordered log an interval counts as a suspension exactly when it lies in a gap of one process. */
  lemma SuspendedIsGap(interval: Interval, events: seq<Event>)
    requires EventsOrdered(events) && Positive(interval)
    ensures Suspended(interval, events) <==> exists k :: InGap(interval, events, k)
  {
    ObservedOrdered(interval, events);
    var n := CountBefore(events, interval.start);
    if Suspended(interval, events) {
      assert InGap(interval, events, n - 1);
    }
    if k :| InGap(interval, events, k) {
      assert k < n && n <= k + 1;
    }
  }

  // ----- auditing again -----

  lemma {:induction false} AdditionsMembers(run: Run, log: seq<Suspension>, intervals: seq<Interval>)
    ensures forall i | 0 <= i < |Additions(run, log, intervals)| ::
      var s := Additions(run, log, intervals)[i];
      s.interval in intervals && Added(run, log, s.interval) && s == Record(run, s.interval)
  {
    if intervals != [] {
      AdditionsMembers(run, log, intervals[..|intervals| - 1]);
    }
  }

  lemma AuditedMember(run: Run, log: seq<Suspension>, intervals: seq<Interval>, s: Suspension)
    requires AuditedLog(run, log, intervals).Some?
    ensures s in AuditedLog(run, log, intervals).value <==> s in log || s in Additions(run, log, intervals)
  {
    SortedMember(log + Additions(run, log, intervals), StartOfSuspension, s);
  }

  lemma {:induction false} NoAdditions(run: Run, log: seq<Suspension>, intervals: seq<Interval>)
    requires forall i | 0 <= i < |intervals| :: !Added(run, log, intervals[i])
    ensures Additions(run, log, intervals) == []
  {
    if intervals != [] {
      NoAdditions(run, log, intervals[..|intervals| - 1]);
    }
  }

  /** A second audit with the same intervals adds nothing and leaves the log as it is. */
  lemma SecondAuditAddsNothing(run: Run, log: seq<Suspension>, intervals: seq<Interval>)
    requires AuditedLog(run, log, intervals).Some?
    ensures var audited := AuditedLog(run, log, intervals).value;
      Additions(run, audited, intervals) == [] && AuditedLog(run, audited, intervals) == Some(audited)
  {
    var audited := AuditedLog(run, log, intervals).value;
    forall i | 0 <= i < |intervals| ensures !Added(run, audited, intervals[i]) {
      if Added(run, audited, intervals[i]) {
        StillUnknown(run, log, intervals, intervals[i]);
        AdditionsKeep(run, log, intervals, i);
        var s := Record(run, intervals[i]);
        AuditedMember(run, log, intervals, s);
        KnownMember(audited, s);
      }
    }
    NoAdditions(run, audited, intervals);
  }

  lemma KnownMember(log: seq<Suspension>, s: Suspension)
    requires s in log
    ensures Known(log, s.interval)
  {
    var k :| 0 <= k < |log| && log[k] == s;
    assert log[k].interval == s.interval;
  }

  lemma StillUnknown(run: Run, log: seq<Suspension>, intervals: seq<Interval>, interval: Interval)
    requires AuditedLog(run, log, intervals).Some? && !Known(AuditedLog(run, log, intervals).value, interval)
    ensures !Known(log, interval)
  {
    if Known(log, interval) {
      var i :| 0 <= i < |log| && log[i].interval == interval;
      assert log[i] in log;
      AuditedMember(run, log, intervals, log[i]);
      KnownMember(AuditedLog(run, log, intervals).value, log[i]);
    }
  }

  // ----- what is recorded -----

  /** What a first audit records: exactly the intervals inside the run that lie in a gap between two events of one process. */
  lemma FirstAuditRecordsGaps(run: Run, intervals: seq<Interval>, interval: Interval)
    requires Disjoint(intervals) && forall k | 0 <= k < |intervals| :: Positive(intervals[k])
    requires EventsOrdered(run.events) && AuditedLog(run, [], intervals).Some? && interval in intervals
    ensures Known(AuditedLog(run, [], intervals).value, interval) <==>
      && run.launchedAt <= interval.start && interval.end <= run.lastRecordedAt
      && exists k :: InGap(interval, run.events, k)
  {
    var i :| 0 <= i < |intervals| && intervals[i] == interval;
    assert Positive(intervals[i]);
    SuspendedIsGap(interval, run.events);
    var audited := AuditedLog(run, [], intervals).value;
    AdditionsMembers(run, [], intervals);
    if Known(audited, interval) {
      var k :| 0 <= k < |audited| && audited[k].interval == interval;
      assert audited[k] in audited;
      AuditedMember(run, [], intervals, audited[k]);
    }
    if Added(run, [], interval) {
      AdditionsKeep(run, [], intervals, i);
      AuditedMember(run, [], intervals, Record(run, interval));
      KnownMember(audited, Record(run, interval));
    }
  }
}
