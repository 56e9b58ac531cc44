/** The report's times of a run the Goal machine leaves: its Goals' own times add up to its thread's clock. */
module GoalTimes {
  import opened Prelude
  import opened GoalState
  import opened GoalMachine
  import opened GoalSafety
  import opened GoalLaunch
  import opened GoalTheorems
  import opened GoalGate
  import opened CompletedTotals
  import Dashboard
  import DashboardTimes

  lemma {:induction false} FindReported(s: RunState, n: nat, index: nat)
    requires n <= |s.goals| && forall i | 0 <= i < |s.goals| :: s.goals[i].index == i
    ensures Dashboard.Find(Reported(s).goals[n..], index)
         == if n <= index < |s.goals| then Some(Reported(s).goals[index]) else None
    decreases |s.goals| - n
  {
    if n < |s.goals| {
      assert Reported(s).goals[n..][1..] == Reported(s).goals[n + 1..];
      FindReported(s, n + 1, index);
    }
  }

  lemma ReportedClock(s: RunState, index: nat)
    requires GoalsOk(s)
    ensures DashboardTimes.ClockAt(Reported(s), index)
         == if index < |s.goals| && s.goals[index].native.Some? then Some(s.goals[index].native.value.timeUsed as real) else None
  {
    forall i | 0 <= i < |s.goals| ensures s.goals[i].index == i { assert GoalFits(s, i); }
    assert Reported(s).goals[0..] == Reported(s).goals;
    FindReported(s, 0, index);
  }

  lemma ReportedClocked(s: RunState)
    requires GoalsOk(s) && ClocksOk(s)
    ensures DashboardTimes.Clocked(Reported(s), s.nativeStart, s.cursor)
  {
    forall k | s.nativeStart <= k < s.cursor
      ensures DashboardTimes.ClockAt(Reported(s), k).Some?
      ensures DashboardTimes.ClockAt(Reported(s), k).value >= DashboardTimes.ClockBefore(Reported(s), s.nativeStart, k)
    {
      assert GoalFits(s, k) && ClockOk(s, k);
      ReportedClock(s, k);
      if k > s.nativeStart {
        assert GoalFits(s, k - 1);
        ReportedClock(s, k - 1);
      }
    }
  }

  lemma SoundTimes(s: RunState)
    requires GoalsOk(s) && ClocksOk(s) && s.nativeStart < s.cursor
    ensures s.goals[s.cursor - 1].native.Some?
    ensures DashboardTimes.TimesOf(Reported(s), s.nativeStart, s.cursor)
         == DashboardTimes.Milliseconds(s.goals[s.cursor - 1].native.value.timeUsed as real)
  {
    ReportedClocked(s);
    DashboardTimes.TimesAreTheClock(Reported(s), s.nativeStart, s.cursor);
    assert GoalFits(s, s.cursor - 1);
    ReportedClock(s, s.cursor - 1);
  }

  /**
   Whatever a run's thread reports, the report gives the completed Goals of its own
   thread times that add up to that thread's clock at the last of them.
   */
  lemma RunTimesAreTheClock(m: Machine, events: seq<Event>)
    requires Initial(m) && Run(m, events).disk.nativeStart < Run(m, events).disk.cursor
    ensures var s := Run(m, events).disk;
      && s.cursor <= |s.goals| && s.goals[s.cursor - 1].native.Some?
      && DashboardTimes.TimesOf(Reported(s), s.nativeStart, s.cursor)
           == DashboardTimes.Milliseconds(s.goals[s.cursor - 1].native.value.timeUsed as real)
  {
    var s := Run(m, events).disk;
    RunSound(m, events);
    SoundGoals(s);
    RunClocks(m, events);
    SoundTimes(s);
  }
}
