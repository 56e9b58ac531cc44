/** What the report shows of a run the completion validator accepts. */
module CompletedTotals {
  import opened Prelude
  import opened TokenUsage
  import opened GoalState
  import opened Validators
  import Dashboard

  /** The report's view of a retained run: its records with the clocks they retain. */
  function Reported(s: RunState): Dashboard.State {
    Dashboard.State(
      seq(|s.goals|, i requires 0 <= i < |s.goals| =>
            Dashboard.Instruction(
              s.goals[i].index, s.goals[i].usage, 0.0,
              if s.goals[i].native.Some? then Some(s.goals[i].native.value.timeUsed as real) else None)),
      s.cursor, s.thread, s.nativeStart, s.status == Completed, [])
  }

  /** The usage of all records whose index is at least `k`, in list order. */
  function UsageFrom(goals: seq<Goal>, k: nat): Usage {
    if goals == [] then Zero()
    else if Last(goals).index >= k then Add(UsageFrom(goals[..|goals| - 1], k), Last(goals).usage)
    else UsageFrom(goals[..|goals| - 1], k)
  }

  /** The usage of the records found for the indexes from `k` to below `n`. */
  function UsageOf(goals: seq<Goal>, k: nat, n: nat): Usage {
    if n <= k then Zero()
    else if FindGoal(goals, n - 1).None? then UsageOf(goals, k, n - 1)
    else Add(UsageOf(goals, k, n - 1), FindGoal(goals, n - 1).value.usage)
  }

  lemma {:induction false} UsageFromAppend(a: seq<Goal>, b: seq<Goal>, k: nat)
    ensures UsageFrom(a + b, k) == Add(UsageFrom(a, k), UsageFrom(b, k))
    decreases |b|
  {
    if b == [] {
      assert a + b == a;
    } else {
      assert (a + b)[..|a + b| - 1] == a + b[..|b| - 1];
      UsageFromAppend(a, b[..|b| - 1], k);
    }
  }

  lemma {:induction false} FoundPosition(goals: seq<Goal>, index: nat) returns (p: nat)
    requires FindGoal(goals, index).Some?
    ensures p < |goals| && goals[p].index == index && FindGoal(goals, index) == Some(goals[p])
  {
    if goals[0].index == index {
      p := 0;
    } else {
      p := FoundPosition(goals[1..], index);
      p := p + 1;
    }
  }

  lemma {:induction false} FoundWithout(goals: seq<Goal>, p: nat, index: nat)
    requires p < |goals| && goals[p].index != index
    ensures FindGoal(goals[..p] + goals[p + 1..], index) == FindGoal(goals, index)
  {
    var rest := goals[..p] + goals[p + 1..];
    if p == 0 {
      assert rest == goals[1..];
    } else if goals[0].index != index {
      FoundWithout(goals[1..], p - 1, index);
      assert rest[1..] == goals[1..][..p - 1] + goals[1..][p..];
    }
  }

  lemma {:induction false} UsageOfWithout(goals: seq<Goal>, p: nat, k: nat, n: nat)
    requires p < |goals| && goals[p].index >= n
    ensures UsageOf(goals[..p] + goals[p + 1..], k, n) == UsageOf(goals, k, n)
  {
    if n > k {
      UsageOfWithout(goals, p, k, n - 1);
      FoundWithout(goals, p, n - 1);
    }
  }

  /** As many records as indexes, one found for each: the list holds each index once, in whatever order. */
  lemma {:induction false} ListedOnce(goals: seq<Goal>, k: nat, n: nat)
    requires |goals| == n && forall i | 0 <= i < n :: FindGoal(goals, i).Some?
    ensures UsageFrom(goals, k) == UsageOf(goals, k, n)
  {
    if n > 0 {
      var p := FoundPosition(goals, n - 1);
      var rest := goals[..p] + goals[p + 1..];
      forall i | 0 <= i < n - 1 ensures FindGoal(rest, i).Some? {
        FoundWithout(goals, p, i);
      }
      ListedOnce(rest, k, n - 1);
      UsageOfWithout(goals, p, k, n - 1);
      UsageFromWithout(goals, p, k);
    }
  }

  lemma UsageFromWithout(goals: seq<Goal>, p: nat, k: nat)
    requires p < |goals|
    ensures UsageFrom(goals, k) ==
      (if goals[p].index >= k then Add(UsageFrom(goals[..p] + goals[p + 1..], k), goals[p].usage)
       else UsageFrom(goals[..p] + goals[p + 1..], k))
  {
    assert goals == (goals[..p] + [goals[p]]) + goals[p + 1..];
    assert (goals[..p] + [goals[p]])[..p] == goals[..p];
    UsageFromAppend(goals[..p] + [goals[p]], goals[p + 1..], k);
    UsageFromAppend(goals[..p], goals[p + 1..], k);
  }

  /** Along the native thread the usages telescope to the end of the last Goal. */
  lemma {:induction false} UsageTelescopes(s: RunState, n: nat)
    requires ValidateCompletedState(s) && s.nativeStart < n <= |s.plan|
    ensures FindGoal(s.goals, n - 1).Some? && FindGoal(s.goals, n - 1).value.end == Some(UsageOf(s.goals, s.nativeStart, n))
  {
    assert CompletedGoalValid(s, n - 1);
    if n > s.nativeStart + 1 {
      UsageTelescopes(s, n - 1);
    }
  }

  lemma NativeUsage(s: RunState)
    requires ValidateCompletedState(s)
    ensures UsageFrom(s.goals, s.nativeStart) == s.thread
    ensures s.nativeStart == 0 ==> UsageFrom(s.goals, 0) == s.thread
    ensures s.nativeStart == 1 ==> UsageFrom(s.goals, 0).total > s.thread.total
  {
    forall i | 0 <= i < |s.plan| ensures FindGoal(s.goals, i).Some? {
      assert CompletedGoalValid(s, i);
    }
    ListedOnce(s.goals, s.nativeStart, |s.plan|);
    ListedOnce(s.goals, 0, |s.plan|);
    UsageTelescopes(s, |s.plan|);
    if s.nativeStart == 1 {
      InheritedFirst(s, |s.plan|);
    }
  }

  lemma {:induction false} InheritedFirst(s: RunState, n: nat)
    requires ValidateCompletedState(s) && 1 <= n <= |s.plan|
    ensures UsageOf(s.goals, 0, n).total > UsageOf(s.goals, 1, n).total
  {
    assert CompletedGoalValid(s, n - 1);
    if n > 1 {
      InheritedFirst(s, n - 1);
    } else {
      assert UsageOf(s.goals, 0, 0) == Zero();
    }
  }

  function View(s: RunState, n: nat): seq<Dashboard.Instruction>
    requires n <= |s.goals|
  {
    Reported(s).goals[..n]
  }

  lemma ViewLast(s: RunState, n: nat)
    requires 0 < n <= |s.goals|
    ensures View(s, n) != [] && View(s, n)[..n - 1] == View(s, n - 1)
    ensures Last(View(s, n)).index == s.goals[n - 1].index && Last(View(s, n)).usage == s.goals[n - 1].usage
    ensures s.goals[..n] != [] && s.goals[..n][..n - 1] == s.goals[..n - 1] && Last(s.goals[..n]) == s.goals[n - 1]
  {
  }

  lemma {:induction false} InheritedReported(s: RunState, n: nat)
    requires n <= |s.goals|
    ensures Add(Dashboard.InheritedUsage(Reported(s), View(s, n), true), UsageFrom(s.goals[..n], s.nativeStart)) == UsageFrom(s.goals[..n], 0)
  {
    if n > 0 {
      ViewLast(s, n);
      InheritedReported(s, n - 1);
    }
  }

  lemma {:induction false} NothingInherited(s: RunState, n: nat)
    requires n <= |s.goals|
    ensures Dashboard.InheritedUsage(Reported(s), View(s, n), false) == Zero()
  {
    if n > 0 {
      ViewLast(s, n);
      NothingInherited(s, n - 1);
    }
  }

  lemma {:induction false} RetainedReported(s: RunState, n: nat, detached: bool)
    requires n <= |s.goals|
    ensures Dashboard.RetainedTokens(Reported(s), View(s, n), detached) == UsageFrom(s.goals[..n], if detached then s.nativeStart else 0).total
  {
    if n > 0 {
      ViewLast(s, n);
      RetainedReported(s, n - 1, detached);
    }
  }

  /**
   The usage reported for an accepted run is that of all its Goals, in all six
   counters, exactly when an inherited Goal is counted as such; the same condition
   makes the stages' tokens add up.
   */
  lemma CompletedUsageIsAllGoals(s: RunState, detached: bool)
    requires ValidateCompletedState(s)
    ensures Dashboard.TotalTokenUsage(Reported(s), detached) == UsageFrom(s.goals, 0) <==> detached || s.nativeStart == 0
    ensures Dashboard.RetainedTokens(Reported(s), Reported(s).goals, detached) == s.thread.total <==> detached || s.nativeStart == 0
  {
    NativeUsage(s);
    InheritedReported(s, |s.goals|);
    NothingInherited(s, |s.goals|);
    RetainedReported(s, |s.goals|, detached);
    assert s.goals[..|s.goals|] == s.goals && View(s, |s.goals|) == Reported(s).goals;
  }
}
