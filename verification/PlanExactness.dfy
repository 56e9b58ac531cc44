/** The plan validator accepts no other plans than those a run can reach. */
module PlanExactness {
  import opened Prelude
  import opened Instruction
  import opened GoalState
  import opened Validators
  import opened PlanAcceptance

  /** An entry of the adaptive plan; a retained reminder may carry feedback that is not blank, which no run writes. */
  predicate Matches(entry: PlanEntry, expected: PlanEntry) {
    || entry == expected
    || (expected.kind == Supplement && entry.feedback.Some? && !Blank(entry.feedback.value)
        && entry == expected.(feedback := entry.feedback))
  }

  predicate IsAdaptive(plan: Plan, r: Reminders) {
    Bounded(r) && |plan| == PlanLength(r) && forall i | 0 <= i < |plan| :: Matches(plan[i], EntryAt(r, i))
  }

  // ----- base entries by position -----

  function BaseCount(plan: Plan, i: nat): nat
    requires i <= |plan|
  {
    |BaseEntries(plan[..i])|
  }

  lemma CountNext(plan: Plan, i: nat)
    requires i < |plan|
    ensures BaseCount(plan, i + 1) == BaseCount(plan, i) + (if plan[i].kind == Base then 1 else 0)
    ensures BaseEntries(plan[..i + 1]) == BaseEntries(plan[..i]) + (if plan[i].kind == Base then [plan[i]] else [])
  {
    assert plan[..i + 1][..i] == plan[..i];
  }

  lemma {:induction false} BasePrefix(plan: Plan, i: nat)
    requires i <= |plan|
    ensures BaseEntries(plan[..i]) <= BaseEntries(plan)
    decreases |plan| - i
  {
    if i == |plan| {
      assert plan[..i] == plan;
    } else {
      CountNext(plan, i);
      BasePrefix(plan, i + 1);
    }
  }

  /** A base entry is the base entry of its number. */
  lemma BaseAt(plan: Plan, i: nat)
    requires i < |plan| && plan[i].kind == Base
    ensures BaseCount(plan, i) < |BaseEntries(plan)| && BaseEntries(plan)[BaseCount(plan, i)] == plan[i]
  {
    CountNext(plan, i);
    BasePrefix(plan, i + 1);
    assert BaseEntries(plan[..i + 1])[BaseCount(plan, i)] == plan[i];
  }

  /** Base numbers grow no faster than positions, and where they grow as fast every entry is a base one. */
  lemma {:induction false} CountGrows(plan: Plan, i: nat, j: nat)
    requires i <= j <= |plan|
    ensures BaseCount(plan, i) <= BaseCount(plan, j) <= BaseCount(plan, i) + (j - i)
    ensures BaseCount(plan, j) == BaseCount(plan, i) + (j - i) ==>
      forall k | i <= k < j :: plan[k].kind == Base && BaseCount(plan, k) == BaseCount(plan, i) + (k - i)
  {
    if i < j {
      CountGrows(plan, i, j - 1);
      CountNext(plan, j - 1);
    }
  }

  lemma {:induction false} FoundBase(plan: Plan, name: StageName, from: nat)
    requires from <= |plan|
    ensures var at := FindBase(plan, name, from);
      from <= at <= |plan| && (at < |plan| ==> plan[at].kind == Base && plan[at].name == name)
    decreases |plan| - from
  {
    if from < |plan| && !(plan[from].kind == Base && plan[from].name == name) {
      FoundBase(plan, name, from + 1);
    }
  }

  lemma NamesDiffer(arm: Arm, i: nat, j: nat)
    requires i < |BasePlan(arm)| && j < |BasePlan(arm)| && BasePlan(arm)[i].name == BasePlan(arm)[j].name
    ensures i == j
  {
  }

  /** The position found for a base name carries the base entry of that name's number. */
  lemma NamedAt(arm: Arm, plan: Plan, number: nat)
    requires BaseEntries(plan) == BasePlan(arm) && number < |BasePlan(arm)|
    requires FindBase(plan, BasePlan(arm)[number].name, 0) < |plan|
    ensures var at := FindBase(plan, BasePlan(arm)[number].name, 0);
      plan[at] == BasePlan(arm)[number] && BaseCount(plan, at) == number
  {
    var at := FindBase(plan, BasePlan(arm)[number].name, 0);
    FoundBase(plan, BasePlan(arm)[number].name, 0);
    BaseAt(plan, at);
    NamesDiffer(arm, BaseCount(plan, at), number);
  }

  // ----- Plain -----

  /** Where a scope's review and Final stand. */
  lemma ScopeAt(plan: Plan, scope: Scope)
    requires PlanValid(PlainArm, plan)
    ensures var review, final := FindBase(plan, Review(scope), 0), FindBase(plan, Final(scope), 0);
      var number := match scope case Backend => 1 case Frontend => 4 case Overall => 6;
      && review < final < |plan|
      && 0 <= ScopeSupplements(PlainArm, plan, scope) == final - review - 1 <= 4
      && BaseCount(plan, review) == number && BaseCount(plan, final) == number + 1
      && plan[review] == BasePlan(PlainArm)[number] && plan[final] == BasePlan(PlainArm)[number + 1]
  {
    var number := match scope case Backend => 1 case Frontend => 4 case Overall => 6;
    NamedAt(PlainArm, plan, number);
    NamedAt(PlainArm, plan, number + 1);
  }

  /** A later base number stands at least as much further on. */
  lemma GapAtLeast(plan: Plan, i: nat, j: nat)
    requires i <= |plan| && j <= |plan| && BaseCount(plan, i) < BaseCount(plan, j)
    ensures j - i >= BaseCount(plan, j) - BaseCount(plan, i)
  {
    if j <= i { CountGrows(plan, j, i); } else { CountGrows(plan, i, j); }
  }

  lemma PlainGaps(plan: Plan)
    requires PlanValid(PlainArm, plan)
    ensures FindBase(plan, Review(Backend), 0) >= 1
    ensures FindBase(plan, Review(Frontend), 0) >= FindBase(plan, Final(Backend), 0) + 2
    ensures FindBase(plan, Review(Overall), 0) >= FindBase(plan, Final(Frontend), 0) + 1
  {
    ScopeAt(plan, Backend);
    ScopeAt(plan, Frontend);
    ScopeAt(plan, Overall);
    assert plan[..0] == [];
    GapAtLeast(plan, 0, FindBase(plan, Review(Backend), 0));
    GapAtLeast(plan, FindBase(plan, Final(Backend), 0), FindBase(plan, Review(Frontend), 0));
    GapAtLeast(plan, FindBase(plan, Final(Frontend), 0), FindBase(plan, Review(Overall), 0));
  }

  /** The plan's length leaves no room for anything else. */
  lemma PlainPositions(plan: Plan)
    requires PlanValid(PlainArm, plan)
    ensures var b, f, o := ScopeSupplements(PlainArm, plan, Backend), ScopeSupplements(PlainArm, plan, Frontend), ScopeSupplements(PlainArm, plan, Overall);
      && 0 <= b <= 4 && 0 <= f <= 4 && 0 <= o <= 4 && |plan| == 8 + b + f + o
      && FindBase(plan, Review(Backend), 0) == 1 && FindBase(plan, Final(Backend), 0) == 2 + b
      && FindBase(plan, Review(Frontend), 0) == 4 + b && FindBase(plan, Final(Frontend), 0) == 5 + b + f
      && FindBase(plan, Review(Overall), 0) == 6 + b + f && FindBase(plan, Final(Overall), 0) == 7 + b + f + o
  {
    ScopeAt(plan, Backend);
    ScopeAt(plan, Frontend);
    ScopeAt(plan, Overall);
    PlainGaps(plan);
  }

  function RemindersOf(plan: Plan): Reminders
    requires PlanValid(PlainArm, plan)
  {
    PlainPositions(plan);
    Reminders(ScopeSupplements(PlainArm, plan, Backend), ScopeSupplements(PlainArm, plan, Frontend), ScopeSupplements(PlainArm, plan, Overall))
  }

  lemma BaseRun(plan: Plan, from: nat, to: nat, k: nat)
    requires from <= k < to <= |plan|
    requires BaseCount(plan, to) == BaseCount(plan, from) + (to - from)
    ensures var number := BaseCount(plan, from) + (k - from);
      number < |BaseEntries(plan)| && plan[k] == BaseEntries(plan)[number]
  {
    CountGrows(plan, from, to);
    BaseAt(plan, k);
  }

  lemma PlainEntries(plan: Plan, i: nat)
    requires PlanValid(PlainArm, plan) && i < |plan|
    ensures Matches(plan[i], EntryAt(RemindersOf(plan), i))
  {
    PlainPositions(plan);
    var r := RemindersOf(plan);
    var b, f, o := r.backend, r.frontend, r.overall;
    if 1 < i < 2 + b {
      assert SupplementValid(plan[i], Backend, i - 1);
    } else if 4 + b < i < 5 + b + f {
      assert SupplementValid(plan[i], Frontend, i - 4 - b);
    } else if 6 + b + f < i < 7 + b + f + o {
      assert SupplementValid(plan[i], Overall, i - 6 - b - f);
    } else {
      PlainBases(plan, i);
    }
  }

  lemma PlainBases(plan: Plan, i: nat)
    requires PlanValid(PlainArm, plan) && i < |plan|
    requires EntryAt(RemindersOf(plan), i).kind == Base
    ensures plan[i] == EntryAt(RemindersOf(plan), i)
  {
    PlainPositions(plan);
    var r := RemindersOf(plan);
    var b, f := r.backend, r.frontend;
    ScopeAt(plan, Backend);
    ScopeAt(plan, Frontend);
    ScopeAt(plan, Overall);
    if i < 1 {
      assert plan[..0] == [];
      BaseRun(plan, 0, 1, i);
    } else if i == 3 + b {
      BaseRun(plan, 2 + b, 4 + b, i);
    }
  }

  // ----- the other direction, with feedback -----

  /** A plan without the feedback its reminders may carry. */
  function Silent(plan: Plan): Plan {
    seq(|plan|, i requires 0 <= i < |plan| => if plan[i].kind == Supplement then plan[i].(feedback := None) else plan[i])
  }

  lemma SilentIsAdaptive(plan: Plan, r: Reminders)
    requires IsAdaptive(plan, r)
    ensures Silent(plan) == AdaptivePlan(r)
  {
    forall i | 0 <= i < |plan| ensures Silent(plan)[i] == AdaptivePlan(r)[i] {
      assert Matches(plan[i], EntryAt(r, i));
    }
  }

  lemma {:induction false} SilentBases(plan: Plan)
    ensures BaseEntries(Silent(plan)) == BaseEntries(plan)
  {
    if plan != [] {
      SilentBases(plan[..|plan| - 1]);
      assert Silent(plan)[..|plan| - 1] == Silent(plan[..|plan| - 1]);
    }
  }

  lemma {:induction false} SilentFind(plan: Plan, name: StageName, from: nat)
    ensures FindBase(Silent(plan), name, from) == FindBase(plan, name, from)
    decreases |plan| - from
  {
    if from < |plan| { SilentFind(plan, name, from + 1); }
  }

  lemma SilentScope(plan: Plan, r: Reminders, scope: Scope)
    requires IsAdaptive(plan, r) && ScopeValid(PlainArm, Silent(plan), scope)
    ensures ScopeValid(PlainArm, plan, scope) && ScopeSupplements(PlainArm, plan, scope) == ScopeSupplements(PlainArm, Silent(plan), scope)
  {
    SilentFind(plan, Review(scope), 0);
    SilentFind(plan, Final(scope), 0);
    var review, final := FindBase(plan, Review(scope), 0), FindBase(plan, Final(scope), 0);
    forall i | review < i < final ensures SupplementValid(plan[i], scope, i - review) {
      assert SupplementValid(Silent(plan)[i], scope, i - review);
      assert Matches(plan[i], EntryAt(r, i));
    }
  }

  lemma AdaptiveIsValid(plan: Plan, r: Reminders)
    requires IsAdaptive(plan, r)
    ensures PlanValid(PlainArm, plan)
  {
    SilentIsAdaptive(plan, r);
    AdaptivePlanValid(r);
    SilentBases(plan);
    SilentScope(plan, r, Backend);
    SilentScope(plan, r, Frontend);
    SilentScope(plan, r, Overall);
  }

  /** A Plain plan is valid exactly when it is the base plan with consecutive reminders before its Finals, at most four each. */
  lemma PlainPlansExactly(plan: Plan)
    ensures PlanValid(PlainArm, plan) <==> exists r :: IsAdaptive(plan, r)
  {
    if PlanValid(PlainArm, plan) {
      PlainPositions(plan);
      forall i | 0 <= i < |plan| ensures Matches(plan[i], EntryAt(RemindersOf(plan), i)) {
        PlainEntries(plan, i);
      }
      assert IsAdaptive(plan, RemindersOf(plan));
    }
    if r :| IsAdaptive(plan, r) {
      AdaptiveIsValid(plan, r);
    }
  }

  // ----- Evidence -----

  /** An Evidence plan is valid exactly when it is the base plan. */
  lemma EvidencePlansExactly(plan: Plan)
    ensures PlanValid(EvidenceArm, plan) <==> plan == BasePlan(EvidenceArm)
  {
    EvidencePlanValid();
    if PlanValid(EvidenceArm, plan) {
      NoSupplements(plan, Backend);
      NoSupplements(plan, Frontend);
      CountGrows(plan, 0, |plan|);
      assert plan[..0] == [] && plan[..|plan|] == plan;
      AllBases(plan);
    }
  }

  lemma NoSupplements(plan: Plan, scope: Scope)
    requires ScopeValid(EvidenceArm, plan, scope)
    ensures ScopeSupplements(EvidenceArm, plan, scope) == 0
  {
    if scope != Overall {
      var review, final := FindBase(plan, Review(scope), 0), FindBase(plan, Final(scope), 0);
      var next := plan[review + 1];
    }
  }
}
