/**
 The report's division of a cell's cost among its stages: tokens in integers,
 times in exact reals. An exception of the original is None.
 */
module Dashboard {
  import opened Prelude
  import opened TokenUsage

  datatype Instruction = Instruction(index: nat, usage: Usage, elapsed: real, timeUsed: Option<real>)

  datatype Inspection = Inspection(usage: Usage, elapsed: real)

  datatype Pause = Pause(goalIndex: Option<nat>, inspections: seq<Inspection>)

  datatype Suspension = Suspension(instruction: Option<nat>, elapsed: real)

  /** `settled` holds of the statuses in which no instruction can be in flight. */
  datatype State = State(
    goals: seq<Instruction>, cursor: nat, thread: Usage, nativeStart: nat, settled: bool, pauses: seq<Pause>)

  /** A share of the cell's tokens and time. */
  datatype Amount = Amount(tokens: int, elapsed: real)

  function Nothing(): Amount {
    Amount(0, 0.0)
  }

  function Plus(a: Amount, b: Amount): Amount {
    Amount(a.tokens + b.tokens, a.elapsed + b.elapsed)
  }

  function Total(amounts: seq<Amount>): Amount {
    if amounts == [] then Nothing() else Plus(Total(amounts[..|amounts| - 1]), Last(amounts))
  }

  predicate UniqueIndexes(goals: seq<Instruction>) {
    forall i, j | 0 <= i < j < |goals| :: goals[i].index != goals[j].index
  }

  // ----- retained time and tokens -----

  function Find(goals: seq<Instruction>, index: int): Option<Instruction> {
    if goals == [] then None
    else if goals[0].index == index then Some(goals[0])
    else Find(goals[1..], index)
  }

  function RetainedElapsed(s: State, g: Instruction): real {
    if g.index >= s.cursor then g.elapsed
    else
      var previous := Find(s.goals, g.index - 1);
      var baseline :=
        if g.index == 0 || g.index == s.nativeStart then Some(0.0)
        else if previous.Some? then previous.value.timeUsed
        else None;
      if g.timeUsed.Some? && baseline.Some? && g.timeUsed.value >= baseline.value
      then (g.timeUsed.value - baseline.value) * 1000.0
      else g.elapsed
  }

  function SuspendedIn(suspensions: seq<Suspension>, index: nat): real {
    if suspensions == [] then 0.0
    else
      var here := if Last(suspensions).instruction == Some(index) then Last(suspensions).elapsed else 0.0;
      SuspendedIn(suspensions[..|suspensions| - 1], index) + here
  }

  /** An instruction's time without its suspensions; None when they exceed it. */
  function CorrectedElapsed(s: State, g: Instruction, suspensions: seq<Suspension>): Option<real> {
    var suspended, retained := SuspendedIn(suspensions, g.index), RetainedElapsed(s, g);
    if suspended > retained then None else Some(retained - suspended)
  }

  predicate Correctable(s: State, suspensions: seq<Suspension>) {
    forall i | 0 <= i < |s.goals| :: CorrectedElapsed(s, s.goals[i], suspensions).Some?
  }

  /** Whether a record's tokens are part of the thread total. */
  predicate OnThread(s: State, g: Instruction, detached: bool) {
    !detached || g.index >= s.nativeStart
  }

  function RetainedTokens(s: State, goals: seq<Instruction>, detached: bool): int {
    if goals == [] then 0
    else
      var here := if OnThread(s, Last(goals), detached) then Last(goals).usage.total else 0;
      RetainedTokens(s, goals[..|goals| - 1], detached) + here
  }

  /** The usage of a detached cell is that of its thread and of the Goals inherited before it. */
  function InheritedUsage(s: State, goals: seq<Instruction>, detached: bool): Usage {
    if goals == [] then Zero()
    else
      var rest := InheritedUsage(s, goals[..|goals| - 1], detached);
      if OnThread(s, Last(goals), detached) then rest else Add(rest, Last(goals).usage)
  }

  function TotalTokenUsage(s: State, detached: bool): Usage {
    Add(s.thread, InheritedUsage(s, s.goals, detached))
  }

  // ----- inspections -----

  function Inspected(inspections: seq<Inspection>): Amount {
    if inspections == [] then Nothing()
    else Plus(Inspected(inspections[..|inspections| - 1]), Amount(Last(inspections).usage.total, Last(inspections).elapsed))
  }

  predicate Owned(goals: seq<Instruction>, pause: Pause) {
    pause.goalIndex.Some? && HasIndex(goals, pause.goalIndex.value)
  }

  /** What judging one Goal cost. */
  function InspectedAt(pauses: seq<Pause>, index: nat): Amount {
    if pauses == [] then Nothing()
    else Plus(InspectedAt(pauses[..|pauses| - 1], index),
              if Last(pauses).goalIndex == Some(index) then Inspected(Last(pauses).inspections) else Nothing())
  }

  /** What judging the cell cost: inspections of pauses that belong to a retained Goal. */
  function InspectionCost(goals: seq<Instruction>, pauses: seq<Pause>): Amount {
    if pauses == [] then Nothing()
    else Plus(InspectionCost(goals, pauses[..|pauses| - 1]),
              if Owned(goals, Last(pauses)) then Inspected(Last(pauses).inspections) else Nothing())
  }

  function At(found: map<nat, Amount>, index: nat): Amount {
    if index in found then found[index] else Nothing()
  }

  predicate HasIndex(goals: seq<Instruction>, index: nat) {
    exists i | 0 <= i < |goals| :: goals[i].index == index
  }

  /** Attributes each inspection to the Goal it judged. */
  method InspectionByGoal(s: State) returns (found: map<nat, Amount>)
    ensures forall k | k in found :: HasIndex(s.goals, k)
    ensures forall k | HasIndex(s.goals, k) :: At(found, k) == InspectedAt(s.pauses, k)
  {
    found := map[];
    var p := 0;
    while p < |s.pauses|
      invariant p <= |s.pauses|
      invariant forall k | k in found :: HasIndex(s.goals, k)
      invariant forall k | HasIndex(s.goals, k) :: At(found, k) == InspectedAt(s.pauses[..p], k)
    {
      var pause := s.pauses[p];
      assert s.pauses[..p + 1][..p] == s.pauses[..p];
      if pause.goalIndex.Some? && HasIndex(s.goals, pause.goalIndex.value) {
        found := AddInspections(found, pause.goalIndex.value, pause.inspections);
      }
      p := p + 1;
    }
    assert s.pauses[..p] == s.pauses;
  }

  lemma InspectedNext(inspections: seq<Inspection>, i: nat)
    requires i < |inspections|
    ensures Inspected(inspections[..i + 1]) == Plus(Inspected(inspections[..i]), Amount(inspections[i].usage.total, inspections[i].elapsed))
  {
    assert inspections[..i + 1][..i] == inspections[..i];
  }

  method AddInspections(before: map<nat, Amount>, index: nat, inspections: seq<Inspection>) returns (found: map<nat, Amount>)
    ensures forall k | k in found :: k in before || k == index
    ensures forall k :: At(found, k) == if k == index then Plus(At(before, k), Inspected(inspections)) else At(before, k)
  {
    found := before;
    var i := 0;
    while i < |inspections|
      invariant i <= |inspections|
      invariant forall k | k in found :: k in before || k == index
      invariant At(found, index) == Plus(At(before, index), Inspected(inspections[..i]))
      invariant forall k | k != index :: At(found, k) == At(before, k)
    {
      InspectedNext(inspections, i);
      ghost var earlier := found;
      found := found[index := Plus(At(found, index), Amount(inspections[i].usage.total, inspections[i].elapsed))];
      assert forall k | k != index :: At(found, k) == At(earlier, k);
      i := i + 1;
    }
    assert inspections[..i] == inspections;
  }

  // ----- stages -----

  /** The position of the first record with an index. */
  function PositionOf(goals: seq<Instruction>, index: nat, from: nat): nat
    decreases |goals| - from
  {
    if from >= |goals| then from
    else if goals[from].index == index then from
    else PositionOf(goals, index, from + 1)
  }

  /** The record that receives what is not yet attributed; |goals| when there is none. */
  function CurrentAt(s: State): (at: nat)
    ensures at <= |s.goals|
  {
    var at := PositionOf(s.goals, s.cursor, 0);
    if at < |s.goals| then at
    else if s.settled || s.goals == [] then |s.goals|
    else |s.goals| - 1
  }

  predicate InFlight(s: State) {
    CurrentAt(s) < |s.goals|
  }

  function Own(s: State, i: nat, suspensions: seq<Suspension>): Amount
    requires i < |s.goals| && Correctable(s, suspensions)
  {
    Amount(s.goals[i].usage.total, CorrectedElapsed(s, s.goals[i], suspensions).value)
  }

  function Owns(s: State, suspensions: seq<Suspension>): seq<Amount>
    requires Correctable(s, suspensions)
  {
    seq(|s.goals|, i requires 0 <= i < |s.goals| => Own(s, i, suspensions))
  }

  /** What the records do not account for. */
  function Residual(s: State, totalElapsed: real, detached: bool, suspensions: seq<Suspension>): Amount
    requires Correctable(s, suspensions)
  {
    var tokens := s.thread.total - RetainedTokens(s, s.goals, detached);
    var elapsed := totalElapsed - Total(Owns(s, suspensions)).elapsed;
    Amount(if tokens > 0 then tokens else 0, if elapsed > 0.0 then elapsed else 0.0)
  }

  /** A record's share of the residual time when no instruction is in flight. */
  function Apportioned(s: State, residual: real, own: real, shareTotal: real): real {
    if InFlight(s) || shareTotal == 0.0 then 0.0 else residual * own / shareTotal
  }

  function Shares(s: State, residual: real, owns: seq<Amount>): seq<real> {
    seq(|owns|, i requires 0 <= i < |owns| => Apportioned(s, residual, owns[i].elapsed, Total(owns).elapsed))
  }

  function Stage(s: State, i: nat, own: Amount, residual: Amount, share: real): Amount
    requires i < |s.goals|
  {
    Plus(
      Plus(own, if i == CurrentAt(s) then residual else Nothing()),
      Plus(Amount(0, share), InspectedAt(s.pauses, s.goals[i].index)))
  }

  function Stages(s: State, owns: seq<Amount>, residual: Amount, shares: seq<real>): seq<Amount>
    requires |owns| == |shares| <= |s.goals|
  {
    seq(|owns|, i requires 0 <= i < |owns| => Stage(s, i, owns[i], residual, shares[i]))
  }

  function StageMeasurements(s: State, totalElapsed: real, detached: bool, suspensions: seq<Suspension>): Option<seq<Amount>> {
    if !Correctable(s, suspensions) then None
    else
      var owns, residual := Owns(s, suspensions), Residual(s, totalElapsed, detached, suspensions);
      Some(Stages(s, owns, residual, Shares(s, residual.elapsed, owns)))
  }

  /** The cell's own totals: its thread and inherited Goals, and what judging it cost. */
  function CellTotal(s: State, totalElapsed: real, detached: bool): Amount {
    Plus(Amount(TotalTokenUsage(s, detached).total, totalElapsed), InspectionCost(s.goals, s.pauses))
  }
}

/** The stages of a cell add up to the cell. */
module DashboardConservation {
  import opened Prelude
  import opened TokenUsage
  import opened Dashboard

  /** Thread tokens and inherited tokens together are all retained tokens. */
  lemma {:induction false} TokensSplit(s: State, goals: seq<Instruction>, detached: bool, owns: seq<Amount>)
    requires |owns| == |goals| && forall i | 0 <= i < |goals| :: owns[i].tokens == goals[i].usage.total
    ensures Total(owns).tokens == RetainedTokens(s, goals, detached) + InheritedUsage(s, goals, detached).total
  {
    if goals != [] {
      TokensSplit(s, goals[..|goals| - 1], detached, owns[..|owns| - 1]);
    }
  }

  // ----- inspections -----

  /** One pause's cost, spread over the records that carry its index. */
  function Spread(goals: seq<Instruction>, index: Option<nat>, cost: Amount): Amount {
    if goals == [] then Nothing()
    else Plus(Spread(goals[..|goals| - 1], index, cost), if index == Some(Last(goals).index) then cost else Nothing())
  }

  lemma IndexFront(goals: seq<Instruction>, index: nat)
    requires goals != []
    ensures HasIndex(goals, index) <==> HasIndex(goals[..|goals| - 1], index) || Last(goals).index == index
  {
    var front := goals[..|goals| - 1];
    if HasIndex(goals, index) && Last(goals).index != index {
      var i :| 0 <= i < |goals| && goals[i].index == index;
      assert front[i].index == index;
    }
    if HasIndex(front, index) {
      var i :| 0 <= i < |front| && front[i].index == index;
      assert goals[i].index == index;
    }
    assert goals[|goals| - 1] == Last(goals);
  }

  lemma UniqueFront(goals: seq<Instruction>)
    requires goals != [] && UniqueIndexes(goals)
    ensures UniqueIndexes(goals[..|goals| - 1]) && !HasIndex(goals[..|goals| - 1], Last(goals).index)
  {
    assert goals[|goals| - 1] == Last(goals);
  }

  lemma SpreadStep(goals: seq<Instruction>, pause: Pause, cost: Amount)
    requires goals != [] && !HasIndex(goals[..|goals| - 1], Last(goals).index)
    requires Spread(goals[..|goals| - 1], pause.goalIndex, cost) == if Owned(goals[..|goals| - 1], pause) then cost else Nothing()
    ensures Spread(goals, pause.goalIndex, cost) == if Owned(goals, pause) then cost else Nothing()
  {
    if pause.goalIndex.Some? { IndexFront(goals, pause.goalIndex.value); }
  }

  lemma {:induction false} SpreadOnce(goals: seq<Instruction>, pause: Pause, cost: Amount)
    requires UniqueIndexes(goals)
    ensures Spread(goals, pause.goalIndex, cost) == if Owned(goals, pause) then cost else Nothing()
  {
    if goals != [] {
      UniqueFront(goals);
      SpreadOnce(goals[..|goals| - 1], pause, cost);
      SpreadStep(goals, pause, cost);
    }
  }

  function InspectedOver(goals: seq<Instruction>, pauses: seq<Pause>): Amount {
    if goals == [] then Nothing()
    else Plus(InspectedOver(goals[..|goals| - 1], pauses), InspectedAt(pauses, Last(goals).index))
  }

  lemma {:induction false} InspectedOverNone(goals: seq<Instruction>)
    ensures InspectedOver(goals, []) == Nothing()
  {
    if goals != [] { InspectedOverNone(goals[..|goals| - 1]); }
  }

  lemma {:induction false} InspectedOverLast(goals: seq<Instruction>, pauses: seq<Pause>)
    requires pauses != []
    ensures InspectedOver(goals, pauses) ==
      Plus(InspectedOver(goals, pauses[..|pauses| - 1]), Spread(goals, Last(pauses).goalIndex, Inspected(Last(pauses).inspections)))
  {
    if goals != [] { InspectedOverLast(goals[..|goals| - 1], pauses); }
  }

  /** With unique indexes, what the stages carry for their judging is what judging the cell cost. */
  lemma {:induction false} InspectionsConserved(goals: seq<Instruction>, pauses: seq<Pause>)
    requires UniqueIndexes(goals)
    ensures InspectedOver(goals, pauses) == InspectionCost(goals, pauses)
  {
    if pauses == [] {
      InspectedOverNone(goals);
    } else {
      InspectionsConserved(goals, pauses[..|pauses| - 1]);
      InspectedOverLast(goals, pauses);
      SpreadOnce(goals, Last(pauses), Inspected(Last(pauses).inspections));
    }
  }

  // ----- stages -----

  function SumReal(shares: seq<real>): real {
    if shares == [] then 0.0 else SumReal(shares[..|shares| - 1]) + shares[|shares| - 1]
  }

  /** What the stages up to one record add up to. */
  function StagesSum(s: State, owns: seq<Amount>, residual: Amount, shares: seq<real>): Amount
    requires |owns| <= |s.goals|
  {
    Plus(
      Plus(Total(owns), if CurrentAt(s) < |owns| then residual else Nothing()),
      Plus(Amount(0, SumReal(shares)), InspectedOver(s.goals[..|owns|], s.pauses)))
  }

  lemma TotalLast(amounts: seq<Amount>, n: nat)
    requires |amounts| == n + 1
    ensures Total(amounts) == Plus(Total(amounts[..n]), amounts[n])
  {
  }

  lemma StagesNone(s: State, owns: seq<Amount>, residual: Amount, shares: seq<real>)
    requires |owns| == |shares| == 0
    ensures Total(Stages(s, owns, residual, shares)) == StagesSum(s, owns, residual, shares)
  {
    assert s.goals[..0] == [];
  }

  lemma StagesPrefix(s: State, owns: seq<Amount>, residual: Amount, shares: seq<real>, n: nat)
    requires n <= |owns| == |shares| <= |s.goals|
    ensures Stages(s, owns, residual, shares)[..n] == Stages(s, owns[..n], residual, shares[..n])
  {
  }

  lemma {:induction false} StagesAdd(s: State, owns: seq<Amount>, residual: Amount, shares: seq<real>)
    requires |owns| == |shares| <= |s.goals|
    ensures Total(Stages(s, owns, residual, shares)) == StagesSum(s, owns, residual, shares)
  {
    if owns == [] {
      StagesNone(s, owns, residual, shares);
    } else {
      var n := |owns| - 1;
      StagesAdd(s, owns[..n], residual, shares[..n]);
      StagesPrefix(s, owns, residual, shares, n);
      TotalLast(Stages(s, owns, residual, shares), n);
      StagesNext(s, owns, residual, shares);
    }
  }

  lemma StagesNext(s: State, owns: seq<Amount>, residual: Amount, shares: seq<real>)
    requires 0 < |owns| == |shares| <= |s.goals|
    ensures var n := |owns| - 1;
      StagesSum(s, owns, residual, shares)
        == Plus(StagesSum(s, owns[..n], residual, shares[..n]), Stage(s, n, owns[n], residual, shares[n]))
  {
    var n := |owns| - 1;
    assert s.goals[..n + 1][..n] == s.goals[..n];
  }

  // ----- shares -----

  function Portion(residual: real, own: real, total: real): real
    requires total != 0.0
  {
    residual * own / total
  }

  lemma PortionAdds(residual: real, a: real, b: real, total: real)
    requires total != 0.0
    ensures Portion(residual, a, total) + Portion(residual, b, total) == Portion(residual, a + b, total)
    ensures Portion(residual, 0.0, total) == 0.0
    ensures Portion(residual, total, total) == residual
  {
  }

  function Portions(residual: real, owns: seq<Amount>, total: real): seq<real>
    requires total != 0.0
  {
    seq(|owns|, i requires 0 <= i < |owns| => Portion(residual, owns[i].elapsed, total))
  }

  lemma {:induction false} PortionsAdd(residual: real, owns: seq<Amount>, total: real)
    requires total != 0.0
    ensures SumReal(Portions(residual, owns, total)) == Portion(residual, Total(owns).elapsed, total)
  {
    if owns == [] {
      PortionAdds(residual, 0.0, 0.0, total);
    } else {
      var n := |owns| - 1;
      PortionsAdd(residual, owns[..n], total);
      PortionsLast(residual, owns, total);
      PortionAdds(residual, Total(owns[..n]).elapsed, owns[n].elapsed, total);
    }
  }

  lemma PortionsLast(residual: real, owns: seq<Amount>, total: real)
    requires total != 0.0 && owns != []
    ensures var n := |owns| - 1;
      SumReal(Portions(residual, owns, total)) == SumReal(Portions(residual, owns[..n], total)) + Portion(residual, owns[n].elapsed, total)
  {
    var n := |owns| - 1;
    assert Portions(residual, owns, total)[..n] == Portions(residual, owns[..n], total);
  }

  lemma {:induction false} NoShares(shares: seq<real>)
    requires forall i | 0 <= i < |shares| :: shares[i] == 0.0
    ensures SumReal(shares) == 0.0
  {
    if shares != [] { NoShares(shares[..|shares| - 1]); }
  }

  /** The shares add up to the whole residual, or to nothing when there is nothing to share it by. */
  lemma SharesAdd(s: State, residual: real, owns: seq<Amount>)
    ensures SumReal(Shares(s, residual, owns)) == if InFlight(s) || Total(owns).elapsed == 0.0 then 0.0 else residual
  {
    var shares, total := Shares(s, residual, owns), Total(owns).elapsed;
    if InFlight(s) || total == 0.0 {
      NoShares(shares);
    } else {
      assert shares == Portions(residual, owns, total);
      PortionsAdd(residual, owns, total);
      PortionAdds(residual, total, 0.0, total);
    }
  }

  // ----- conservation -----

  /** Retained plus residual, where someone can receive it, plus the judging. */
  function Received(owns: Amount, residual: Amount, inFlight: bool, judging: Amount): Amount {
    Plus(
      Amount(owns.tokens + (if inFlight then residual.tokens else 0),
             owns.elapsed + (if inFlight || owns.elapsed != 0.0 then residual.elapsed else 0.0)),
      judging)
  }

  lemma StagesGather(s: State, owns: seq<Amount>, residual: Amount, shares: seq<real>)
    requires |owns| == |shares| == |s.goals|
    ensures Total(Stages(s, owns, residual, shares)) == Plus(
      Plus(Total(owns), if InFlight(s) then residual else Nothing()),
      Plus(Amount(0, SumReal(shares)), InspectedOver(s.goals, s.pauses)))
  {
    StagesAdd(s, owns, residual, shares);
    assert s.goals[..|owns|] == s.goals;
  }

  lemma StagesReceive(s: State, owns: seq<Amount>, residual: Amount)
    requires |owns| == |s.goals| && UniqueIndexes(s.goals)
    ensures Total(Stages(s, owns, residual, Shares(s, residual.elapsed, owns)))
         == Received(Total(owns), residual, InFlight(s), InspectionCost(s.goals, s.pauses))
  {
    InspectionsConserved(s.goals, s.pauses);
    StagesShare(s, owns, residual, InspectionCost(s.goals, s.pauses));
  }

  lemma StagesShare(s: State, owns: seq<Amount>, residual: Amount, judging: Amount)
    requires |owns| == |s.goals| && InspectedOver(s.goals, s.pauses) == judging
    ensures Total(Stages(s, owns, residual, Shares(s, residual.elapsed, owns)))
         == Received(Total(owns), residual, InFlight(s), judging)
  {
    var shares := Shares(s, residual.elapsed, owns);
    StagesGather(s, owns, residual, shares);
    SharesAdd(s, residual.elapsed, owns);
    Rearranged(Total(owns), residual, InFlight(s), SumReal(shares), judging);
  }

  lemma Rearranged(owns: Amount, residual: Amount, inFlight: bool, share: real, judging: Amount)
    requires share == if inFlight || owns.elapsed == 0.0 then 0.0 else residual.elapsed
    ensures Plus(Plus(owns, if inFlight then residual else Nothing()), Plus(Amount(0, share), judging))
         == Received(owns, residual, inFlight, judging)
  {
  }

  /** The residual makes up for what is missing exactly when it can be received, and never for what is too much. */
  lemma Balance(owns: Amount, retained: int, thread: int, inherited: int, totalElapsed: real, inFlight: bool, judging: Amount)
    requires owns.tokens == retained + inherited
    ensures var residual := Amount(
        if thread - retained > 0 then thread - retained else 0,
        if totalElapsed - owns.elapsed > 0.0 then totalElapsed - owns.elapsed else 0.0);
      var stages := Received(owns, residual, inFlight, judging);
      var cell := Plus(Amount(thread + inherited, totalElapsed), judging);
      && (stages.tokens == cell.tokens <==> retained == thread || (retained < thread && inFlight))
      && (stages.elapsed == cell.elapsed <==>
            owns.elapsed == totalElapsed || (owns.elapsed < totalElapsed && (inFlight || owns.elapsed != 0.0)))
  {
  }

  /**
   Conservation. The stage tokens add up to the cell's exactly when nothing is left
   over, or the retained tokens do not exceed the thread's and a stage is in flight;
   the stage times likewise, where without a stage in flight some time was retained.
   */
  lemma StagesConserveTheCell(s: State, totalElapsed: real, detached: bool, suspensions: seq<Suspension>)
    requires UniqueIndexes(s.goals) && Correctable(s, suspensions)
    ensures var retained := RetainedTokens(s, s.goals, detached);
      var spent := Total(Owns(s, suspensions)).elapsed;
      var stages := Total(StageMeasurements(s, totalElapsed, detached, suspensions).value);
      var cell := CellTotal(s, totalElapsed, detached);
      && (stages.tokens == cell.tokens <==>
            retained == s.thread.total || (retained < s.thread.total && InFlight(s)))
      && (stages.elapsed == cell.elapsed <==>
            spent == totalElapsed || (spent < totalElapsed && (InFlight(s) || spent != 0.0)))
  {
    var owns := Owns(s, suspensions);
    var residual := Residual(s, totalElapsed, detached, suspensions);
    StagesReceive(s, owns, residual);
    TokensSplit(s, s.goals, detached, owns);
    Balance(
      Total(owns), RetainedTokens(s, s.goals, detached), s.thread.total, InheritedUsage(s, s.goals, detached).total,
      totalElapsed, InFlight(s), InspectionCost(s.goals, s.pauses));
  }
}
