/**
 A bounded pool of lanes over a shared cursor. Between two awaits a lane runs
 alone, so a schedule is any sequence of lane numbers.
 */
module FanOut {
  import opened Prelude

  datatype Lane = Waiting | Working(index: nat) | Finished

  datatype Pool<R> = Pool(next: nat, lanes: seq<Lane>, results: map<nat, R>)

  function LaneCount(outer: nat, items: nat): (count: nat)
    ensures outer >= 1 && items >= 1 ==> count <= outer && count <= items && (count == outer || count == items)
    ensures outer == 0 || items == 0 ==> count == 1
  {
    var least := if outer < items then outer else items;
    if least < 1 then 1 else least
  }

  function Start<R>(outer: nat, items: nat): Pool<R> {
    Pool(0, seq(LaneCount(outer, items), _ => Waiting), map[])
  }

  /** A waiting lane claims the next item or finishes; a working lane stores its result. */
  function Step<T, R>(pool: Pool<R>, lane: nat, items: seq<T>, fn: T -> R): Pool<R> {
    if lane >= |pool.lanes| then pool
    else
      match pool.lanes[lane]
      case Waiting =>
        if pool.next < |items| then pool.(next := pool.next + 1, lanes := pool.lanes[lane := Working(pool.next)])
        else pool.(lanes := pool.lanes[lane := Finished])
      case Working(i) =>
        if i < |items| then pool.(lanes := pool.lanes[lane := Waiting], results := pool.results[i := fn(items[i])]) else pool
      case Finished => pool
  }

  function Run<T, R>(outer: nat, items: seq<T>, fn: T -> R, schedule: seq<nat>): Pool<R> {
    if schedule == [] then Start(outer, |items|)
    else Step(Run(outer, items, fn, schedule[..|schedule| - 1]), Last(schedule), items, fn)
  }

  // ----- safety -----

  predicate Holds<R>(pool: Pool<R>, lane: nat, i: nat)
    requires lane < |pool.lanes|
  {
    pool.lanes[lane] == Working(i)
  }

  predicate InFlight<R>(pool: Pool<R>, i: nat) {
    exists lane | 0 <= lane < |pool.lanes| :: Holds(pool, lane, i)
  }

  ghost predicate Ok<T, R>(pool: Pool<R>, items: seq<T>, fn: T -> R) {
    && pool.lanes != [] && pool.next <= |items|
    && (forall i | i in pool.results :: i < pool.next && pool.results[i] == fn(items[i]))
    && (forall i: nat | i < pool.next :: i in pool.results <==> !InFlight(pool, i))
    && (forall lane, i: nat | 0 <= lane < |pool.lanes| && Holds(pool, lane, i) :: i < pool.next)
    && (forall a, b, i: nat | 0 <= a < |pool.lanes| && 0 <= b < |pool.lanes| && Holds(pool, a, i) && Holds(pool, b, i) :: a == b)
    && (forall lane | 0 <= lane < |pool.lanes| && pool.lanes[lane] == Finished :: pool.next == |items|)
  }

  lemma ClaimKeeps<T, R>(pool: Pool<R>, lane: nat, items: seq<T>, fn: T -> R)
    requires Ok(pool, items, fn) && lane < |pool.lanes| && pool.lanes[lane] == Waiting && pool.next < |items|
    ensures Ok(Step(pool, lane, items, fn), items, fn)
  {
    var after := Step(pool, lane, items, fn);
    forall i: nat | i < after.next ensures i in after.results <==> !InFlight(after, i) {
      if i == pool.next {
        assert Holds(after, lane, i);
      } else {
        assert forall a | 0 <= a < |pool.lanes| :: Holds(after, a, i) <==> Holds(pool, a, i);
      }
    }
    forall a, i: nat | 0 <= a < |after.lanes| && Holds(after, a, i) ensures i < after.next {
      assert a == lane || Holds(pool, a, i);
    }
    forall a, b, i: nat | 0 <= a < |after.lanes| && 0 <= b < |after.lanes| && Holds(after, a, i) && Holds(after, b, i)
      ensures a == b
    {
      assert a == lane || Holds(pool, a, i);
      assert b == lane || Holds(pool, b, i);
    }
  }

  lemma StoreKeeps<T, R>(pool: Pool<R>, lane: nat, items: seq<T>, fn: T -> R)
    requires Ok(pool, items, fn) && lane < |pool.lanes| && pool.lanes[lane].Working?
    ensures Ok(Step(pool, lane, items, fn), items, fn)
  {
    var after := Step(pool, lane, items, fn);
    var held := pool.lanes[lane].index;
    assert Holds(pool, lane, held);
    forall i: nat | i < after.next ensures i in after.results <==> !InFlight(after, i) {
      if InFlight(after, i) {
        var a :| 0 <= a < |after.lanes| && Holds(after, a, i);
        assert Holds(pool, a, i);
        assert InFlight(pool, i);
      } else if InFlight(pool, i) && i != held {
        var a :| 0 <= a < |pool.lanes| && Holds(pool, a, i);
        assert Holds(after, a, i);
      }
    }
    forall a, i: nat | 0 <= a < |after.lanes| && Holds(after, a, i) ensures Holds(pool, a, i) {
    }
  }

  lemma StepKeeps<T, R>(pool: Pool<R>, lane: nat, items: seq<T>, fn: T -> R)
    requires Ok(pool, items, fn)
    ensures Ok(Step(pool, lane, items, fn), items, fn)
  {
    if lane < |pool.lanes| {
      if pool.lanes[lane].Working? {
        StoreKeeps(pool, lane, items, fn);
      } else if pool.lanes[lane] == Waiting && pool.next < |items| {
        ClaimKeeps(pool, lane, items, fn);
      } else {
        var after := Step(pool, lane, items, fn);
        forall a, i: nat | 0 <= a < |pool.lanes| ensures Holds(after, a, i) <==> Holds(pool, a, i) {
        }
        assert forall i: nat :: InFlight(after, i) <==> InFlight(pool, i);
      }
    }
  }

  /** Under every schedule: finished and in-flight items are exactly those below the cursor, each held by one lane. */
  lemma {:induction false} RunOk<T, R>(outer: nat, items: seq<T>, fn: T -> R, schedule: seq<nat>)
    ensures Ok(Run(outer, items, fn, schedule), items, fn)
    ensures |Run(outer, items, fn, schedule).lanes| == LaneCount(outer, |items|)
  {
    if schedule != [] {
      RunOk(outer, items, fn, schedule[..|schedule| - 1]);
      StepKeeps(Run(outer, items, fn, schedule[..|schedule| - 1]), Last(schedule), items, fn);
    }
  }

  // ----- every item is claimed once -----

  /** How often the schedule's steps claim an item. */
  function Claims<T, R>(outer: nat, items: seq<T>, fn: T -> R, schedule: seq<nat>, i: nat): nat {
    if schedule == [] then 0
    else
      var before := Run(outer, items, fn, schedule[..|schedule| - 1]);
      var lane := Last(schedule);
      var here := if lane < |before.lanes| && before.lanes[lane] == Waiting && before.next < |items| && before.next == i then 1 else 0;
      Claims(outer, items, fn, schedule[..|schedule| - 1], i) + here
  }

  lemma {:induction false} ClaimedOnce<T, R>(outer: nat, items: seq<T>, fn: T -> R, schedule: seq<nat>, i: nat)
    ensures Claims(outer, items, fn, schedule, i) == if i < Run(outer, items, fn, schedule).next then 1 else 0
  {
    if schedule != [] {
      ClaimedOnce(outer, items, fn, schedule[..|schedule| - 1], i);
    }
  }

  // ----- progress -----

  /** The steps a lane still takes: one to finish, one more to store what it works on. */
  function Weight(lane: Lane): nat {
    match lane case Waiting => 1 case Working(_) => 2 case Finished => 0
  }

  function Unfinished(lanes: seq<Lane>): nat {
    if lanes == [] then 0
    else Unfinished(lanes[..|lanes| - 1]) + Weight(Last(lanes))
  }

  /** What is left to do: two steps per unclaimed item, and those of the lanes. */
  function Remaining<R>(pool: Pool<R>, items: nat): int {
    2 * (items - pool.next) + Unfinished(pool.lanes)
  }

  predicate Enabled<R>(pool: Pool<R>, lane: nat) {
    lane < |pool.lanes| && pool.lanes[lane] != Finished
  }

  lemma {:induction false} UnfinishedUpdate(lanes: seq<Lane>, at: nat, lane: Lane)
    requires at < |lanes|
    ensures Unfinished(lanes[at := lane]) == Unfinished(lanes) - Weight(lanes[at]) + Weight(lane)
  {
    var front := lanes[..|lanes| - 1];
    if at == |lanes| - 1 {
      assert lanes[at := lane][..at] == front;
    } else {
      UnfinishedUpdate(front, at, lane);
      assert lanes[at := lane][..|lanes| - 1] == front[at := lane];
    }
  }

  /** Every step of an unfinished lane does exactly one unit of the remaining work; other steps do nothing. */
  lemma StepWorks<T, R>(pool: Pool<R>, lane: nat, items: seq<T>, fn: T -> R)
    requires Ok(pool, items, fn)
    ensures Remaining(Step(pool, lane, items, fn), |items|) == Remaining(pool, |items|) - (if Enabled(pool, lane) then 1 else 0)
    ensures !Enabled(pool, lane) ==> Step(pool, lane, items, fn) == pool
  {
    if Enabled(pool, lane) {
      match pool.lanes[lane] {
        case Waiting =>
          UnfinishedUpdate(pool.lanes, lane, if pool.next < |items| then Working(pool.next) else Finished);
        case Working(i) =>
          assert Holds(pool, lane, i);
          UnfinishedUpdate(pool.lanes, lane, Waiting);
      }
    }
  }

  lemma {:induction false} AllWaiting(n: nat)
    ensures Unfinished(seq(n, _ => Waiting)) == n
  {
    if n > 0 {
      AllWaiting(n - 1);
      var lanes := seq(n, _ => Waiting);
      assert lanes[..n - 1] == seq(n - 1, _ => Waiting);
    }
  }

  /** How many steps of a schedule meet an unfinished lane. */
  function Effective<T, R>(outer: nat, items: seq<T>, fn: T -> R, schedule: seq<nat>): nat {
    if schedule == [] then 0
    else
      var before := Run(outer, items, fn, schedule[..|schedule| - 1]);
      Effective(outer, items, fn, schedule[..|schedule| - 1]) + (if Enabled(before, Last(schedule)) then 1 else 0)
  }

  /** Effective steps are bounded: what is done and what remains always add up to two per item and one per lane. */
  lemma {:induction false} WorkConserved<T, R>(outer: nat, items: seq<T>, fn: T -> R, schedule: seq<nat>)
    ensures Effective(outer, items, fn, schedule) + Remaining(Run(outer, items, fn, schedule), |items|)
         == 2 * |items| + LaneCount(outer, |items|)
  {
    if schedule == [] {
      AllWaiting(LaneCount(outer, |items|));
    } else {
      WorkConserved(outer, items, fn, schedule[..|schedule| - 1]);
      RunOk(outer, items, fn, schedule[..|schedule| - 1]);
      StepWorks(Run(outer, items, fn, schedule[..|schedule| - 1]), Last(schedule), items, fn);
    }
  }

  predicate Complete<R>(pool: Pool<R>) {
    forall lane | 0 <= lane < |pool.lanes| :: pool.lanes[lane] == Finished
  }

  lemma {:induction false} NothingUnfinished(lanes: seq<Lane>)
    ensures Unfinished(lanes) == 0 <==> forall i | 0 <= i < |lanes| :: lanes[i] == Finished
  {
    if lanes != [] {
      NothingUnfinished(lanes[..|lanes| - 1]);
      assert forall i | 0 <= i < |lanes| - 1 :: lanes[i] == lanes[..|lanes| - 1][i];
      assert lanes[|lanes| - 1] == Last(lanes);
    }
  }

  /** A schedule completes the pool exactly when it has done all the work; then the results map every item in order. */
  lemma CompletionMapsAll<T, R>(outer: nat, items: seq<T>, fn: T -> R, schedule: seq<nat>)
    ensures var pool := Run(outer, items, fn, schedule);
      && (Complete(pool) <==> Effective(outer, items, fn, schedule) == 2 * |items| + LaneCount(outer, |items|))
      && (Complete(pool) ==>
            && (forall i: nat :: i in pool.results <==> i < |items|)
            && forall i | 0 <= i < |items| :: pool.results[i] == fn(items[i]))
  {
    var pool := Run(outer, items, fn, schedule);
    RunOk(outer, items, fn, schedule);
    WorkConserved(outer, items, fn, schedule);
    NothingUnfinished(pool.lanes);
    if Complete(pool) {
      assert pool.lanes[0] == Finished;
      forall i: nat | i < |items| ensures i in pool.results {
        assert !InFlight(pool, i);
      }
    }
  }

  // ----- the shared variables -----

  /** The cursor and the results every lane shares, and where each lane stands. */
  class Lanes<T, R> {
    const items: seq<T>
    const fn: T -> R
    var next: nat
    var lanes: seq<Lane>
    var results: map<nat, R>

    function Contents(): Pool<R>
      reads this
    {
      Pool(next, lanes, results)
    }

    constructor (outer: nat, all: seq<T>, f: T -> R)
      ensures items == all && fn == f && Contents() == Start(outer, |all|)
    {
      items, fn := all, f;
      next, results := 0, map[];
      lanes := seq(LaneCount(outer, |all|), _ => Waiting);
    }

    method Advance(lane: nat)
      modifies this
      ensures Contents() == Step(old(Contents()), lane, items, fn)
    {
      if lane >= |lanes| { return; }
      match lanes[lane] {
        case Waiting =>
          if next < |items| {
            var i := next;
            next := next + 1;
            lanes := lanes[lane := Working(i)];
          } else {
            lanes := lanes[lane := Finished];
          }
        case Working(i) =>
          if i < |items| {
            results := results[i := fn(items[i])];
            lanes := lanes[lane := Waiting];
          }
        case Finished =>
      }
    }
  }
}
