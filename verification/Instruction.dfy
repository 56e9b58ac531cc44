/**
 The objective plan of a run: a frozen base sequence per arm, into which failed
 Plain reviews insert reminders. A stage name and an instruction path are
 modelled by the parts they are composed of.
 */
module Instruction {
  import opened Prelude

  datatype Arm = PlainArm | EvidenceArm

  datatype Scope = Backend | Frontend | Overall

  datatype StageName = Start(scope: Scope) | Review(scope: Scope) | Remind(scope: Scope, attempt: nat) | Final(scope: Scope)

  datatype Document = StartDocument | ReviewDocument | RemindDocument | FinalDocument

  datatype InstructionPath = InstructionPath(arm: Arm, scope: Scope, document: Document)

  datatype Kind = Base | Supplement

  datatype PlanEntry = PlanEntry(
    name: StageName, path: InstructionPath, kind: Kind,
    reviewScope: Option<Scope>, reviewAttempt: Option<nat>, feedback: Option<string>)

  type Plan = seq<PlanEntry>

  const REVIEW_SUPPLEMENT_LIMIT: nat := 4

  function DocumentOf(name: StageName): Document {
    match name
    case Start(_) => StartDocument
    case Review(_) => ReviewDocument
    case Remind(_, _) => RemindDocument
    case Final(_) => FinalDocument
  }

  function BaseEntry(arm: Arm, name: StageName): PlanEntry {
    PlanEntry(name, InstructionPath(arm, name.scope, DocumentOf(name)), Base, None, None, None)
  }

  /** The reminder a failed review inserts; it never carries feedback. */
  function Reminder(scope: Scope, attempt: nat): PlanEntry {
    PlanEntry(
      Remind(scope, attempt), InstructionPath(PlainArm, scope, RemindDocument), Supplement,
      Some(scope), Some(attempt), None)
  }

  /** The frozen base sequence; only Plain reviews the whole. */
  function BasePlan(arm: Arm): Plan {
    [BaseEntry(arm, Start(Backend)), BaseEntry(arm, Review(Backend)), BaseEntry(arm, Final(Backend)),
     BaseEntry(arm, Start(Frontend)), BaseEntry(arm, Review(Frontend)), BaseEntry(arm, Final(Frontend))]
    + (if arm == PlainArm then [BaseEntry(arm, Review(Overall))] else [])
    + [BaseEntry(arm, Final(Overall))]
  }

  datatype Boundary = NotReview | ReviewBoundary(scope: Scope, attempt: nat) | Malformed

  /** The verdict boundary an entry ends at; Malformed where the original throws. */
  function BoundaryOf(entry: PlanEntry): Boundary {
    if entry.kind == Supplement then
      if entry.reviewScope.None? || entry.reviewAttempt.None?
        || entry.reviewAttempt.value < 1 || entry.reviewAttempt.value > REVIEW_SUPPLEMENT_LIMIT
      then Malformed
      else ReviewBoundary(entry.reviewScope.value, entry.reviewAttempt.value)
    else if entry.name.Review? then ReviewBoundary(entry.name.scope, 0)
    else NotReview
  }

  // ----- the plans a Plain run can reach -----

  /** How many reminders each scope has received. */
  datatype Reminders = Reminders(backend: nat, frontend: nat, overall: nat)

  predicate Bounded(r: Reminders) {
    && r.backend <= REVIEW_SUPPLEMENT_LIMIT
    && r.frontend <= REVIEW_SUPPLEMENT_LIMIT
    && r.overall <= REVIEW_SUPPLEMENT_LIMIT
  }

  function Count(r: Reminders, scope: Scope): nat {
    match scope
    case Backend => r.backend
    case Frontend => r.frontend
    case Overall => r.overall
  }

  function PlanLength(r: Reminders): nat {
    8 + r.backend + r.frontend + r.overall
  }

  function EntryAt(r: Reminders, i: nat): PlanEntry {
    var b, f := r.backend, r.frontend;
    if i == 0 then BaseEntry(PlainArm, Start(Backend))
    else if i == 1 then BaseEntry(PlainArm, Review(Backend))
    else if i < 2 + b then Reminder(Backend, i - 1)
    else if i == 2 + b then BaseEntry(PlainArm, Final(Backend))
    else if i == 3 + b then BaseEntry(PlainArm, Start(Frontend))
    else if i == 4 + b then BaseEntry(PlainArm, Review(Frontend))
    else if i < 5 + b + f then Reminder(Frontend, i - 4 - b)
    else if i == 5 + b + f then BaseEntry(PlainArm, Final(Frontend))
    else if i == 6 + b + f then BaseEntry(PlainArm, Review(Overall))
    else if i < 7 + b + f + r.overall then Reminder(Overall, i - 6 - b - f)
    else BaseEntry(PlainArm, Final(Overall))
  }

  /** The base plan with each scope's reminders, numbered from one, before its Final. */
  function AdaptivePlan(r: Reminders): Plan {
    seq(PlanLength(r), i => if i >= 0 then EntryAt(r, i) else EntryAt(r, 0))
  }

  lemma AdaptivePlanStartsAsBase()
    ensures AdaptivePlan(Reminders(0, 0, 0)) == BasePlan(PlainArm)
  {
  }

  // ----- review boundaries, in plan order -----

  datatype Stop = Stop(scope: Scope, attempt: nat, goalIndex: nat)

  function StopCount(r: Reminders): nat {
    3 + r.backend + r.frontend + r.overall
  }

  function StopAt(r: Reminders, j: nat): Stop {
    if j <= r.backend then Stop(Backend, j, j + 1)
    else if j <= r.backend + 1 + r.frontend then Stop(Frontend, j - r.backend - 1, j + 3)
    else if j <= r.backend + r.frontend + r.overall + 2 then Stop(Overall, j - r.backend - r.frontend - 2, j + 4)
    else Stop(Overall, 0, 0)
  }

  lemma StopIsBoundary(r: Reminders, j: nat)
    requires Bounded(r) && j < StopCount(r)
    ensures var stop := StopAt(r, j);
      && stop.goalIndex < PlanLength(r) - 1
      && BoundaryOf(EntryAt(r, stop.goalIndex)) == ReviewBoundary(stop.scope, stop.attempt)
      && EntryAt(r, stop.goalIndex + 1) ==
           (if stop.attempt < Count(r, stop.scope) then Reminder(stop.scope, stop.attempt + 1)
            else BaseEntry(PlainArm, Final(stop.scope)))
      && (stop.attempt > 0 ==> j > 0 && StopAt(r, j - 1) == Stop(stop.scope, stop.attempt - 1, stop.goalIndex - 1))
  {
  }

  /** The stop a plan position carries. */
  function StopIndex(r: Reminders, i: nat): nat {
    if i <= 1 + r.backend then if i == 0 then 0 else i - 1
    else if i <= 4 + r.backend + r.frontend then if i < 4 then 0 else i - 3
    else if i < 4 then 0 else i - 4
  }

  lemma BoundaryIsStop(r: Reminders, i: nat)
    requires Bounded(r) && i < PlanLength(r)
    ensures BoundaryOf(EntryAt(r, i)) != Malformed
    ensures BoundaryOf(EntryAt(r, i)).ReviewBoundary? <==>
      exists j: nat | j < StopCount(r) :: StopAt(r, j).goalIndex == i
    ensures BoundaryOf(EntryAt(r, i)).ReviewBoundary? ==>
      StopIndex(r, i) < StopCount(r) && StopAt(r, StopIndex(r, i)).goalIndex == i
  {
    if BoundaryOf(EntryAt(r, i)).ReviewBoundary? {
      assert StopAt(r, StopIndex(r, i)).goalIndex == i;
    }
  }

  lemma StopsAscend(r: Reminders, j: nat, k: nat)
    requires j < k < StopCount(r)
    ensures StopAt(r, j).goalIndex < StopAt(r, k).goalIndex
  {
  }

  /** Inserts at a position, as `splice(position, 0, entry)`. */
  function Insert(plan: Plan, position: nat, entry: PlanEntry): Plan
    requires position <= |plan|
  {
    plan[..position] + [entry] + plan[position..]
  }

  function Reminded(r: Reminders, scope: Scope): Reminders {
    match scope
    case Backend => r.(backend := r.backend + 1)
    case Frontend => r.(frontend := r.frontend + 1)
    case Overall => r.(overall := r.overall + 1)
  }

  lemma RemindedEntries(r: Reminders, j: nat, i: nat)
    requires j < StopCount(r) && StopAt(r, j).attempt == Count(r, StopAt(r, j).scope)
    ensures var stop := StopAt(r, j);
      EntryAt(Reminded(r, stop.scope), i) ==
        (if i <= stop.goalIndex then EntryAt(r, i)
         else if i == stop.goalIndex + 1 then Reminder(stop.scope, stop.attempt + 1)
         else EntryAt(r, i - 1))
  {
  }

  lemma RemindedStops(r: Reminders, j: nat, i: nat)
    requires i <= j < StopCount(r) && StopAt(r, j).attempt == Count(r, StopAt(r, j).scope)
    ensures var stop := StopAt(r, j);
      && StopAt(Reminded(r, stop.scope), i) == StopAt(r, i)
      && StopAt(Reminded(r, stop.scope), j + 1) == Stop(stop.scope, stop.attempt + 1, stop.goalIndex + 1)
  {
  }

  /** Inserting the next reminder before the scope's Final stays within the adaptive plans. */
  lemma InsertReminder(r: Reminders, j: nat)
    requires j < StopCount(r) && StopAt(r, j).attempt == Count(r, StopAt(r, j).scope)
    requires StopAt(r, j).goalIndex < PlanLength(r)
    ensures var stop := StopAt(r, j);
      Insert(AdaptivePlan(r), stop.goalIndex + 1, Reminder(stop.scope, stop.attempt + 1))
        == AdaptivePlan(Reminded(r, stop.scope))
  {
    var stop := StopAt(r, j);
    var plan := AdaptivePlan(r);
    var inserted := Insert(plan, stop.goalIndex + 1, Reminder(stop.scope, stop.attempt + 1));
    var expected := AdaptivePlan(Reminded(r, stop.scope));
    forall i | 0 <= i < |inserted| ensures i < |expected| && inserted[i] == expected[i] {
      RemindedEntries(r, j, i);
    }
  }
}
