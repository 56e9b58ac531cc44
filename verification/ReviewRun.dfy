/**
 Runs of the review protocol: the ledger in memory, the last one published to
 disk, and a workspace that anyone may write between two atomic steps. The
 runner may die at any step and resume from the disk.
 */
module ReviewRun {
  import opened Prelude
  import opened ReviewWorkspace
  import opened ReviewProtocol

  /** What the runner is suspended on between two atomic steps. */
  datatype Pending =
    | Idle
    | Settling                                       // a reply waits for its publication
    | BreakPrepared(plan: EditPlan, published: bool) // a break waits for its snapshot to be retained
    | CommandRunning

  /**
   `memory` is the live ledger, `disk` the last one published. `broken` names
   the scoped path the runner's break, or a roll-back of it, may have changed
   since the workspace was last seen at the baseline; it is history only, and no
   step reads it.
   */
  datatype State = State(
    ws: Workspace, memory: Ledger, disk: Ledger, pending: Pending, clock: nat, broken: set<string>)

  datatype Action =
    | CallStartRound
    | CallReadFile(path: string, observed: string)
    | CallFinishRound(verdict: RoundStatus, findings: seq<string>)
    | CallStartCalibration
    | CallEdit(request: EditRequest)
    | WriteBreak
    | CallCommand(tool: Tool, phase: CommandPhase)
    | CommandFinished(result: ProcessResult)
    | CallAborted                      // the awaited publication or process failed
    | Publish                          // the memory ledger reaches the disk
    | Crash                            // the runner dies and resumes from the disk
    | CrashWriting(during: Action, undoing: bool, stage: WriteStage) // it dies inside a write that step makes
    | Environment(after: Workspace)    // anyone else writes the workspace

  // ----- effects on the workspace -----

  datatype Restoration = Restored(ws: Workspace) | RestoreFailed(ws: Workspace)

  /** Rolls a calibration's break back to the exact sealed manifest. */
  function RestoreCalibration(ws: Workspace, c: Calibration): Restoration {
    match ManifestOf(ws)
    case None => RestoreFailed(ws)
    case Some(current) =>
      if current == c.baseline then Restored(ws)
      else
        match c.snapshot
        case None => RestoreFailed(ws)
        case Some(snapshot) =>
          if !Editable(ws, snapshot.path) then RestoreFailed(ws)
          else
            match WriteEdit(ws, snapshot.path, snapshot.original)
            case None => RestoreFailed(ws)
            case Some(written) =>
              if ManifestOf(written) == Some(c.baseline) then Restored(written) else RestoreFailed(written)
  }

  datatype Write = Written(ws: Workspace) | Undone(ws: Workspace) | Torn(ws: Workspace)

  /** Writes a plan; undoes it when the manifest cannot be taken or misses what the plan must reproduce. */
  function WritePlan(ws: Workspace, plan: EditPlan, mustMatch: Option<Manifest>): Write {
    var written := WriteEdit(ws, plan.path, plan.after);
    var left := if written.None? then ws else written.value;
    var taken := if written.None? then None else ManifestOf(left);
    if taken.None? || (mustMatch.Some? && taken != mustMatch) then
      match WriteEdit(left, plan.path, plan.before)
      case None => Torn(left)
      case Some(undone) => Undone(undone)
    else Written(left)
  }

  // ----- steps -----

  function Initial(ws: Workspace): State {
    var empty := Ledger([], [], [], []);
    State(ws, empty, empty, Idle, 1, {})
  }

  function Settle(s: State, answer: Answer): State {
    s.(memory := answer.ledger, pending := Settling)
  }

  /** The roll-back a new calibration owes to an unfinished one; without that debt nothing is touched. */
  function Rollback(s: State, owed: bool): Restoration {
    if owed && s.memory.calibrations != [] then RestoreCalibration(s.ws, Last(s.memory.calibrations))
    else RestoreFailed(s.ws)
  }

  function DoStartCalibration(s: State): State {
    var taken := ManifestOf(s.ws);
    var rollback := Rollback(s, NeedsRollback(s.memory, taken));
    var answer := StartCalibration(s.memory, taken, rollback.Restored?, s.clock);
    Settle(s, answer).(ws := rollback.ws, broken := if answer.reply == Success then {} else s.broken)
  }

  /** An edit that is written at once: a correction or a restore. */
  function DoWrite(s: State, plan: EditPlan): State
    requires s.memory.rounds != []
    requires plan.phase != Correction ==> s.memory.calibrations != []
  {
    var mustMatch := if plan.phase == Restore then Some(Last(s.memory.calibrations).baseline) else None;
    match WritePlan(s.ws, plan, mustMatch)
    case Torn(left) => s.(ws := left, pending := Settling)
    case Undone(left) => s.(ws := left, memory := RejectEdit(s.memory, plan), pending := Settling)
    case Written(left) =>
      s.(ws := left, memory := RecordEdit(s.memory, plan), pending := Settling,
         broken := if plan.phase == Restore then {}
                   else if plan.phase == Break && Scoped(plan.path) then {plan.path}
                   else s.broken)
  }

  function DoEdit(s: State, request: EditRequest): State {
    match DecideEdit(
      s.memory, ManifestOf(s.ws), Editable(s.ws, request.path), Lookup(s.ws, request.path), request)
    case Rejected(answer) => Settle(s, answer)
    case Accepted(plan) =>
      if plan.phase == Break then
        s.(memory := StoreSnapshot(s.memory, plan), pending := BreakPrepared(plan, false), broken := {})
      else DoWrite(s, plan)
  }

  function DoWriteBreak(s: State): State {
    if s.pending.BreakPrepared? && s.pending.published && s.memory.rounds != [] && s.memory.calibrations != []
    then DoWrite(s, s.pending.plan)
    else s
  }

  function DoCommand(s: State, tool: Tool, phase: CommandPhase): State {
    var answer := BeginCommand(s.memory, ManifestOf(s.ws), s.clock, tool, phase);
    Settle(s, answer).(pending := if answer.reply == Success then CommandRunning else Settling)
  }

  function DoCommandFinished(s: State, result: ProcessResult): State {
    if s.pending != CommandRunning || s.memory.commands == [] then s
    else
      var status := FinishedStatus(Last(s.memory.commands).tool, Last(s.memory.commands).phase, result);
      var rollback := Rollback(s, BreakUndetected(s.memory, status));
      Settle(s, CompleteCommand(s.memory, s.clock, status, rollback.Restored?))
        .(ws := rollback.ws, broken := if rollback.Restored? then {} else s.broken)
  }

  function DoPublish(s: State): State {
    s.(disk := s.memory,
       pending := match s.pending
                  case Settling => Idle
                  case BreakPrepared(plan, _) => BreakPrepared(plan, true)
                  case other => other)
  }

  // ----- dying inside a write -----

  /** The workspace at a stage of a plan's write, or of the write that undoes it where one does. */
  function PlanAt(ws: Workspace, plan: EditPlan, mustMatch: Option<Manifest>, undoing: bool, stage: WriteStage): Workspace {
    if !undoing then WriteAt(ws, plan.path, plan.after, stage)
    else
      var left := WriteAt(ws, plan.path, plan.after, Complete);
      if WritePlan(ws, plan, mustMatch).Written? then left else WriteAt(left, plan.path, plan.before, stage)
  }

  /** The workspace at a stage of the write a roll-back makes, where it makes one. */
  function RestoreAt(ws: Workspace, c: Calibration, stage: WriteStage): Workspace {
    if ManifestOf(ws).None? || ManifestOf(ws) == Some(c.baseline) || c.snapshot.None? || !Editable(ws, c.snapshot.value.path)
    then ws
    else WriteAt(ws, c.snapshot.value.path, c.snapshot.value.original, stage)
  }

  /** The plan a step is about to write, and the manifest it must reproduce. */
  function PlanOf(s: State, during: Action): Option<(EditPlan, Option<Manifest>)> {
    match during
    case WriteBreak =>
      if s.pending.BreakPrepared? && s.pending.published && s.memory.rounds != [] && s.memory.calibrations != []
      then Some((s.pending.plan, None)) else None
    case CallEdit(request) =>
      if s.pending != Idle then None
      else
        (match DecideEdit(
           s.memory, ManifestOf(s.ws), Editable(s.ws, request.path), Lookup(s.ws, request.path), request)
         case Rejected(_) => None
         case Accepted(plan) =>
           if plan.phase == Break then None
           else Some((plan, if plan.phase == Restore then Some(Last(s.memory.calibrations).baseline) else None)))
    case _ => None
  }

  /** Whether a step is about to roll the last calibration back. */
  predicate RollsBack(s: State, during: Action) {
    && s.memory.calibrations != []
    && match during
       case CallStartCalibration => s.pending == Idle && NeedsRollback(s.memory, ManifestOf(s.ws))
       case CommandFinished(result) =>
         && s.pending == CommandRunning && s.memory.commands != []
         && BreakUndetected(
              s.memory, FinishedStatus(Last(s.memory.commands).tool, Last(s.memory.commands).phase, result))
       case _ => false
  }

  /** What of the workspace is there when the runner dies inside a write of a step. */
  function TornWorkspace(s: State, during: Action, undoing: bool, stage: WriteStage): Workspace {
    var plan := PlanOf(s, during);
    if plan.Some? then PlanAt(s.ws, plan.value.0, plan.value.1, undoing, stage)
    else if RollsBack(s, during) then RestoreAt(s.ws, Last(s.memory.calibrations), stage)
    else s.ws
  }

  /** The scoped path of the break that may have been written by then. */
  function TornBreak(s: State, during: Action): set<string> {
    if during.WriteBreak? && PlanOf(s, during).Some? && Scoped(PlanOf(s, during).value.0.path)
    then {PlanOf(s, during).value.0.path}
    else if RollsBack(s, during) && Last(s.memory.calibrations).snapshot.Some?
      && Scoped(Last(s.memory.calibrations).snapshot.value.path)
    then {Last(s.memory.calibrations).snapshot.value.path}
    else s.broken
  }

  function DoCrashWriting(s: State, during: Action, undoing: bool, stage: WriteStage): State {
    s.(ws := TornWorkspace(s, during, undoing, stage), broken := TornBreak(s, during), memory := s.disk, pending := Idle)
  }

  /** A tool call; one is served only when the previous one has settled. */
  function DoCall(s: State, action: Action): State {
    match action
    case CallStartRound => Settle(s, StartRound(s.memory, ManifestOf(s.ws), s.clock))
    case CallReadFile(path, observed) => Settle(s, ReadFile(s.memory, ManifestOf(s.ws), s.clock, path, observed))
    case CallFinishRound(verdict, findings) =>
      Settle(s, FinishRound(s.memory, ManifestOf(s.ws), s.clock, verdict, findings))
    case CallStartCalibration => DoStartCalibration(s)
    case CallEdit(request) => DoEdit(s, request)
    case CallCommand(tool, phase) => DoCommand(s, tool, phase)
    case _ => s
  }

  function Act(s: State, action: Action): State {
    match action
    case Environment(after) => s.(ws := after)
    case Crash => s.(memory := s.disk, pending := Idle)
    case CrashWriting(during, undoing, stage) => DoCrashWriting(s, during, undoing, stage)
    case Publish => DoPublish(s)
    case WriteBreak => DoWriteBreak(s)
    case CommandFinished(result) => DoCommandFinished(s, result)
    case CallAborted =>
      if s.pending == CommandRunning || s.pending.BreakPrepared? then s.(pending := Settling) else s
    case _ => if s.pending == Idle then DoCall(s, action) else s
  }

  /** One step; an action that is not possible only lets time pass. */
  function Step(s: State, action: Action): State {
    Act(s, action).(clock := s.clock + 1)
  }

  function Run(s: State, actions: seq<Action>): State
    decreases |actions|
  {
    if actions == [] then s else Step(Run(s, actions[..|actions| - 1]), Last(actions))
  }
}
