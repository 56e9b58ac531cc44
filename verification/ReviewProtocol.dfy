/**
 The backend review protocol's ledger: rounds, calibrations, edits and gate
 commands. Every tool call is a function of the ledger, of the manifest it took
 from the workspace (None when taking it threw) and of a tick of a strictly
 increasing clock.
 */
module ReviewProtocol {
  import opened Prelude
  import opened ReviewWorkspace
  import opened ReviewText

  datatype Read = Read(path: string, content: string, readAt: nat)

  datatype RoundStatus = Reading | Findings | Clean | Dry | InvalidRound

  datatype Round = Round(
    index: nat, startedAt: nat, manifest: Manifest, credited: seq<Read>,
    status: RoundStatus, finishedAt: Option<nat>)

  datatype Tool = BuildPrisma | BuildMain | SchemaTool | BuildSdk | BuildTest | CheckWatch | Lint | Format | Test

  datatype CommandPhase = CorrectionRun | CalibrationFail | CalibrationPass | FinalGate

  datatype CommandStatus = Running | Succeeded | ExpectedFailure | Failed | TimedOut

  datatype Command = Command(
    index: nat, tool: Tool, phase: CommandPhase, startedAt: nat, manifest: Manifest,
    status: CommandStatus, finishedAt: Option<nat>)

  /** What a finished backend process reports. */
  datatype ProcessResult = ProcessResult(
    exitCode: Option<int>, signalled: bool, timedOut: bool, outputLimited: bool,
    watchClean: bool, watchErrors: bool)

  datatype EditPhase = Correction | Break | Restore

  datatype EditOperation =
    | ReplaceText(expected: string, replacements: seq<Replacement>)
    | CreateFile(content: string)
    | DeleteFile(expected: string)

  datatype EditRequest = EditRequest(operation: EditOperation, phase: EditPhase, path: string)

  datatype Edit = Edit(
    index: nat, phase: EditPhase, path: string, roundIndex: nat, calibrationIndex: Option<nat>,
    before: Option<string>, after: Option<string>)

  datatype CalibrationStatus = Sealed | FailureProven | Passed | InvalidCalibration

  /** The bytes a calibration break is about to destroy; None when the file did not exist. */
  datatype Snapshot = Snapshot(path: string, original: Option<string>)

  datatype Calibration = Calibration(
    index: nat, startedAt: nat, baseline: Manifest, status: CalibrationStatus,
    failureCommand: Option<nat>, passCommand: Option<nat>,
    snapshot: Option<Snapshot>, restored: Option<Manifest>)

  datatype Ledger = Ledger(
    rounds: seq<Round>, edits: seq<Edit>, commands: seq<Command>, calibrations: seq<Calibration>)

  /** A tool call succeeds, is refused, or throws and interrupts the run. */
  datatype Reply = Success | Refused | Fatal

  datatype Answer = Answer(ledger: Ledger, reply: Reply)

  const MAX_OUTPUT := 4 * 1024 * 1024
  const MAX_PAYLOAD := 1024 * 1024

  // ----- small readers -----

  /** `finishedAt ?? ""`: an absent stamp sorts before every real one. */
  function FinishedOrFirst(round: Round): nat {
    match round.finishedAt
    case Some(at) => at
    case None => 0
  }

  function WithLastRound(l: Ledger, round: Round): Ledger
    requires l.rounds != []
  {
    l.(rounds := SetLast(l.rounds, round))
  }

  function InvalidateLastRound(l: Ledger): Ledger
    requires l.rounds != []
  {
    WithLastRound(l, Last(l.rounds).(status := InvalidRound))
  }

  function WithLastCalibration(l: Ledger, calibration: Calibration): Ledger
    requires l.calibrations != []
  {
    l.(calibrations := SetLast(l.calibrations, calibration))
  }

  predicate Unresolved(c: Calibration) {
    c.status == Sealed || c.status == FailureProven
  }

  /** A calibration started after the latest round finished. */
  predicate CalibrationForRound(l: Ledger) {
    && l.rounds != [] && l.calibrations != []
    && Last(l.calibrations).startedAt >= FinishedOrFirst(Last(l.rounds))
  }

  // ----- rounds -----

  function StartRound(l: Ledger, taken: Option<Manifest>, now: nat): Answer {
    match taken
    case None => Answer(l, Fatal)
    case Some(current) =>
      if l.rounds == [] then Answer(l.(rounds := [Round(1, now, current, [], Reading, None)]), Success)
      else
        var previous := Last(l.rounds);
        var next := Answer(l.(rounds := l.rounds + [Round(previous.index + 1, now, current, [], Reading, None)]), Success);
        match previous.status
        case Reading | Dry =>
          if previous.manifest == current then Answer(l, Refused) else Answer(InvalidateLastRound(l), Fatal)
        case Clean =>
          if previous.manifest != current then Answer(InvalidateLastRound(l), Fatal)
          else if l.calibrations == [] then Answer(l, Refused)
          else
            var c := Last(l.calibrations);
            if c.status != Passed || c.baseline != current || c.startedAt < FinishedOrFirst(previous)
            then Answer(l, Refused)
            else next
        case _ => next
  }

  /** `observed` is what reading the file returned, after the manifest was taken. */
  function ReadFile(l: Ledger, taken: Option<Manifest>, now: nat, path: string, observed: string): Answer {
    if l.rounds == [] || Last(l.rounds).status != Reading then Answer(l, Refused)
    else
      var round := Last(l.rounds);
      match taken
      case None => Answer(l, Fatal)
      case Some(current) =>
        if current != round.manifest then Answer(InvalidateLastRound(l), Fatal)
        else if |round.credited| >= |round.manifest| then Answer(l, Refused)
        else
          var expected := round.manifest[|round.credited|];
          if path != expected.path then Answer(l, Refused)
          else if observed != expected.content then Answer(InvalidateLastRound(l), Fatal)
          else Answer(WithLastRound(l, round.(credited := round.credited + [Read(path, observed, now)])), Success)
  }

  predicate CalibrationQualifies(l: Ledger, round: Round) {
    && l.calibrations != []
    && var c := Last(l.calibrations);
    && c.status == Passed
    && c.baseline == round.manifest
    && c.passCommand.Some?
    && c.startedAt < round.startedAt
  }

  /** `verdict` is Findings, Clean or Dry; anything else is refused as malformed. */
  function FinishRound(l: Ledger, taken: Option<Manifest>, now: nat, verdict: RoundStatus, findings: seq<string>): Answer {
    if verdict == Reading || verdict == InvalidRound || (exists i :: 0 <= i < |findings| && Blank(findings[i]))
    then Answer(l, Refused)
    else if (verdict == Findings) != (findings != []) then Answer(l, Refused)
    else if l.rounds == [] || Last(l.rounds).status != Reading then Answer(l, Refused)
    else
      var round := Last(l.rounds);
      if |round.credited| != |round.manifest| then Answer(l, Refused)
      else
        match taken
        case None => Answer(l, Fatal)
        case Some(current) =>
          if current != round.manifest then Answer(InvalidateLastRound(l), Fatal)
          else if verdict == Dry && !CalibrationQualifies(l, round) then Answer(l, Refused)
          else Answer(WithLastRound(l, round.(status := verdict, finishedAt := Some(now))), Success)
  }

  // ----- calibration -----

  function RecordRestore(c: Calibration): Calibration {
    c.(restored := Some(c.baseline), snapshot := None)
  }

  /** Seals the current workspace, whatever the latest calibration was. */
  function SealCalibration(l: Ledger, taken: Option<Manifest>, now: nat): Answer {
    match taken
    case None => Answer(l, Fatal)
    case Some(current) =>
      var index := if l.calibrations == [] then 1 else Last(l.calibrations).index + 1;
      Answer(
        l.(calibrations := l.calibrations + [Calibration(index, now, current, Sealed, None, None, None, None)]), Success)
  }

  /** Whether starting a calibration must first roll back an unfinished one. */
  predicate NeedsRollback(l: Ledger, taken: Option<Manifest>) {
    && l.rounds != [] && l.calibrations != [] && taken.Some?
    && (Last(l.rounds).status == Findings || (Last(l.rounds).status == Clean && Last(l.rounds).manifest == taken.value))
    && Unresolved(Last(l.calibrations))
  }

  /** `rolledBack` says whether that roll-back reproduced the sealed manifest. */
  function StartCalibration(l: Ledger, taken: Option<Manifest>, rolledBack: bool, now: nat): Answer {
    if l.rounds == [] then Answer(l, Refused)
    else
      var round := Last(l.rounds);
      if round.status == Reading || round.status == Dry || round.status == InvalidRound then Answer(l, Refused)
      else
        match taken
        case None => Answer(l, Fatal)
        case Some(current) =>
          if round.status == Clean && round.manifest != current then Answer(InvalidateLastRound(l), Fatal)
          else if l.calibrations == [] || Last(l.calibrations).status == Passed then SealCalibration(l, taken, now)
          else
            var previous := Last(l.calibrations);
            if previous.status == InvalidCalibration then
              if previous.restored != Some(previous.baseline) then Answer(l, Refused)
              else SealCalibration(l, taken, now)
            else if !rolledBack then
              Answer(WithLastCalibration(l, previous.(status := InvalidCalibration)), Fatal)
            else
              SealCalibration(
                WithLastCalibration(l, RecordRestore(previous).(status := InvalidCalibration)),
                Some(previous.baseline), now)
  }

  // ----- edits -----

  function CalibrationEdits(edits: seq<Edit>, index: nat, phase: EditPhase): seq<Edit> {
    if edits == [] then []
    else
      var rest := CalibrationEdits(edits[..|edits| - 1], index, phase);
      var last := Last(edits);
      if last.calibrationIndex == Some(index) && last.phase == phase then rest + [last] else rest
  }

  predicate EditPhaseAllowed(l: Ledger, current: Manifest, phase: EditPhase, path: string) {
    && l.rounds != []
    && (Last(l.rounds).status == Findings || Last(l.rounds).status == Clean)
    && if phase == Correction then
         && Last(l.rounds).status == Findings
         && (CalibrationForRound(l) ==> Last(l.calibrations).status == InvalidCalibration)
       else
         && CalibrationForRound(l)
         && var c := Last(l.calibrations);
         var broken := CalibrationEdits(l.edits, c.index, Break);
         var restored := CalibrationEdits(l.edits, c.index, Restore);
         if phase == Break then c.status == Sealed && broken == [] && current == c.baseline
         else c.status == FailureProven && broken != [] && restored == [] && broken[0].path == path
  }

  function PayloadSize(replacements: seq<Replacement>): nat {
    if replacements == [] then 0
    else |replacements[0].oldText| + |replacements[0].newText| + PayloadSize(replacements[1..])
  }

  predicate EditArgumentsAllowed(operation: EditOperation, before: Option<string>) {
    match operation
    case CreateFile(_) => before.None?
    case DeleteFile(expected) => before == Some(expected)
    case ReplaceText(expected, replacements) =>
      && before == Some(expected)
      && 1 <= |replacements| <= 32
      && (forall r | r in replacements :: r.oldText != "" && r.oldText != r.newText)
      && PayloadSize(replacements) <= MAX_PAYLOAD
  }

  /** The file content an edit leaves: None for a deletion. The outer None is a refusal. */
  function EditedContent(operation: EditOperation, before: Option<string>): Option<Option<string>>
    requires EditArgumentsAllowed(operation, before)
  {
    match operation
    case DeleteFile(_) => Some(None)
    case CreateFile(content) => if |content| <= MAX_OUTPUT then Some(Some(content)) else None
    case ReplaceText(expected, replacements) =>
      match ApplyReplacements(expected, replacements)
      case None => None
      case Some(output) => if |output| <= MAX_OUTPUT then Some(Some(output)) else None
  }

  datatype EditPlan = EditPlan(phase: EditPhase, path: string, before: Option<string>, after: Option<string>)

  datatype EditDecision = Rejected(answer: Answer) | Accepted(plan: EditPlan)

  /** Everything an edit call checks before it writes; `before` is the file as it is. */
  function DecideEdit(
    l: Ledger, taken: Option<Manifest>, editable: bool, before: Option<string>, request: EditRequest): EditDecision
  {
    match taken
    case None => Rejected(Answer(l, Fatal))
    case Some(current) =>
      if l.rounds != [] && Last(l.rounds).status == Reading && Last(l.rounds).manifest != current
      then Rejected(Answer(InvalidateLastRound(l), Fatal))
      else if !EditPhaseAllowed(l, current, request.phase, request.path) || !editable then Rejected(Answer(l, Refused))
      else if !EditArgumentsAllowed(request.operation, before) then Rejected(Answer(l, Refused))
      else
        match EditedContent(request.operation, before)
        case None => Rejected(Answer(l, Refused))
        case Some(after) => Accepted(EditPlan(request.phase, request.path, before, after))
  }

  /** A break stores the bytes it will destroy before anything is written. */
  function StoreSnapshot(l: Ledger, plan: EditPlan): Ledger
    requires l.calibrations != []
  {
    WithLastCalibration(l, Last(l.calibrations).(snapshot := Some(Snapshot(plan.path, plan.before))))
  }

  /** The ledger after the write was undone. */
  function RejectEdit(l: Ledger, plan: EditPlan): Ledger
    requires plan.phase == Break ==> l.calibrations != []
  {
    if plan.phase == Break then WithLastCalibration(l, Last(l.calibrations).(snapshot := None)) else l
  }

  /** The ledger after the write stood. */
  function RecordEdit(l: Ledger, plan: EditPlan): Ledger
    requires l.rounds != []
    requires plan.phase != Correction ==> l.calibrations != []
  {
    var proven := if plan.phase == Restore then WithLastCalibration(l, RecordRestore(Last(l.calibrations))) else l;
    var calibration := if plan.phase == Correction then None else Some(Last(l.calibrations).index);
    var entry := Edit(|l.edits| + 1, plan.phase, plan.path, Last(l.rounds).index, calibration, plan.before, plan.after);
    proven.(edits := l.edits + [entry])
  }

  // ----- gate commands -----

  function FinalsSince(commands: seq<Command>, since: nat): seq<Command> {
    if commands == [] then []
    else
      var rest := FinalsSince(commands[..|commands| - 1], since);
      var last := Last(commands);
      if last.phase == FinalGate && last.startedAt >= since then rest + [last] else rest
  }

  predicate CommandPhaseAllowed(l: Ledger, current: Manifest, tool: Tool, phase: CommandPhase) {
    match phase
    case CorrectionRun => l.rounds != [] && Last(l.rounds).status == Findings
    case CalibrationFail =>
      && tool == Test && l.calibrations != []
      && Last(l.calibrations).status == Sealed && Last(l.calibrations).baseline != current
    case CalibrationPass =>
      && tool == Test && l.calibrations != []
      && Last(l.calibrations).status == FailureProven && Last(l.calibrations).baseline == current
    case FinalGate =>
      && l.rounds != [] && Last(l.rounds).status == Dry && Last(l.rounds).manifest == current
      && var finals := FinalsSince(l.commands, FinishedOrFirst(Last(l.rounds)));
      && (finals == [] ==> tool == CheckWatch)
      && (|finals| == 1 ==> finals[0].tool == CheckWatch && finals[0].status == Succeeded && tool == Test)
      && |finals| < 2
  }

  /** Records a command as running; the process itself runs after this is published. */
  function BeginCommand(l: Ledger, taken: Option<Manifest>, now: nat, tool: Tool, phase: CommandPhase): Answer {
    match taken
    case None => Answer(l, Fatal)
    case Some(current) =>
      if l.rounds != [] && Last(l.rounds).status == Reading then
        if Last(l.rounds).manifest != current then Answer(InvalidateLastRound(l), Fatal) else Answer(l, Refused)
      else if !CommandPhaseAllowed(l, current, tool, phase) then Answer(l, Refused)
      else
        Answer(
          l.(commands := l.commands + [Command(|l.commands| + 1, tool, phase, now, current, Running, None)]), Success)
  }

  function FinishedStatus(tool: Tool, phase: CommandPhase, result: ProcessResult): CommandStatus {
    var bounded := !result.timedOut && !result.outputLimited;
    var succeeded :=
      if tool == CheckWatch then result.watchClean && !result.watchErrors && bounded
      else result.exitCode == Some(0) && bounded;
    var failedAsExpected := bounded && !result.signalled && result.exitCode.Some? && result.exitCode.value != 0;
    if result.timedOut then TimedOut
    else if phase == CalibrationFail then if failedAsExpected then ExpectedFailure else Failed
    else if succeeded then Succeeded else Failed
  }

  function WithResult(l: Ledger, now: nat, status: CommandStatus): Ledger
    requires l.commands != []
  {
    l.(commands := SetLast(l.commands, Last(l.commands).(status := status, finishedAt := Some(now))))
  }

  /** An undetected break: the calibration is rolled back. */
  predicate BreakUndetected(l: Ledger, status: CommandStatus) {
    && l.commands != [] && l.calibrations != []
    && Last(l.commands).phase == CalibrationFail
    && status != ExpectedFailure
  }

  /** `rolledBack` says whether the roll-back of an undetected break reproduced the sealed manifest. */
  function CompleteCommand(l: Ledger, now: nat, status: CommandStatus, rolledBack: bool): Answer
    requires l.commands != []
  {
    var running := Last(l.commands);
    var done := WithResult(l, now, status);
    var reply := if status == Succeeded || status == ExpectedFailure then Success else Refused;
    match running.phase
    case CorrectionRun => Answer(done, reply)
    case CalibrationFail =>
      if l.calibrations == [] then Answer(done, reply)
      else
        var c := Last(l.calibrations);
        if status == ExpectedFailure then
          Answer(WithLastCalibration(done, c.(status := FailureProven, failureCommand := Some(running.index))), reply)
        else if !rolledBack then
          Answer(WithLastCalibration(done, c.(status := InvalidCalibration)), Fatal)
        else
          Answer(WithLastCalibration(done, RecordRestore(c).(status := InvalidCalibration)), reply)
    case CalibrationPass =>
      if l.calibrations == [] then Answer(done, reply)
      else
        var c := Last(l.calibrations);
        var judged :=
          if status == Succeeded then c.(status := Passed, passCommand := Some(running.index))
          else c.(status := InvalidCalibration);
        Answer(WithLastCalibration(done, judged), reply)
    case FinalGate =>
      if status != Succeeded && l.rounds != [] && Last(l.rounds).status == Dry
      then Answer(InvalidateLastRound(done), reply)
      else Answer(done, reply)
  }

  // ----- the completion gate -----

  function MatchingFinals(commands: seq<Command>, m: Manifest): seq<Command> {
    if commands == [] then []
    else
      var rest := MatchingFinals(commands[..|commands| - 1], m);
      if Last(commands).manifest == m then rest + [Last(commands)] else rest
  }

  /** Whether a Goal may complete: looks only at the last round and two commands. */
  predicate AssertDry(l: Ledger, taken: Option<Manifest>) {
    && l.rounds != []
    && var round := Last(l.rounds);
    && round.status == Dry
    && taken == Some(round.manifest)
    && var finals := MatchingFinals(FinalsSince(l.commands, FinishedOrFirst(round)), round.manifest);
    && |finals| >= 2
    && finals[|finals| - 2].tool == CheckWatch && finals[|finals| - 2].status == Succeeded
    && finals[|finals| - 1].tool == Test && finals[|finals| - 1].status == Succeeded
  }
}
