/**
 The runner-owned ledger object the review tools mutate. Each handler is shown
 to do to its fields exactly what the protocol's function says, so every
 theorem about runs of the protocol is about these handlers.
 */
module ReviewLedger {
  import opened Prelude
  import opened ReviewWorkspace
  import opened ReviewText
  import opened ReviewProtocol
  import opened ReviewRun

  // ----- what the handlers' loops keep -----

  /** The last two of a list, as far as there are any. */
  predicate LastTwo(finals: seq<Command>, second: Option<Command>, last: Option<Command>) {
    && last == (if finals == [] then None else Some(finals[|finals| - 1]))
    && second == (if |finals| < 2 then None else Some(finals[|finals| - 2]))
  }

  predicate IsSuccess(command: Option<Command>, tool: Tool) {
    command.Some? && command.value.tool == tool && command.value.status == Succeeded
  }

  lemma GateOfLastTwo(l: Ledger, taken: Option<Manifest>, watcher: Option<Command>, test: Option<Command>)
    requires l.rounds != [] && Last(l.rounds).status == Dry && taken == Some(Last(l.rounds).manifest)
    requires var round := Last(l.rounds);
      LastTwo(MatchingFinals(FinalsSince(l.commands, FinishedOrFirst(round)), round.manifest), watcher, test)
    ensures AssertDry(l, taken) <==> IsSuccess(watcher, CheckWatch) && IsSuccess(test, Test)
  {
  }

  predicate MatchesFinal(c: Command, since: nat, m: Manifest) {
    c.phase == FinalGate && c.startedAt >= since && c.manifest == m
  }

  lemma FinalsNext(commands: seq<Command>, i: nat, since: nat, m: Manifest)
    requires i < |commands|
    ensures var before := MatchingFinals(FinalsSince(commands[..i], since), m);
      MatchingFinals(FinalsSince(commands[..i + 1], since), m)
        == if MatchesFinal(commands[i], since, m) then before + [commands[i]] else before
  {
    assert commands[..i + 1][..i] == commands[..i];
    var finals := FinalsSince(commands[..i], since);
    assert (finals + [commands[i]])[..|finals|] == finals;
  }

  /** Every state of the file system a write passes through is one of its stages. */
  ghost predicate WriteStates(states: seq<Workspace>, ws: Workspace, path: string, content: Option<string>) {
    forall w | w in states :: exists stage :: w == WriteAt(ws, path, content, stage)
  }

  /** Those a roll-back passes through are ones a crash inside it leaves. */
  ghost predicate RestoreStates(states: seq<Workspace>, ws: Workspace, c: Calibration) {
    forall w | w in states :: exists stage :: w == RestoreAt(ws, c, stage)
  }

  /** Those a planned write and its undoing pass through are ones a crash inside them leaves. */
  ghost predicate PlanStates(states: seq<Workspace>, ws: Workspace, plan: EditPlan, mustMatch: Option<Manifest>) {
    forall w | w in states :: exists undoing, stage :: w == PlanAt(ws, plan, mustMatch, undoing, stage)
  }

  lemma RestoreWrites(states: seq<Workspace>, ws: Workspace, c: Calibration)
    requires ManifestOf(ws).Some? && ManifestOf(ws) != Some(c.baseline)
    requires c.snapshot.Some? && Editable(ws, c.snapshot.value.path)
    requires WriteStates(states, ws, c.snapshot.value.path, c.snapshot.value.original)
    ensures RestoreStates(states, ws, c)
  {
    forall w | w in states ensures exists stage :: w == RestoreAt(ws, c, stage) {
      var stage :| w == WriteAt(ws, c.snapshot.value.path, c.snapshot.value.original, stage);
      assert w == RestoreAt(ws, c, stage);
    }
  }

  lemma PlanWrites(states: seq<Workspace>, undo: seq<Workspace>, ws: Workspace, plan: EditPlan, mustMatch: Option<Manifest>)
    requires WriteStates(states, ws, plan.path, plan.after)
    requires WriteStates(undo, WriteAt(ws, plan.path, plan.after, Complete), plan.path, plan.before)
    requires undo != [] ==> !WritePlan(ws, plan, mustMatch).Written?
    ensures PlanStates(states + undo, ws, plan, mustMatch)
  {
    forall w | w in states + undo ensures exists undoing, stage :: w == PlanAt(ws, plan, mustMatch, undoing, stage) {
      if w in states {
        var stage :| w == WriteAt(ws, plan.path, plan.after, stage);
        assert w == PlanAt(ws, plan, mustMatch, false, stage);
      } else {
        var stage :| w == WriteAt(WriteAt(ws, plan.path, plan.after, Complete), plan.path, plan.before, stage);
        assert w == PlanAt(ws, plan, mustMatch, true, stage);
      }
    }
  }

  function FirstOf(edits: seq<Edit>): Option<Edit> {
    if edits == [] then None else Some(edits[0])
  }

  lemma {:induction false} PayloadNext(replacements: seq<Replacement>, i: nat)
    requires i < |replacements|
    ensures PayloadSize(replacements[..i + 1])
         == PayloadSize(replacements[..i]) + |replacements[i].oldText| + |replacements[i].newText|
  {
    if i > 0 {
      assert replacements[1..][..i] == replacements[..i + 1][1..];
      assert replacements[1..][..i - 1] == replacements[..i][1..];
      PayloadNext(replacements[1..], i - 1);
    }
  }

  class LedgerRunner {
    var ws: Workspace
    var rounds: seq<Round>
    var edits: seq<Edit>
    var commands: seq<Command>
    var calibrations: seq<Calibration>

    function Contents(): Ledger
      reads this
    {
      Ledger(rounds, edits, commands, calibrations)
    }

    /** The random name a roll-back would write through is not taken. */
    predicate TemporaryFree(temporary: string)
      reads this
    {
      calibrations != [] && Last(calibrations).snapshot.Some? ==>
        FreshBeside(ws, temporary, Last(calibrations).snapshot.value.path)
    }

    constructor (workspace: Workspace)
      ensures ws == workspace && Contents() == Initial(workspace).memory
    {
      ws := workspace;
      rounds, edits, commands, calibrations := [], [], [], [];
    }

    method InvalidateRound()
      requires rounds != []
      modifies this`rounds
      ensures Contents() == InvalidateLastRound(old(Contents()))
    {
      rounds := rounds[|rounds| - 1 := rounds[|rounds| - 1].(status := InvalidRound)];
    }

    method StartRound(now: nat) returns (reply: Reply)
      modifies this`rounds
      ensures Answer(Contents(), reply) == ReviewProtocol.StartRound(old(Contents()), ManifestOf(ws), now)
    {
      var taken := ManifestOf(ws);
      if taken.None? { return Fatal; }
      var index := 1;
      if rounds != [] {
        var previous := rounds[|rounds| - 1];
        index := previous.index + 1;
        if previous.status == Reading || previous.status == Dry {
          if previous.manifest == taken.value { return Refused; }
          InvalidateRound();
          return Fatal;
        } else if previous.status == Clean {
          if previous.manifest != taken.value {
            InvalidateRound();
            return Fatal;
          }
          if calibrations == [] { return Refused; }
          var calibration := calibrations[|calibrations| - 1];
          if calibration.status != Passed || calibration.baseline != taken.value
            || calibration.startedAt < FinishedOrFirst(previous)
          {
            return Refused;
          }
        }
      }
      rounds := rounds + [Round(index, now, taken.value, [], Reading, None)];
      reply := Success;
    }

    method ReadFile(now: nat, path: string, observed: string) returns (reply: Reply)
      modifies this`rounds
      ensures Answer(Contents(), reply) == ReviewProtocol.ReadFile(old(Contents()), ManifestOf(ws), now, path, observed)
    {
      if rounds == [] || rounds[|rounds| - 1].status != Reading { return Refused; }
      var round := rounds[|rounds| - 1];
      var taken := ManifestOf(ws);
      if taken.None? { return Fatal; }
      if taken.value != round.manifest {
        InvalidateRound();
        return Fatal;
      }
      if |round.credited| >= |round.manifest| { return Refused; }
      var expected := round.manifest[|round.credited|];
      if path != expected.path { return Refused; }
      if observed != expected.content {
        InvalidateRound();
        return Fatal;
      }
      rounds := rounds[|rounds| - 1 := round.(credited := round.credited + [Read(path, observed, now)])];
      reply := Success;
    }

    method FinishRound(now: nat, verdict: RoundStatus, findings: seq<string>) returns (reply: Reply)
      modifies this`rounds
      ensures Answer(Contents(), reply) ==
        ReviewProtocol.FinishRound(old(Contents()), ManifestOf(ws), now, verdict, findings)
    {
      if verdict == Reading || verdict == InvalidRound { return Refused; }
      for i := 0 to |findings|
        invariant forall k | 0 <= k < i :: !Blank(findings[k])
        invariant Contents() == old(Contents())
      {
        if Blank(findings[i]) { return Refused; }
      }
      if (verdict == Findings) != (findings != []) { return Refused; }
      if rounds == [] || rounds[|rounds| - 1].status != Reading { return Refused; }
      var round := rounds[|rounds| - 1];
      if |round.credited| != |round.manifest| { return Refused; }
      var taken := ManifestOf(ws);
      if taken.None? { return Fatal; }
      if taken.value != round.manifest {
        InvalidateRound();
        return Fatal;
      }
      if verdict == Dry {
        if calibrations == [] { return Refused; }
        var calibration := calibrations[|calibrations| - 1];
        if calibration.status != Passed || calibration.baseline != round.manifest
          || calibration.passCommand.None? || calibration.startedAt >= round.startedAt
        {
          return Refused;
        }
      }
      rounds := rounds[|rounds| - 1 := round.(status := verdict, finishedAt := Some(now))];
      reply := Success;
    }

    /** One operation on a file that is not there yet: it appears with some of its content, or changes it. */
    method Put(path: string, bytes: string)
      modifies this`ws
      ensures ws == old(ws).(files := old(ws).files[path := bytes])
    {
      ws := ws.(files := ws.files[path := bytes]);
    }

    /** Creates and fills a file, replaces one by way of a temporary file and a rename, or removes one. */
    method WriteFile(path: string, content: Option<string>, temporary: string) returns (done: bool, ghost states: seq<Workspace>)
      requires FreshBeside(ws, temporary, path)
      modifies this`ws
      ensures done <==> WriteEdit(old(ws), path, content).Some?
      ensures ws == WriteAt(old(ws), path, content, Complete)
      ensures WriteStates(states, old(ws), path, content)
    {
      ghost var before := ws;
      states := [];
      if content.None? {
        if path !in ws.files { return false, states; }
        ws := ws.(files := ws.files - {path});
      } else if path !in ws.files {
        Put(path, "");
        assert ws == WriteAt(before, path, content, Partial(temporary, ""));
        states := [ws];
        Put(path, content.value);
        assert ws.files == before.files[path := content.value];
      } else {
        Put(temporary, "");
        assert ws == WriteAt(before, path, content, Partial(temporary, ""));
        states := [ws];
        Put(temporary, content.value);
        assert ws.files == before.files[temporary := content.value];
        assert ws == WriteAt(before, path, content, Partial(temporary, content.value));
        states := states + [ws];
        ws := ws.(files := ws.files[path := ws.files[temporary]] - {temporary});
        assert ws.files == before.files[path := content.value];
      }
      assert ws == WriteAt(before, path, content, Complete);
      states := states + [ws];
      done := true;
    }

    /** Rolls the last calibration's break back and records the proof of it; the temporary name is a free one. */
    method RollBack(temporary: string) returns (restored: bool, ghost states: seq<Workspace>)
      requires calibrations != []
      requires Last(calibrations).snapshot.Some? ==> FreshBeside(ws, temporary, Last(calibrations).snapshot.value.path)
      modifies this`ws, this`calibrations
      ensures RestoreStates(states, old(ws), Last(old(calibrations)))
      ensures var effect := ReviewRun.RestoreCalibration(old(ws), Last(old(calibrations)));
        && ws == effect.ws && restored == effect.Restored?
        && Contents() == if restored then WithLastCalibration(old(Contents()), RecordRestore(Last(old(calibrations))))
                         else old(Contents())
    {
      var last := |calibrations| - 1;
      var calibration := calibrations[last];
      states := [];
      var taken := ManifestOf(ws);
      if taken.None? { return false, states; }
      if taken.value != calibration.baseline {
        if calibration.snapshot.None? { return false, states; }
        var snapshot := calibration.snapshot.value;
        if !Editable(ws, snapshot.path) { return false, states; }
        ghost var before := ws;
        var done;
        done, states := WriteFile(snapshot.path, snapshot.original, temporary);
        RestoreWrites(states, before, calibration);
        if !done { return false, states; }
        if ManifestOf(ws) != Some(calibration.baseline) { return false, states; }
      }
      calibrations := calibrations[last := calibration.(restored := Some(calibration.baseline), snapshot := None)];
      restored := true;
    }

    /** Retires an unfinished calibration, rolled back when possible. */
    method RetireLast(temporary: string) returns (restored: bool)
      requires calibrations != []
      requires Last(calibrations).snapshot.Some? ==> FreshBeside(ws, temporary, Last(calibrations).snapshot.value.path)
      modifies this`ws, this`calibrations
      ensures var c, effect := Last(old(calibrations)), ReviewRun.RestoreCalibration(old(ws), Last(old(calibrations)));
        && ws == effect.ws && restored == effect.Restored?
        && Contents() == WithLastCalibration(
             old(Contents()), (if restored then RecordRestore(c) else c).(status := InvalidCalibration))
    {
      var last := |calibrations| - 1;
      ghost var states;
      restored, states := RollBack(temporary);
      calibrations := calibrations[last := calibrations[last].(status := InvalidCalibration)];
    }

    method Seal(baseline: Manifest, now: nat)
      modifies this`calibrations
      ensures Contents() == SealCalibration(old(Contents()), Some(baseline), now).ledger
    {
      var index := if calibrations == [] then 1 else calibrations[|calibrations| - 1].index + 1;
      calibrations := calibrations + [Calibration(index, now, baseline, Sealed, None, None, None, None)];
    }

    method StartCalibration(now: nat, temporary: string) returns (reply: Reply)
      requires TemporaryFree(temporary)
      modifies this`rounds, this`ws, this`calibrations
      ensures var taken := ManifestOf(old(ws));
        var effect := if NeedsRollback(old(Contents()), taken)
                      then ReviewRun.RestoreCalibration(old(ws), Last(old(calibrations)))
                      else RestoreFailed(old(ws));
        && ws == effect.ws
        && Answer(Contents(), reply) == ReviewProtocol.StartCalibration(old(Contents()), taken, effect.Restored?, now)
    {
      if rounds == [] { return Refused; }
      var round := rounds[|rounds| - 1];
      if round.status == Reading || round.status == Dry || round.status == InvalidRound { return Refused; }
      var taken := ManifestOf(ws);
      if taken.None? { return Fatal; }
      if round.status == Clean && round.manifest != taken.value {
        InvalidateRound();
        return Fatal;
      }
      var baseline := taken.value;
      if calibrations != [] {
        var previous := calibrations[|calibrations| - 1];
        if previous.status == InvalidCalibration {
          if previous.restored != Some(previous.baseline) { return Refused; }
        } else if previous.status != Passed {
          var restored := RetireLast(temporary);
          if !restored { return Fatal; }
          baseline := previous.baseline;
        }
      }
      Seal(baseline, now);
      reply := Success;
    }

    /** The final commands that started no earlier than a time. */
    method FinalCommands(since: nat) returns (finals: seq<Command>)
      ensures finals == FinalsSince(commands, since)
    {
      finals := [];
      var i := 0;
      while i < |commands|
        invariant i <= |commands|
        invariant finals == FinalsSince(commands[..i], since)
      {
        assert commands[..i + 1][..i] == commands[..i];
        if commands[i].phase == FinalGate && commands[i].startedAt >= since {
          finals := finals + [commands[i]];
        }
        i := i + 1;
      }
      assert commands[..i] == commands;
    }

    method CommandAllowed(current: Manifest, tool: Tool, phase: CommandPhase) returns (allowed: bool)
      ensures allowed <==> CommandPhaseAllowed(Contents(), current, tool, phase)
    {
      if phase == CorrectionRun { return rounds != [] && rounds[|rounds| - 1].status == Findings; }
      if phase == CalibrationFail {
        if tool != Test || calibrations == [] { return false; }
        var calibration := calibrations[|calibrations| - 1];
        return calibration.status == Sealed && calibration.baseline != current;
      }
      if phase == CalibrationPass {
        if tool != Test || calibrations == [] { return false; }
        var calibration := calibrations[|calibrations| - 1];
        return calibration.status == FailureProven && calibration.baseline == current;
      }
      if rounds == [] { return false; }
      var round := rounds[|rounds| - 1];
      if round.status != Dry || round.manifest != current { return false; }
      var finals := FinalCommands(FinishedOrFirst(round));
      if finals == [] { return tool == CheckWatch; }
      if |finals| >= 2 { return false; }
      allowed := finals[0].tool == CheckWatch && finals[0].status == Succeeded && tool == Test;
    }

    /** Nothing runs while a round is being read; a changed workspace ends it. */
    method RefuseReading(current: Manifest) returns (reply: Reply)
      requires rounds != []
      modifies this`rounds
      ensures Answer(Contents(), reply)
           == if Last(old(rounds)).manifest != current then Answer(InvalidateLastRound(old(Contents())), Fatal)
              else Answer(old(Contents()), Refused)
    {
      if rounds[|rounds| - 1].manifest != current {
        InvalidateRound();
        return Fatal;
      }
      reply := Refused;
    }

    method Register(now: nat, tool: Tool, phase: CommandPhase, manifest: Manifest)
      modifies this`commands
      ensures commands == old(commands) + [Command(|old(commands)| + 1, tool, phase, now, manifest, Running, None)]
    {
      commands := commands + [Command(|commands| + 1, tool, phase, now, manifest, Running, None)];
    }

    method RegisterAllowed(now: nat, current: Manifest, tool: Tool, phase: CommandPhase) returns (reply: Reply)
      modifies this`commands
      ensures reply == if CommandPhaseAllowed(old(Contents()), current, tool, phase) then Success else Refused
      ensures commands == old(commands)
                + (if reply == Success then [Command(|old(commands)| + 1, tool, phase, now, current, Running, None)] else [])
    {
      var allowed := CommandAllowed(current, tool, phase);
      if !allowed { return Refused; }
      Register(now, tool, phase, current);
      reply := Success;
    }

    /** Registers a gate command before its process starts. */
    method BeginCommand(now: nat, tool: Tool, phase: CommandPhase) returns (reply: Reply)
      modifies this`rounds, this`commands
      ensures Answer(Contents(), reply) == ReviewProtocol.BeginCommand(old(Contents()), ManifestOf(ws), now, tool, phase)
    {
      var taken := ManifestOf(ws);
      if taken.None? { return Fatal; }
      if rounds != [] && rounds[|rounds| - 1].status == Reading {
        reply := RefuseReading(taken.value);
        return reply;
      }
      reply := RegisterAllowed(now, taken.value, tool, phase);
    }

    /** Judges the process of the last registered command. */
    method FinishCommand(now: nat, result: ProcessResult, temporary: string) returns (reply: Reply)
      requires commands != [] && TemporaryFree(temporary)
      modifies this`rounds, this`commands, this`calibrations, this`ws
      ensures var running := Last(old(commands));
        var status := FinishedStatus(running.tool, running.phase, result);
        var effect := if BreakUndetected(old(Contents()), status)
                      then ReviewRun.RestoreCalibration(old(ws), Last(old(calibrations)))
                      else RestoreFailed(old(ws));
        && ws == effect.ws
        && Answer(Contents(), reply) == CompleteCommand(old(Contents()), now, status, effect.Restored?)
    {
      var entry := commands[|commands| - 1];
      var status := FinishedStatus(entry.tool, entry.phase, result);
      commands := commands[|commands| - 1 := entry.(status := status, finishedAt := Some(now))];
      reply := if status == Succeeded || status == ExpectedFailure then Success else Refused;
      if entry.phase == CalibrationFail && calibrations != [] {
        var last := |calibrations| - 1;
        if status == ExpectedFailure {
          calibrations := calibrations[last := calibrations[last].(status := FailureProven, failureCommand := Some(entry.index))];
        } else {
          var restored := RetireLast(temporary);
          if !restored { reply := Fatal; }
        }
      } else if entry.phase == CalibrationPass && calibrations != [] {
        var last := |calibrations| - 1;
        if status == Succeeded {
          calibrations := calibrations[last := calibrations[last].(status := Passed, passCommand := Some(entry.index))];
        } else {
          calibrations := calibrations[last := calibrations[last].(status := InvalidCalibration)];
        }
      } else if entry.phase == FinalGate && status != Succeeded && rounds != [] && rounds[|rounds| - 1].status == Dry {
        InvalidateRound();
      }
    }

    /** The calibration's first edit of a phase. */
    method FindEdit(index: nat, phase: EditPhase) returns (found: Option<Edit>)
      ensures found == FirstOf(CalibrationEdits(edits, index, phase))
    {
      found := None;
      var i := 0;
      while i < |edits|
        invariant i <= |edits|
        invariant found == FirstOf(CalibrationEdits(edits[..i], index, phase))
      {
        assert edits[..i + 1][..i] == edits[..i];
        if found.None? && edits[i].calibrationIndex == Some(index) && edits[i].phase == phase {
          found := Some(edits[i]);
        }
        i := i + 1;
      }
      assert edits[..i] == edits;
    }

    /** The last calibration that started after a round finished. */
    method LaterCalibration(round: Round) returns (later: Option<Calibration>)
      ensures later == if calibrations != [] && Last(calibrations).startedAt >= FinishedOrFirst(round)
                       then Some(Last(calibrations)) else None
    {
      later := None;
      if calibrations != [] {
        var calibration := calibrations[|calibrations| - 1];
        if calibration.startedAt >= FinishedOrFirst(round) { later := Some(calibration); }
      }
    }

    method PhaseAllowed(current: Manifest, phase: EditPhase, path: string) returns (allowed: bool)
      ensures allowed <==> EditPhaseAllowed(Contents(), current, phase, path)
    {
      if rounds == [] { return false; }
      var round := rounds[|rounds| - 1];
      if round.status == Reading || round.status == InvalidRound || round.status == Dry { return false; }
      var later := LaterCalibration(round);
      if phase == Correction {
        return round.status == Findings && (later.None? || later.value.status == InvalidCalibration);
      }
      if later.None? { return false; }
      var calibration := later.value;
      var broken := FindEdit(calibration.index, Break);
      var restored := FindEdit(calibration.index, Restore);
      if phase == Break {
        return calibration.status == Sealed && broken.None? && current == calibration.baseline;
      }
      if calibration.status != FailureProven { return false; }
      if broken.None? || restored.Some? { return false; }
      allowed := broken.value.path == path;
    }

    /** Every replacement changes something, and together they stay within the payload limit. */
    static method ReplacementsAllowed(replacements: seq<Replacement>) returns (allowed: bool)
      ensures allowed <==>
        && (forall r | r in replacements :: r.oldText != "" && r.oldText != r.newText)
        && PayloadSize(replacements) <= MAX_PAYLOAD
    {
      var i := 0;
      while i < |replacements|
        invariant i <= |replacements|
        invariant forall k | 0 <= k < i :: replacements[k].oldText != "" && replacements[k].oldText != replacements[k].newText
      {
        if replacements[i].oldText == "" || replacements[i].oldText == replacements[i].newText {
          assert replacements[i] in replacements;
          return false;
        }
        i := i + 1;
      }
      var size := 0;
      i := 0;
      while i < |replacements|
        invariant i <= |replacements|
        invariant size == PayloadSize(replacements[..i])
      {
        PayloadNext(replacements, i);
        size := size + |replacements[i].oldText| + |replacements[i].newText|;
        i := i + 1;
      }
      assert replacements[..i] == replacements;
      allowed := size <= MAX_PAYLOAD;
    }

    static method ArgumentsAllowed(operation: EditOperation, before: Option<string>) returns (allowed: bool)
      ensures allowed <==> EditArgumentsAllowed(operation, before)
    {
      if operation.CreateFile? { return before.None?; }
      if before.None? || before.value != operation.expected { return false; }
      if operation.DeleteFile? { return true; }
      if |operation.replacements| < 1 || |operation.replacements| > 32 { return false; }
      allowed := ReplacementsAllowed(operation.replacements);
    }

    /** Replaces one anchor after the other, each of which must occur once; none where one does not. */
    static method Replaced(text: string, replacements: seq<Replacement>) returns (output: Option<string>)
      requires forall r | r in replacements :: r.oldText != ""
      ensures output == ApplyReplacements(text, replacements)
    {
      var edited := text;
      var i := 0;
      assert replacements[0..] == replacements;
      while i < |replacements|
        invariant i <= |replacements|
        invariant ApplyReplacements(text, replacements) == ApplyReplacements(edited, replacements[i..])
      {
        var replacement := replacements[i];
        assert replacements[i..][0] == replacement && replacements[i..][1..] == replacements[i + 1..];
        var count := CountOccurrences(edited, replacement.oldText);
        if count != 1 { return None; }
        edited := ReplaceFirst(edited, replacement.oldText, replacement.newText);
        i := i + 1;
      }
      output := Some(edited);
    }

    /** The content an edit leaves, within the size limit. */
    static method ContentAfter(operation: EditOperation, before: Option<string>) returns (after: Option<Option<string>>)
      requires EditArgumentsAllowed(operation, before)
      ensures after == EditedContent(operation, before)
    {
      if operation.DeleteFile? { return Some(None); }
      var output := "";
      if operation.ReplaceText? {
        var replaced := Replaced(operation.expected, operation.replacements);
        if replaced.None? { return None; }
        output := replaced.value;
      } else {
        output := operation.content;
      }
      if |output| > MAX_OUTPUT { return None; }
      after := Some(Some(output));
    }

    /** Decides an edit; an accepted break leaves its snapshot in the ledger before anything is written. */
    method BeginEdit(request: EditRequest) returns (decision: EditDecision)
      modifies this`rounds, this`calibrations
      ensures decision == DecideEdit(
        old(Contents()), ManifestOf(ws), Editable(ws, request.path), Lookup(ws, request.path), request)
      ensures Contents() == match decision
        case Rejected(answer) => answer.ledger
        case Accepted(plan) => if plan.phase == Break then StoreSnapshot(old(Contents()), plan) else old(Contents())
    {
      var taken := ManifestOf(ws);
      if taken.None? { return Rejected(Answer(Contents(), Fatal)); }
      if rounds != [] && rounds[|rounds| - 1].status == Reading && rounds[|rounds| - 1].manifest != taken.value {
        InvalidateRound();
        return Rejected(Answer(Contents(), Fatal));
      }
      var allowed := PhaseAllowed(taken.value, request.phase, request.path);
      if !allowed || !Editable(ws, request.path) { return Rejected(Answer(Contents(), Refused)); }
      var before := Lookup(ws, request.path);
      allowed := ArgumentsAllowed(request.operation, before);
      if !allowed { return Rejected(Answer(Contents(), Refused)); }
      var after := ContentAfter(request.operation, before);
      if after.None? { return Rejected(Answer(Contents(), Refused)); }
      if request.phase == Break {
        var last := |calibrations| - 1;
        calibrations := calibrations[last := calibrations[last].(snapshot := Some(Snapshot(request.path, before)))];
      }
      decision := Accepted(EditPlan(request.phase, request.path, before, after.value));
    }

    method Record(plan: EditPlan)
      requires rounds != []
      requires plan.phase != Correction ==> calibrations != []
      modifies this`edits, this`calibrations
      ensures Contents() == RecordEdit(old(Contents()), plan)
    {
      var last := |calibrations| - 1;
      var calibration := if plan.phase == Correction then None else Some(calibrations[last].index);
      if plan.phase == Restore {
        calibrations := calibrations[last :=
          calibrations[last].(restored := Some(calibrations[last].baseline), snapshot := None)];
      }
      edits := edits + [Edit(|edits| + 1, plan.phase, plan.path, rounds[|rounds| - 1].index, calibration, plan.before, plan.after)];
    }

    method Reject(plan: EditPlan)
      requires plan.phase == Break ==> calibrations != []
      modifies this`calibrations
      ensures Contents() == RejectEdit(old(Contents()), plan)
    {
      var last := |calibrations| - 1;
      if plan.phase == Break {
        calibrations := calibrations[last := calibrations[last].(snapshot := None)];
      }
    }

    /** Writes the workspace as planned, or undoes the write. */
    method WriteOrUndo(plan: EditPlan, mustMatch: Option<Manifest>, temporary: string)
      returns (stands: bool, torn: bool, ghost states: seq<Workspace>)
      requires FreshBeside(ws, temporary, plan.path)
      modifies this`ws
      ensures match WritePlan(old(ws), plan, mustMatch)
        case Torn(left) => ws == left && !stands && torn
        case Undone(left) => ws == left && !stands && !torn
        case Written(left) => ws == left && stands && !torn
      ensures PlanStates(states, old(ws), plan, mustMatch)
    {
      torn := false;
      ghost var before, undo: seq<Workspace> := ws, [];
      stands, states := WriteFile(plan.path, plan.after, temporary);
      if stands {
        var taken := ManifestOf(ws);
        stands := taken.Some? && (mustMatch.None? || taken == mustMatch);
      }
      if !stands {
        assert FreshBeside(ws, temporary, plan.path);
        var undone;
        undone, undo := WriteFile(plan.path, plan.before, temporary);
        torn := !undone;
      }
      PlanWrites(states, undo, before, plan, mustMatch);
      states := states + undo;
    }

    /** Writes an accepted edit to the workspace and records it, or undoes it. */
    method WriteAccepted(plan: EditPlan, temporary: string) returns (reply: Reply, ghost states: seq<Workspace>)
      requires rounds != []
      requires plan.phase != Correction ==> calibrations != []
      requires FreshBeside(ws, temporary, plan.path)
      modifies this`ws, this`edits, this`calibrations
      ensures var mustMatch := if plan.phase == Restore then Some(Last(old(calibrations)).baseline) else None;
        && PlanStates(states, old(ws), plan, mustMatch)
        && match WritePlan(old(ws), plan, mustMatch)
           case Torn(left) => ws == left && Contents() == old(Contents()) && reply == Fatal
           case Undone(left) => ws == left && Contents() == RejectEdit(old(Contents()), plan) && reply == Refused
           case Written(left) => ws == left && Contents() == RecordEdit(old(Contents()), plan) && reply == Success
    {
      var baseline := if plan.phase == Restore then Some(calibrations[|calibrations| - 1].baseline) else None;
      var stands, torn;
      stands, torn, states := WriteOrUndo(plan, baseline, temporary);
      if torn { return Fatal, states; }
      if !stands {
        Reject(plan);
        return Refused, states;
      }
      Record(plan);
      reply := Success;
    }

    /** One pass over the commands keeps the last two final ones that count. */
    method LastFinals(since: nat, m: Manifest) returns (watcher: Option<Command>, test: Option<Command>)
      ensures LastTwo(MatchingFinals(FinalsSince(commands, since), m), watcher, test)
    {
      watcher, test := None, None;
      var i := 0;
      while i < |commands|
        invariant i <= |commands|
        invariant LastTwo(MatchingFinals(FinalsSince(commands[..i], since), m), watcher, test)
      {
        FinalsNext(commands, i, since, m);
        if MatchesFinal(commands[i], since, m) {
          watcher, test := test, Some(commands[i]);
        }
        i := i + 1;
      }
      assert commands[..i] == commands;
    }

    /** The completion gate. */
    method CheckDry() returns (dry: bool)
      ensures dry <==> AssertDry(Contents(), ManifestOf(ws))
    {
      if rounds == [] || rounds[|rounds| - 1].status != Dry { return false; }
      var round := rounds[|rounds| - 1];
      var taken := ManifestOf(ws);
      if taken != Some(round.manifest) { return false; }
      var watcher, test := LastFinals(FinishedOrFirst(round), round.manifest);
      dry := IsSuccess(watcher, CheckWatch) && IsSuccess(test, Test);
      GateOfLastTwo(Contents(), taken, watcher, test);
    }
  }
}
