/**
 Chunked readers over line-oriented files. A file is a sequence of characters;
 each reader is proved equal to a plain reading of the whole file, for every
 file and every chunk size.
 */
module LineReader {
  import opened Prelude

  /** `split("\n")`: always at least one line, the last one unterminated. */
  function Lines(text: string): (lines: seq<string>)
    ensures lines != []
  {
    if text == "" then [""]
    else
      var rest := Lines(text[1..]);
      if text[0] == '\n' then [""] + rest else [[text[0]] + rest[0]] + rest[1..]
  }

  /** Two runs of lines, the last of one continued by the first of the other. */
  function Joined(a: seq<string>, b: seq<string>): seq<string>
    requires a != [] && b != []
  {
    a[..|a| - 1] + [Last(a) + b[0]] + b[1..]
  }

  /** Splitting a concatenation joins the last line of the left part to the first of the right. */
  lemma {:induction false} LinesJoin(a: string, b: string)
    ensures Lines(a + b) == Joined(Lines(a), Lines(b))
  {
    if a == "" {
      assert a + b == b;
      assert "" + Lines(b)[0] == Lines(b)[0];
    } else {
      assert (a + b)[1..] == a[1..] + b;
      LinesJoin(a[1..], b);
      JoinedLater(a[0], Lines(a[1..]), Lines(b));
    }
  }

  lemma JoinedLater(c: char, rest: seq<string>, b: seq<string>)
    requires rest != [] && b != []
    ensures Joined([""] + rest, b) == [""] + Joined(rest, b)
    ensures Joined([[c] + rest[0]] + rest[1..], b) == [[c] + Joined(rest, b)[0]] + Joined(rest, b)[1..]
  {
    var headed := [[c] + rest[0]] + rest[1..];
    if |rest| == 1 {
      assert ([c] + rest[0]) + b[0] == [c] + (rest[0] + b[0]);
      assert headed == [[c] + rest[0]];
    } else {
      assert headed[..|headed| - 1] == [[c] + rest[0]] + rest[1..|rest| - 1];
      assert Joined(rest, b)[1..] == rest[1..|rest| - 1] + [Last(rest) + b[0]] + b[1..];
    }
    assert ([""] + rest)[..|rest|] == [""] + rest[..|rest| - 1];
  }

  lemma {:induction false} LinesUnbroken(text: string)
    requires '\n' !in text
    ensures Lines(text) == [text]
  {
    if text != "" {
      LinesUnbroken(text[1..]);
      assert [text[0]] + text[1..] == text;
    }
  }

  lemma {:induction false} LineUnbroken(text: string, i: nat)
    requires i < |Lines(text)|
    ensures '\n' !in Lines(text)[i]
  {
    if text != "" {
      var rest := Lines(text[1..]);
      if text[0] == '\n' {
        if i > 0 { LineUnbroken(text[1..], i - 1); }
      } else {
        LineUnbroken(text[1..], i);
      }
    }
  }

  /** Text read backwards: the first line of what was read may continue to the left. */
  lemma LinesPrepend(left: string, read: string)
    ensures Lines(left + read) == Lines(left + Lines(read)[0]) + Lines(read)[1..]
  {
    LinesJoin(left, read);
    LineUnbroken(read, 0);
    LinesUnbroken(Lines(read)[0]);
    LinesJoin(left, Lines(read)[0]);
  }

  /** Text read forwards: the last line of what was read may continue to the right. */
  lemma LinesExtend(read: string, right: string)
    ensures Lines(read + right) == Lines(read)[..|Lines(read)| - 1] + Lines(Last(Lines(read)) + right)
  {
    var remainder := Last(Lines(read));
    LinesJoin(read, right);
    LineUnbroken(read, |Lines(read)| - 1);
    LinesUnbroken(remainder);
    LinesJoin(remainder, right);
  }

  // ----- reading backwards -----

  /** The last line a parser accepts. */
  function LastMatch<T>(lines: seq<string>, parse: string -> Option<T>): Option<T> {
    if lines == [] then None
    else if parse(Last(lines)).Some? then parse(Last(lines))
    else LastMatch(lines[..|lines| - 1], parse)
  }

  lemma {:induction false} LastMatchAppend<T>(a: seq<string>, b: seq<string>, parse: string -> Option<T>)
    ensures LastMatch(a + b, parse) == if LastMatch(b, parse).Some? then LastMatch(b, parse) else LastMatch(a, parse)
  {
    if b == [] {
      assert a + b == a;
    } else {
      assert (a + b)[..|a + b| - 1] == a + b[..|b| - 1];
      LastMatchAppend(a, b[..|b| - 1], parse);
    }
  }

  lemma {:induction false} LastMatchMeaning<T>(lines: seq<string>, parse: string -> Option<T>)
    ensures LastMatch(lines, parse).None? <==> forall i | 0 <= i < |lines| :: parse(lines[i]).None?
    ensures LastMatch(lines, parse).Some? ==>
      exists i | 0 <= i < |lines| ::
        parse(lines[i]) == LastMatch(lines, parse) && forall j | i < j < |lines| :: parse(lines[j]).None?
  {
    if lines != [] {
      var front := lines[..|lines| - 1];
      if parse(Last(lines)).None? {
        LastMatchMeaning(front, parse);
        if LastMatch(front, parse).Some? {
          var i :| 0 <= i < |front| && parse(front[i]) == LastMatch(front, parse)
            && forall j | i < j < |front| :: parse(front[j]).None?;
          assert parse(lines[i]) == LastMatch(lines, parse) && forall j | i < j < |lines| :: parse(lines[j]).None?;
        }
      } else {
        assert parse(lines[|lines| - 1]) == LastMatch(lines, parse);
      }
    }
  }

  /** The lines still to the left of what a backward reader has read. */
  function LeftOf(text: string, position: nat, joined: string): seq<string>
    requires position <= |text|
  {
    if position == 0 then [] else Lines(text[..position] + joined)
  }

  /** What a backward reader has still to read: the lines left of its position, joined to the line it left open. */
  predicate Remains(text: string, position: nat, open: string, left: seq<string>) {
    && position <= |text|
    && if position == 0 then left == [] || left == [""] else left == Lines(text[..position] + open)
  }

  /** One chunk further left: the lines it completes, and the line it leaves open. */
  lemma ChunkBack(text: string, position: nat, length: nat, suffix: string)
    requires length <= position <= |text|
    ensures var read := text[position - length..position] + suffix;
      var lines := Lines(read);
      var firstComplete := if position == length then 0 else 1;
      var left := LeftOf(text, position - length, lines[0]);
      Lines(text[..position] + suffix) == left + lines[firstComplete..] && Remains(text, position - length, lines[0], left)
  {
    var read := text[position - length..position] + suffix;
    assert text[..position] + suffix == text[..position - length] + read;
    LinesPrepend(text[..position - length], read);
  }

  /** Offers lines to a parser from the last one back, no further than `from`. */
  method OfferBack<T>(lines: seq<string>, from: nat, parse: string -> Option<T>) returns (found: Option<T>, visits: nat)
    requires from <= |lines|
    ensures found == LastMatch(lines[from..], parse)
    ensures visits <= |lines| - from
  {
    var i := |lines|;
    visits := 0;
    assert lines[from..|lines|] == lines[from..];
    while i > from
      invariant from <= i <= |lines| && visits == |lines| - i
      invariant LastMatch(lines[from..], parse) == LastMatch(lines[from..i], parse)
    {
      i := i - 1;
      visits := visits + 1;
      assert lines[from..i + 1][..i - from] == lines[from..i];
      if parse(lines[i]).Some? { return parse(lines[i]), visits; }
    }
    found := None;
  }

  /**
   Reads a file backwards in chunks until a line is accepted. `visits` counts the
   lines offered to the parser.
   */
  method ReadLast<T>(text: string, chunk: nat, parse: string -> Option<T>) returns (found: Option<T>, visits: nat)
    requires chunk > 0 && parse("").None?
    ensures found == LastMatch(Lines(text), parse)
    ensures visits <= |Lines(text)|
  {
    var position, suffix := |text|, "";
    found, visits := None, 0;
    ghost var left := Lines(text);
    assert text[..position] + suffix == text;
    while position > 0
      invariant 0 <= position && Remains(text, position, suffix, left)
      invariant LastMatch(Lines(text), parse) == LastMatch(left, parse)
      invariant visits + |left| <= |Lines(text)| && found.None?
    {
      var length := if chunk < position then chunk else position;
      ChunkBack(text, position, length, suffix);
      var lines := Lines(text[position - length..position] + suffix);
      position := position - length;
      var firstComplete := if position == 0 then 0 else 1;
      left := LeftOf(text, position, lines[0]);
      LastMatchAppend(left, lines[firstComplete..], parse);
      var offered;
      found, offered := OfferBack(lines, firstComplete, parse);
      visits := visits + offered;
      if found.Some? { return; }
      suffix := lines[0];
    }
    assert [""][..0] == [] && LastMatch([""], parse).None?;
  }

  // ----- the last event of every process -----

  datatype OutputEvent = OutputEvent(process: nat, elapsed: int)

  /** The last event of one process. */
  function LastEvent(lines: seq<string>, parse: string -> Option<OutputEvent>, process: nat): Option<OutputEvent> {
    if lines == [] then None
    else
      var event := parse(Last(lines));
      if event.Some? && event.value.process == process then event
      else LastEvent(lines[..|lines| - 1], parse, process)
  }

  lemma {:induction false} LastEventAppend(a: seq<string>, b: seq<string>, parse: string -> Option<OutputEvent>, process: nat)
    ensures LastEvent(a + b, parse, process) ==
      if LastEvent(b, parse, process).Some? then LastEvent(b, parse, process) else LastEvent(a, parse, process)
  {
    if b == [] {
      assert a + b == a;
    } else {
      assert (a + b)[..|a + b| - 1] == a + b[..|b| - 1];
      LastEventAppend(a, b[..|b| - 1], parse, process);
    }
  }

  function Found(found: map<nat, OutputEvent>, process: nat): Option<OutputEvent> {
    if process in found then Some(found[process]) else None
  }

  /** What is known after older lines: a process already seen keeps its later event. */
  function Latest(later: Option<OutputEvent>, lines: seq<string>, parse: string -> Option<OutputEvent>, process: nat): Option<OutputEvent> {
    if later.Some? then later else LastEvent(lines, parse, process)
  }

  lemma LatestAppend(later: Option<OutputEvent>, a: seq<string>, b: seq<string>, parse: string -> Option<OutputEvent>, process: nat)
    ensures Latest(later, a + b, parse, process) == Latest(Latest(later, b, parse, process), a, parse, process)
  {
    LastEventAppend(a, b, parse, process);
  }

  /** Exactly the targeted processes that have an event among the lines, each with its last one. */
  ghost predicate LastEvents(
    before: map<nat, OutputEvent>, found: map<nat, OutputEvent>, targets: set<nat>, lines: seq<string>,
    parse: string -> Option<OutputEvent>)
  {
    && found.Keys <= targets
    && forall p | p in targets :: Found(found, p) == Latest(Found(before, p), lines, parse, p)
  }

  lemma LastEventsJoin(
    before: map<nat, OutputEvent>, middle: map<nat, OutputEvent>, found: map<nat, OutputEvent>, targets: set<nat>,
    a: seq<string>, b: seq<string>, parse: string -> Option<OutputEvent>)
    requires LastEvents(before, middle, targets, b, parse) && LastEvents(middle, found, targets, a, parse)
    ensures LastEvents(before, found, targets, a + b, parse)
  {
    forall p | p in targets ensures Found(found, p) == Latest(Found(before, p), a + b, parse, p) {
      LatestAppend(Found(before, p), a, b, parse, p);
    }
  }

  /** Once every target has an event, nothing further left can change the answer. */
  lemma LastEventsFull(found: map<nat, OutputEvent>, targets: set<nat>, left: seq<string>, parse: string -> Option<OutputEvent>)
    requires found.Keys <= targets && |found| == |targets|
    ensures LastEvents(found, found, targets, left, parse)
  {
    SameSize(found.Keys, targets);
  }

  lemma SameSize(a: set<nat>, b: set<nat>)
    requires a <= b && |a| == |b|
    ensures a == b
  {
    if p :| p in b && p !in a {
      var rest := b - {p};
      assert a <= rest && |rest| == |b| - 1;
      Smaller(a, rest);
    }
  }

  lemma {:induction false} Smaller(a: set<nat>, b: set<nat>)
    requires a <= b
    ensures |a| <= |b|
    decreases b
  {
    if a != {} {
      var p :| p in a;
      Smaller(a - {p}, b - {p});
    }
  }

  /** Offers lines from the last one back until every target is found. */
  method OfferEvents(lines: seq<string>, from: nat, before: map<nat, OutputEvent>, targets: set<nat>, parse: string -> Option<OutputEvent>)
    returns (found: map<nat, OutputEvent>, visits: nat)
    requires from <= |lines| && before.Keys <= targets
    ensures LastEvents(before, found, targets, lines[from..], parse)
    ensures visits <= |lines| - from
  {
    var i := |lines|;
    found, visits := before, 0;
    while i > from
      invariant from <= i <= |lines| && visits == |lines| - i
      invariant LastEvents(before, found, targets, lines[i..], parse)
    {
      i := i - 1;
      visits := visits + 1;
      var event := parse(lines[i]);
      ghost var middle := found;
      if event.Some? && event.value.process in targets && event.value.process !in found {
        found := found[event.value.process := event.value];
      }
      assert [lines[i]][..0] == [];
      assert LastEvents(middle, found, targets, [lines[i]], parse);
      assert lines[i..] == [lines[i]] + lines[i + 1..];
      LastEventsJoin(before, middle, found, targets, [lines[i]], lines[i + 1..], parse);
      if |found| == |targets| {
        LastEventsFull(found, targets, lines[from..i], parse);
        assert lines[from..] == lines[from..i] + lines[i..];
        LastEventsJoin(before, found, found, targets, lines[from..i], lines[i..], parse);
        return;
      }
    }
  }

  /** What has been read is settled: the answers over it are those over the whole file, given what lies left of it. */
  ghost predicate Progress(text: string, left: seq<string>, found: map<nat, OutputEvent>, targets: set<nat>, parse: string -> Option<OutputEvent>) {
    && found.Keys <= targets
    && forall p | p in targets :: LastEvent(Lines(text), parse, p) == Latest(Found(found, p), left, parse, p)
  }

  lemma ProgressChunk(
    text: string, left: seq<string>, open: seq<string>, read: seq<string>, before: map<nat, OutputEvent>,
    found: map<nat, OutputEvent>, targets: set<nat>, parse: string -> Option<OutputEvent>)
    requires Progress(text, left, before, targets, parse) && left == open + read
    requires LastEvents(before, found, targets, read, parse)
    ensures Progress(text, open, found, targets, parse)
  {
    forall p | p in targets ensures LastEvent(Lines(text), parse, p) == Latest(Found(found, p), open, parse, p) {
      LatestAppend(Found(before, p), open, read, parse, p);
    }
  }

  lemma ProgressDone(text: string, left: seq<string>, found: map<nat, OutputEvent>, targets: set<nat>, parse: string -> Option<OutputEvent>)
    requires Progress(text, left, found, targets, parse)
    requires |found| == |targets| || left == [] || (left == [""] && parse("").None?)
    ensures forall p | p in targets :: Found(found, p) == LastEvent(Lines(text), parse, p)
  {
    if |found| == |targets| {
      SameSize(found.Keys, targets);
    } else if left != [] {
      assert [""][..0] == [];
      assert forall p :: LastEvent([""], parse, p) == LastEvent([], parse, p);
    }
  }

  /** Reads a file backwards in chunks until every targeted process has shown its last event. */
  method ReadLastOutputEvents(text: string, chunk: nat, targets: set<nat>, parse: string -> Option<OutputEvent>)
    returns (found: map<nat, OutputEvent>, visits: nat)
    requires chunk > 0 && parse("").None?
    ensures found.Keys <= targets
    ensures forall p | p in targets :: Found(found, p) == LastEvent(Lines(text), parse, p)
    ensures visits <= |Lines(text)|
  {
    found, visits := map[], 0;
    if targets == {} { return; }
    var position, suffix := |text|, "";
    ghost var left := Lines(text);
    assert text[..position] + suffix == text;
    while position > 0
      invariant 0 <= position && Remains(text, position, suffix, left)
      invariant Progress(text, left, found, targets, parse)
      invariant visits + |left| <= |Lines(text)|
    {
      var length := if chunk < position then chunk else position;
      ChunkBack(text, position, length, suffix);
      var lines := Lines(text[position - length..position] + suffix);
      position := position - length;
      var firstComplete := if position == 0 then 0 else 1;
      ghost var before, right := found, left;
      left := LeftOf(text, position, lines[0]);
      var offered;
      found, offered := OfferEvents(lines, firstComplete, found, targets, parse);
      visits := visits + offered;
      ProgressChunk(text, right, left, lines[firstComplete..], before, found, targets, parse);
      if |found| == |targets| { break; }
      suffix := lines[0];
    }
    ProgressDone(text, left, found, targets, parse);
  }

  // ----- reading forwards -----

  function Concat(files: seq<string>): string {
    if files == [] then "" else Concat(files[..|files| - 1]) + files[|files| - 1]
  }

  /** The lines a forward reader reports: the remainder at the end only when it is not empty. */
  function Reported(text: string): seq<string> {
    var lines := Lines(text);
    if Last(lines) == "" then lines[..|lines| - 1] else lines
  }

  lemma JoinedEmpty(lines: seq<string>)
    requires lines != []
    ensures Joined(lines, ["", ""]) == lines + [""]
  {
    assert Last(lines) + "" == Last(lines) && lines == lines[..|lines| - 1] + [Last(lines)];
  }

  lemma BrokenOff(text: string)
    requires text != "" && Last(text) != '\n'
    ensures Last(Lines(text)) != ""
  {
    var front, last := text[..|text| - 1], [Last(text)];
    assert text == front + last;
    LinesUnbroken(last);
    LinesJoin(front, last);
    assert Last(Joined(Lines(front), [last])) == Last(Lines(front)) + last;
  }

  /** A text that ends with a line's end reports the lines before it; one that breaks off reports the broken line, too. */
  lemma ReportedEnds(text: string)
    ensures Reported(text + "\n") == Lines(text)
    ensures text != "" && Last(text) != '\n' ==> Reported(text) == Lines(text)
  {
    LinesJoin(text, "\n");
    assert "\n"[1..] == "" && Lines("\n") == ["", ""];
    JoinedEmpty(Lines(text));
    if text != "" && Last(text) != '\n' {
      BrokenOff(text);
    }
  }

  lemma Resplit<T>(all: seq<T>, closed: seq<T>, rest: T, split: seq<T>)
    requires all == closed + [rest] && split != []
    ensures all[..|all| - 1] + split == closed + split[..|split| - 1] + [Last(split)] && Last(all) == rest
  {
    assert all[..|all| - 1] == closed;
    assert split == split[..|split| - 1] + [Last(split)];
  }

  lemma FeedChunk(read: string, piece: string, closed: seq<string>, rest: string)
    requires Lines(read) == closed + [rest]
    ensures var split := Lines(rest + piece);
      Lines(read + piece) == closed + split[..|split| - 1] + [Last(split)]
  {
    Resplit(Lines(read), closed, rest, Lines(rest + piece));
    LinesExtend(read, piece);
  }

  /** Feeds one file, chunk by chunk, to a stream whose open line is the remainder. */
  method FeedFile(file: string, chunk: nat, remainder: string, ghost before: string, ghost closed: seq<string>)
    returns (lines: seq<string>, rest: string)
    requires chunk > 0 && Lines(before) == closed + [remainder]
    ensures Lines(before + file) == closed + lines + [rest]
  {
    lines, rest := [], remainder;
    var at := 0;
    assert before + file[..0] == before;
    while at < |file|
      invariant at <= |file|
      invariant Lines(before + file[..at]) == closed + lines + [rest]
    {
      var length := if chunk < |file| - at then chunk else |file| - at;
      var split := Lines(rest + file[at..at + length]);
      FeedChunk(before + file[..at], file[at..at + length], closed + lines, rest);
      Reread(before, file, at, length);
      assert closed + lines + split[..|split| - 1] == closed + (lines + split[..|split| - 1]);
      lines := lines + split[..|split| - 1];
      rest := Last(split);
      at := at + length;
    }
    assert file[..at] == file;
  }

  lemma Reread(before: string, file: string, at: nat, length: nat)
    requires at + length <= |file|
    ensures (before + file[..at]) + file[at..at + length] == before + file[..at + length]
  {
  }

  /** Reads ordered files as one stream; a line may begin in one file and end in the next. */
  method ForEachLine(files: seq<string>, chunk: nat) returns (lines: seq<string>)
    requires chunk > 0
    ensures lines == Reported(Concat(files))
  {
    lines := [];
    var remainder := "";
    var f := 0;
    while f < |files|
      invariant f <= |files|
      invariant Lines(Concat(files[..f])) == lines + [remainder]
    {
      var read;
      ghost var before := Concat(files[..f]);
      read, remainder := FeedFile(files[f], chunk, remainder, before, lines);
      lines := lines + read;
      assert files[..f + 1][..f] == files[..f];
      f := f + 1;
    }
    assert files[..f] == files;
    if remainder != "" { lines := lines + [remainder]; }
  }
}
