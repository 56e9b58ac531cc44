/**
 What the shell reading makes of a command that was written: lines of words in any
 mixture of bare, quoted and escaped characters, joined by separators, come back as
 the segments and words they were written from, also behind a wrapper.
 */
module ShellReading {
  import opened Prelude
  import opened ShellCommand

  // ----- writing -----

  /** A way to write a part of a word. */
  datatype Piece = Bare(c: char) | Quoted(quote: char, text: string) | Escaped(c: char)

  predicate Fine(piece: Piece) {
    match piece
    case Bare(c) => !IsSpace(c) && c !in "`'\";|&"
    case Quoted(quote, text) => quote in "'\"" && quote !in text && '`' !in text
    case Escaped(_) => true
  }

  function PieceText(piece: Piece): string {
    match piece
    case Bare(c) => [c]
    case Quoted(quote, text) => [quote] + text + [quote]
    case Escaped(c) => ['`', c]
  }

  function PieceMeans(piece: Piece): string {
    match piece
    case Bare(c) => [c]
    case Quoted(_, text) => text
    case Escaped(c) => [c]
  }

  type Word = seq<Piece>

  function Written(word: Word): string {
    if word == [] then "" else PieceText(word[0]) + Written(word[1..])
  }

  function Meant(word: Word): string {
    if word == [] then "" else PieceMeans(word[0]) + Meant(word[1..])
  }

  predicate Proper(word: Word) {
    Meant(word) != "" && forall i | 0 <= i < |word| :: Fine(word[i])
  }

  predicate AllProper(words: seq<Word>) {
    forall i | 0 <= i < |words| :: Proper(words[i])
  }

  /** The words with a space between them. */
  function Line(words: seq<Word>): string {
    if words == [] then "" else if |words| == 1 then Written(words[0]) else Written(words[0]) + " " + Line(words[1..])
  }

  function Meants(words: seq<Word>): (meants: seq<string>)
    ensures |meants| == |words|
  {
    if words == [] then [] else [Meant(words[0])] + Meants(words[1..])
  }

  /** The lines with a separator behind each but the last. */
  function Script(lines: seq<seq<Word>>, separators: seq<char>): string
    requires |lines| == |separators| + 1
  {
    if separators == [] then Line(lines[0]) else Line(lines[0]) + [separators[0]] + Script(lines[1..], separators[1..])
  }

  function LineTexts(lines: seq<seq<Word>>): seq<string> {
    if lines == [] then [] else [Line(lines[0])] + LineTexts(lines[1..])
  }

  // ----- reading from a position is reading what is left -----

  lemma {:induction false} TokensLeft(read: string, text: string, index: nat, current: string, quote: Option<char>)
    requires index <= |text|
    ensures TokensFrom(read + text, |read| + index, current, quote) == TokensFrom(text, index, current, quote)
    decreases |text| - index
  {
    if index < |text| {
      var c := text[index];
      assert (read + text)[|read| + index] == c;
      if c == '`' && index + 1 < |text| {
        assert (read + text)[|read| + index + 1] == text[index + 1];
        TokensLeft(read, text, index + 2, current + [text[index + 1]], quote);
      } else if quote.Some? {
        TokensLeft(read, text, index + 1, if c == quote.value then current else current + [c], if c == quote.value then None else quote);
      } else if IsQuote(c) {
        TokensLeft(read, text, index + 1, current, Some(c));
      } else if IsSpace(c) {
        TokensLeft(read, text, index + 1, "", None);
      } else {
        TokensLeft(read, text, index + 1, current + [c], None);
      }
    }
  }

  lemma {:induction false} SegmentsLeft(read: string, text: string, index: nat, current: string, quote: Option<char>)
    requires index <= |text|
    ensures SegmentsFrom(read + text, |read| + index, current, quote) == SegmentsFrom(text, index, current, quote)
    decreases |text| - index
  {
    if index < |text| {
      var c := text[index];
      assert (read + text)[|read| + index] == c;
      if c == '`' && index + 1 < |text| {
        assert (read + text)[|read| + index + 1] == text[index + 1];
        SegmentsLeft(read, text, index + 2, current + [c, text[index + 1]], quote);
      } else if quote.None? && IsSeparator(c) {
        SegmentsLeft(read, text, index + 1, "", None);
      } else {
        SegmentsLeft(read, text, index + 1, current + [c], QuoteAfter(quote, c));
      }
    }
  }

  // ----- words -----

  lemma {:induction false} QuotedTokens(quote: char, text: string, rest: string, current: string)
    requires quote in "'\"" && quote !in text && '`' !in text
    ensures TokensFrom(text + [quote] + rest, 0, current, Some(quote)) == TokensFrom(rest, 0, current + text, None)
    decreases |text|
  {
    var all := text + [quote] + rest;
    if text == "" {
      assert all == [quote] + rest && current + text == current;
      TokensLeft([quote], rest, 0, current, None);
    } else {
      assert all == [text[0]] + (text[1..] + [quote] + rest);
      TokensLeft([text[0]], text[1..] + [quote] + rest, 0, current + [text[0]], Some(quote));
      assert current + [text[0]] + text[1..] == current + text;
      QuotedTokens(quote, text[1..], rest, current + [text[0]]);
    }
  }

  lemma PieceTokens(piece: Piece, rest: string, current: string)
    requires Fine(piece)
    ensures TokensFrom(PieceText(piece) + rest, 0, current, None) == TokensFrom(rest, 0, current + PieceMeans(piece), None)
  {
    match piece {
      case Bare(c) => TokensLeft([c], rest, 0, current + [c], None);
      case Escaped(c) => TokensLeft(['`', c], rest, 0, current + [c], None);
      case Quoted(quote, text) =>
        assert PieceText(piece) + rest == [quote] + (text + [quote] + rest);
        TokensLeft([quote], text + [quote] + rest, 0, current, Some(quote));
        QuotedTokens(quote, text, rest, current);
    }
  }

  lemma {:induction false} WordTokens(word: Word, rest: string, current: string)
    requires forall i | 0 <= i < |word| :: Fine(word[i])
    ensures TokensFrom(Written(word) + rest, 0, current, None) == TokensFrom(rest, 0, current + Meant(word), None)
    decreases |word|
  {
    if word == [] {
      assert "" + rest == rest && current + "" == current;
    } else {
      assert Written(word) + rest == PieceText(word[0]) + (Written(word[1..]) + rest);
      PieceTokens(word[0], Written(word[1..]) + rest, current);
      WordTokens(word[1..], rest, current + PieceMeans(word[0]));
      assert current + PieceMeans(word[0]) + Meant(word[1..]) == current + Meant(word);
    }
  }

  /** The words of a line are read back as they were meant, however they were written. */
  lemma {:induction false} LineTokens(words: seq<Word>)
    requires AllProper(words)
    ensures Tokens(Line(words)) == Meants(words)
  {
    if words != [] {
      assert Proper(words[0]) && "" + Meant(words[0]) == Meant(words[0]);
      if |words| == 1 {
        WordTokens(words[0], "", "");
        assert Written(words[0]) + "" == Written(words[0]);
      } else {
        var rest := Line(words[1..]);
        assert Line(words) == Written(words[0]) + (" " + rest);
        WordTokens(words[0], " " + rest, "");
        TokensLeft(" ", rest, 0, "", None);
        LineTokens(words[1..]);
      }
    }
  }

  // ----- segments -----

  lemma {:induction false} QuotedSegments(quote: char, text: string, rest: string, current: string)
    requires quote in "'\"" && quote !in text && '`' !in text
    ensures SegmentsFrom(text + [quote] + rest, 0, current, Some(quote)) == SegmentsFrom(rest, 0, current + text + [quote], None)
    decreases |text|
  {
    var all := text + [quote] + rest;
    if text == "" {
      assert all == [quote] + rest && current + text == current;
      SegmentsLeft([quote], rest, 0, current + [quote], None);
    } else {
      assert all == [text[0]] + (text[1..] + [quote] + rest);
      SegmentsLeft([text[0]], text[1..] + [quote] + rest, 0, current + [text[0]], Some(quote));
      assert current + [text[0]] + text[1..] == current + text;
      QuotedSegments(quote, text[1..], rest, current + [text[0]]);
    }
  }

  lemma PieceSegments(piece: Piece, rest: string, current: string)
    requires Fine(piece)
    ensures SegmentsFrom(PieceText(piece) + rest, 0, current, None) == SegmentsFrom(rest, 0, current + PieceText(piece), None)
  {
    match piece {
      case Bare(c) => SegmentsLeft([c], rest, 0, current + [c], None);
      case Escaped(c) => SegmentsLeft(['`', c], rest, 0, current + ['`', c], None);
      case Quoted(quote, text) =>
        assert PieceText(piece) + rest == [quote] + (text + [quote] + rest);
        SegmentsLeft([quote], text + [quote] + rest, 0, current + [quote], Some(quote));
        QuotedSegments(quote, text, rest, current + [quote]);
        assert current + [quote] + text + [quote] == current + PieceText(piece);
    }
  }

  lemma {:induction false} WordSegments(word: Word, rest: string, current: string)
    requires forall i | 0 <= i < |word| :: Fine(word[i])
    ensures SegmentsFrom(Written(word) + rest, 0, current, None) == SegmentsFrom(rest, 0, current + Written(word), None)
    decreases |word|
  {
    if word == [] {
      assert "" + rest == rest && current + "" == current;
    } else {
      assert Written(word) + rest == PieceText(word[0]) + (Written(word[1..]) + rest);
      PieceSegments(word[0], Written(word[1..]) + rest, current);
      WordSegments(word[1..], rest, current + PieceText(word[0]));
      assert current + PieceText(word[0]) + Written(word[1..]) == current + Written(word);
    }
  }

  lemma SpaceSegments(left: string, current: string)
    ensures SegmentsFrom(" " + left, 0, current, None) == SegmentsFrom(left, 0, current + " ", None)
  {
    SegmentsLeft(" ", left, 0, current + " ", None);
  }

  lemma Regrouped(a: string, b: string, c: string)
    ensures (a + " " + b) + c == a + (" " + (b + c)) && (c + a + " ") + b == c + (a + " " + b)
  {
  }

  lemma {:induction false} LineSegments(words: seq<Word>, rest: string, current: string)
    requires AllProper(words) && words != []
    ensures SegmentsFrom(Line(words) + rest, 0, current, None) == SegmentsFrom(rest, 0, current + Line(words), None)
    decreases |words|
  {
    var first := Written(words[0]);
    assert Proper(words[0]);
    if |words| == 1 {
      WordSegments(words[0], rest, current);
    } else {
      var more := Line(words[1..]);
      assert AllProper(words[1..]);
      Regrouped(first, more, rest);
      Regrouped(first, more, current);
      WordSegments(words[0], " " + (more + rest), current);
      SpaceSegments(more + rest, current + first);
      LineSegments(words[1..], rest, current + first + " ");
    }
  }

  lemma NotBlank(words: seq<Word>)
    requires words != [] && AllProper(words)
    ensures !Blank(Line(words))
  {
    assert Proper(words[0]);
    assert words[0] != [] && Fine(words[0][0]);
    assert Line(words)[0] == PieceText(words[0][0])[0];
  }

  /** A script is read back as its lines, whichever separators stand between them. */
  lemma {:induction false} ScriptSegments(lines: seq<seq<Word>>, separators: seq<char>)
    requires |lines| == |separators| + 1
    requires forall i | 0 <= i < |lines| :: lines[i] != [] && AllProper(lines[i])
    requires forall i | 0 <= i < |separators| :: separators[i] in ";|&"
    ensures Segments(Script(lines, separators)) == LineTexts(lines)
    decreases |lines|
  {
    NotBlank(lines[0]);
    assert "" + Line(lines[0]) == Line(lines[0]);
    if separators == [] {
      LineSegments(lines[0], "", "");
      assert Line(lines[0]) + "" == Line(lines[0]);
    } else {
      var rest := Script(lines[1..], separators[1..]);
      assert Script(lines, separators) == Line(lines[0]) + ([separators[0]] + rest);
      LineSegments(lines[0], [separators[0]] + rest, "");
      NextSegments(Line(lines[0]), separators[0], rest);
      ScriptSegments(lines[1..], separators[1..]);
    }
  }

  lemma NextSegments(line: string, separator: char, rest: string)
    requires separator in ";|&" && !Blank(line)
    ensures SegmentsFrom([separator] + rest, 0, line, None) == [line] + Segments(rest)
  {
    SegmentsLeft([separator], rest, 0, "", None);
  }

  // ----- what runs -----

  predicate IsShell(name: string) {
    name in ["bash", "sh", "zsh", "cmd", "powershell", "pwsh"]
  }

  lemma OneLine(words: seq<Word>, leaf: seq<string> -> bool)
    requires words != [] && AllProper(words)
    ensures Segments(Line(words)) == [Line(words)] && (Runs(Line(words), leaf) <==> SegmentRuns(Line(words), leaf))
  {
    ScriptSegments([words], []);
    assert Script([words], []) == Line(words) && LineTexts([words]) == [Line(words)];
    assert Segments(Line(words))[0] == Line(words);
  }

  /** A line that starts with no wrapper runs what its own words are recognised as. */
  lemma PlainLineRuns(words: seq<Word>, leaf: seq<string> -> bool)
    requires words != [] && AllProper(words) && !IsShell(ExecutableName(Meant(words[0])))
    ensures Runs(Line(words), leaf) <==> leaf(Meants(words))
  {
    OneLine(words, leaf);
    LineTokens(words);
  }

  /** What makes the rest of a line a command of its own, per shell. */
  predicate Introduces(name: string, option: string) {
    || (name in ["bash", "sh", "zsh"] && option in ["-c", "-C", "-lc", "-cl"])
    || (name == "cmd" && option in ["/c", "/C"])
    || (name in ["powershell", "pwsh"] && option in ["-c", "-command", "-Command"])
  }

  lemma PosixOption(option: string)
    requires option in ["-c", "-C", "-lc", "-cl"]
    ensures CommandOption(option)
  {
    assert LowerChar("-c"[1]) == LowerChar("-C"[1]) == LowerChar("-lc"[2]) == LowerChar("-cl"[1]) == 'c';
  }

  lemma PowerShellOption(option: string)
    requires option in ["-c", "-command", "-Command"]
    ensures StartsInner(PowerShell, option)
  {
    assert Lower("-command") == Lower("-Command") == "-command";
  }

  lemma Starts(name: string, option: string)
    requires Introduces(name, option)
    ensures WrapperOf(name) != NoWrapper && StartsInner(WrapperOf(name), option)
  {
    if name in ["bash", "sh", "zsh"] {
      PosixOption(option);
    } else if name == "cmd" {
      assert Lower("/c") == Lower("/C") == "/c";
    } else {
      PowerShellOption(option);
    }
  }

  lemma InnerStarts(name: string, tokens: seq<string>)
    requires |tokens| >= 2 && Introduces(name, tokens[1])
    ensures WrapperOf(name) != NoWrapper && InnerAt(WrapperOf(name), tokens, 1) == 1
  {
    Starts(name, tokens[1]);
  }

  lemma SegmentUnwraps(segment: string, wrapper: Wrapper, leaf: seq<string> -> bool)
    requires |Tokens(segment)| >= 2 && wrapper == WrapperOf(ExecutableName(Tokens(segment)[0])) != NoWrapper
    requires InnerAt(wrapper, Tokens(segment), 1) == 1
    ensures SegmentRuns(segment, leaf) <==> Runs(Join(Tokens(segment)[2..]), leaf)
  {
  }

  /** A shell that is given a command runs what that command runs. */
  lemma WrappedLineRuns(words: seq<Word>, leaf: seq<string> -> bool)
    requires |words| >= 2 && AllProper(words) && Introduces(ExecutableName(Meant(words[0])), Meant(words[1]))
    ensures Runs(Line(words), leaf) <==> Runs(Join(Meants(words)[2..]), leaf)
  {
    OneLine(words, leaf);
    LineTokens(words);
    var name, tokens := ExecutableName(Meant(words[0])), Meants(words);
    assert tokens[0] == Meant(words[0]) && tokens[1] == Meant(words[1]);
    InnerStarts(name, tokens);
    SegmentUnwraps(Line(words), WrapperOf(name), leaf);
  }

  lemma {:induction false} NothingStarts(wrapper: Wrapper, tokens: seq<string>, from: nat)
    requires from <= |tokens| && forall i | from <= i < |tokens| :: !StartsInner(wrapper, tokens[i])
    ensures InnerAt(wrapper, tokens, from) == |tokens|
    decreases |tokens| - from
  {
    if from < |tokens| {
      NothingStarts(wrapper, tokens, from + 1);
    }
  }

  /** A shell that is given no command runs nothing that is recognised. */
  lemma IdleShell(words: seq<Word>, leaf: seq<string> -> bool)
    requires words != [] && AllProper(words) && IsShell(ExecutableName(Meant(words[0])))
    requires forall i | 0 < i < |words| :: Meant(words[i]) == "" || Meant(words[i])[0] !in "-/"
    ensures !Runs(Line(words), leaf)
  {
    OneLine(words, leaf);
    LineTokens(words);
    var wrapper, tokens := WrapperOf(ExecutableName(Meant(words[0]))), Meants(words);
    forall i | 0 < i < |tokens| ensures !StartsInner(wrapper, tokens[i]) {
      MeantsAt(words, i);
      NoDash(wrapper, tokens[i]);
    }
    NothingStarts(wrapper, tokens, 1);
  }

  lemma {:induction false} MeantsAt(words: seq<Word>, i: nat)
    requires i < |words|
    ensures Meants(words)[i] == Meant(words[i])
  {
    if i > 0 {
      MeantsAt(words[1..], i - 1);
    }
  }

  lemma NoDash(wrapper: Wrapper, token: string)
    requires token == "" || token[0] !in "-/"
    ensures !StartsInner(wrapper, token)
  {
    if token != "" {
      assert Lower(token)[0] == LowerChar(token[0]) && LowerChar(token[0]) !in "-/";
      assert "-command"[0] == "-c"[0] == '-' && "/c"[0] == '/';
    }
  }

  // ----- names -----

  /** A program's plain name. */
  predicate PlainName(name: string) {
    forall i | 0 <= i < |name| :: 'a' <= name[i] <= 'z'
  }

  lemma {:induction false} NameBehind(directory: string, name: string)
    requires '/' !in name && '\\' !in name
    ensures AfterSlash(directory + "/" + name) == AfterSlash(directory + "\\" + name) == name
    decreases |name|
  {
    var slashed, back := directory + "/" + name, directory + "\\" + name;
    if name != "" {
      var front := name[..|name| - 1];
      assert slashed[..|slashed| - 1] == directory + "/" + front && back[..|back| - 1] == directory + "\\" + front;
      NameBehind(directory, front);
    }
  }

  lemma {:induction false} NameAlone(name: string)
    requires '/' !in name && '\\' !in name
    ensures AfterSlash(name) == name
  {
    if name != "" {
      NameAlone(name[..|name| - 1]);
    }
  }

  lemma NamedBy(value: string, name: string)
    requires PlainName(name) && AfterSlash(value) in [name, name + ".cmd", name + ".exe"]
    ensures ExecutableName(value) == name
  {
    LowerEnded(name);
    NotEnded(name);
  }

  /** Where the program lies and how its file ends do not matter. */
  lemma ProgramName(directory: string, name: string, ending: string)
    requires PlainName(name) && ending in ["", ".cmd", ".exe"]
    ensures ExecutableName(name + ending) == name
    ensures ExecutableName(directory + "/" + (name + ending)) == ExecutableName(directory + "\\" + (name + ending)) == name
  {
    assert name + "" == name;
    NameAlone(name + ending);
    NameBehind(directory, name + ending);
    NamedBy(name + ending, name);
    NamedBy(directory + "/" + (name + ending), name);
    NamedBy(directory + "\\" + (name + ending), name);
  }

  lemma LowerEnded(name: string)
    requires PlainName(name)
    ensures Lower(name) == name && Lower(name + ".cmd") == name + ".cmd" && Lower(name + ".exe") == name + ".exe"
  {
  }

  lemma NotEnded(name: string)
    requires PlainName(name)
    ensures !EndsWith(name, ".cmd") && !EndsWith(name, ".exe")
    ensures EndsWith(name + ".cmd", ".cmd") && EndsWith(name + ".exe", ".exe")
  {
    if |name| >= 4 {
      assert name[|name| - 4..][0] == name[|name| - 4] != ".cmd"[0];
    }
  }

  // ----- which words drive the backend -----

  /** The generators and compilers by their names; `prisma` and `nestia` only in the one form that generates. */
  lemma ToolRuns(words: seq<string>, directory: string, ending: string, name: string)
    requires words != [] && words[0] == directory + "/" + (name + ending) && ending in ["", ".cmd", ".exe"]
    requires name in ["prisma", "nestia", "ttsc", "ttsx"]
    ensures LifecycleLeaf(words) <==>
      match name[0]
      case 'p' => |words| > 1 && Lower(words[1]) == "generate"
      case 'n' => |words| > 1 && Lower(words[1]) == "all"
      case _ => name == "ttsc" || exists i | 0 < i < |words| :: Contains(Lower(words[i]), "schema")
  {
    ProgramName(directory, name, ending);
    NoManager(name);
    ToolLeaf(words, name);
    ToolNamed(words, name);
  }

  lemma NoManager(name: string)
    requires name in ["prisma", "nestia", "ttsc", "ttsx"]
    ensures !IsPackageManager(name) && name != "npx"
  {
  }

  lemma ToolLeaf(words: seq<string>, name: string)
    requires words != [] && ExecutableName(words[0]) == name && !IsPackageManager(name) && name != "npx"
    ensures LifecycleLeaf(words) <==> IsBackendTool(words, 0)
  {
  }

  lemma ToolNamed(words: seq<string>, name: string)
    requires words != [] && ExecutableName(words[0]) == name && name in ["prisma", "nestia", "ttsc", "ttsx"]
    ensures IsBackendTool(words, 0) <==>
      match name[0]
      case 'p' => |words| > 1 && Lower(words[1]) == "generate"
      case 'n' => |words| > 1 && Lower(words[1]) == "all"
      case _ => name == "ttsc" || exists i | 0 < i < |words| :: Contains(Lower(words[i]), "schema")
  {
  }

  // ----- options in front of the action -----

  lemma {:induction false} SkipLater(before: seq<string>, tokens: seq<string>, index: nat)
    ensures SkipOptions(before + tokens, |before| + index) == |before| + SkipOptions(tokens, index)
    decreases |tokens| - index
  {
    if index < |tokens| && StartsWith(tokens[index], "-") {
      SkipLater(before, tokens, index + 1);
      SkipLater(before, tokens, index + 2);
    }
  }

  lemma SchemaLater(before: seq<string>, tokens: seq<string>, from: nat)
    ensures (exists i | |before| + from < i < |before + tokens| :: Contains(Lower((before + tokens)[i]), "schema"))
       <==> (exists i | from < i < |tokens| :: Contains(Lower(tokens[i]), "schema"))
  {
    if i :| |before| + from < i < |before + tokens| && Contains(Lower((before + tokens)[i]), "schema") {
      assert tokens[i - |before|] == (before + tokens)[i];
    }
    if i :| from < i < |tokens| && Contains(Lower(tokens[i]), "schema") {
      assert (before + tokens)[|before| + i] == tokens[i];
    }
  }

  lemma ToolLater(before: seq<string>, tokens: seq<string>, from: nat)
    ensures IsBackendTool(before + tokens, |before| + from) <==> IsBackendTool(tokens, from)
  {
    if from < |tokens| {
      SchemaLater(before, tokens, from);
      assert (before + tokens)[|before| + from] == tokens[from];
      assert TokenAt(before + tokens, |before| + from + 1) == TokenAt(tokens, from + 1);
    }
  }

  lemma ExecutedLater(before: seq<string>, tokens: seq<string>, at: nat)
    ensures IsBackendTool(before + tokens, SkipOptions(before + tokens, |before| + at)) <==> IsBackendTool(tokens, SkipOptions(tokens, at))
  {
    SkipLater(before, tokens, at);
    ToolLater(before, tokens, SkipOptions(tokens, at));
  }

  /** What a package manager is asked for behind its options. */
  predicate Asked(rest: seq<string>) {
    rest != [] &&
      var action := Lower(rest[0]);
      if action in ["run", "run-script"] then IsBackendScript(TokenAt(rest, 1))
      else (
        IsBackendScript(Some(action))
        || (if action in ["exec", "dlx", "x"] then IsBackendTool(rest, SkipOptions(rest, 1)) else IsBackendTool(rest, 0)))
  }

  /** The words from the first that is no option. */
  function Behind(tokens: seq<string>): seq<string> {
    if SkipOptions(tokens, 0) <= |tokens| then tokens[SkipOptions(tokens, 0)..] else []
  }

  lemma ActionDecides(before: seq<string>, rest: seq<string>, action: string)
    requires before != [] && rest != [] && SkipOptions(before + rest, 1) == |before| && action == Lower(rest[0])
    requires IsPackageManager(ExecutableName(before[0]))
    ensures LifecycleLeaf(before + rest) <==> Asked(rest)
  {
    var tokens := before + rest;
    assert tokens[0] == before[0] && tokens[|before|] == rest[0] && TokenAt(tokens, |before| + 1) == TokenAt(rest, 1);
    if action in ["run", "run-script"] {
    } else if action in ["exec", "dlx", "x"] {
      ExecutedLater(before, rest, 1);
    } else {
      ToolLater(before, rest, 0);
    }
  }

  lemma ManagerAsked(manager: string, tokens: seq<string>)
    requires IsPackageManager(ExecutableName(manager))
    ensures LifecycleLeaf([manager] + tokens) <==> Asked(Behind(tokens))
  {
    var at := SkipOptions(tokens, 0);
    assert SkipOptions([manager] + tokens, 1) == 1 + at by {
      SkipLater([manager], tokens, 0);
    }
    if at < |tokens| {
      assert [manager] + tokens == ([manager] + tokens[..at]) + tokens[at..];
      ActionDecides([manager] + tokens[..at], tokens[at..], Lower(tokens[at]));
    }
  }

  /** An option takes the word behind it along when it is one of six and carries no value of its own. */
  predicate OneOption(option: seq<string>) {
    && option != [] && StartsWith(option[0], "-")
    && |option| == if Lower(option[0]) in ["--dir", "--filter", "--prefix", "--cwd", "-c", "-f"] then 2 else 1
  }

  /** Options in front of the action do not matter, whatever their values. */
  lemma OptionsDoNotMatter(manager: string, option: seq<string>, rest: seq<string>)
    requires manager in ["pnpm", "npm", "yarn", "bun"] && OneOption(option)
    ensures LifecycleLeaf([manager] + (option + rest)) <==> LifecycleLeaf([manager] + rest)
  {
    ManagerIs(manager);
    ManagerAsked(manager, option + rest);
    ManagerAsked(manager, rest);
    OptionSkipped(option, rest);
    assert Behind(option + rest) == Behind(rest);
  }

  lemma OptionSkipped(option: seq<string>, rest: seq<string>)
    requires OneOption(option)
    ensures SkipOptions(option + rest, 0) == |option| + SkipOptions(rest, 0)
  {
    SkipLater(option, rest, 0);
    assert (option + rest)[0] == option[0];
    ValueFollows(option[0]);
  }

  lemma ValueFollows(option: string)
    ensures '=' !in Lower(option) && TakesValue(Lower(option)) <==>
      Lower(option) in ["--dir", "--filter", "--prefix", "--cwd", "-c", "-f"]
  {
  }

  // ----- scripts -----

  lemma ActionIsFirst(tokens: seq<string>)
    requires |tokens| >= 2 && !StartsWith(tokens[1], "-")
    ensures SkipOptions(tokens, 1) == 1
  {
  }

  lemma ManagerIs(manager: string)
    requires manager in ["pnpm", "npm", "yarn", "bun"]
    ensures IsPackageManager(ExecutableName(manager))
  {
    ProgramName("", manager, "");
    assert manager + "" == manager;
  }

  lemma RunActions(action: string)
    requires action in ["run", "run-script"]
    ensures Lower(action) == action && !StartsWith(action, "-")
  {
    assert action[..1][0] == 'r' != "-"[0];
  }

  lemma RunAsked(tokens: seq<string>)
    requires |tokens| == 2 && Lower(tokens[0]) in ["run", "run-script"]
    ensures Asked(tokens) <==> IsBackendScript(Some(tokens[1]))
  {
  }

  lemma RunDev(tokens: seq<string>)
    requires |tokens| == 3 && IsPackageManager(ExecutableName(tokens[0])) && SkipOptions(tokens, 1) == 1
    requires tokens[1] in ["run", "run-script"] && Lower(tokens[1]) == tokens[1]
    ensures ResidentLeaf(tokens) <==> Lower(tokens[2]) == "dev"
  {
    assert tokens[1][0] != "dev"[0];
  }

  /** Under a package manager the script that is run decides, by its name. */
  lemma ManagerRuns(manager: string, action: string, name: string)
    requires manager in ["pnpm", "npm", "yarn", "bun"] && action in ["run", "run-script"]
    ensures LifecycleLeaf([manager] + [action, name]) <==>
      Lower(name) in ["build", "build:prisma", "build:sdk", "build:main", "build:test", "schema", "check:watch", "test", "lint", "format"]
    ensures ResidentLeaf([manager, action, name]) <==> Lower(name) == "dev"
  {
    ManagerIs(manager);
    RunActions(action);
    ActionIsFirst([manager, action, name]);
    RunDev([manager, action, name]);
    ManagerAsked(manager, [action, name]);
    RunAsked([action, name]);
    assert Behind([action, name]) == [action, name];
  }

  lemma PlainAction(manager: string, name: string)
    requires manager in ["pnpm", "npm", "yarn", "bun"]
    requires !StartsWith(name, "-")
    ensures ResidentLeaf([manager, name]) <==> Lower(name) == "dev"
  {
    ManagerIs(manager);
    ActionIsFirst([manager, name]);
  }

  lemma ScriptAsked(name: string)
    requires IsBackendScript(Some(name)) && !StartsWith(name, "-")
    ensures Asked([name])
  {
    assert Lower(name) !in ["run", "run-script"];
    assert Lower(Lower(name)) == Lower(name);
  }

  /** A script's name alone runs it, too. */
  lemma ScriptAlone(manager: string, name: string)
    requires manager in ["pnpm", "npm", "yarn", "bun"] && !StartsWith(name, "-")
    requires Lower(name) in ["build", "build:prisma", "build:sdk", "build:main", "build:test", "schema", "check:watch", "test", "lint", "format"]
    ensures LifecycleLeaf([manager] + [name])
  {
    ManagerIs(manager);
    ManagerAsked(manager, [name]);
    assert Behind([name]) == [name];
    ScriptAsked(name);
  }

  lemma LaunchActions(action: string)
    requires action in ["exec", "dlx", "x"]
    ensures Lower(action) == action && !StartsWith(action, "-") && !IsBackendScript(Some(action)) && action !in ["run", "run-script"]
  {
    assert action[..1][0] == action[0] != "-"[0];
    assert forall name | name in ["exec", "dlx", "x"] :: Lower(name) == name;
  }

  lemma LaunchAsked(action: string, tool: seq<string>)
    requires action in ["exec", "dlx", "x"] && tool != [] && !StartsWith(tool[0], "-")
    ensures Asked([action] + tool) <==> IsBackendTool(tool, 0)
  {
    LaunchActions(action);
    assert ([action] + tool)[0] == action;
    ExecutedLater([action], tool, 0);
  }

  /** A tool drives the backend behind `exec`, `dlx`, `x` and `npx` as it does alone. */
  lemma LaunchedRuns(manager: string, action: string, tool: seq<string>)
    requires manager in ["pnpm", "npm", "yarn", "bun"] && action in ["exec", "dlx", "x"]
    requires tool != [] && !StartsWith(tool[0], "-")
    ensures LifecycleLeaf([manager] + ([action] + tool)) <==> IsBackendTool(tool, 0)
    ensures LifecycleLeaf(["npx"] + tool) <==> IsBackendTool(tool, 0)
  {
    ManagerIs(manager);
    LaunchActions(action);
    assert ([action] + tool)[0] == action;
    assert Behind([action] + tool) == [action] + tool;
    ManagerAsked(manager, [action] + tool);
    LaunchAsked(action, tool);
    NpxLeaf(tool);
  }

  lemma NpxLeaf(tool: seq<string>)
    requires tool != [] && !StartsWith(tool[0], "-")
    ensures LifecycleLeaf(["npx"] + tool) <==> IsBackendTool(tool, 0)
  {
    ProgramName("", "npx", "");
    assert "npx" + "" == "npx" && !IsPackageManager("npx");
    ExecutedLater(["npx"], tool, 0);
  }
}
