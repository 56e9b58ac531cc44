/**
 Deciding whether a shell command drives the backend: quoting, wrappers such as
 `bash -c`, and package-manager scripts. Case is folded for ASCII letters only.
 */
module ShellCommand {
  import opened Prelude

  predicate IsQuote(c: char) {
    c == '\'' || c == '"'
  }

  predicate IsSeparator(c: char) {
    c == ';' || c == '|' || c == '&'
  }

  // ----- segments -----

  function Pushed(current: string): seq<string> {
    if Blank(current) then [] else [current]
  }

  /** The quote in force after a character that is not escaped. */
  function QuoteAfter(quote: Option<char>, c: char): Option<char> {
    if quote.Some? then if quote.value == c then None else quote
    else if IsQuote(c) then Some(c) else None
  }

  function SegmentsFrom(command: string, index: nat, current: string, quote: Option<char>): seq<string>
    requires index <= |command|
    decreases |command| - index
  {
    if index == |command| then Pushed(current)
    else
      var c := command[index];
      if c == '`' && index + 1 < |command| then SegmentsFrom(command, index + 2, current + [c, command[index + 1]], quote)
      else if quote.None? && IsSeparator(c) then Pushed(current) + SegmentsFrom(command, index + 1, "", None)
      else SegmentsFrom(command, index + 1, current + [c], QuoteAfter(quote, c))
  }

  function Segments(command: string): seq<string> {
    SegmentsFrom(command, 0, "", None)
  }

  method ShellSegments(command: string) returns (output: seq<string>)
    ensures output == Segments(command)
  {
    output := [];
    var current, quote: Option<char>, index := "", None, 0;
    while index < |command|
      invariant index <= |command|
      invariant output + SegmentsFrom(command, index, current, quote) == Segments(command)
      decreases |command| - index
    {
      var character := command[index];
      if character == '`' && index + 1 < |command| {
        current := current + [character, command[index + 1]];
        index := index + 1;
      } else if quote.Some? {
        current := current + [character];
        if character == quote.value { quote := None; }
      } else if IsQuote(character) {
        quote := Some(character);
        current := current + [character];
      } else if IsSeparator(character) {
        assert (output + Pushed(current)) + SegmentsFrom(command, index + 1, "", None)
            == output + (Pushed(current) + SegmentsFrom(command, index + 1, "", None));
        output := output + Pushed(current);
        current := "";
      } else {
        current := current + [character];
      }
      index := index + 1;
    }
    output := output + Pushed(current);
  }

  // ----- tokens -----

  function PushedToken(current: string): seq<string> {
    if current == "" then [] else [current]
  }

  function TokensFrom(command: string, index: nat, current: string, quote: Option<char>): seq<string>
    requires index <= |command|
    decreases |command| - index
  {
    if index == |command| then PushedToken(current)
    else
      var c := command[index];
      if c == '`' && index + 1 < |command| then TokensFrom(command, index + 2, current + [command[index + 1]], quote)
      else if quote.Some? then
        if c == quote.value then TokensFrom(command, index + 1, current, None)
        else TokensFrom(command, index + 1, current + [c], quote)
      else if IsQuote(c) then TokensFrom(command, index + 1, current, Some(c))
      else if IsSpace(c) then PushedToken(current) + TokensFrom(command, index + 1, "", None)
      else TokensFrom(command, index + 1, current + [c], None)
  }

  function Tokens(command: string): seq<string> {
    TokensFrom(command, 0, "", None)
  }

  method ShellTokens(command: string) returns (output: seq<string>)
    ensures output == Tokens(command)
  {
    output := [];
    var current, quote: Option<char>, index := "", None, 0;
    while index < |command|
      invariant index <= |command|
      invariant output + TokensFrom(command, index, current, quote) == Tokens(command)
      decreases |command| - index
    {
      var character := command[index];
      if character == '`' && index + 1 < |command| {
        index := index + 1;
        current := current + [command[index]];
      } else if quote.Some? {
        if character == quote.value { quote := None; } else { current := current + [character]; }
      } else if IsQuote(character) {
        quote := Some(character);
      } else if IsSpace(character) {
        assert (output + PushedToken(current)) + TokensFrom(command, index + 1, "", None)
            == output + (PushedToken(current) + TokensFrom(command, index + 1, "", None));
        output := output + PushedToken(current);
        current := "";
      } else {
        current := current + [character];
      }
      index := index + 1;
    }
    output := output + PushedToken(current);
  }

  function Join(tokens: seq<string>): string {
    if tokens == [] then "" else if |tokens| == 1 then tokens[0] else tokens[0] + " " + Join(tokens[1..])
  }

  /** The length of the tokens with one space behind each. */
  function Spaced(tokens: seq<string>): nat {
    if tokens == [] then 0 else |tokens[0]| + 1 + Spaced(tokens[1..])
  }

  lemma {:induction false} SpacedAppend(a: seq<string>, b: seq<string>)
    ensures Spaced(a + b) == Spaced(a) + Spaced(b)
  {
    if a == [] {
      assert a + b == b;
    } else {
      assert (a + b)[1..] == a[1..] + b;
      SpacedAppend(a[1..], b);
    }
  }

  lemma {:induction false} JoinLength(tokens: seq<string>)
    ensures |Join(tokens)| + (if tokens == [] then 0 else 1) == Spaced(tokens)
  {
    if tokens != [] {
      JoinLength(tokens[1..]);
    }
  }

  /** Tokens with their joining spaces never exceed what is left to read. */
  lemma {:induction false} TokensFit(command: string, index: nat, current: string, quote: Option<char>)
    requires index <= |command|
    ensures Spaced(TokensFrom(command, index, current, quote)) <= |current| + (|command| - index) + 1
    ensures forall i | 0 <= i < |TokensFrom(command, index, current, quote)| :: TokensFrom(command, index, current, quote)[i] != ""
    decreases |command| - index
  {
    if index < |command| {
      var c := command[index];
      if c == '`' && index + 1 < |command| {
        TokensFit(command, index + 2, current + [command[index + 1]], quote);
      } else if quote.Some? {
        TokensFit(command, index + 1, if c == quote.value then current else current + [c], if c == quote.value then None else quote);
      } else if IsQuote(c) {
        TokensFit(command, index + 1, current, Some(c));
      } else if IsSpace(c) {
        TokensFit(command, index + 1, "", None);
        SpacedAppend(PushedToken(current), TokensFrom(command, index + 1, "", None));
      } else {
        TokensFit(command, index + 1, current + [c], None);
      }
    }
  }

  /** The command inside a wrapper is strictly shorter than the segment it was taken from. */
  lemma InnerIsShorter(segment: string, from: nat)
    requires 0 < from <= |Tokens(segment)|
    ensures |Join(Tokens(segment)[from..])| < |segment|
  {
    var tokens := Tokens(segment);
    TokensFit(segment, 0, "", None);
    assert tokens == tokens[..from] + tokens[from..];
    SpacedAppend(tokens[..from], tokens[from..]);
    JoinLength(tokens[from..]);
    assert tokens[..from][0] == tokens[0];
  }

  lemma {:induction false} SegmentsFit(command: string, index: nat, current: string, quote: Option<char>)
    requires index <= |command|
    ensures forall i | 0 <= i < |SegmentsFrom(command, index, current, quote)| ::
      |SegmentsFrom(command, index, current, quote)[i]| <= |current| + (|command| - index)
    decreases |command| - index
  {
    if index < |command| {
      var c := command[index];
      if c == '`' && index + 1 < |command| {
        SegmentsFit(command, index + 2, current + [c, command[index + 1]], quote);
      } else if quote.None? && IsSeparator(c) {
        SegmentsFit(command, index + 1, "", None);
      } else {
        SegmentsFit(command, index + 1, current + [c], QuoteAfter(quote, c));
      }
    }
  }

  // ----- names -----

  function LowerChar(c: char): char {
    if 'A' <= c <= 'Z' then (c as int + 32) as char else c
  }

  function Lower(s: string): string {
    seq(|s|, i requires 0 <= i < |s| => LowerChar(s[i]))
  }

  /** What follows the last slash of either kind. */
  function AfterSlash(s: string): string {
    if s == "" then ""
    else if s[|s| - 1] == '/' || s[|s| - 1] == '\\' then ""
    else AfterSlash(s[..|s| - 1]) + [s[|s| - 1]]
  }

  function ExecutableName(value: string): string {
    var name := Lower(AfterSlash(value));
    if EndsWith(name, ".cmd") || EndsWith(name, ".exe") then name[..|name| - 4] else name
  }

  /** `-c` among the letters of a single-dash option, in either case. */
  predicate CommandOption(token: string) {
    && token != "" && token[0] == '-'
    && (forall i | 1 <= i < |token| :: 'a' <= LowerChar(token[i]) <= 'z')
    && exists i | 1 <= i < |token| :: LowerChar(token[i]) == 'c'
  }

  datatype Wrapper = PowerShell | CommandPrompt | PosixShell | NoWrapper

  function WrapperOf(executable: string): Wrapper {
    if executable in ["powershell", "pwsh"] then PowerShell
    else if executable == "cmd" then CommandPrompt
    else if executable in ["bash", "sh", "zsh"] then PosixShell
    else NoWrapper
  }

  predicate StartsInner(wrapper: Wrapper, token: string) {
    match wrapper
    case PowerShell => Lower(token) == "-command" || token == "-c"
    case CommandPrompt => Lower(token) == "/c"
    case PosixShell => CommandOption(token)
    case NoWrapper => false
  }

  /** `findIndex` from a position; the length when no token starts an inner command. */
  function InnerAt(wrapper: Wrapper, tokens: seq<string>, from: nat): (at: nat)
    requires from <= |tokens|
    ensures from <= at <= |tokens|
    decreases |tokens| - from
  {
    if from == |tokens| || StartsInner(wrapper, tokens[from]) then from else InnerAt(wrapper, tokens, from + 1)
  }

  // ----- recursion through wrappers -----

  /** Whether any segment runs what `leaf` recognises, looking inside wrapped commands. */
  predicate Runs(command: string, leaf: seq<string> -> bool)
    decreases |command|, 1
  {
    SegmentsFit(command, 0, "", None);
    exists i | 0 <= i < |Segments(command)| :: SegmentRuns(Segments(command)[i], leaf)
  }

  predicate SegmentRuns(segment: string, leaf: seq<string> -> bool)
    decreases |segment|, 0
  {
    var tokens := Tokens(segment);
    if tokens == [] then false
    else
      var wrapper := WrapperOf(ExecutableName(tokens[0]));
      if wrapper == NoWrapper then leaf(tokens)
      else
        var at := InnerAt(wrapper, tokens, 1);
        if at == |tokens| then false
        else
          InnerIsShorter(segment, at + 1);
          Runs(Join(tokens[at + 1..]), leaf)
  }

  // ----- what counts as a backend command -----

  predicate IsPackageManager(executable: string) {
    executable in ["pnpm", "npm", "yarn", "bun"]
  }

  predicate TakesValue(option: string) {
    option in ["--dir", "--filter", "--prefix", "--cwd", "-c", "-f"]
  }

  function SkipOptions(tokens: seq<string>, index: nat): nat
    decreases |tokens| - index
  {
    if index >= |tokens| || !StartsWith(tokens[index], "-") then index
    else
      var option := Lower(tokens[index]);
      SkipOptions(tokens, if '=' !in option && TakesValue(option) then index + 2 else index + 1)
  }

  method SkipCommandOptions(tokens: seq<string>, start: nat) returns (index: nat)
    ensures index == SkipOptions(tokens, start)
  {
    index := start;
    while index < |tokens| && StartsWith(tokens[index], "-")
      invariant SkipOptions(tokens, start) == SkipOptions(tokens, index)
      decreases |tokens| - index
    {
      var option := Lower(tokens[index]);
      index := index + 1;
      if '=' !in option && TakesValue(option) { index := index + 1; }
    }
  }

  function TokenAt(tokens: seq<string>, index: nat): Option<string> {
    if index < |tokens| then Some(tokens[index]) else None
  }

  predicate IsBackendScript(value: Option<string>) {
    value.Some? && Lower(value.value) in
      ["build", "build:prisma", "build:sdk", "build:main", "build:test", "schema", "check:watch", "test", "lint", "format"]
  }

  predicate IsBackendTool(tokens: seq<string>, from: nat) {
    from < |tokens| &&
      var name, next := ExecutableName(tokens[from]), TokenAt(tokens, from + 1);
      if name == "prisma" then next.Some? && Lower(next.value) == "generate"
      else if name == "nestia" then next.Some? && Lower(next.value) == "all"
      else (name == "ttsc" || (name == "ttsx" && exists i | from < i < |tokens| :: Contains(Lower(tokens[i]), "schema")))
  }

  predicate LifecycleLeaf(tokens: seq<string>) {
    tokens != [] &&
      var executable := ExecutableName(tokens[0]);
      if IsPackageManager(executable) then
        var at := SkipOptions(tokens, 1);
        at < |tokens| &&
          var action := Lower(tokens[at]);
          if action in ["run", "run-script"] then IsBackendScript(TokenAt(tokens, at + 1))
          else (
            IsBackendScript(Some(action))
            || IsBackendTool(tokens, if action in ["exec", "dlx", "x"] then SkipOptions(tokens, at + 1) else at))
      else IsBackendTool(tokens, if executable == "npx" then SkipOptions(tokens, 1) else 0)
  }

  predicate ResidentLeaf(tokens: seq<string>) {
    tokens != [] && IsPackageManager(ExecutableName(tokens[0])) &&
      var at := SkipOptions(tokens, 1);
      at < |tokens| &&
        var action := Lower(tokens[at]);
        action == "dev"
        || (action in ["run", "run-script"] && at + 1 < |tokens| && Lower(tokens[at + 1]) == "dev")
  }

  predicate IsBackendLifecycleCommand(command: string) {
    Runs(command, LifecycleLeaf)
  }

  predicate IsBackendResidentCommand(command: string) {
    Runs(command, ResidentLeaf)
  }

  // ----- segments stand alone -----

  /** A text read without ending a segment: how its reading leaves the quote, if it can be read so. */
  function QuoteOf(text: string, index: nat, quote: Option<char>): Option<Option<char>>
    requires index <= |text|
    decreases |text| - index
  {
    if index == |text| then Some(quote)
    else if text[index] == '`' then if index + 1 < |text| then QuoteOf(text, index + 2, quote) else None
    else if quote.None? && IsSeparator(text[index]) then None
    else QuoteOf(text, index + 1, QuoteAfter(quote, text[index]))
  }

  lemma {:induction false} QuoteOfAppend(text: string, more: string, index: nat, quote: Option<char>)
    requires index <= |text| && QuoteOf(text, index, quote).Some?
    ensures QuoteOf(text + more, index, quote) == QuoteOf(text + more, |text|, QuoteOf(text, index, quote).value)
    decreases |text| - index
  {
    if index < |text| {
      assert (text + more)[index] == text[index];
      if text[index] == '`' {
        QuoteOfAppend(text, more, index + 2, quote);
      } else {
        QuoteOfAppend(text, more, index + 1, QuoteAfter(quote, text[index]));
      }
    }
  }

  /** A text without an unquoted separator is one segment, or none when blank. */
  lemma {:induction false} OneSegment(text: string, index: nat, quote: Option<char>)
    requires index <= |text| && QuoteOf(text, index, quote).Some?
    ensures SegmentsFrom(text, index, text[..index], quote) == Pushed(text)
    decreases |text| - index
  {
    if index < |text| {
      if text[index] == '`' {
        assert text[..index] + [text[index], text[index + 1]] == text[..index + 2];
        OneSegment(text, index + 2, quote);
      } else {
        assert text[..index] + [text[index]] == text[..index + 1];
        OneSegment(text, index + 1, QuoteAfter(quote, text[index]));
      }
    } else {
      assert text[..index] == text;
    }
  }

  /** The last backquote of a command has nothing to escape; it is read as itself. */
  lemma OneSegmentOpen(text: string)
    requires QuoteOf(text, 0, None).Some?
    ensures Segments(text + "`") == Pushed(text + "`") && Segments(text) == Pushed(text)
  {
    OneSegment(text, 0, None);
    assert text[..0] == "";
    OpenSegment(text, 0, None);
    assert (text + "`")[..0] == "";
  }

  lemma {:induction false} OpenSegment(text: string, index: nat, quote: Option<char>)
    requires index <= |text| && QuoteOf(text, index, quote).Some?
    ensures SegmentsFrom(text + "`", index, (text + "`")[..index], quote) == Pushed(text + "`")
    decreases |text| - index
  {
    var open := text + "`";
    if index < |text| {
      assert open[index] == text[index];
      if text[index] == '`' {
        assert open[..index] + [open[index], open[index + 1]] == open[..index + 2];
        OpenSegment(text, index + 2, quote);
      } else {
        assert open[..index] + [open[index]] == open[..index + 1];
        OpenSegment(text, index + 1, QuoteAfter(quote, text[index]));
      }
    } else {
      assert open[index] == '`' && open[..index] + ['`'] == open;
    }
  }

  /** Every segment, split again, is itself. */
  lemma {:induction false} SegmentsStand(command: string, index: nat, current: string, quote: Option<char>)
    requires index <= |command| && QuoteOf(current, 0, None) == Some(quote)
    ensures forall i | 0 <= i < |SegmentsFrom(command, index, current, quote)| ::
      var segment := SegmentsFrom(command, index, current, quote)[i];
      Segments(segment) == [segment]
    decreases |command| - index
  {
    if index == |command| {
      OneSegmentOpen(current);
    } else {
      var c := command[index];
      if c == '`' && index + 1 < |command| {
        QuoteOfAppend(current, [c, command[index + 1]], 0, None);
        SegmentsStand(command, index + 2, current + [c, command[index + 1]], quote);
      } else if quote.None? && IsSeparator(c) {
        OneSegmentOpen(current);
        SegmentsStand(command, index + 1, "", None);
      } else if c == '`' {
        OneSegmentOpen(current);
        LastSegment(command, index, current, quote);
      } else {
        QuoteOfAppend(current, [c], 0, None);
        SegmentsStand(command, index + 1, current + [c], QuoteAfter(quote, c));
      }
    }
  }

  lemma LastSegment(command: string, index: nat, current: string, quote: Option<char>)
    requires index + 1 == |command| && command[index] == '`'
    ensures SegmentsFrom(command, index, current, quote) == Pushed(current + "`")
  {
  }

  /** A command drives the backend exactly when one of its segments, run alone, does. */
  lemma RunsBySegment(command: string, leaf: seq<string> -> bool)
    ensures Runs(command, leaf) <==> exists i | 0 <= i < |Segments(command)| :: Runs(Segments(command)[i], leaf)
  {
    SegmentsStand(command, 0, "", None);
    forall i | 0 <= i < |Segments(command)|
      ensures Runs(Segments(command)[i], leaf) <==> SegmentRuns(Segments(command)[i], leaf)
    {
      var segment := Segments(command)[i];
      assert Segments(segment) == [segment];
      assert Segments(segment)[0] == segment;
    }
  }

  /** Both tests look at each segment for itself. */
  lemma BackendTestsBySegment(command: string)
    ensures IsBackendLifecycleCommand(command) <==>
      exists i | 0 <= i < |Segments(command)| :: IsBackendLifecycleCommand(Segments(command)[i])
    ensures IsBackendResidentCommand(command) <==>
      exists i | 0 <= i < |Segments(command)| :: IsBackendResidentCommand(Segments(command)[i])
  {
    RunsBySegment(command, LifecycleLeaf);
    RunsBySegment(command, ResidentLeaf);
  }
}
