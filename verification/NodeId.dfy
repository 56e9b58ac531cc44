/**
 The codec of graph node ids: a `<path>#<name>:<kind>` key whose path quotes the
 separator and the backslash.
 */
module NodeId {
  import opened Prelude

  /** `replaceAll` of one character. */
  function ReplaceChar(value: string, c: char, into: string): string {
    if value == "" then ""
    else (if value[0] == c then into else [value[0]]) + ReplaceChar(value[1..], c, into)
  }

  function Escape(value: string): string {
    ReplaceChar(ReplaceChar(value, '\\', "\\\\"), '#', "\\#")
  }

  function EscapedChar(c: char): string {
    if c == '\\' then "\\\\" else if c == '#' then "\\#" else [c]
  }

  lemma {:induction false} ReplaceCharAppend(a: string, b: string, c: char, into: string)
    ensures ReplaceChar(a + b, c, into) == ReplaceChar(a, c, into) + ReplaceChar(b, c, into)
  {
    if a == "" {
      assert a + b == b;
    } else {
      assert (a + b)[1..] == a[1..] + b;
      ReplaceCharAppend(a[1..], b, c, into);
    }
  }

  lemma EscapeAppend(a: string, b: string)
    ensures Escape(a + b) == Escape(a) + Escape(b)
  {
    ReplaceCharAppend(a, b, '\\', "\\\\");
    ReplaceCharAppend(ReplaceChar(a, '\\', "\\\\"), ReplaceChar(b, '\\', "\\\\"), '#', "\\#");
  }

  lemma ReplaceOne(d: char, c: char, into: string)
    ensures ReplaceChar([d], c, into) == if d == c then into else [d]
  {
    assert [d][1..] == "" && into + "" == into && [d] + "" == [d];
  }

  lemma EscapeOne(c: char)
    ensures Escape([c]) == EscapedChar(c)
  {
    ReplaceOne(c, '\\', "\\\\");
    ReplaceOne(c, '#', "\\#");
    if c == '\\' {
      assert "\\\\" == ['\\'] + ['\\'];
      ReplaceCharAppend(['\\'], ['\\'], '#', "\\#");
      ReplaceOne('\\', '#', "\\#");
    }
  }

  // ----- unescaping -----

  /** A legacy UNC path keeps the two backslashes it starts with. */
  predicate LegacyUncStart(value: string, index: nat) {
    index == 0 && |value| > 2 && value[2] != '\\' && value[2] != '#'
  }

  /** Whether the backslash at `index` quotes the character after it. */
  predicate Quotes(value: string, index: nat) {
    && index + 1 < |value| && value[index] == '\\'
    && (value[index + 1] == '#' || (value[index + 1] == '\\' && !LegacyUncStart(value, index)))
  }

  function UnescapeFrom(value: string, index: nat): string
    decreases |value| - index
  {
    if index >= |value| then ""
    else if Quotes(value, index) then [value[index + 1]] + UnescapeFrom(value, index + 2)
    else [value[index]] + UnescapeFrom(value, index + 1)
  }

  function Unescape(value: string): string {
    UnescapeFrom(value, 0)
  }

  method UnescapePart(value: string) returns (result: string)
    ensures result == Unescape(value)
  {
    result := "";
    var index := 0;
    while index < |value|
      invariant result + UnescapeFrom(value, index) == Unescape(value)
      decreases |value| - index
    {
      if Quotes(value, index) {
        result := result + [value[index + 1]];
        index := index + 2;
      } else {
        result := result + [value[index]];
        index := index + 1;
      }
    }
    assert result + "" == result;
  }

  /** Plain unquoting, without the rule for legacy paths. */
  function Unquote(value: string): string {
    if value == "" then ""
    else if |value| > 1 && value[0] == '\\' && (value[1] == '#' || value[1] == '\\') then [value[1]] + Unquote(value[2..])
    else [value[0]] + Unquote(value[1..])
  }

  lemma {:induction false} UnescapeIsUnquote(value: string, index: nat)
    requires index <= |value| && (index > 0 || !LegacyUncStart(value, 0))
    ensures UnescapeFrom(value, index) == Unquote(value[index..])
    decreases |value| - index
  {
    if index < |value| {
      var rest := value[index..];
      if Quotes(value, index) {
        UnescapeIsUnquote(value, index + 2);
        assert rest[2..] == value[index + 2..];
      } else {
        UnescapeIsUnquote(value, index + 1);
        assert rest[1..] == value[index + 1..];
      }
    }
  }

  lemma {:induction false} UnquoteEscaped(path: string)
    ensures Unquote(Escape(path)) == path
  {
    if path != "" {
      var c, rest := path[0], path[1..];
      assert path == [c] + rest;
      EscapeAppend([c], rest);
      EscapeOne(c);
      UnquoteEscaped(rest);
      UnquoteHead(c, Escape(rest));
    }
  }

  lemma UnquoteHead(c: char, rest: string)
    ensures Unquote(EscapedChar(c) + rest) == [c] + Unquote(rest)
  {
    var value := EscapedChar(c) + rest;
    if c == '\\' || c == '#' {
      assert value[2..] == rest && value[0] == '\\' && value[1] == c;
    } else {
      assert value[1..] == rest;
    }
  }

  /** One backslash followed by anything but a backslash or a separator. */
  predicate LooksLegacy(path: string) {
    |path| > 1 && path[0] == '\\' && path[1] != '\\' && path[1] != '#'
  }

  lemma EscapedStart(path: string)
    ensures path != "" ==> Escape(path) == EscapedChar(path[0]) + Escape(path[1..])
    ensures LegacyUncStart(Escape(path), 0) && path != "" && path[0] == '\\' <==> LooksLegacy(path)
  {
    if path != "" {
      assert path == [path[0]] + path[1..];
      EscapeAppend([path[0]], path[1..]);
      EscapeOne(path[0]);
      if |path| > 1 {
        assert path[1..] == [path[1]] + path[2..];
        EscapeAppend([path[1]], path[2..]);
        EscapeOne(path[1]);
      }
    }
  }

  /** Unescaping gives an escaped path back exactly when it does not look like a legacy one, which gains a backslash. */
  lemma RoundTrip(path: string)
    ensures Unescape(Escape(path)) == path <==> !LooksLegacy(path)
    ensures LooksLegacy(path) ==> Unescape(Escape(path)) == "\\" + path
  {
    var value := Escape(path);
    EscapedStart(path);
    UnquoteEscaped(path);
    if LooksLegacy(path) {
      var rest := path[1..];
      UnescapeIsUnquote(value, 1);
      EscapedStart(rest);
      UnquoteEscaped(rest);
      assert value[1..] == ['\\'] + Escape(rest);
      assert value[1..][1..] == Escape(rest);
      assert path == ['\\'] + rest;
    } else if path != "" && LegacyUncStart(value, 0) {
      assert path[0] != '\\';
      NotLegacyQuote(value, path);
    } else {
      UnescapeIsUnquote(value, 0);
      assert value[0..] == value;
    }
  }

  /** A path that does not start with a backslash is unescaped by the plain rule, whatever its third character. */
  lemma NotLegacyQuote(value: string, path: string)
    requires path != "" && path[0] != '\\' && value == Escape(path)
    ensures UnescapeFrom(value, 0) == Unquote(value)
  {
    EscapedStart(path);
    if path[0] == '#' {
      UnescapeIsUnquote(value, 2);
    } else {
      UnescapeIsUnquote(value, 1);
    }
    assert value[0..] == value;
  }

  // ----- the separator -----

  /** How many backslashes stand directly before a position. */
  function Backslashes(id: string, at: nat): nat
    requires at <= |id|
  {
    if at == 0 || id[at - 1] != '\\' then 0 else Backslashes(id, at - 1) + 1
  }

  predicate Separates(id: string, at: nat)
    requires at < |id|
  {
    id[at] == '#' && Backslashes(id, at) % 2 == 0
  }

  /** The first unquoted separator, or -1. */
  function HashFrom(id: string, from: nat): int
    decreases |id| - from
  {
    if from >= |id| then -1 else if Separates(id, from) then from else HashFrom(id, from + 1)
  }

  function Hash(id: string): int {
    HashFrom(id, 0)
  }

  method GraphNodeIdHash(id: string) returns (hash: int)
    ensures hash == Hash(id)
  {
    var index := 0;
    while index < |id|
      invariant index <= |id| && Hash(id) == HashFrom(id, index)
    {
      if id[index] == '#' {
        var slashes, slash := 0, index - 1;
        while slash >= 0 && id[slash] == '\\'
          invariant -1 <= slash < index
          invariant slashes + Backslashes(id, slash + 1) == Backslashes(id, index)
        {
          slashes := slashes + 1;
          slash := slash - 1;
        }
        if slashes % 2 == 0 { return index; }
      }
      index := index + 1;
    }
    hash := -1;
  }

  lemma {:induction false} HashAt(id: string, from: nat, at: nat)
    requires from <= at < |id| && Separates(id, at) && forall i | from <= i < at :: !Separates(id, i)
    ensures HashFrom(id, from) == at
    decreases at - from
  {
    if from < at { HashAt(id, from + 1, at); }
  }

  lemma {:induction false} HashMeaning(id: string, from: nat)
    requires from <= |id|
    ensures var hash := HashFrom(id, from);
      if hash < 0 then hash == -1 && forall i | from <= i < |id| :: !Separates(id, i)
      else from <= hash < |id| && Separates(id, hash) && forall i | from <= i < hash :: !Separates(id, i)
    decreases |id| - from
  {
    if from < |id| && !Separates(id, from) { HashMeaning(id, from + 1); }
  }

  lemma {:induction false} BackslashesPrefix(a: string, b: string, at: nat)
    requires at <= |a|
    ensures Backslashes(a + b, at) == Backslashes(a, at)
  {
    if at > 0 && a[at - 1] == '\\' { BackslashesPrefix(a, b, at - 1); }
  }

  /** An escaped path quotes every separator in it and ends with an even run of backslashes. */
  lemma {:induction false} EscapedIsQuoted(path: string)
    ensures var value := Escape(path);
      Backslashes(value, |value|) % 2 == 0 && forall i | 0 <= i < |value| :: !Separates(value, i)
  {
    if path != "" {
      var front, c := path[..|path| - 1], path[|path| - 1];
      assert path == front + [c];
      EscapeAppend(front, [c]);
      EscapeOne(c);
      EscapedIsQuoted(front);
      QuotedAppend(Escape(front), c);
    }
  }

  lemma QuotedAppend(value: string, c: char)
    requires Backslashes(value, |value|) % 2 == 0 && forall i | 0 <= i < |value| :: !Separates(value, i)
    ensures var longer := value + EscapedChar(c);
      Backslashes(longer, |longer|) % 2 == 0 && forall i | 0 <= i < |longer| :: !Separates(longer, i)
  {
    var longer := value + EscapedChar(c);
    forall i | 0 <= i <= |value| ensures Backslashes(longer, i) == Backslashes(value, i) {
      BackslashesPrefix(value, EscapedChar(c), i);
    }
    forall i | 0 <= i < |longer| ensures !Separates(longer, i) {
      if i < |value| {
        assert longer[i] == value[i] && !Separates(value, i);
      } else if i > |value| {
        assert longer[|value|] == '\\' && Backslashes(longer, i) == Backslashes(longer, |value|) + 1;
      }
    }
    if c == '\\' {
      assert longer[|value|] == '\\' && longer[|value| + 1] == '\\';
      assert Backslashes(longer, |value| + 2) == Backslashes(longer, |value| + 1) + 1;
      assert Backslashes(longer, |value| + 1) == Backslashes(longer, |value|) + 1;
    }
  }

  /** The separator of an escaped path is found behind it, whatever follows. */
  lemma HashOfEscaped(path: string, rest: string)
    ensures Hash(Escape(path) + "#" + rest) == |Escape(path)|
  {
    var value := Escape(path);
    var id := value + "#" + rest;
    EscapedIsQuoted(path);
    assert id == value + ("#" + rest);
    forall i | 0 <= i <= |value| ensures Backslashes(id, i) == Backslashes(value, i) {
      BackslashesPrefix(value, "#" + rest, i);
    }
    forall i | 0 <= i < |value| ensures !Separates(id, i) {
      assert id[i] == value[i] && !Separates(value, i);
    }
    HashAt(id, 0, |value|);
  }

  // ----- rewriting -----

  function Posix(path: string): string {
    ReplaceChar(path, '\\', "/")
  }

  lemma {:induction false} PosixPlain(path: string)
    ensures '\\' !in Posix(path) && Posix(Posix(path)) == Posix(path)
    ensures |Posix(path)| == |path| && forall i | 0 <= i < |path| :: Posix(path)[i] == if path[i] == '\\' then '/' else path[i]
  {
    if path != "" {
      PosixPlain(path[1..]);
      var head := if path[0] == '\\' then "/" else [path[0]];
      var rest := Posix(path[1..]);
      assert Posix(path) == head + rest;
      ReplaceCharAppend(head, rest, '\\', "/");
      ReplaceOne(head[0], '\\', "/");
      assert head == [head[0]];
    }
  }

  /** Rewrites the path of an id; a null root only normalises its separators. */
  function RewriteId(id: string): string {
    var hash := Hash(id);
    if hash < 0 || hash > |id| then id else Escape(Posix(Unescape(id[..hash]))) + id[hash..]
  }

  /** Rewriting keeps everything from the separator on, finds it again behind the new path, and changes nothing more a second time. */
  lemma RewriteIdempotent(id: string)
    ensures RewriteId(RewriteId(id)) == RewriteId(id)
    ensures Hash(id) >= 0 ==>
      && 0 <= Hash(id) < |id| && 0 <= Hash(RewriteId(id)) < |RewriteId(id)|
      && RewriteId(id)[Hash(RewriteId(id))..] == id[Hash(id)..]
      && Unescape(RewriteId(id)[..Hash(RewriteId(id))]) == Posix(Unescape(id[..Hash(id)]))
  {
    HashMeaning(id, 0);
    var hash := Hash(id);
    if hash >= 0 {
      var path := Posix(Unescape(id[..hash]));
      var suffix := id[hash + 1..];
      assert id[hash..] == "#" + suffix;
      var once := RewriteId(id);
      assert once == Escape(path) + "#" + suffix;
      HashOfEscaped(path, suffix);
      PosixPlain(Unescape(id[..hash]));
      assert path != "" ==> path[0] in path;
      assert !LooksLegacy(path);
      RoundTrip(path);
      assert once[..|Escape(path)|] == Escape(path);
      assert once[|Escape(path)|..] == "#" + suffix;
    }
  }
}
