/** The text side of the review edit tool: counting an anchor and replacing it. */
module ReviewText {
  import opened Prelude

  /** The first occurrence at or after `from`, or -1: JavaScript's `indexOf`. */
  function IndexOf(text: string, needle: string, from: nat): (found: int)
    ensures found == -1 || from <= found <= |text| - |needle|
    decreases |text| - from
  {
    if from + |needle| > |text| then -1
    else if OccursAt(text, needle, from) then from
    else IndexOf(text, needle, from + 1)
  }

  lemma {:induction false} IndexOfMeaning(text: string, needle: string, from: nat)
    ensures var found := IndexOf(text, needle, from);
      if found == -1 then forall i: nat | from <= i && i + |needle| <= |text| :: !OccursAt(text, needle, i)
      else OccursAt(text, needle, found) && forall i: nat | from <= i < found :: !OccursAt(text, needle, i)
    decreases |text| - from
  {
    if from + |needle| <= |text| && !OccursAt(text, needle, from) { IndexOfMeaning(text, needle, from + 1); }
  }

  /** How often a non-empty needle is found scanning left to right without overlap. */
  function Occurrences(text: string, needle: string, from: nat): nat
    requires needle != ""
    decreases |text| - from
  {
    var found := IndexOf(text, needle, from);
    if found == -1 then 0 else 1 + Occurrences(text, needle, found + |needle|)
  }

  method CountOccurrences(text: string, needle: string) returns (count: nat)
    requires needle != ""
    ensures count == Occurrences(text, needle, 0)
  {
    count := 0;
    var cursor: nat := 0;
    while cursor <= |text| - |needle|
      invariant count + Occurrences(text, needle, cursor) == Occurrences(text, needle, 0)
      decreases |text| - cursor
    {
      var found := IndexOf(text, needle, cursor);
      if found == -1 { break; }
      count := count + 1;
      cursor := found + |needle|;
    }
  }

  /** Every occurrence starts inside the first one. */
  ghost predicate AnchoredOnce(text: string, needle: string) {
    var first := IndexOf(text, needle, 0);
    first != -1 && forall i: nat | i + |needle| <= |text| && OccursAt(text, needle, i) :: i < first + |needle|
  }

  /** A count of one is weaker than a unique occurrence. */
  lemma CountOneMeaning(text: string, needle: string)
    requires needle != ""
    ensures Occurrences(text, needle, 0) == 1 <==> AnchoredOnce(text, needle)
  {
    var first := IndexOf(text, needle, 0);
    if first != -1 {
      var next := first + |needle|;
      var second := IndexOf(text, needle, next);
      assert Occurrences(text, needle, 0) == 1 + Occurrences(text, needle, next);
      IndexOfMeaning(text, needle, next);
      if second == -1 {
        assert Occurrences(text, needle, next) == 0;
        assert AnchoredOnce(text, needle);
      } else {
        assert Occurrences(text, needle, next) >= 1;
        assert OccursAt(text, needle, second);
        assert !AnchoredOnce(text, needle);
      }
    }
  }

  /** An overlapping anchor is counted once although it occurs twice. */
  lemma OverlapIsCountedOnce()
    ensures Occurrences("aaa", "aa", 0) == 1 && OccursAt("aaa", "aa", 0) && OccursAt("aaa", "aa", 1)
  {
    var text := "aaa";
    assert text[0..2] == "aa" && text[1..3] == "aa";
    assert IndexOf(text, "aa", 0) == 0;
    assert IndexOf(text, "aa", 2) == -1;
  }

  predicate IsPatternCharacter(c: char) {
    c == '$' || c == '&' || c == '`' || c == '\''
  }

  /** Expands the replacement patterns JavaScript's `replace` recognises for a string anchor. */
  function Expand(replacement: string, matched: string, before: string, after: string): string {
    if replacement == "" then ""
    else if replacement[0] == '$' && 1 < |replacement| && IsPatternCharacter(replacement[1]) then
      (match replacement[1]
       case '$' => "$"
       case '&' => matched
       case '`' => before
       case _ => after) + Expand(replacement[2..], matched, before, after)
    else [replacement[0]] + Expand(replacement[1..], matched, before, after)
  }

  predicate HasPattern(replacement: string) {
    exists i :: 0 <= i < |replacement| - 1 && replacement[i] == '$' && IsPatternCharacter(replacement[i + 1])
  }

  lemma {:induction false} ExpandLiteral(replacement: string, matched: string, before: string, after: string)
    requires !HasPattern(replacement)
    ensures Expand(replacement, matched, before, after) == replacement
  {
    if replacement != "" {
      var rest := replacement[1..];
      forall i | 0 <= i < |rest| - 1 ensures !(rest[i] == '$' && IsPatternCharacter(rest[i + 1])) {
        assert rest[i] == replacement[i + 1] && rest[i + 1] == replacement[i + 2];
      }
      ExpandLiteral(rest, matched, before, after);
    }
  }

  /** Replaces the first occurrence. */
  function ReplaceFirst(text: string, oldText: string, newText: string): string {
    var found := IndexOf(text, oldText, 0);
    if found == -1 then text
    else text[..found] + Expand(newText, oldText, text[..found], text[found + |oldText|..]) + text[found + |oldText|..]
  }

  datatype Replacement = Replacement(oldText: string, newText: string)

  /** Applies the replacements in order; None when an anchor's count is not exactly one. */
  function ApplyReplacements(text: string, replacements: seq<Replacement>): Option<string>
    requires forall r | r in replacements :: r.oldText != ""
    decreases |replacements|
  {
    if replacements == [] then Some(text)
    else if Occurrences(text, replacements[0].oldText, 0) != 1 then None
    else ApplyReplacements(ReplaceFirst(text, replacements[0].oldText, replacements[0].newText), replacements[1..])
  }

  /**
   A pattern-free replacement is undone by the swapped replacement when
   the new text is first found where the old text was.
   */
  lemma ReplacementUndone(text: string, oldText: string, newText: string)
    requires oldText != "" && newText != "" && !HasPattern(oldText) && !HasPattern(newText)
    requires IndexOf(text, oldText, 0) != -1
    requires IndexOf(ReplaceFirst(text, oldText, newText), newText, 0) == IndexOf(text, oldText, 0)
    ensures ReplaceFirst(ReplaceFirst(text, oldText, newText), newText, oldText) == text
  {
    var found := IndexOf(text, oldText, 0);
    var before, after := text[..found], text[found + |oldText|..];
    assert OccursAt(text, oldText, found) by { IndexOfMeaning(text, oldText, 0); }
    assert text == before + oldText + after;
    var edited := ReplaceFirst(text, oldText, newText);
    assert edited == before + newText + after by { ExpandLiteral(newText, oldText, before, after); }
    Reassembled(before, newText, after);
    assert ReplaceFirst(edited, newText, oldText) == before + Expand(oldText, newText, before, after) + after;
    ExpandLiteral(oldText, newText, before, after);
  }

  lemma Reassembled(before: string, middle: string, after: string)
    ensures var whole := before + middle + after;
      whole[..|before|] == before && whole[|before| + |middle|..] == after
  {
  }
}
