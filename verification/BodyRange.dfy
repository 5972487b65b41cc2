/** The body of a declaration, once as text and once as a range of the source:
    one computes on strings, the other moves the ends of a substring. */
module BodyRange {
  import opened Wrappers

  /** A stretch of the source, in positions of the source. */
  datatype Range = Range(start: nat, stop: nat)

  predicate Inside(source: string, r: Range) { r.start <= r.stop <= |source| }

  function Slice(source: string, r: Range): string
    requires Inside(source, r)
  {
    source[r.start..r.stop]
  }

  predicate White(c: char) { c == ' ' || c == '\t' || c == '\r' || c == '\n' }

  // ---- on strings ----

  function TrimStart(s: string): string
    decreases |s|
  {
    if s != "" && White(s[0]) then TrimStart(s[1..]) else s
  }

  function TrimEnd(s: string): string
    decreases |s|
  {
    if s != "" && White(s[|s| - 1]) then TrimEnd(s[..|s| - 1]) else s
  }

  function Trim(s: string): string { TrimEnd(TrimStart(s)) }

  const BLANKS := {' ', '\t', '\r', '\n'}

  lemma {:induction false} TrimStartCuts(s: string) returns (i: nat)
    ensures i <= |s| && TrimStart(s) == s[i..] && (forall k | 0 <= k < i :: s[k] in BLANKS) && (i < |s| ==> s[i] !in BLANKS)
    decreases |s|
  {
    if s != "" && White(s[0]) {
      i := TrimStartCuts(s[1..]);
      i := i + 1;
      assert forall k | 0 < k < i :: s[k] == s[1..][k - 1];
    } else {
      i := 0;
    }
  }

  lemma {:induction false} TrimEndCuts(s: string) returns (j: nat)
    ensures j <= |s| && TrimEnd(s) == s[..j] && (forall k | j <= k < |s| :: s[k] in BLANKS) && (0 < j ==> s[j - 1] !in BLANKS)
    decreases |s|
  {
    if s != "" && White(s[|s| - 1]) {
      j := TrimEndCuts(s[..|s| - 1]);
    } else {
      j := |s|;
    }
  }

  /** Trimming cuts off spaces, tabs, returns and line feeds, all there are at either
      end and nothing else. */
  lemma TrimCutsBlanks(s: string) returns (i: nat, j: nat)
    ensures i <= j <= |s| && Trim(s) == s[i..j]
    ensures forall k | 0 <= k < i || j <= k < |s| :: s[k] in BLANKS
    ensures i < j ==> s[i] !in BLANKS && s[j - 1] !in BLANKS
  {
    i := TrimStartCuts(s);
    var rest := s[i..];
    var n := TrimEndCuts(rest);
    j := i + n;
    forall k | j <= k < |s| ensures s[k] in BLANKS {
      assert s[k] == rest[k - i];
    }
    assert n > 0 ==> s[j - 1] == rest[n - 1] && s[i] == rest[0];
  }

  function Drop(s: string, n: nat): string { if n <= |s| then s[n..] else "" }

  predicate StartsWith(s: string, pre: string) { |pre| <= |s| && s[..|pre|] == pre }

  // ---- on substrings ----

  function TrimLeft(source: string, r: Range): (r': Range)
    requires Inside(source, r)
    ensures Inside(source, r') && r'.stop == r.stop && r.start <= r'.start
    decreases r.stop - r.start
  {
    if r.start < r.stop && White(source[r.start]) then TrimLeft(source, Range(r.start + 1, r.stop)) else r
  }

  function TrimRight(source: string, r: Range): (r': Range)
    requires Inside(source, r)
    ensures Inside(source, r') && r'.start == r.start && r'.stop <= r.stop
    decreases r.stop
  {
    if r.start < r.stop && White(source[r.stop - 1]) then TrimRight(source, Range(r.start, r.stop - 1)) else r
  }

  function Advance(r: Range, n: nat): Range
    requires r.start <= r.stop
  {
    Range(if r.start + n <= r.stop then r.start + n else r.stop, r.stop)
  }

  lemma {:induction false} TrimLeftSlice(source: string, r: Range)
    requires Inside(source, r)
    ensures Slice(source, TrimLeft(source, r)) == TrimStart(Slice(source, r))
    decreases r.stop - r.start
  {
    if r.start < r.stop && White(source[r.start]) {
      TrimLeftSlice(source, Range(r.start + 1, r.stop));
      assert Slice(source, r)[1..] == Slice(source, Range(r.start + 1, r.stop));
    }
  }

  lemma {:induction false} TrimRightSlice(source: string, r: Range)
    requires Inside(source, r)
    ensures Slice(source, TrimRight(source, r)) == TrimEnd(Slice(source, r))
    decreases r.stop
  {
    if r.start < r.stop && White(source[r.stop - 1]) {
      TrimRightSlice(source, Range(r.start, r.stop - 1));
      var s, t := Slice(source, r), Slice(source, Range(r.start, r.stop - 1));
      assert |s| == |t| + 1 && s[|s| - 1] == source[r.stop - 1];
      assert s[..|t|] == t;
    }
  }

  lemma AdvanceSlice(source: string, r: Range, n: nat)
    requires Inside(source, r)
    ensures Inside(source, Advance(r, n)) && Slice(source, Advance(r, n)) == Drop(Slice(source, r), n)
  {
    if r.start + n > r.stop {
      assert Slice(source, Advance(r, n)) == "";
    }
  }

  // ---- bodies after `:=` ----

  const ASSIGN := ":="

  function StripAssign(text: string): string {
    var trimmed := TrimStart(text);
    if StartsWith(trimmed, ASSIGN) then TrimStart(Drop(trimmed, 2)) else trimmed
  }

  ghost predicate AllBlank(s: string) { forall k | 0 <= k < |s| :: s[k] in BLANKS }

  ghost predicate NoBlankAhead(s: string) { s == "" || s[0] !in BLANKS }

  lemma TrimStartSplits(s: string) returns (blanks: string)
    ensures s == blanks + TrimStart(s) && AllBlank(blanks) && NoBlankAhead(TrimStart(s))
  {
    var i := TrimStartCuts(s);
    blanks := s[..i];
  }

  /** What is left of a text without `:=` in front: blanks, the sign and more blanks are
      gone; without the sign only the blanks are. */
  lemma WhatStripAssignLeaves(text: string) returns (before: string, after: string)
    ensures AllBlank(before) && AllBlank(after) && NoBlankAhead(StripAssign(text))
    ensures text == before + ":=" + after + StripAssign(text)
            || (text == before + StripAssign(text) && !StartsWith(StripAssign(text), ":="))
  {
    before := TrimStartSplits(text);
    after := "";
    var trimmed := TrimStart(text);
    if StartsWith(trimmed, ASSIGN) {
      after := TrimStartSplits(Drop(trimmed, 2));
      assert trimmed == ":=" + Drop(trimmed, 2);
    }
  }

  function SimpleBodyText(source: string, node: Range): Option<string>
    requires Inside(source, node)
  {
    var body := StripAssign(Slice(source, node));
    if body == "" then None else Some(body)
  }

  function SimpleBodyRange(source: string, node: Range): Option<Range>
    requires Inside(source, node)
  {
    var trimmed := TrimLeft(source, node);
    var body := if StartsWith(Slice(source, trimmed), ASSIGN)
                then (AdvanceSlice(source, trimmed, 2); TrimLeft(source, Advance(trimmed, 2)))
                else trimmed;
    if body.start == body.stop then None else Some(body)
  }

  /** A range is this part of the node and spells this text. */
  predicate Spells(source: string, node: Range, r: Range, text: string) {
    Inside(source, r) && node.start <= r.start && r.stop <= node.stop && Slice(source, r) == text
  }

  /** After `:=` there is a range exactly when there is a text, and it spells it. */
  lemma SimpleBodiesAgree(source: string, node: Range)
    requires Inside(source, node)
    ensures SimpleBodyRange(source, node).Some? <==> SimpleBodyText(source, node).Some?
    ensures SimpleBodyRange(source, node).Some? ==>
              Spells(source, node, SimpleBodyRange(source, node).value, SimpleBodyText(source, node).value)
  {
    TrimLeftSlice(source, node);
    var trimmed := TrimLeft(source, node);
    AdvanceSlice(source, trimmed, 2);
    TrimLeftSlice(source, Advance(trimmed, 2));
  }

  // ---- structures ----

  const WHERE := "where"

  function StripWhere(trimmed: string): string {
    if StartsWith(trimmed, WHERE) then TrimStart(Drop(trimmed, 5)) else trimmed
  }

  /** The same of the word `where`, in front of a text whose ends are trimmed already. */
  lemma WhatStripWhereLeaves(text: string) returns (after: string)
    requires NoBlankAhead(text)
    ensures AllBlank(after) && NoBlankAhead(StripWhere(text))
    ensures text == "where" + after + StripWhere(text) || (text == StripWhere(text) && !StartsWith(text, "where"))
  {
    after := "";
    if StartsWith(text, WHERE) {
      after := TrimStartSplits(Drop(text, 5));
      assert text == "where" + Drop(text, 5);
    }
  }

  function FieldsText(source: string, node: Range): Option<string>
    requires Inside(source, node)
  {
    var body := StripWhere(Trim(Slice(source, node)));
    if body == "" || body == WHERE then None else Some(body)
  }

  function FieldsRange(source: string, node: Range): Option<Range>
    requires Inside(source, node)
  {
    var trimmed := TrimRight(source, TrimLeft(source, node));
    var body := if StartsWith(Slice(source, trimmed), WHERE)
                then (AdvanceSlice(source, trimmed, 5); TrimLeft(source, Advance(trimmed, 5)))
                else trimmed;
    if body.start == body.stop then None else Some(body)
  }

  /** For structures the range spells the text whenever there is a text, and there
      is a range without a text exactly when what is left is once more the word `where`. */
  lemma StructureBodiesAgree(source: string, node: Range)
    requires Inside(source, node)
    ensures FieldsText(source, node).Some? ==>
              FieldsRange(source, node).Some?
              && Spells(source, node, FieldsRange(source, node).value, FieldsText(source, node).value)
    ensures FieldsRange(source, node).Some? && FieldsText(source, node).None?
            <==> StripWhere(Trim(Slice(source, node))) == WHERE
  {
    var left := TrimLeft(source, node);
    TrimLeftSlice(source, node);
    TrimRightSlice(source, left);
    var trimmed := TrimRight(source, left);
    AdvanceSlice(source, trimmed, 5);
    TrimLeftSlice(source, Advance(trimmed, 5));
  }

  /** Such a source exists: a structure whose fields read `where where`. */
  lemma {:induction false} TextCanBeMissing() returns (source: string, node: Range)
    ensures Inside(source, node) && FieldsText(source, node).None? && FieldsRange(source, node).Some?
  {
    source, node := WHERE + " " + WHERE, Range(0, 11);
    assert Slice(source, node) == source && |source| == 11;
    assert source[0] == 'w' && source[10] == 'e' && Trim(source) == source;
    assert StartsWith(source, WHERE);
    var after := Drop(source, 5);
    assert after == " " + WHERE && after[1..] == WHERE && WHERE[0] == 'w';
    assert TrimStart(after) == TrimStart(WHERE) == WHERE;
    StructureBodiesAgree(source, node);
  }

  // ---- all other bodies ----

  /** The text of an equation-style or `where` instance body; its range is the node's own. */
  function OtherBodyText(source: string, node: Range): Option<string>
    requires Inside(source, node)
  {
    var body := Trim(Slice(source, node));
    if body == "" then None else Some(body)
  }

  /** No white space at either end. */
  predicate Tight(s: string) { s != "" && !White(s[0]) && !White(s[|s| - 1]) }

  lemma {:induction false} TrimStartShrinks(s: string)
    ensures |TrimStart(s)| <= |s| && (|TrimStart(s)| == |s| ==> TrimStart(s) == s)
    ensures TrimStart(s) != "" ==> !White(TrimStart(s)[0])
    ensures TrimStart(s) == s <==> s == "" || !White(s[0])
    decreases |s|
  {
    if s != "" && White(s[0]) {
      TrimStartShrinks(s[1..]);
    }
  }

  lemma {:induction false} TrimEndShrinks(s: string)
    ensures TrimEnd(s) <= s
    ensures TrimEnd(s) == s <==> s == "" || !White(s[|s| - 1])
    decreases |s|
  {
    if s != "" && White(s[|s| - 1]) {
      TrimEndShrinks(s[..|s| - 1]);
    }
  }

  /** For the other bodies the node's own range spells the text if and only if the
      node begins and ends without white space. */
  lemma OtherBodiesAgree(source: string, node: Range)
    requires Inside(source, node)
    ensures OtherBodyText(source, node) == Some(Slice(source, node)) <==> Tight(Slice(source, node))
  {
    var s := Slice(source, node);
    TrimStartShrinks(s);
    TrimEndShrinks(TrimStart(s));
  }

  /** Inductive types take the text of structures but the node's own range; the two
      agree if and only if there is neither white space around the node nor a
      leading `where`. */
  lemma InductiveBodiesAgree(source: string, node: Range)
    requires Inside(source, node)
    ensures FieldsText(source, node) == Some(Slice(source, node))
            <==> Tight(Slice(source, node)) && !StartsWith(Slice(source, node), WHERE)
  {
    var s := Slice(source, node);
    TrimStartShrinks(s);
    TrimEndShrinks(TrimStart(s));
    TrimStartShrinks(Drop(Trim(s), 5));
  }
}
