/** The line bookkeeping of `parseTemplate` and what it means. `spaces`, `nonSpace` and
    `hasTag` are flags about the current line; here they are tied to the entries of the line
    itself, the tokens pushed since the last newline, so that standalone-line stripping can be
    stated over what the line holds. */
module Lines {
  import opened Outcomes
  import opened Text
  import opened Tokens
  import opened Scanning
  import opened Parser

  /** A white-space text entry. */
  predicate WhiteText(t: Option<Token>) {
    t.Some? && t.value.Text? && IsWhitespace(t.value.value)
  }

  /** An entry that keeps its line from being standalone: non-space text or a variable. */
  predicate Content(t: Option<Token>) {
    t.Some? && ((t.value.Text? && !IsWhitespace(t.value.value)) || t.value.Variable?)
  }

  /** The entry of a tag. */
  predicate TagEntry(t: Option<Token>) {
    t.Some? && !t.value.Text?
  }

  /** The line starting at entry `ls` holds content. */
  predicate HasContent(tokens: seq<Option<Token>>, ls: nat) {
    exists i | ls <= i < |tokens| :: Content(tokens[i])
  }

  /** The line starting at entry `ls` holds a tag. */
  predicate HasTagFrom(tokens: seq<Option<Token>>, ls: nat) {
    exists i | ls <= i < |tokens| :: TagEntry(tokens[i])
  }

  /** A standalone line: a tag, and otherwise only white space. */
  predicate Standalone(tokens: seq<Option<Token>>, ls: nat) {
    HasTagFrom(tokens, ls) && !HasContent(tokens, ls)
  }

  /** The current line starts at entry `ls`: its entries are all present, `spaces` lists
      exactly its white-space text entries and `nonSpace` says whether it holds content. */
  predicate LineKept(st: ParseState, ls: nat) {
    && ls <= |st.tokens|
    && (forall i | ls <= i < |st.tokens| :: st.tokens[i].Some?)
    && (forall k | 0 <= k < |st.spaces| :: ls <= st.spaces[k] < |st.tokens| && WhiteText(st.tokens[st.spaces[k]]))
    && (forall i | ls <= i < |st.tokens| && WhiteText(st.tokens[i]) :: i in st.spaces)
    && (st.nonSpace <==> HasContent(st.tokens, ls))
  }

  /** Between tags: `hasTag` also says whether the line holds a tag. */
  predicate LineState(st: ParseState, ls: nat) {
    LineKept(st, ls) && (st.hasTag <==> HasTagFrom(st.tokens, ls))
  }

  /** Just after an opening delimiter: `hasTag` is already set for the tag being read. */
  predicate TagOpened(st: ParseState, ls: nat) {
    LineKept(st, ls) && st.hasTag
  }

  /** The parse starts on an empty line. */
  lemma StartLine(template: string, delims: (string, string))
    ensures LineState(Start(template, delims), 0)
  {
  }

  /** A character's text entry joins the line: a white-space one is listed in `spaces`,
      any other one is content. */
  lemma AppendedLine(st: ParseState, chr: char, at: nat, ls: nat)
    requires LineKept(st, ls)
    ensures var a := Appended(st, chr, at);
      && LineKept(a, ls) && a.hasTag == st.hasTag
      && (HasTagFrom(a.tokens, ls) <==> HasTagFrom(st.tokens, ls))
      && (IsWhitespace([chr]) ==> (HasContent(a.tokens, ls) <==> HasContent(st.tokens, ls)))
  {
    var a := Appended(st, chr, at);
    var n := |st.tokens|;
    assert a.tokens == st.tokens + [Some(Text([chr], at, at + 1))];
    assert forall i | 0 <= i < n :: a.tokens[i] == st.tokens[i];
    assert a.tokens[n] == Some(Text([chr], at, at + 1));
    assert !TagEntry(a.tokens[n]);
    if IsWhitespace([chr]) {
      assert a.spaces == st.spaces + [n];
      assert !Content(a.tokens[n]);
      assert HasContent(a.tokens, ls) ==> HasContent(st.tokens, ls);
    } else {
      assert a.spaces == st.spaces;
      assert Content(a.tokens[n]);
    }
  }

  /** `stripSpace` on a line: entries before the line stay, and the line's white-space text
      entries are deleted exactly when the line is standalone. The line's other entries
      stay. */
  lemma LineStripped(st: ParseState, ls: nat)
    requires LineState(st, ls)
    ensures var r := Stripped(st);
      && |r.tokens| == |st.tokens|
      && (forall i | 0 <= i < ls :: r.tokens[i] == st.tokens[i])
      && (forall i | ls <= i < |st.tokens| ::
            r.tokens[i] == if Standalone(st.tokens, ls) && WhiteText(st.tokens[i]) then None else st.tokens[i])
  {
  }

  /** At a newline the line ends. On a standalone line every white-space text entry of the
      line is deleted, the newline's own included; any other line keeps its entries, and so
      do the lines before. The next line starts after the newline's entry, empty. */
  lemma LineEnd(st: ParseState, at: nat, ls: nat)
    requires LineState(st, ls)
    ensures var r := WithChar(st, '\n', at);
      && |r.tokens| == |st.tokens| + 1
      && (forall i | 0 <= i < ls :: r.tokens[i] == st.tokens[i])
      && (forall i | ls <= i < |st.tokens| ::
            r.tokens[i] == if Standalone(st.tokens, ls) && WhiteText(st.tokens[i]) then None else st.tokens[i])
      && r.tokens[|st.tokens|] == (if Standalone(st.tokens, ls) then None else Some(Text("\n", at, at + 1)))
      && LineState(r, |r.tokens|)
      && r.indentation == "" && r.tagIndex == 0 && !r.lineHasNonSpace
  {
    assert IsSpace('\n');
    assert IsWhitespace("\n");
    var a := Appended(st, '\n', at);
    AppendedLine(st, '\n', at, ls);
    LineStripped(a, ls);
    var n := |st.tokens|;
    assert a.tokens[n] == Some(Text("\n", at, at + 1));
    assert WhiteText(a.tokens[n]);
    assert forall i | 0 <= i < n :: a.tokens[i] == st.tokens[i];
    assert Standalone(a.tokens, ls) == Standalone(st.tokens, ls);
  }

  /** One character keeps the bookkeeping meaningful; a newline starts the next line. */
  lemma WithCharLine(st: ParseState, chr: char, at: nat, ls: nat)
    requires LineState(st, ls)
    ensures LineState(WithChar(st, chr, at), if chr == '\n' then |st.tokens| + 1 else ls)
  {
    if chr == '\n' {
      LineEnd(st, at, ls);
    } else {
      AppendedLine(st, chr, at, ls);
    }
  }

  /** The text loop keeps the bookkeeping meaningful, for the line it ends on. */
  lemma {:induction false} WithTextLine(st: ParseState, value: string, at: nat, ls: nat) returns (last: nat)
    requires LineState(st, ls)
    ensures LineState(WithText(st, value, at), last)
    decreases |value|
  {
    if value == [] {
      last := ls;
    } else {
      var next := if value[0] == '\n' then |st.tokens| + 1 else ls;
      WithCharLine(st, value[0], at, ls);
      last := WithTextLine(WithChar(st, value[0], at), value[1..], at + 1, next);
    }
  }

  /** The text before a tag keeps the bookkeeping meaningful; reaching an opening delimiter
      marks the line as holding a tag. */
  lemma TextPhaseLine(st: ParseState, ls: nat) returns (last: nat)
    requires Inv(st) && LineState(st, ls)
    ensures TextPhase(st).AtEnd? ==> LineState(TextPhase(st).last, last)
    ensures TextPhase(st).AtTag? ==> TagOpened(TextPhase(st).at, last)
  {
    var (value, s1) := ScanUntilSt(st, OpeningTag(st.openTag));
    last := WithTextLine(s1, value, st.pos, ls);
    var s2 := WithText(s1, value, st.pos);
    var (opening, s3) := ScanSt(s2, OpeningTag(st.openTag));
    TextPhaseIs(st, value, s1, opening, s3);
  }

  /** The `switch (type)` touches only the stack, `nonSpace` (for a variable) and the
      delimiters. */
  lemma SwitchedLine(s: ParseState, token: Token)
    requires OpenStack(Present(s.tokens)) == StackStep(s.sections, token) && AllFlat(Present(s.tokens))
    requires SpacesBlank(s.tokens, s.spaces)
    ensures var r := Switched(s, token);
      r.Continue? ==>
        && r.next.tokens == s.tokens && r.next.spaces == s.spaces && r.next.hasTag == s.hasTag
        && r.next.nonSpace == (s.nonSpace || token.Variable?)
  {
  }

  /** A tag's token joins the line as a tag; a variable is content. */
  lemma TagReadLine(st: ParseState, start: nat, ls: nat)
    requires Inv(st) && TagOpened(st, ls)
    ensures TagRead(st, start).Continue? ==> LineState(TagRead(st, start).next, ls)
  {
    var (kind, value, closing, s) := TagScanned(st);
    if closing != "" {
      assert Inv(s) && TagOpened(s, ls);
      RecordedLine(s, kind, value, start, ls);
    }
  }

  lemma RecordedLine(s: ParseState, kind: Kind, value: string, start: nat, ls: nat)
    requires Inv(s) && TagOpened(s, ls)
    ensures Recorded(s, kind, value, start).Continue? ==> LineState(Recorded(s, kind, value, start).next, ls)
  {
    var token := MakeToken(kind, value, start, s.pos, s);
    assert !token.Text?;
    var p := Pushed(s, token);
    PushedLine(s, token, ls);
    SwitchedLine(p, token);
    assert Recorded(s, kind, value, start) == Switched(p, token);
  }

  /** Pushing a tag's token: the line now holds a tag, and content exactly when it did or
      the tag is a variable. */
  lemma PushedLine(s: ParseState, token: Token, ls: nat)
    requires Inv(s) && IsFlat(token) && !token.Text? && TagOpened(s, ls)
    ensures var p := Pushed(s, token);
      && LineKept(p.(nonSpace := s.nonSpace || token.Variable?), ls)
      && HasTagFrom(p.tokens, ls) && p.hasTag
  {
    var p := Pushed(s, token);
    var n := |s.tokens|;
    assert p.tokens == s.tokens + [Some(token)] && p.spaces == s.spaces;
    assert forall i | 0 <= i < n :: p.tokens[i] == s.tokens[i];
    assert TagEntry(p.tokens[n]) && (Content(p.tokens[n]) <==> token.Variable?);
  }

  /** A whole turn of the main loop, text and tag, keeps the bookkeeping meaningful. With
      `StartLine` this covers every state the loop passes through, so `LineEnd` and
      `LineStripped` describe every line the parser ends. */
  lemma TurnLine(st: ParseState, ls: nat) returns (last: nat)
    requires Inv(st) && LineState(st, ls)
    ensures TextPhase(st).AtEnd? ==> LineState(TextPhase(st).last, last)
    ensures TextPhase(st).AtTag? && TagRead(TextPhase(st).at, TextPhase(st).start).Continue? ==>
      LineState(TagRead(TextPhase(st).at, TextPhase(st).start).next, last)
  {
    last := TextPhaseLine(st, ls);
    match TextPhase(st)
    case AtEnd(_) =>
    case AtTag(s, start) =>
      TagReadLine(s, start, last);
  }
}
