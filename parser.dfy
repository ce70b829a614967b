/** `parseTemplate`: the tokenizer loop with its line bookkeeping (standalone-line stripping,
    partial indentation), delimiter changes and section checks, followed by `squashTokens`
    and `nestTokens`. Each step of the loop is first written as a function on a
    `ParseState`; `TemplateParser` runs the loop and is proved to follow those functions. */
module Parser {
  import opened Outcomes
  import opened Text
  import opened Scanning
  import opened Tokens

  /** `mustache.tags`, the delimiters used when none are given. */
  const DefaultTags: seq<string> := ["{{", "}}"]

  /** The `tags` argument: an array of strings, or a string such as the value of a
      set-delimiters tag. */
  datatype TagSpec = TagList(items: seq<string>) | TagText(text: string)

  /** `tags || mustache.tags`: absent tags, and the empty string, which is falsy, stand for
      the defaults. */
  function TagsOr(tags: Option<TagSpec>): (spec: TagSpec)
    ensures tags.None? || tags == Some(TagText("")) ==> spec == TagList(DefaultTags)
    ensures spec != TagList(DefaultTags) ==> tags == Some(spec)
  {
    match tags
    case None => TagList(DefaultTags)
    case Some(TagText("")) => TagList(DefaultTags)
    case Some(spec) => spec
  }

  /** `compileTags`: a string is split at its first run of white space (at most two pieces);
      anything but exactly two pieces is rejected. */
  function CompileTags(spec: TagSpec): (r: Result<(string, string)>)
    ensures spec.TagList? ==> (r.Ok? <==> |spec.items| == 2)
    ensures spec.TagList? && r.Ok? ==> spec.items == [r.value.0, r.value.1]
    ensures spec.TagText? ==> (r.Ok? <==> exists i | 0 <= i < |spec.text| :: IsSpace(spec.text[i]))
    ensures spec.TagText? && r.Ok? ==> [r.value.0, r.value.1] == SplitSpaces2(spec.text)
    ensures r.Err? ==> r.error.InvalidTags?
  {
    var pieces := if spec.TagList? then spec.items else SplitSpaces2(spec.text);
    if |pieces| != 2 then Err(InvalidTags(pieces)) else Ok((pieces[0], pieces[1]))
  }

  /** A string of two delimiters around white space compiles to those two delimiters. */
  lemma CompileTagText(open: string, gap: string, close: string)
    requires forall i | 0 <= i < |open| :: !IsSpace(open[i])
    requires gap != [] && forall i | 0 <= i < |gap| :: IsSpace(gap[i])
    requires forall i | 0 <= i < |close| :: !IsSpace(close[i])
    ensures CompileTags(TagText(open + gap + close)) == Ok((open, close))
  {
    SplitWords(open, gap, close);
  }

  /** The variables of `parseTemplate`, with the scanner's `tail` and `pos`; `openTag` and
      `closeTag` stand for the compiled `openingTagRe`, `closingTagRe` and `closingCurlyRe`.
      A deleted entry of `tokens` is `None`. */
  datatype ParseState = ParseState(
    tail: string, pos: nat,
    tokens: seq<Option<Token>>, sections: seq<Token>, spaces: seq<nat>,
    hasTag: bool, nonSpace: bool, lineHasNonSpace: bool,
    indentation: string, tagIndex: nat,
    openTag: string, closeTag: string)

  function Start(template: string, delims: (string, string)): ParseState {
    ParseState(template, 0, [], [], [], false, false, false, "", 0, delims.0, delims.1)
  }

  /** An entry `stripSpace` may delete: a single-character text token, or already deleted. */
  predicate Blank(t: Option<Token>) {
    t.None? || t.value.Text?
  }

  /** What the loop keeps true: `sections` is the stack of open sections of the tokens kept so
      far, tokens are fresh from the tokenizer, and `spaces` points at text entries. */
  predicate Inv(st: ParseState) {
    && OpenStack(Present(st.tokens)) == Some(st.sections)
    && AllFlat(Present(st.tokens))
    && SpacesBlank(st.tokens, st.spaces)
  }

  /** `delete tokens[i]` */
  function Delete(ts: seq<Option<Token>>, i: nat): seq<Option<Token>> {
    if i < |ts| then ts[i := None] else ts
  }

  /** `while (spaces.length > 0) delete tokens[spaces.pop()]` */
  function DeleteAll(ts: seq<Option<Token>>, spaces: seq<nat>): (r: seq<Option<Token>>)
    ensures |r| == |ts|
    ensures forall i | 0 <= i < |ts| :: r[i] == if i in spaces then None else ts[i]
    decreases |spaces|
  {
    if spaces == [] then ts
    else
      assert spaces == Init(spaces) + [Last(spaces)];
      DeleteAll(Delete(ts, Last(spaces)), Init(spaces))
  }

  /** `stripSpace`: on a line that had a tag and otherwise only white space, the white-space
      text entries of the line are deleted. */
  function Stripped(st: ParseState): (r: ParseState)
    ensures !r.hasTag && !r.nonSpace && r.spaces == []
    ensures |r.tokens| == |st.tokens|
    ensures forall i | 0 <= i < |st.tokens| ::
      r.tokens[i] == if st.hasTag && !st.nonSpace && i in st.spaces then None else st.tokens[i]
    ensures r.(tokens := st.tokens, spaces := st.spaces, hasTag := st.hasTag, nonSpace := st.nonSpace) == st
  {
    var tokens := if st.hasTag && !st.nonSpace then DeleteAll(st.tokens, st.spaces) else st.tokens;
    st.(tokens := tokens, spaces := [], hasTag := false, nonSpace := false)
  }

  /** The single-character text token for `chr`, with the line bookkeeping for it. */
  function Appended(st: ParseState, chr: char, at: nat): ParseState {
    var s := if IsWhitespace([chr])
      then st.(spaces := st.spaces + [|st.tokens|], indentation := st.indentation + [chr])
      else st.(nonSpace := true, lineHasNonSpace := true, indentation := st.indentation + " ");
    s.(tokens := s.tokens + [Some(Text([chr], at, at + 1))])
  }

  /** One character of the text before a tag. A newline ends the line: the line is stripped
      and the per-line bookkeeping starts over. */
  function WithChar(st: ParseState, chr: char, at: nat): ParseState {
    var s := Appended(st, chr, at);
    if chr == '\n' then Stripped(s).(indentation := "", tagIndex := 0, lineHasNonSpace := false)
    else s
  }

  /** The text loop: one single-character text token per character, from offset `start`. */
  function WithText(st: ParseState, value: string, start: nat): ParseState
    decreases |value|
  {
    if value == [] then st else WithText(WithChar(st, value[0], start), value[1..], start + 1)
  }

  /** `scanner.scan(p)` on the state's scanner. */
  function ScanSt(st: ParseState, p: Pattern): (r: (string, ParseState))
    ensures r.1 == st.(tail := r.1.tail, pos := st.pos + |r.0|)
    ensures r.0 + r.1.tail == st.tail
  {
    var (m, rest) := ScanFront(st.tail, p);
    (m, st.(tail := rest, pos := st.pos + |m|))
  }

  /** `scanner.scanUntil(p)` on the state's scanner. */
  function ScanUntilSt(st: ParseState, p: Pattern): (r: (string, ParseState))
    ensures r.1 == st.(tail := r.1.tail, pos := st.pos + |r.0|)
    ensures r.0 + r.1.tail == st.tail
  {
    var (m, rest) := ScanUntilFront(st.tail, p);
    (m, st.(tail := rest, pos := st.pos + |m|))
  }

  /** What `ScanSt` and `ScanUntilSt` give, from the scanner's results. */
  lemma ScanStIs(st: ParseState, p: Pattern, m: string, rest: string)
    requires (m, rest) == ScanFront(st.tail, p)
    ensures ScanSt(st, p) == (m, st.(tail := rest, pos := st.pos + |m|))
  {
  }

  lemma ScanUntilStIs(st: ParseState, p: Pattern, m: string, rest: string)
    requires (m, rest) == ScanUntilFront(st.tail, p)
    ensures ScanUntilSt(st, p) == (m, st.(tail := rest, pos := st.pos + |m|))
  {
  }

  /** The type of a tag: the sigil after the opening delimiter, `Plain` for none. */
  datatype Kind = Plain | Amp | Brace | Hash | Caret | Slash | Angle | Bang | Equals

  /** `scanner.scan(tagRe) || 'name'`: the scanned sigil is empty or one of `!#&/=>^{`. */
  function KindOf(sigil: string): (k: Kind)
    ensures sigil == "" ==> k == Plain
    ensures sigil == "{" ==> k == Brace
  {
    if |sigil| != 1 then Plain
    else
      match sigil[0]
      case '&' => Amp
      case '{' => Brace
      case '#' => Hash
      case '^' => Caret
      case '/' => Slash
      case '>' => Angle
      case '!' => Bang
      case '=' => Equals
      case _ => Plain
  }

  /** The token a tag makes. */
  function MakeToken(kind: Kind, value: string, start: nat, end: nat, st: ParseState): (t: Token)
    ensures IsFlat(t)
    ensures t.value == value && t.start == start && t.end == end
  {
    match kind
    case Hash => Section(false, value, start, end, [], 0)
    case Caret => Section(true, value, start, end, [], 0)
    case Slash => Close(value, start, end)
    case Angle => Partial(value, start, end, st.indentation, st.tagIndex, st.lineHasNonSpace)
    case Bang => Comment(value, start, end)
    case Equals => SetDelimiters(value, start, end)
    case Amp => Variable(false, value, start, end)
    case Brace => Variable(false, value, start, end)
    case Plain => Variable(true, value, start, end)
  }

  /** The outcome of reading a tag: the next state, or the error `parseTemplate` throws. */
  datatype Step = Continue(next: ParseState) | Fail(error: Error)

  /** The value of a set-delimiters tag ends at the `=` before the closing delimiter. */
  function EqualsBody(st: ParseState): (r: (string, ParseState))
    ensures |r.1.tail| <= |st.tail|
    ensures r.1.(tail := st.tail, pos := st.pos) == st
  {
    var (value, s1) := ScanUntilSt(st, EqualsSign);
    var (_, s2) := ScanSt(s1, EqualsSign);
    var (_, s3) := ScanUntilSt(s2, ClosingTag(st.closeTag));
    (value, s3)
  }

  /** The value of a `{` tag ends at the `}` before the closing delimiter. */
  function CurlyBody(st: ParseState): (r: (string, ParseState))
    ensures |r.1.tail| <= |st.tail|
    ensures r.1.(tail := st.tail, pos := st.pos) == st
  {
    var (value, s1) := ScanUntilSt(st, ClosingCurly(st.closeTag));
    var (_, s2) := ScanSt(s1, Curly);
    var (_, s3) := ScanUntilSt(s2, ClosingTag(st.closeTag));
    (value, s3)
  }

  lemma EqualsBodyIs(st: ParseState, value: string, s1: ParseState, s2: ParseState, s3: ParseState, a: string, b: string)
    requires (value, s1) == ScanUntilSt(st, EqualsSign)
    requires (a, s2) == ScanSt(s1, EqualsSign)
    requires (b, s3) == ScanUntilSt(s2, ClosingTag(st.closeTag))
    ensures EqualsBody(st) == (value, s3)
  {
  }

  lemma CurlyBodyIs(st: ParseState, value: string, s1: ParseState, s2: ParseState, s3: ParseState, a: string, b: string)
    requires (value, s1) == ScanUntilSt(st, ClosingCurly(st.closeTag))
    requires (a, s2) == ScanSt(s1, Curly)
    requires (b, s3) == ScanUntilSt(s2, ClosingTag(st.closeTag))
    ensures CurlyBody(st) == (value, s3)
  {
  }

  /** The tag value after the sigil and the white space behind it. A `{` tag becomes `&`.
      Returns the kind, the value and the state. */
  function TagBody(st: ParseState, kind: Kind): (r: (Kind, string, ParseState))
    ensures |r.2.tail| <= |st.tail|
    ensures r.2.(tail := st.tail, pos := st.pos) == st
  {
    match kind
    case Equals =>
      var (value, s) := EqualsBody(st);
      (kind, value, s)
    case Brace =>
      var (value, s) := CurlyBody(st);
      (Amp, value, s)
    case _ =>
      var (value, s) := ScanUntilSt(st, ClosingTag(st.closeTag));
      (kind, value, s)
  }

  /** `TagBody`, branch by branch. */
  lemma TagBodyOf(st: ParseState, kind: Kind)
    ensures kind == Equals ==> TagBody(st, kind) == (Equals, EqualsBody(st).0, EqualsBody(st).1)
    ensures kind == Brace ==> TagBody(st, kind) == (Amp, CurlyBody(st).0, CurlyBody(st).1)
    ensures kind != Equals && kind != Brace ==>
      TagBody(st, kind) == (kind, ScanUntilSt(st, ClosingTag(st.closeTag)).0, ScanUntilSt(st, ClosingTag(st.closeTag)).1)
  {
  }

  /** `spaces` points at text entries. */
  predicate SpacesBlank(tokens: seq<Option<Token>>, spaces: seq<nat>) {
    forall k | 0 <= k < |spaces| :: spaces[k] < |tokens| && Blank(tokens[spaces[k]])
  }

  lemma SpacesAppend(tokens: seq<Option<Token>>, spaces: seq<nat>, t: Option<Token>)
    requires SpacesBlank(tokens, spaces)
    ensures SpacesBlank(tokens + [t], spaces)
  {
    forall k | 0 <= k < |spaces|
      ensures spaces[k] < |tokens + [t]| && Blank((tokens + [t])[spaces[k]])
    {
      assert (tokens + [t])[spaces[k]] == tokens[spaces[k]];
    }
  }

  /** `tagIndex++; tokens.push(token)` */
  function Pushed(st: ParseState, token: Token): (r: ParseState)
    requires Inv(st) && IsFlat(token)
    ensures OpenStack(Present(r.tokens)) == StackStep(st.sections, token)
    ensures AllFlat(Present(r.tokens))
    ensures SpacesBlank(r.tokens, r.spaces)
  {
    PresentAppend(st.tokens, Some(token));
    StackAppend(Present(st.tokens), token);
    SpacesAppend(st.tokens, st.spaces, Some(token));
    st.(tagIndex := st.tagIndex + 1, tokens := st.tokens + [Some(token)])
  }

  /** The `switch (type)` after the token is pushed: sections open and close, names mark the
      line as non-blank, `=` compiles the new delimiters. */
  function Switched(s: ParseState, token: Token): (r: Step)
    requires OpenStack(Present(s.tokens)) == StackStep(s.sections, token) && AllFlat(Present(s.tokens))
    requires SpacesBlank(s.tokens, s.spaces)
    ensures r.Continue? ==> Inv(r.next) && r.next.tail == s.tail && r.next.pos == s.pos
  {
    if token.Section? then Continue(s.(sections := s.sections + [token]))
    else if token.Close? then
      if s.sections == [] then Fail(UnopenedSection(token.value, token.start))
      else if Last(s.sections).value != token.value then Fail(UnclosedSection(Last(s.sections).value, token.start))
      else Continue(s.(sections := Init(s.sections)))
    else if token.Variable? then Continue(s.(nonSpace := true))
    else if token.SetDelimiters? then
      match CompileTags(TagText(token.value))
      case Err(e) => Fail(e)
      case Ok(delims) => Continue(s.(openTag := delims.0, closeTag := delims.1))
    else Continue(s)
  }

  /** The tag's token is pushed, then dispatched on. */
  function Recorded(st: ParseState, kind: Kind, value: string, start: nat): (r: Step)
    requires Inv(st)
    ensures r.Continue? ==> Inv(r.next) && r.next.tail == st.tail && r.next.pos == st.pos
  {
    var token := MakeToken(kind, value, start, st.pos, st);
    Switched(Pushed(st, token), token)
  }

  /** Everything after the opening delimiter up to the closing one: the tag's type, its
      value, the closing delimiter ("" when it is missing) and the state after it. */
  function TagScanned(st: ParseState): (r: (Kind, string, string, ParseState))
    ensures |r.3.tail| <= |st.tail|
    ensures r.3.(tail := st.tail, pos := st.pos) == st
  {
    var (sigil, s1) := ScanSt(st, Sigil);
    var (_, s2) := ScanSt(s1, White);
    var (kind, value, s3) := TagBody(s2, KindOf(sigil));
    var (closing, s4) := ScanSt(s3, ClosingTag(st.closeTag));
    (kind, value, closing, s4)
  }

  /** The rest of a tag: without its closing delimiter the tag is unclosed, otherwise its
      token is recorded. */
  function TagRead(st: ParseState, start: nat): (r: Step)
    requires Inv(st)
    ensures r.Continue? ==> Inv(r.next) && |r.next.tail| <= |st.tail|
  {
    var (kind, value, closing, s) := TagScanned(st);
    if closing == "" then Fail(UnclosedTag(s.pos))
    else Recorded(s, kind, value, start)
  }

  /** Where the text before the next tag leads: to a tag (the state after its opening
      delimiter, with the delimiter's offset), or, without an opening delimiter, to the end. */
  datatype Reached = AtTag(at: ParseState, start: nat) | AtEnd(last: ParseState)

  /** The first half of a turn of the main loop: the text up to the next opening delimiter,
      then the delimiter itself. */
  function TextPhase(st: ParseState): (r: Reached)
    requires Inv(st)
    ensures r.AtTag? ==> Inv(r.at) && |r.at.tail| < |st.tail|
    ensures r.AtEnd? ==> Inv(r.last)
  {
    var start := st.pos;
    var (value, s1) := ScanUntilSt(st, OpeningTag(st.openTag));
    var s2 := WithText(s1, value, start);
    WithTextKeeps(s1, value, start);
    var (opening, s3) := ScanSt(s2, OpeningTag(st.openTag));
    if opening == "" then AtEnd(s2)
    else AtTag(s3.(hasTag := true), start + |value|)
  }

  lemma TagScannedIs(st: ParseState, sigil: string, s1: ParseState, white: string, s2: ParseState,
                      kind: Kind, value: string, s3: ParseState, closing: string, s4: ParseState)
    requires (sigil, s1) == ScanSt(st, Sigil)
    requires (white, s2) == ScanSt(s1, White)
    requires (kind, value, s3) == TagBody(s2, KindOf(sigil))
    requires (closing, s4) == ScanSt(s3, ClosingTag(st.closeTag))
    ensures TagScanned(st) == (kind, value, closing, s4)
  {
  }

  lemma TextPhaseIs(st: ParseState, value: string, s1: ParseState, opening: string, s3: ParseState)
    requires Inv(st)
    requires (value, s1) == ScanUntilSt(st, OpeningTag(st.openTag))
    requires (opening, s3) == ScanSt(WithText(s1, value, st.pos), OpeningTag(st.openTag))
    ensures TextPhase(st) == if opening == "" then AtEnd(WithText(s1, value, st.pos)) else AtTag(s3.(hasTag := true), st.pos + |value|)
  {
  }

  /** After the loop: strip the last line, reject a section left open (naming the innermost
      one), and build the tree. */
  function Finished(st: ParseState): (r: Result<seq<Token>>)
    requires Inv(st)
    ensures r.Err? <==> !Balanced(Present(st.tokens))
    ensures r.Err? ==> r.error == UnclosedSection(Last(st.sections).value, st.pos)
  {
    var s := Stripped(st);
    StrippedKeeps(st);
    if s.sections != [] then Err(UnclosedSection(Last(s.sections).value, s.pos))
    else
      SquashedShape(s.tokens);
      Ok(Nested(Squashed(s.tokens)))
  }

  function ParsedFrom(st: ParseState): Result<seq<Token>>
    requires Inv(st)
    decreases |st.tail|
  {
    if st.tail == [] then Finished(st)
    else
      match TextPhase(st)
      case AtEnd(s) => Finished(s)
      case AtTag(s, start) =>
        match TagRead(s, start)
        case Fail(e) => Err(e)
        case Continue(next) => ParsedFrom(next)
  }

  /** `parseTemplate(template, tags)`: an empty template is an empty tree, whatever the tags. */
  function Parsed(template: string, tags: Option<TagSpec>): Result<seq<Token>> {
    if template == [] then Ok([])
    else
      match CompileTags(TagsOr(tags))
      case Err(e) => Err(e)
      case Ok(delims) => ParsedFrom(Start(template, delims))
  }

  // ---------------------------------------------------------------------------------------
  // The loop invariant is kept.

  /** Deleting a text entry changes neither the open sections nor freshness. */
  lemma {:induction false} DeleteKeeps(ts: seq<Option<Token>>, i: nat)
    requires i < |ts| && Blank(ts[i])
    ensures OpenStack(Present(ts[i := None])) == OpenStack(Present(ts))
    ensures AllFlat(Present(ts)) ==> AllFlat(Present(ts[i := None]))
  {
    var t := Last(ts);
    assert Init(ts) + [t] == ts;
    PresentAppend(Init(ts), t);
    if i == |ts| - 1 {
      assert Init(ts) + [None] == ts[i := None];
      PresentAppend(Init(ts), None);
      assert Present(ts[i := None]) == Present(Init(ts));
      if t.Some? {
        StackAppend(Present(Init(ts)), t.value);
        assert Present(ts) == Present(Init(ts)) + [t.value];
        assert AllFlat(Present(ts)) ==> AllFlat(Present(Init(ts)));
      }
    } else {
      assert Init(ts)[i := None] + [t] == ts[i := None];
      PresentAppend(Init(ts)[i := None], t);
      DeleteKeeps(Init(ts), i);
      if t.Some? {
        StackAppend(Present(Init(ts)), t.value);
        StackAppend(Present(Init(ts)[i := None]), t.value);
        assert Present(ts) == Present(Init(ts)) + [t.value];
        assert Present(ts)[|Present(Init(ts))|] == t.value;
        assert Present(ts[i := None]) == Present(Init(ts)[i := None]) + [t.value];
      } else {
        assert Present(ts) == Present(Init(ts));
        assert Present(ts[i := None]) == Present(Init(ts)[i := None]);
      }
    }
  }

  lemma {:induction false} DeleteAllKeeps(ts: seq<Option<Token>>, spaces: seq<nat>)
    requires SpacesBlank(ts, spaces)
    ensures OpenStack(Present(DeleteAll(ts, spaces))) == OpenStack(Present(ts))
    ensures AllFlat(Present(ts)) ==> AllFlat(Present(DeleteAll(ts, spaces)))
    decreases |spaces|
  {
    if spaces != [] {
      var i := Last(spaces);
      DeleteKeeps(ts, i);
      DeleteAllKeeps(Delete(ts, i), Init(spaces));
    }
  }

  lemma StrippedKeeps(st: ParseState)
    requires Inv(st)
    ensures Inv(Stripped(st))
  {
    if st.hasTag && !st.nonSpace {
      DeleteAllKeeps(st.tokens, st.spaces);
    }
  }

  /** Pushing a text token keeps the invariant, whether or not `spaces` points at it. */
  lemma TextPushKeeps(st: ParseState, text: Token, white: bool)
    requires Inv(st) && text.Text?
    ensures Inv(st.(tokens := st.tokens + [Some(text)],
                    spaces := if white then st.spaces + [|st.tokens|] else st.spaces))
  {
    PresentAppend(st.tokens, Some(text));
    StackAppend(Present(st.tokens), text);
    SpacesAppend(st.tokens, st.spaces, Some(text));
    var tokens := st.tokens + [Some(text)];
    if white {
      var spaces := st.spaces + [|st.tokens|];
      forall k | 0 <= k < |spaces|
        ensures spaces[k] < |tokens| && Blank(tokens[spaces[k]])
      {
        if k < |st.spaces| {
          assert spaces[k] == st.spaces[k];
        }
      }
    }
  }

  lemma AppendedKeeps(st: ParseState, chr: char, at: nat)
    requires Inv(st)
    ensures Inv(Appended(st, chr, at))
  {
    var white := IsWhitespace([chr]);
    TextPushKeeps(st, Text([chr], at, at + 1), white);
  }

  lemma WithCharKeeps(st: ParseState, chr: char, at: nat)
    requires Inv(st)
    ensures Inv(WithChar(st, chr, at))
    ensures WithChar(st, chr, at).tail == st.tail && WithChar(st, chr, at).pos == st.pos
  {
    AppendedKeeps(st, chr, at);
    if chr == '\n' {
      StrippedKeeps(Appended(st, chr, at));
    }
  }

  lemma {:induction false} WithTextKeeps(st: ParseState, value: string, start: nat)
    requires Inv(st)
    ensures Inv(WithText(st, value, start))
    ensures WithText(st, value, start).tail == st.tail && WithText(st, value, start).pos == st.pos
    decreases |value|
  {
    if value != [] {
      WithCharKeeps(st, value[0], start);
      WithTextKeeps(WithChar(st, value[0], start), value[1..], start + 1);
    }
  }

  // ---------------------------------------------------------------------------------------
  // What the parser promises.

  /** The single-character text tokens the text loop makes for `value`, from offset `at`. */
  function CharTokens(value: string, at: nat): (r: seq<Option<Token>>)
    ensures |r| == |value|
  {
    seq(|value|, i requires 0 <= i < |value| => Some(Text([value[i]], at + i, at + i + 1)))
  }

  /** Before the first tag of a line nothing is stripped: the text loop only appends. */
  lemma {:induction false} WithTextUntagged(st: ParseState, value: string, at: nat)
    requires !st.hasTag
    ensures WithText(st, value, at).tokens == st.tokens + CharTokens(value, at)
    ensures !WithText(st, value, at).hasTag
    ensures WithText(st, value, at).sections == st.sections
    decreases |value|
  {
    if value != [] {
      var s := WithChar(st, value[0], at);
      var a := Appended(st, value[0], at);
      assert a.tokens == st.tokens + [Some(Text([value[0]], at, at + 1))];
      assert s.tokens == a.tokens;
      WithTextUntagged(s, value[1..], at + 1);
      assert CharTokens(value, at) == [Some(Text([value[0]], at, at + 1))] + CharTokens(value[1..], at + 1);
    }
  }

  /** `squashTokens` merges the character tokens of a text back into one token. */
  lemma {:induction false} SquashedChars(value: string, at: nat)
    requires value != []
    ensures Squashed(CharTokens(value, at)) == [Text(value, at, at + |value|)]
    decreases |value|
  {
    var n := |value|;
    var ts := CharTokens(value, at);
    if n == 1 {
      assert Init(ts) == [];
      assert value == [value[0]];
    } else {
      assert Init(ts) == CharTokens(value[..n - 1], at);
      SquashedChars(value[..n - 1], at);
      assert value[..n - 1] + [value[n - 1]] == value;
    }
  }

  /** Where the opening delimiter never occurs, the text loop takes the whole rest and the
      main loop ends. */
  lemma TextPhaseAbsent(st: ParseState)
    requires Inv(st)
    requires forall j | 0 <= j <= |st.tail| :: !IsPrefix(st.openTag, st.tail[j..])
    ensures TextPhase(st) == AtEnd(WithText(st.(tail := "", pos := st.pos + |st.tail|), st.tail, st.pos))
  {
    var open := st.openTag;
    SearchAbsent(st.tail, open);
    var (value, s1) := ScanUntilSt(st, OpeningTag(open));
    assert value == st.tail && s1 == st.(tail := "", pos := st.pos + |st.tail|);
    WithTextKeeps(s1, value, st.pos);
    var s2 := WithText(s1, value, st.pos);
    assert !IsPrefix(open, st.tail[|st.tail|..]);
    var (opening, s3) := ScanSt(s2, OpeningTag(open));
    assert opening == "";
    TextPhaseIs(st, value, s1, opening, s3);
  }

  /** A template in which the opening delimiter never occurs parses to one text token holding
      the whole template. */
  lemma TagFree(template: string, tags: Option<TagSpec>)
    requires template != []
    requires CompileTags(TagsOr(tags)).Ok?
    requires forall j | 0 <= j <= |template| ::
      !IsPrefix(CompileTags(TagsOr(tags)).value.0, template[j..])
    ensures Parsed(template, tags) == Ok([Text(template, 0, |template|)])
  {
    var delims := CompileTags(TagsOr(tags)).value;
    StartInv(template, delims);
    StartAbsent(template, delims);
    ParsedOfStart(template, tags, Ok([Text(template, 0, |template|)]));
  }

  /** The parse from the start of a template without an opening delimiter. */
  lemma StartAbsent(template: string, delims: (string, string))
    requires template != []
    requires forall j | 0 <= j <= |template| :: !IsPrefix(delims.0, template[j..])
    ensures Inv(Start(template, delims))
    ensures ParsedFrom(Start(template, delims)) == Ok([Text(template, 0, |template|)])
  {
    var st := Start(template, delims);
    StartInv(template, delims);
    assert st.tail == template && st.pos == 0 && st.openTag == delims.0;
    ParsedFromAbsent(st);
  }

  /** A non-empty template is parsed from the start state for the compiled tags. */
  lemma ParsedOfStart(template: string, tags: Option<TagSpec>, r: Result<seq<Token>>)
    requires template != [] && CompileTags(TagsOr(tags)).Ok?
    requires Inv(Start(template, CompileTags(TagsOr(tags)).value))
    requires ParsedFrom(Start(template, CompileTags(TagsOr(tags)).value)) == r
    ensures Parsed(template, tags) == r
  {
  }

  /** The loop starts with nothing open. */
  lemma StartInv(template: string, delims: (string, string))
    ensures Inv(Start(template, delims))
  {
    assert Present(Start(template, delims).tokens) == [];
  }

  lemma ParsedFromAbsent(st: ParseState)
    requires Inv(st) && st.tail != [] && st.tokens == [] && st.sections == [] && !st.hasTag
    requires forall j | 0 <= j <= |st.tail| :: !IsPrefix(st.openTag, st.tail[j..])
    ensures ParsedFrom(st) == Ok([Text(st.tail, st.pos, st.pos + |st.tail|)])
  {
    var last := TextTaken(st);
    ParsedFromUntagged(st, last);
  }

  /** Without an opening delimiter the text loop ends holding one character token per
      character and no section. */
  lemma TextTaken(st: ParseState) returns (last: ParseState)
    requires Inv(st) && st.tail != [] && st.tokens == [] && st.sections == [] && !st.hasTag
    requires forall j | 0 <= j <= |st.tail| :: !IsPrefix(st.openTag, st.tail[j..])
    ensures TextPhase(st) == AtEnd(last) && Inv(last) && !last.hasTag
    ensures last.tokens == CharTokens(st.tail, st.pos) && last.sections == []
  {
    var s1 := st.(tail := "", pos := st.pos + |st.tail|);
    last := WithText(s1, st.tail, st.pos);
    TextPhaseAbsent(st);
    WithTextUntagged(s1, st.tail, st.pos);
    assert s1.tokens == [];
    WithTextKeeps(s1, st.tail, st.pos);
  }

  /** When the text runs to the end holding only the characters of the rest, the parse is
      one text token. */
  lemma ParsedFromUntagged(st: ParseState, last: ParseState)
    requires Inv(st) && st.tail != [] && TextPhase(st) == AtEnd(last)
    requires Inv(last) && !last.hasTag && last.tokens == CharTokens(st.tail, st.pos) && last.sections == []
    ensures ParsedFrom(st) == Ok([Text(st.tail, st.pos, st.pos + |st.tail|)])
  {
    FinishedUntagged(last, st.tail, st.pos);
  }

  /** A single token outside any section is its own tree. */
  lemma NestedSingle(t: Token)
    requires !t.Section? && !t.Close?
    ensures Balanced([t]) && Nested([t]) == [t]
  {
    assert Init([t]) == [] && Last([t]) == t;
    assert NestFold([t]) == NestStep(Nesting([], []), t);
  }

  /** Ending the parse with nothing but the characters of one text and no tag gives that text. */
  lemma FinishedUntagged(st: ParseState, value: string, at: nat)
    requires Inv(st) && !st.hasTag && value != []
    requires st.tokens == CharTokens(value, at) && st.sections == []
    ensures Finished(st) == Ok([Text(value, at, at + |value|)])
  {
    var s := Stripped(st);
    assert s.tokens == st.tokens;
    SquashedChars(value, at);
    NestedSingle(Text(value, at, at + |value|));
  }

  /** The errors of recording a tag: a close tag must match the innermost open section and a
      set-delimiters tag must give two delimiters. No other tag fails. */
  lemma RecordedFails(st: ParseState, kind: Kind, value: string, start: nat)
    requires Inv(st)
    ensures Recorded(st, kind, value, start).Fail? <==>
      || (kind == Slash && (st.sections == [] || Last(st.sections).value != value))
      || (kind == Equals && CompileTags(TagText(value)).Err?)
    ensures kind == Slash && st.sections == [] ==>
      Recorded(st, kind, value, start) == Fail(UnopenedSection(value, start))
    ensures kind == Slash && st.sections != [] && Last(st.sections).value != value ==>
      Recorded(st, kind, value, start) == Fail(UnclosedSection(Last(st.sections).value, start))
  {
    var token := MakeToken(kind, value, start, st.pos, st);
    assert (token.Close? <==> kind == Slash) && (token.SetDelimiters? <==> kind == Equals);
    assert !token.Section? && !token.Variable? ==> kind != Slash || token.Close?;
    var p := Pushed(st, token);
    assert p.sections == st.sections;
    assert Recorded(st, kind, value, start) == Switched(p, token);
  }

  /** The tag errors: a tag without its closing delimiter is unclosed, and then the errors of
      `RecordedFails`. */
  lemma TagReadFails(st: ParseState, start: nat)
    requires Inv(st)
    ensures var (kind, value, closing, s) := TagScanned(st);
      TagRead(st, start).Fail? <==>
        || closing == ""
        || (kind == Slash && (st.sections == [] || Last(st.sections).value != value))
        || (kind == Equals && CompileTags(TagText(value)).Err?)
    ensures var (kind, value, closing, s) := TagScanned(st);
      && (closing == "" ==> TagRead(st, start) == Fail(UnclosedTag(s.pos)))
      && (closing != "" && kind == Slash && st.sections == [] ==>
            TagRead(st, start) == Fail(UnopenedSection(value, start)))
      && (closing != "" && kind == Slash && st.sections != [] && Last(st.sections).value != value ==>
            TagRead(st, start) == Fail(UnclosedSection(Last(st.sections).value, start)))
  {
    var (kind, value, closing, s) := TagScanned(st);
    assert s.sections == st.sections && Inv(s);
    RecordedFails(s, kind, value, start);
  }

  // ---------------------------------------------------------------------------------------
  // The parser itself.

  /** The state of one `parseTemplate` call: its local variables and its scanner. */
  class TemplateParser {
    const scanner: Scanner
    var tokens: seq<Option<Token>>
    var sections: seq<Token>
    var spaces: seq<nat>
    var hasTag: bool
    var nonSpace: bool
    var lineHasNonSpace: bool
    var indentation: string
    var tagIndex: nat
    var openTag: string
    var closeTag: string

    function State(): ParseState
      reads this, scanner
    {
      ParseState(scanner.tail, scanner.pos, tokens, sections, spaces, hasTag, nonSpace,
        lineHasNonSpace, indentation, tagIndex, openTag, closeTag)
    }

    ghost predicate Valid()
      reads this, scanner
    {
      scanner.Valid() && Inv(State())
    }

    constructor (template: string, delims: (string, string))
      ensures Valid() && State() == Start(template, delims) && fresh(scanner)
    {
      scanner := new Scanner(template);
      tokens := [];
      sections := [];
      spaces := [];
      hasTag := false;
      nonSpace := false;
      lineHasNonSpace := false;
      indentation := "";
      tagIndex := 0;
      openTag := delims.0;
      closeTag := delims.1;
    }

    /** `stripSpace` */
    method StripSpace()
      modifies this
      ensures State() == Stripped(old(State()))
    {
      if hasTag && !nonSpace {
        var remaining := spaces;
        var kept := tokens;
        while |remaining| > 0
          invariant DeleteAll(kept, remaining) == DeleteAll(tokens, spaces)
          decreases |remaining|
        {
          var i := Last(remaining);
          remaining := Init(remaining);
          if i < |kept| {
            kept := kept[i := None];
          }
        }
        tokens := kept;
      }
      spaces := [];
      hasTag := false;
      nonSpace := false;
    }

    /** One character of the text before a tag. */
    method AddChar(chr: char, at: nat)
      modifies this
      ensures State() == WithChar(old(State()), chr, at)
    {
      if IsWhitespace([chr]) {
        spaces := spaces + [|tokens|];
        indentation := indentation + [chr];
      } else {
        nonSpace := true;
        lineHasNonSpace := true;
        indentation := indentation + " ";
      }
      tokens := tokens + [Some(Text([chr], at, at + 1))];
      if chr == '\n' {
        StripSpace();
        indentation := "";
        tagIndex := 0;
        lineHasNonSpace := false;
      }
    }

    /** The loop over the characters of the text before a tag. */
    method AddText(value: string, start: nat)
      modifies this
      ensures State() == WithText(old(State()), value, start)
    {
      ghost var goal := WithText(State(), value, start);
      var at := start;
      for index := 0 to |value|
        invariant at == start + index
        invariant WithText(State(), value[index..], at) == goal
      {
        assert value[index..][1..] == value[index + 1..];
        AddChar(value[index], at);
        at := at + 1;
      }
    }

    /** `scanner.scan(p)`, seen as a step on the parse state. */
    method Scan(p: Pattern) returns (m: string)
      requires scanner.Valid()
      modifies scanner
      ensures scanner.Valid()
      ensures (m, State()) == ScanSt(old(State()), p)
    {
      ghost var s0 := State();
      m := scanner.Scan(p);
      ScanStIs(s0, p, m, scanner.tail);
    }

    /** `scanner.scanUntil(p)`, seen as a step on the parse state. */
    method ScanUntil(p: Pattern) returns (m: string)
      requires scanner.Valid()
      modifies scanner
      ensures scanner.Valid()
      ensures (m, State()) == ScanUntilSt(old(State()), p)
    {
      ghost var s0 := State();
      m := scanner.ScanUntil(p);
      ScanUntilStIs(s0, p, m, scanner.tail);
    }

    /** The tag value after the sigil and the white space behind it. */
    method ReadBody(tagType: Kind) returns (kind: Kind, value: string)
      requires scanner.Valid()
      modifies scanner
      ensures scanner.Valid()
      ensures (kind, value, State()) == TagBody(old(State()), tagType)
    {
      ghost var s0 := State();
      kind := tagType;
      if kind == Equals {
        value := ReadEquals();
      } else if kind == Brace {
        value := ReadCurly();
        kind := Amp;
      } else {
        value := ScanUntil(ClosingTag(closeTag));
      }
      TagBodyOf(s0, tagType);
    }

    /** The value of a set-delimiters tag, then the `=` and the rest up to the closing tag. */
    method ReadEquals() returns (value: string)
      requires scanner.Valid()
      modifies scanner
      ensures scanner.Valid()
      ensures (value, State()) == EqualsBody(old(State()))
    {
      ghost var s0 := State();
      value := ScanUntil(EqualsSign);
      ghost var s1 := State();
      var equals := Scan(EqualsSign);
      ghost var s2 := State();
      var skipped := ScanUntil(ClosingTag(closeTag));
      EqualsBodyIs(s0, value, s1, s2, State(), equals, skipped);
    }

    /** The value of a `{` tag, then the `}` and the rest up to the closing tag. */
    method ReadCurly() returns (value: string)
      requires scanner.Valid()
      modifies scanner
      ensures scanner.Valid()
      ensures (value, State()) == CurlyBody(old(State()))
    {
      ghost var s0 := State();
      value := ScanUntil(ClosingCurly(closeTag));
      ghost var s1 := State();
      var curly := Scan(Curly);
      ghost var s2 := State();
      var skipped := ScanUntil(ClosingTag(closeTag));
      CurlyBodyIs(s0, value, s1, s2, State(), curly, skipped);
    }

    /** Pushes the tag's token and runs the `switch (type)`. */
    method Record(kind: Kind, value: string, start: nat) returns (err: Option<Error>)
      requires Inv(State())
      modifies this
      ensures Recorded(old(State()), kind, value, start) == if err.Some? then Fail(err.value) else Continue(State())
    {
      ghost var s0 := State();
      var token := MakeToken(kind, value, start, scanner.pos, State());
      ghost var pushed := Pushed(s0, token);
      tagIndex := tagIndex + 1;
      tokens := tokens + [Some(token)];
      assert State() == pushed;
      err := Dispatch(token);
    }

    /** The `switch (type)` on the token just pushed. */
    method Dispatch(token: Token) returns (err: Option<Error>)
      requires OpenStack(Present(tokens)) == StackStep(sections, token) && AllFlat(Present(tokens))
      requires SpacesBlank(tokens, spaces)
      modifies this
      ensures Switched(old(State()), token) == if err.Some? then Fail(err.value) else Continue(State())
    {
      err := None;
      if token.Section? {
        sections := sections + [token];
      } else if token.Close? {
        if sections == [] {
          return Some(UnopenedSection(token.value, token.start));
        }
        var openSection := Last(sections);
        sections := Init(sections);
        if openSection.value != token.value {
          return Some(UnclosedSection(openSection.value, token.start));
        }
      } else if token.Variable? {
        nonSpace := true;
      } else if token.SetDelimiters? {
        var delims := CompileTags(TagText(token.value));
        if delims.Err? {
          return Some(delims.error);
        }
        openTag := delims.value.0;
        closeTag := delims.value.1;
      }
    }

    /** The tag after its opening delimiter, up to its closing delimiter. */
    method ScanTag() returns (kind: Kind, value: string, closing: string)
      requires scanner.Valid()
      modifies scanner
      ensures scanner.Valid()
      ensures (kind, value, closing, State()) == TagScanned(old(State()))
    {
      ghost var s0 := State();
      var sigil := Scan(Sigil);
      ghost var s1 := State();
      var skipped := Scan(White);
      ghost var s2 := State();
      kind, value := ReadBody(KindOf(sigil));
      ghost var s3 := State();
      closing := Scan(ClosingTag(closeTag));
      TagScannedIs(s0, sigil, s1, skipped, s2, kind, value, s3, closing, State());
    }

    /** The tag after its opening delimiter; `start` is the delimiter's offset. Returns the
        error the source throws, if any. */
    method ReadTag(start: nat) returns (err: Option<Error>)
      requires Valid()
      modifies this, scanner
      ensures scanner.Valid()
      ensures TagRead(old(State()), start) == if err.Some? then Fail(err.value) else Continue(State())
    {
      var kind, value, closing := ScanTag();
      if closing == "" {
        return Some(UnclosedTag(scanner.pos));
      }
      err := Record(kind, value, start);
    }

    /** The text before the next tag, and the tag's opening delimiter. */
    method ReadText() returns (atTag: bool, start: nat)
      requires Valid()
      modifies this, scanner
      ensures scanner.Valid()
      ensures TextPhase(old(State())) == if atTag then AtTag(State(), start) else AtEnd(State())
    {
      ghost var before := State();
      var from := scanner.pos;
      var openingTag := OpeningTag(openTag);
      var value := ScanUntil(openingTag);
      ghost var s1 := State();
      if value != "" {
        AddText(value, from);
      }
      assert State() == WithText(s1, value, from);
      var opening := Scan(openingTag);
      TextPhaseIs(before, value, s1, opening, State());
      if opening == "" {
        return false, 0;
      }
      hasTag := true;
      atTag, start := true, from + |value|;
    }

    /** The main loop and what follows it. */
    method Run() returns (r: Result<seq<Token>>)
      requires Valid()
      modifies this, scanner
      ensures r == ParsedFrom(old(State()))
    {
      ghost var goal := ParsedFrom(State());
      while true
        invariant Valid() && ParsedFrom(State()) == goal
        decreases |scanner.tail|
      {
        var eos := scanner.Eos();
        if eos {
          break;
        }
        var atTag, start := ReadText();
        if !atTag {
          break;
        }
        var err := ReadTag(start);
        if err.Some? {
          return Err(err.value);
        }
      }
      ghost var last := State();
      assert Finished(last) == goal;
      StrippedKeeps(last);
      StripSpace();
      if sections != [] {
        var openSection := Last(sections);
        sections := Init(sections);
        return Err(UnclosedSection(openSection.value, scanner.pos));
      }
      SquashedShape(tokens);
      var squashed := SquashTokens(tokens);
      var nested := NestTokens(squashed);
      r := Ok(nested);
    }
  }

  /** `parseTemplate(template, tags)` */
  method ParseTemplate(template: string, tags: Option<TagSpec>) returns (r: Result<seq<Token>>)
    ensures r == Parsed(template, tags)
  {
    if template == "" {
      return Ok([]);
    }
    var delims := CompileTags(TagsOr(tags));
    if delims.Err? {
      return Err(delims.error);
    }
    var parser := new TemplateParser(template, delims.value);
    r := parser.Run();
  }
}
