/** What rendering a token tree produces: `renderTokens` and the helpers it dispatches to, as
    functions of the context chain's views. The `Writer` methods are proved to compute these. */
module Rendering {
  import opened Outcomes
  import opened Text
  import opened JsValues
  import opened Escape
  import opened Tokens
  import opened Parser
  import opened Contexts

  /** The `partials` argument: absent, an object of named templates, or a loader function
      (whose `None` stands for a null or undefined result). */
  datatype Partials = NoPartials | Named(templates: map<string, string>) | Loader(load: string -> Option<string>)

  /** `mustache.escape`: `escapeHtml` unless it has been replaced. */
  datatype Escaper = HtmlEscaper | CustomEscaper(f: Value -> string)

  /** What the renderer is given besides the tokens and the context: the host functions, the
      escaper and the partials. */
  datatype Env = Env(host: Host, escaper: Escaper, partials: Partials)

  function EscapeWith(e: Escaper, v: Value): string {
    match e
    case HtmlEscaper => EscapeHtml(ToJsString(v))
    case CustomEscaper(f) => f(v)
  }

  /** The partial template named `name`, if any. */
  function PartialTemplate(p: Partials, name: string): Option<string> {
    match p
    case NoPartials => None
    case Named(templates) => if name in templates then Some(templates[name]) else None
    case Loader(load) => load(name)
  }

  /** `String.prototype.slice(start, end)` for non-negative offsets. */
  function Slice(s: string, start: nat, end: nat): (r: string)
    ensures |r| <= |s|
    ensures start <= end <= |s| ==> r == s[start..end]
  {
    var from := if start < |s| then start else |s|;
    var to := if end < |s| then end else |s|;
    if from < to then s[from..to] else ""
  }

  /** `Writer.parse` without its cache: `tags.join(':')` fails on a non-empty string `tags`
      before anything is parsed; an empty one stands for the defaults. */
  function ParseWith(template: string, tags: Option<TagSpec>): Result<seq<Token>> {
    if TagsOr(tags).TagText? then Err(TagsNotJoinable) else Parsed(template, tags)
  }

  /** An empty string for `tags` parses with the default tags, a non-empty one fails. */
  lemma TagsStringParse(template: string, text: string)
    ensures text == "" ==> ParseWith(template, Some(TagText(text))) == ParseWith(template, None)
    ensures text != "" ==> ParseWith(template, Some(TagText(text))) == Err(TagsNotJoinable)
  {
  }

  /** `indentation.replace(/[^ \t]/g, '')` */
  function SpacesAndTabs(s: string): (r: string)
    ensures forall i | 0 <= i < |r| :: r[i] == ' ' || r[i] == '\t'
    ensures |r| <= |s|
    ensures (forall i | 0 <= i < |s| :: s[i] == ' ' || s[i] == '\t') ==> r == s
    ensures |s| == 1 && s[0] != ' ' && s[0] != '\t' ==> r == ""
  {
    if s == [] then ""
    else (if s[0] == ' ' || s[0] == '\t' then [s[0]] else []) + SpacesAndTabs(s[1..])
  }

  /** Filtering distributes over concatenation: the spaces and tabs are kept in order. */
  lemma {:induction false} SpacesAndTabsAppend(a: string, b: string)
    ensures SpacesAndTabs(a + b) == SpacesAndTabs(a) + SpacesAndTabs(b)
    decreases |a|
  {
    if a != [] {
      var head := if a[0] == ' ' || a[0] == '\t' then [a[0]] else [];
      assert (a + b)[0] == a[0] && (a + b)[1..] == a[1..] + b;
      SpacesAndTabsAppend(a[1..], b);
      calc {
        SpacesAndTabs(a + b);
        head + SpacesAndTabs(a[1..] + b);
        head + (SpacesAndTabs(a[1..]) + SpacesAndTabs(b));
        (head + SpacesAndTabs(a[1..])) + SpacesAndTabs(b);
        SpacesAndTabs(a) + SpacesAndTabs(b);
      }
    } else {
      assert a + b == b;
    }
  }

  /** The lines of a partial after indenting: non-empty lines get the prefix, except the
      first one when the tag's line had other content. */
  function IndentLines(lines: seq<string>, prefix: string, lineHasNonSpace: bool): (r: seq<string>)
    ensures |r| == |lines|
  {
    seq(|lines|, i requires 0 <= i < |lines| =>
      if |lines[i]| > 0 && (i > 0 || !lineHasNonSpace) then prefix + lines[i] else lines[i])
  }

  /** `indentPartial`: the partial keeps its lines; each non-empty one is prefixed with the
      tag's indentation (spaces and tabs only), the first one only when the tag's line had
      nothing else on it. */
  function IndentPartial(partial: string, indentation: string, lineHasNonSpace: bool): (r: string)
    ensures var before := SplitOn(partial, '\n');
      var after := SplitOn(r, '\n');
      && |after| == |before|
      && forall i | 0 <= i < |before| ::
           after[i] == (if |before[i]| > 0 && (i > 0 || !lineHasNonSpace)
                        then SpacesAndTabs(indentation) + before[i] else before[i])
  {
    var lines := SplitOn(partial, '\n');
    var prefix := SpacesAndTabs(indentation);
    var indented := IndentLines(lines, prefix, lineHasNonSpace);
    IndentLinesSplit(lines, prefix, lineHasNonSpace);
    JoinWith(indented, '\n')
  }

  lemma IndentLinesSplit(lines: seq<string>, prefix: string, lineHasNonSpace: bool)
    requires |lines| >= 1
    requires forall i | 0 <= i < |lines| :: '\n' !in lines[i]
    requires forall i | 0 <= i < |prefix| :: prefix[i] == ' ' || prefix[i] == '\t'
    ensures SplitOn(JoinWith(IndentLines(lines, prefix, lineHasNonSpace), '\n'), '\n')
         == IndentLines(lines, prefix, lineHasNonSpace)
  {
    var indented := IndentLines(lines, prefix, lineHasNonSpace);
    forall i | 0 <= i < |indented|
      ensures '\n' !in indented[i]
    {
      assert '\n' !in prefix;
    }
    SplitJoin(indented, '\n');
  }

  /** `buffer += value`: two outputs one after the other; the first error wins. */
  function Concat(x: Result<string>, y: Result<string>): (r: Result<string>)
    ensures r.Ok? <==> x.Ok? && y.Ok?
    ensures r.Ok? ==> r.value == x.value + y.value
    ensures x.Err? ==> r == x
  {
    if x.Err? then x else if y.Err? then y else Ok(x.value + y.value)
  }

  /** `renderTokens`: the outputs of the tokens, in order; the first error stops it. Partial
      templates are expanded at most `fuel` levels deep. */
  function RenderTokens(ts: seq<Token>, chain: seq<Value>, env: Env, original: string,
                        tags: Option<TagSpec>, fuel: nat): Result<string>
    requires chain != []
    decreases fuel, ts, 3
  {
    if ts == [] then Ok("")
    else
      Concat(RenderTokens(ts[..|ts| - 1], chain, env, original, tags, fuel),
             RenderToken(ts[|ts| - 1], chain, env, original, tags, fuel))
  }

  /** The `switch (symbol)` of `renderTokens`: comments, set-delimiter tags (and close tags,
      which the tree has none of) render nothing. */
  function RenderToken(t: Token, chain: seq<Value>, env: Env, original: string,
                       tags: Option<TagSpec>, fuel: nat): Result<string>
    requires chain != []
    decreases fuel, t, 2
  {
    match t
    case Section(inverted, _, _, _, _, _) =>
      if inverted then RenderInverted(t, chain, env, original, fuel)
      else RenderSection(t, chain, env, original, fuel)
    case Partial(_, _, _, _, _, _) => RenderPartial(t, chain, env, tags, fuel)
    case Variable(escaped, _, _, _) =>
      if escaped then EscapedValue(t, chain, env) else UnescapedValue(t, chain, env)
    case Text(_, _, _) => Ok(RawValue(t))
    case _ => Ok("")
  }

  /** `renderSection`. Section bodies are rendered without the `tags` argument. */
  function RenderSection(t: Token, chain: seq<Value>, env: Env, original: string, fuel: nat): Result<string>
    requires t.Section? && chain != []
    decreases fuel, t, 1
  {
    var value :- LookupIn(chain, t.value, env.host);
    if Falsy(value) then Ok("")
    else if value.Arr? then RenderEach(t, value.items, chain, env, original, fuel)
    else if value.Obj? || value.Str? || value.Num? then
      RenderTokens(t.children, [value] + chain, env, original, None, fuel)
    else if value.Lambda? then
      var out := env.host.section(value.id, chain[0], Slice(original, t.end, t.closeStart));
      Ok(if IsNil(out) then "" else ToJsString(out))
    else RenderTokens(t.children, chain, env, original, None, fuel)
  }

  /** The loop of `renderSection` over an array: the body once per element, in order, each
      under a frame pushed for its element. */
  function RenderEach(t: Token, items: seq<Value>, chain: seq<Value>, env: Env, original: string,
                      fuel: nat): Result<string>
    requires t.Section? && chain != []
    decreases fuel, t, 0, |items|
  {
    if items == [] then Ok("")
    else
      Concat(RenderEach(t, items[..|items| - 1], chain, env, original, fuel),
             RenderTokens(t.children, [items[|items| - 1]] + chain, env, original, None, fuel))
  }

  /** `renderInverted`: the body, in the same context, when the value is falsy or an empty
      array; nothing otherwise. */
  function RenderInverted(t: Token, chain: seq<Value>, env: Env, original: string, fuel: nat): Result<string>
    requires t.Section? && chain != []
    decreases fuel, t, 1
  {
    var value :- LookupIn(chain, t.value, env.host);
    if Falsy(value) || value == Arr([]) then RenderTokens(t.children, chain, env, original, None, fuel)
    else Ok("")
  }

  /** `renderPartial`: a missing partial renders nothing; a partial on its own line at the
      start is indented; the partial is parsed (with `tags`) and rendered in the same context. */
  function RenderPartial(t: Token, chain: seq<Value>, env: Env, tags: Option<TagSpec>, fuel: nat): Result<string>
    requires t.Partial? && chain != []
    decreases fuel, t, 1
  {
    match PartialSource(t, env.partials)
    case None => Ok("")
    case Some(indented) =>
      if fuel == 0 then Err(StackExhausted)
      else RenderParsed(t, ParseWith(indented, tags), indented, chain, env, tags, fuel)
  }

  /** A partial's template, once parsed with `tags`, rendered one level deeper; a parse
      error is the result. */
  function RenderParsed(t: Token, tree: Result<seq<Token>>, template: string, chain: seq<Value>,
                        env: Env, tags: Option<TagSpec>, fuel: nat): Result<string>
    requires chain != [] && fuel > 0
    decreases fuel, t, 0
  {
    match tree
    case Err(e) => Err(e)
    case Ok(ts) => RenderTokens(ts, chain, env, template, tags, fuel - 1)
  }

  /** The template a partial tag expands to: the named partial, indented when the tag is the
      first token of its line and has indentation. */
  function PartialSource(t: Token, partials: Partials): (r: Option<string>)
    requires t.Partial?
    ensures r.Some? <==> PartialTemplate(partials, t.value).Some?
    ensures r.Some? && (t.tagIndex != 0 || t.indentation == "") ==> r.value == PartialTemplate(partials, t.value).value
    ensures r.Some? && t.tagIndex == 0 && t.indentation != "" ==>
      |SplitOn(r.value, '\n')| == |SplitOn(PartialTemplate(partials, t.value).value, '\n')|
  {
    match PartialTemplate(partials, t.value)
    case None => None
    case Some(text) =>
      Some(if t.tagIndex == 0 && t.indentation != "" then IndentPartial(text, t.indentation, t.lineHasNonSpace) else text)
  }

  /** `escapedValue`: the escaped text of the value; nothing for null or undefined. */
  function EscapedValue(t: Token, chain: seq<Value>, env: Env): (r: Result<string>)
    requires t.Variable? && chain != []
    ensures r.Err? <==> LookupIn(chain, t.value, env.host).Err?
    ensures r.Ok? && IsNil(LookupIn(chain, t.value, env.host).value) ==> r.value == ""
    ensures r.Ok? && env.escaper.HtmlEscaper? ==> IsInert(r.value)
  {
    var value :- LookupIn(chain, t.value, env.host);
    Ok(if IsNil(value) then "" else EscapeWith(env.escaper, value))
  }

  /** `unescapedValue`: the value as a string; nothing for null or undefined. */
  function UnescapedValue(t: Token, chain: seq<Value>, env: Env): (r: Result<string>)
    requires t.Variable? && chain != []
    ensures r.Ok? <==> LookupIn(chain, t.value, env.host).Ok?
    ensures r.Ok? && IsNil(LookupIn(chain, t.value, env.host).value) ==> r.value == ""
    ensures r.Ok? && !IsNil(LookupIn(chain, t.value, env.host).value) ==>
      r.value == ToJsString(LookupIn(chain, t.value, env.host).value)
  {
    var value :- LookupIn(chain, t.value, env.host);
    Ok(if IsNil(value) then "" else ToJsString(value))
  }

  /** `rawValue`: a text token renders as its text. */
  function RawValue(t: Token): string
    requires t.Text?
  {
    t.value
  }

  /** `Writer.render` on a plain view: parse, then render under a one-frame context. */
  function Rendered(template: string, view: Value, env: Env, tags: Option<TagSpec>, fuel: nat): Result<string> {
    var tree :- ParseWith(template, tags);
    RenderTokens(tree, [view], env, template, tags, fuel)
  }

  // ---------------------------------------------------------------------------------------
  // What rendering promises.

  /** The output of a token list is the output of its first part followed by that of the
      rest; an error in the first part is the error of the whole. */
  lemma {:induction false} RenderTokensAppend(a: seq<Token>, b: seq<Token>, chain: seq<Value>, env: Env,
                                              original: string, tags: Option<TagSpec>, fuel: nat)
    requires chain != []
    ensures RenderTokens(a + b, chain, env, original, tags, fuel) ==
      Concat(RenderTokens(a, chain, env, original, tags, fuel), RenderTokens(b, chain, env, original, tags, fuel))
    decreases |b|
  {
    if b == [] {
      assert a + b == a;
      ConcatEmpty(RenderTokens(a, chain, env, original, tags, fuel));
    } else {
      var ab := a + b;
      var b' := b[..|b| - 1];
      assert ab[..|ab| - 1] == a + b' && ab[|ab| - 1] == b[|b| - 1];
      RenderTokensAppend(a, b', chain, env, original, tags, fuel);
      ConcatAssociative(RenderTokens(a, chain, env, original, tags, fuel),
        RenderTokens(b', chain, env, original, tags, fuel), RenderToken(b[|b| - 1], chain, env, original, tags, fuel));
    }
  }

  /** The same for the elements of an array section. */
  lemma {:induction false} RenderEachAppend(t: Token, a: seq<Value>, b: seq<Value>, chain: seq<Value>, env: Env,
                                            original: string, fuel: nat)
    requires t.Section? && chain != []
    ensures RenderEach(t, a + b, chain, env, original, fuel) ==
      Concat(RenderEach(t, a, chain, env, original, fuel), RenderEach(t, b, chain, env, original, fuel))
    decreases |b|
  {
    if b == [] {
      assert a + b == a;
      ConcatEmpty(RenderEach(t, a, chain, env, original, fuel));
    } else {
      var ab := a + b;
      var b' := b[..|b| - 1];
      assert ab[..|ab| - 1] == a + b' && ab[|ab| - 1] == b[|b| - 1];
      RenderEachAppend(t, a, b', chain, env, original, fuel);
      ConcatAssociative(RenderEach(t, a, chain, env, original, fuel),
        RenderEach(t, b', chain, env, original, fuel),
        RenderTokens(t.children, [b[|b| - 1]] + chain, env, original, None, fuel));
    }
  }

  /** One more token of a list: the output so far followed by the token's; an error on a
      prefix is the error of the whole list. */
  lemma RenderTokensPrefix(ts: seq<Token>, i: nat, chain: seq<Value>, env: Env, original: string,
                           tags: Option<TagSpec>, fuel: nat)
    requires i < |ts| && chain != []
    ensures RenderTokens(ts[..i + 1], chain, env, original, tags, fuel) ==
      Concat(RenderTokens(ts[..i], chain, env, original, tags, fuel), RenderToken(ts[i], chain, env, original, tags, fuel))
    ensures RenderTokens(ts[..i + 1], chain, env, original, tags, fuel).Err? ==>
      RenderTokens(ts, chain, env, original, tags, fuel) == RenderTokens(ts[..i + 1], chain, env, original, tags, fuel)
  {
    assert ts[..i + 1][..i] == ts[..i] && ts[..i + 1][i] == ts[i];
    assert ts[..i + 1] + ts[i + 1..] == ts;
    RenderTokensAppend(ts[..i + 1], ts[i + 1..], chain, env, original, tags, fuel);
  }

  /** One more element of an array section, in the same way. */
  lemma RenderEachPrefix(t: Token, items: seq<Value>, i: nat, chain: seq<Value>, env: Env, original: string, fuel: nat)
    requires t.Section? && i < |items| && chain != []
    ensures RenderEach(t, items[..i + 1], chain, env, original, fuel) ==
      Concat(RenderEach(t, items[..i], chain, env, original, fuel),
             RenderTokens(t.children, [items[i]] + chain, env, original, None, fuel))
    ensures RenderEach(t, items[..i + 1], chain, env, original, fuel).Err? ==>
      RenderEach(t, items, chain, env, original, fuel) == RenderEach(t, items[..i + 1], chain, env, original, fuel)
  {
    assert items[..i + 1][..i] == items[..i] && items[..i + 1][i] == items[i];
    assert items[..i + 1] + items[i + 1..] == items;
    RenderEachAppend(t, items[..i + 1], items[i + 1..], chain, env, original, fuel);
  }

  lemma ConcatEmpty(x: Result<string>)
    ensures Concat(x, Ok("")) == x == Concat(Ok(""), x)
  {
    if x.Ok? {
      assert x.value + "" == x.value == "" + x.value;
    }
  }

  lemma ConcatAssociative(x: Result<string>, y: Result<string>, z: Result<string>)
    ensures Concat(Concat(x, y), z) == Concat(x, Concat(y, z))
  {
    if x.Ok? && y.Ok? && z.Ok? {
      assert (x.value + y.value) + z.value == x.value + (y.value + z.value);
    }
  }

  /** A template without an opening delimiter renders as itself. */
  lemma RenderedTagFree(template: string, view: Value, env: Env, tags: Option<TagSpec>, fuel: nat)
    requires TagsOr(tags).TagList?
    requires CompileTags(TagsOr(tags)).Ok?
    requires forall j | 0 <= j <= |template| ::
      !IsPrefix(CompileTags(TagsOr(tags)).value.0, template[j..])
    ensures Rendered(template, view, env, tags, fuel) == Ok(template)
  {
    if template != [] {
      TagFree(template, tags);
      RenderText(template, 0, [view], env, template, tags, fuel);
      RenderedParsed(template, view, env, tags, fuel, [Text(template, 0, |template|)]);
    }
  }

  /** `Rendered` once the parse is known to succeed. */
  lemma RenderedParsed(template: string, view: Value, env: Env, tags: Option<TagSpec>, fuel: nat, tree: seq<Token>)
    requires TagsOr(tags).TagList? && Parsed(template, tags) == Ok(tree)
    ensures Rendered(template, view, env, tags, fuel) == RenderTokens(tree, [view], env, template, tags, fuel)
  {
  }

  lemma RenderText(value: string, start: nat, chain: seq<Value>, env: Env, original: string,
                   tags: Option<TagSpec>, fuel: nat)
    requires chain != []
    ensures RenderTokens([Text(value, start, start + |value|)], chain, env, original, tags, fuel) == Ok(value)
  {
    var ts := [Text(value, start, start + |value|)];
    assert ts[..0] == [];
    assert "" + value == value;
  }

  /** A section and an inverted section on the same value: when the value is falsy or an
      empty array the section renders nothing and the inverted section renders its body in the
      same context; otherwise the inverted section renders nothing. */
  lemma SectionComplement(t: Token, chain: seq<Value>, env: Env, original: string, fuel: nat, v: Value)
    requires t.Section? && chain != []
    requires LookupIn(chain, t.value, env.host) == Ok(v)
    ensures Falsy(v) || v == Arr([]) ==>
      && RenderSection(t, chain, env, original, fuel) == Ok("")
      && RenderInverted(t, chain, env, original, fuel) == RenderTokens(t.children, chain, env, original, None, fuel)
    ensures !(Falsy(v) || v == Arr([])) ==> RenderInverted(t, chain, env, original, fuel) == Ok("")
  {
    if v == Arr([]) {
      assert RenderEach(t, [], chain, env, original, fuel) == Ok("");
    }
  }

  /** What a section renders, by the kind of its value: nothing when falsy; for an array, the
      body under a frame for the first element followed by the rest of the array; for an
      object, string or number, the body once under a frame for the value. */
  lemma SectionOnValue(t: Token, chain: seq<Value>, env: Env, original: string, fuel: nat, v: Value)
    requires t.Section? && chain != []
    requires LookupIn(chain, t.value, env.host) == Ok(v)
    ensures Falsy(v) ==> RenderSection(t, chain, env, original, fuel) == Ok("")
    ensures v.Arr? && v.items != [] ==>
      RenderSection(t, chain, env, original, fuel) ==
      Concat(RenderTokens(t.children, [v.items[0]] + chain, env, original, None, fuel),
             RenderEach(t, v.items[1..], chain, env, original, fuel))
    ensures !Falsy(v) && (v.Obj? || v.Str? || v.Num?) ==>
      RenderSection(t, chain, env, original, fuel) == RenderTokens(t.children, [v] + chain, env, original, None, fuel)
  {
    if v.Arr? && v.items != [] {
      assert v.items == [v.items[0]] + v.items[1..];
      RenderEachCons(t, v.items[0], v.items[1..], chain, env, original, fuel);
    }
  }

  /** An array section renders the body for its first element, under a frame pushed for that
      element, then the rest of the array. */
  lemma {:induction false} RenderEachCons(t: Token, x: Value, items: seq<Value>, chain: seq<Value>, env: Env,
                                          original: string, fuel: nat)
    requires t.Section? && chain != []
    ensures RenderEach(t, [x] + items, chain, env, original, fuel) ==
      Concat(RenderTokens(t.children, [x] + chain, env, original, None, fuel),
             RenderEach(t, items, chain, env, original, fuel))
    decreases |items|
  {
    var all := [x] + items;
    if items == [] {
      assert all[..|all| - 1] == [] && all[|all| - 1] == x;
      ConcatEmpty(RenderTokens(t.children, [x] + chain, env, original, None, fuel));
    } else {
      var front := items[..|items| - 1];
      var last := items[|items| - 1];
      assert all[..|all| - 1] == [x] + front && all[|all| - 1] == last;
      RenderEachCons(t, x, front, chain, env, original, fuel);
      ConcatAssociative(RenderTokens(t.children, [x] + chain, env, original, None, fuel),
        RenderEach(t, front, chain, env, original, fuel),
        RenderTokens(t.children, [last] + chain, env, original, None, fuel));
    }
  }

  /** With the HTML escaper a variable's output holds no markup, and decoding its entities
      gives the value's text back. */
  lemma EscapedRoundTrip(t: Token, chain: seq<Value>, env: Env, v: Value)
    requires t.Variable? && chain != [] && env.escaper.HtmlEscaper?
    requires LookupIn(chain, t.value, env.host) == Ok(v) && !IsNil(v)
    ensures EscapedValue(t, chain, env).Ok?
    ensures IsInert(EscapedValue(t, chain, env).value)
    ensures Unescape(EscapedValue(t, chain, env).value) == ToJsString(v)
  {
    UnescapeEscapeHtml(ToJsString(v));
  }

  /** Without partials, or without one of the tag's name, a partial tag renders nothing. */
  lemma PartialMissing(t: Token, chain: seq<Value>, env: Env, tags: Option<TagSpec>, fuel: nat)
    requires t.Partial? && chain != []
    requires env.partials.NoPartials? || (env.partials.Named? && t.value !in env.partials.templates)
    ensures RenderPartial(t, chain, env, tags, fuel) == Ok("")
  {
  }

  /** An indentation without spaces or tabs leaves the partial as it is. */
  lemma IndentNothing(partial: string, indentation: string, lineHasNonSpace: bool)
    requires SpacesAndTabs(indentation) == ""
    ensures IndentPartial(partial, indentation, lineHasNonSpace) == partial
  {
    var lines := SplitOn(partial, '\n');
    forall i | 0 <= i < |lines|
      ensures IndentLines(lines, "", lineHasNonSpace)[i] == lines[i]
    {
      assert "" + lines[i] == lines[i];
    }
    assert IndentLines(lines, "", lineHasNonSpace) == lines;
    JoinSplit(partial, '\n');
  }
}
