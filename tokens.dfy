/** Tokens and the two passes that run after tokenizing: `squashTokens`, which merges runs
    of text tokens, and `nestTokens`, which turns the flat token list into the section tree. */
module Tokens {
  import opened Outcomes

  /** A token. In the source a token is an array `[type, value, start, end, ...]`; each `type`
      becomes a constructor here ('{' never survives parsing: it is recorded as '&'). */
  datatype Token =
    | Text(value: string, start: nat, end: nat)                                  // 'text'
    | Variable(escaped: bool, value: string, start: nat, end: nat)               // 'name' / '&'
    | Section(inverted: bool, value: string, start: nat, end: nat,
              children: seq<Token>, closeStart: nat)                             // '#' / '^'
    | Close(value: string, start: nat, end: nat)                                 // '/'
    | Partial(value: string, start: nat, end: nat,
              indentation: string, tagIndex: nat, lineHasNonSpace: bool)          // '>'
    | Comment(value: string, start: nat, end: nat)                               // '!'
    | SetDelimiters(value: string, start: nat, end: nat)                         // '='

  /** A section token as the parser creates it: `nestTokens` has not yet given it a body
      (index 4) and a close offset (index 5). */
  predicate IsFlat(t: Token) {
    t.Section? ==> t.children == [] && t.closeStart == 0
  }

  predicate AllFlat(ts: seq<Token>) {
    forall i | 0 <= i < |ts| :: IsFlat(ts[i])
  }

  function Last<T>(s: seq<T>): T
    requires s != []
  {
    s[|s| - 1]
  }

  function Init<T>(s: seq<T>): seq<T>
    requires s != []
  {
    s[..|s| - 1]
  }

  /** The entries of a token buffer that `delete` has not emptied. */
  function Present(ts: seq<Option<Token>>): seq<Token> {
    if ts == [] then [] else Present(Init(ts)) + (if Last(ts).Some? then [Last(ts).value] else [])
  }

  /** The sections a token list leaves open, innermost last, as the parser's `sections` stack
      holds them; `None` once a close tag finds no open section or one of another name. */
  function OpenStack(ts: seq<Token>): (r: Option<seq<Token>>)
    ensures r.Some? ==> forall i | 0 <= i < |r.value| :: r.value[i].Section? && r.value[i] in ts
  {
    if ts == [] then Some([])
    else
      match OpenStack(Init(ts))
      case None => None
      case Some(stack) => StackStep(stack, Last(ts))
  }

  function StackStep(stack: seq<Token>, t: Token): Option<seq<Token>> {
    if t.Section? then Some(stack + [t])
    else if t.Close? then
      if stack != [] && Last(stack).value == t.value then Some(Init(stack)) else None
    else Some(stack)
  }

  /** Section and close tags nest like balanced brackets with matching names. */
  predicate Balanced(ts: seq<Token>) {
    OpenStack(ts) == Some([])
  }

  /** A list whose section tags stay matched is matched on every prefix as well. */
  lemma {:induction false} OpenStackPrefix(ts: seq<Token>, k: nat)
    requires k <= |ts| && OpenStack(ts).Some?
    ensures OpenStack(ts[..k]).Some?
  {
    if k < |ts| {
      assert Init(ts)[..k] == ts[..k];
      OpenStackPrefix(Init(ts), k);
    } else {
      assert ts[..k] == ts;
    }
  }

  // ---------------------------------------------------------------------------------------
  // squashTokens

  /** One iteration of `squashTokens`: skip a deleted entry, extend the previous text token
      with a following text token, or keep the token. */
  function SquashStep(acc: seq<Token>, t: Option<Token>): seq<Token> {
    if t.None? then acc
    else if t.value.Text? && acc != [] && Last(acc).Text? then
      Init(acc) + [Merged(Last(acc), t.value)]
    else acc + [t.value]
  }

  function Squashed(ts: seq<Option<Token>>): seq<Token> {
    if ts == [] then [] else SquashStep(Squashed(Init(ts)), Last(ts))
  }

  predicate NoAdjacentText(ts: seq<Token>) {
    forall i | 0 < i < |ts| :: !(ts[i - 1].Text? && ts[i].Text?)
  }

  /** What a token list says, character by character: each text token contributes its
      characters, every other token itself. */
  datatype Item = Char(c: char) | Mark(t: Token)

  function CharItems(s: string): (r: seq<Item>)
    ensures |r| == |s|
  {
    seq(|s|, i requires 0 <= i < |s| => Char(s[i]))
  }

  function ItemsOf(t: Token): seq<Item> {
    if t.Text? then CharItems(t.value) else [Mark(t)]
  }

  function Items(ts: seq<Token>): seq<Item> {
    if ts == [] then [] else Items(Init(ts)) + ItemsOf(Last(ts))
  }

  lemma CharItemsAppend(a: string, b: string)
    ensures CharItems(a + b) == CharItems(a) + CharItems(b)
  {
    assert forall i | 0 <= i < |a + b| :: CharItems(a + b)[i] == (CharItems(a) + CharItems(b))[i];
  }

  lemma ItemsAppend(a: seq<Token>, t: Token)
    ensures Items(a + [t]) == Items(a) + ItemsOf(t)
  {
    assert Init(a + [t]) == a;
  }

  lemma StackAppend(a: seq<Token>, t: Token)
    ensures OpenStack(a + [t]) == if OpenStack(a).None? then None else StackStep(OpenStack(a).value, t)
  {
    assert Init(a + [t]) == a;
  }

  lemma PresentAppend(a: seq<Option<Token>>, t: Option<Token>)
    ensures Present(a + [t]) == Present(a) + (if t.Some? then [t.value] else [])
  {
    assert Init(a + [t]) == a;
  }

  /** Agreement between a squashed list and the list it was squashed from. */
  predicate SquashAgrees(acc: seq<Token>, ps: seq<Token>) {
    && NoAdjacentText(acc)
    && Items(acc) == Items(ps)
    && OpenStack(acc) == OpenStack(ps)
    && (AllFlat(ps) ==> AllFlat(acc))
    && (acc == [] <==> ps == [])
    && (ps != [] ==> acc[0].start == ps[0].start && Last(acc).end == Last(ps).end)
  }

  /** The text token `squashTokens` writes over the last one it kept. */
  function Merged(last: Token, t: Token): Token
    requires last.Text? && t.Text?
  {
    Text(last.value + t.value, last.start, t.end)
  }

  lemma MergeItems(acc: seq<Token>, t: Token)
    requires t.Text? && acc != [] && Last(acc).Text?
    ensures Items(Init(acc) + [Merged(Last(acc), t)]) == Items(acc) + ItemsOf(t)
  {
    var last := Last(acc);
    var front := Init(acc);
    var m := Merged(last, t);
    assert front + [last] == acc;
    ItemsAppend(front, last);
    assert Items(acc) == Items(front) + CharItems(last.value);
    ItemsAppend(front, m);
    assert Items(front + [m]) == Items(front) + CharItems(last.value + t.value);
    CharItemsAppend(last.value, t.value);
    assert Items(front + [m]) == Items(front) + (CharItems(last.value) + CharItems(t.value));
    assert Items(front) + (CharItems(last.value) + CharItems(t.value)) == (Items(front) + CharItems(last.value)) + CharItems(t.value);
  }

  lemma MergeStack(acc: seq<Token>, t: Token)
    requires t.Text? && acc != [] && Last(acc).Text?
    ensures OpenStack(Init(acc) + [Merged(Last(acc), t)]) == OpenStack(acc)
  {
    assert Init(acc) + [Last(acc)] == acc;
    StackAppend(Init(acc), Last(acc));
    StackAppend(Init(acc), Merged(Last(acc), t));
  }

  lemma MergeAgrees(acc: seq<Token>, ps: seq<Token>, t: Token)
    requires SquashAgrees(acc, ps)
    requires t.Text? && acc != [] && Last(acc).Text?
    ensures SquashAgrees(SquashStep(acc, Some(t)), ps + [t])
  {
    var r := Init(acc) + [Merged(Last(acc), t)];
    assert Last(ps + [t]) == t && (ps + [t])[0] == ps[0];
    assert SquashStep(acc, Some(t)) == r;
    MergeItems(acc, t);
    MergeStack(acc, t);
    ItemsAppend(ps, t);
    StackAppend(ps, t);
    assert NoAdjacentText(r);
    assert AllFlat(ps + [t]) ==> AllFlat(r) by {
      if AllFlat(ps + [t]) {
        assert AllFlat(ps);
      }
    }
  }

  lemma KeepNoAdjacent(acc: seq<Token>, t: Token)
    requires NoAdjacentText(acc) && !(t.Text? && acc != [] && Last(acc).Text?)
    ensures NoAdjacentText(acc + [t])
  {
    var r := acc + [t];
    forall i | 0 < i < |r|
      ensures !(r[i - 1].Text? && r[i].Text?)
    {
      if i < |acc| {
        assert r[i - 1] == acc[i - 1] && r[i] == acc[i];
      } else {
        assert r[i - 1] == Last(acc) && r[i] == t;
      }
    }
  }

  lemma KeepAgrees(acc: seq<Token>, ps: seq<Token>, t: Token)
    requires SquashAgrees(acc, ps)
    requires !(t.Text? && acc != [] && Last(acc).Text?)
    ensures SquashAgrees(SquashStep(acc, Some(t)), ps + [t])
  {
    var r := acc + [t];
    var qs := ps + [t];
    assert SquashStep(acc, Some(t)) == r;
    KeepNoAdjacent(acc, t);
    KeepItems(acc, ps, t);
    KeepStack(acc, ps, t);
    KeepFlat(acc, ps, t);
    KeepEnds(acc, ps, t);
  }

  lemma KeepItems(acc: seq<Token>, ps: seq<Token>, t: Token)
    requires Items(acc) == Items(ps)
    ensures Items(acc + [t]) == Items(ps + [t])
  {
    ItemsAppend(ps, t);
    ItemsAppend(acc, t);
  }

  lemma KeepStack(acc: seq<Token>, ps: seq<Token>, t: Token)
    requires OpenStack(acc) == OpenStack(ps)
    ensures OpenStack(acc + [t]) == OpenStack(ps + [t])
  {
    StackAppend(ps, t);
    StackAppend(acc, t);
  }

  lemma KeepFlat(acc: seq<Token>, ps: seq<Token>, t: Token)
    requires AllFlat(ps) ==> AllFlat(acc)
    ensures AllFlat(ps + [t]) ==> AllFlat(acc + [t])
  {
    if AllFlat(ps + [t]) {
      assert forall i | 0 <= i < |ps| :: (ps + [t])[i] == ps[i];
      assert (ps + [t])[|ps|] == t;
      assert forall i | 0 <= i < |acc| :: (acc + [t])[i] == acc[i];
    }
  }

  lemma KeepEnds(acc: seq<Token>, ps: seq<Token>, t: Token)
    requires (acc == [] <==> ps == []) && (ps != [] ==> acc[0].start == ps[0].start)
    ensures (acc + [t])[0].start == (ps + [t])[0].start && Last(acc + [t]).end == Last(ps + [t]).end
  {
    assert Last(acc + [t]) == t && Last(ps + [t]) == t;
    assert ps != [] ==> (ps + [t])[0] == ps[0] && (acc + [t])[0] == acc[0];
  }

  /** `squashTokens` leaves no two text tokens side by side, says the same characters and
      tags in the same order as the entries it was given, keeps the section structure, and
      keeps the start offset of the first entry and the end offset of the last. */
  lemma {:induction false} SquashedShape(ts: seq<Option<Token>>)
    ensures NoAdjacentText(Squashed(ts))
    ensures Items(Squashed(ts)) == Items(Present(ts))
    ensures OpenStack(Squashed(ts)) == OpenStack(Present(ts))
    ensures AllFlat(Present(ts)) ==> AllFlat(Squashed(ts))
    ensures Squashed(ts) == [] <==> Present(ts) == []
    ensures Present(ts) != [] ==>
      Squashed(ts)[0].start == Present(ts)[0].start && Last(Squashed(ts)).end == Last(Present(ts)).end
  {
    SquashedAgrees(ts);
  }

  lemma {:induction false} SquashedAgrees(ts: seq<Option<Token>>)
    ensures SquashAgrees(Squashed(ts), Present(ts))
  {
    if ts != [] {
      SquashedAgrees(Init(ts));
      StepAgrees(Squashed(Init(ts)), Present(Init(ts)), Last(ts));
    }
  }

  /** One step of `squashTokens` keeps the agreement with the entries seen so far. */
  lemma StepAgrees(acc: seq<Token>, ps: seq<Token>, t: Option<Token>)
    requires SquashAgrees(acc, ps)
    ensures SquashAgrees(SquashStep(acc, t), ps + (if t.Some? then [t.value] else []))
  {
    if t.Some? {
      if t.value.Text? && acc != [] && Last(acc).Text? {
        MergeAgrees(acc, ps, t.value);
      } else {
        KeepAgrees(acc, ps, t.value);
      }
    } else {
      assert ps + [] == ps;
    }
  }

  /** `squashTokens`. `lastToken` is the token most recently kept. */
  method SquashTokens(tokens: seq<Option<Token>>) returns (squashedTokens: seq<Token>)
    ensures squashedTokens == Squashed(tokens)
  {
    squashedTokens := [];
    var lastToken: Option<Token> := None;
    for index := 0 to |tokens|
      invariant squashedTokens == Squashed(tokens[..index])
      invariant lastToken == if squashedTokens == [] then None else Some(Last(squashedTokens))
    {
      var token := tokens[index];
      assert Init(tokens[..index + 1]) == tokens[..index] && Last(tokens[..index + 1]) == token;
      assert Squashed(tokens[..index + 1]) == SquashStep(squashedTokens, token);
      if token.Some? {
        if token.value.Text? && lastToken.Some? && lastToken.value.Text? {
          var merged := Merged(lastToken.value, token.value);
          squashedTokens := Init(squashedTokens) + [merged];
          assert Last(squashedTokens) == merged;
          lastToken := Some(merged);
        } else {
          squashedTokens := squashedTokens + [token.value];
          assert Last(squashedTokens) == token.value;
          lastToken := token;
        }
      }
    }
    assert tokens[..|tokens|] == tokens;
  }

  // ---------------------------------------------------------------------------------------
  // nestTokens

  /** An open section with the body collected for it so far. */
  datatype Frame = Frame(open: Token, children: seq<Token>)

  /** `nestedTokens` and the `sections` stack, whose top body is the `collector`. */
  datatype Nesting = Nesting(root: seq<Token>, frames: seq<Frame>)

  predicate FramesOpen(n: Nesting) {
    forall i | 0 <= i < |n.frames| :: n.frames[i].open.Section?
  }

  /** `collector.push(t)` */
  function Collect(n: Nesting, t: Token): (r: Nesting)
    ensures |r.frames| == |n.frames|
    ensures forall i | 0 <= i < |n.frames| :: r.frames[i].open == n.frames[i].open
  {
    if n.frames == [] then n.(root := n.root + [t])
    else
      var top := Last(n.frames);
      n.(frames := Init(n.frames) + [Frame(top.open, top.children + [t])])
  }

  /** One iteration of `nestTokens`. A close tag gives the innermost open section its body
      and the close tag's start offset, and hands the section to the enclosing collector. */
  function NestStep(n: Nesting, t: Token): Nesting
    requires FramesOpen(n)
    requires t.Close? ==> n.frames != []
  {
    if t.Section? then n.(frames := n.frames + [Frame(t, [])])
    else if t.Close? then
      var top := Last(n.frames);
      Collect(n.(frames := Init(n.frames)), top.open.(children := top.children, closeStart := t.start))
    else Collect(n, t)
  }

  function NestFold(ts: seq<Token>): (n: Nesting)
    requires OpenStack(ts).Some?
    ensures |n.frames| == |OpenStack(ts).value|
    ensures forall i | 0 <= i < |n.frames| :: n.frames[i].open == OpenStack(ts).value[i]
    ensures FramesOpen(n)
  {
    if ts == [] then Nesting([], [])
    else NestStep(NestFold(Init(ts)), Last(ts))
  }

  /** The section tree of a balanced token list. */
  function Nested(ts: seq<Token>): seq<Token>
    requires Balanced(ts)
  {
    NestFold(ts).root
  }

  /** `nestTokens`. The top frame's body plays the part of `collector`. */
  method NestTokens(tokens: seq<Token>) returns (nestedTokens: seq<Token>)
    requires Balanced(tokens)
    ensures nestedTokens == Nested(tokens)
  {
    nestedTokens := [];
    var sections: seq<Frame> := [];
    for index := 0 to |tokens|
      invariant OpenStack(tokens[..index]).Some?
      invariant Nesting(nestedTokens, sections) == NestFold(tokens[..index])
    {
      OpenStackPrefix(tokens, index + 1);
      assert tokens[..index + 1] == tokens[..index] + [tokens[index]];
      assert Init(tokens[..index + 1]) == tokens[..index];
      var token := tokens[index];
      if token.Section? {
        sections := sections + [Frame(token, [])];
      } else if token.Close? {
        var section := Last(sections);
        sections := Init(sections);
        var closed := section.open.(children := section.children, closeStart := token.start);
        if sections == [] {
          nestedTokens := nestedTokens + [closed];
        } else {
          sections := Init(sections) + [Frame(Last(sections).open, Last(sections).children + [closed])];
        }
      } else if sections == [] {
        nestedTokens := nestedTokens + [token];
      } else {
        sections := Init(sections) + [Frame(Last(sections).open, Last(sections).children + [token])];
      }
    }
    assert tokens[..|tokens|] == tokens;
  }

  // ---------------------------------------------------------------------------------------
  // Flattening a tree back into a token list: the partner of nestTokens.

  /** The flat token list a tree stands for: each section is written as its open tag, its
      body and a close tag at the recorded close offset (whose end offset the tree forgets). */
  function Flatten(tree: seq<Token>): seq<Token>
    decreases tree
  {
    if tree == [] then [] else Flatten(Init(tree)) + Unfold(tree[|tree| - 1])
  }

  function Unfold(t: Token): seq<Token>
    decreases t
  {
    if t.Section? then [t.(children := [], closeStart := 0)] + Flatten(t.children) + [Close(t.value, t.closeStart, 0)]
    else [t]
  }

  function FlattenFrames(fs: seq<Frame>): seq<Token> {
    if fs == [] then [] else FlattenFrames(Init(fs)) + [Last(fs).open] + Flatten(Last(fs).children)
  }

  /** A token with the end offset of a close tag forgotten. */
  function EraseEnd(t: Token): Token {
    if t.Close? then Close(t.value, t.start, 0) else t
  }

  /** A token list with the end offsets of close tags forgotten. */
  function Erased(ts: seq<Token>): seq<Token> {
    if ts == [] then [] else Erased(Init(ts)) + [EraseEnd(Last(ts))]
  }

  lemma SeqAssociative<T>(a: seq<T>, b: seq<T>, c: seq<T>)
    ensures a + (b + c) == a + b + c
  {
  }

  lemma FlattenAppend(a: seq<Token>, t: Token)
    ensures Flatten(a + [t]) == Flatten(a) + Unfold(t)
  {
    assert Init(a + [t]) == a;
  }

  lemma FlattenFramesAppend(fs: seq<Frame>, f: Frame)
    ensures FlattenFrames(fs + [f]) == FlattenFrames(fs) + [f.open] + Flatten(f.children)
  {
    assert Init(fs + [f]) == fs;
  }

  /** Collecting a token into the innermost open body adds its unfolding at the end. */
  lemma CollectFlat(n: Nesting, t: Token)
    ensures Flatten(Collect(n, t).root) + FlattenFrames(Collect(n, t).frames)
         == Flatten(n.root) + FlattenFrames(n.frames) + Unfold(t)
  {
    if n.frames == [] {
      FlattenAppend(n.root, t);
    } else {
      FramesGrow(n, t);
      assert Collect(n, t).root == n.root;
      SeqAssociative(Flatten(n.root), FlattenFrames(n.frames), Unfold(t));
    }
  }

  /** Collecting into an open body adds the token's unfolding at the end of the frames. */
  lemma FramesGrow(n: Nesting, t: Token)
    requires n.frames != []
    ensures FlattenFrames(Collect(n, t).frames) == FlattenFrames(n.frames) + Unfold(t)
  {
    var top := Last(n.frames);
    var front := Init(n.frames);
    var grown := Frame(top.open, top.children + [t]);
    assert Collect(n, t).frames == front + [grown];
    assert FlattenFrames(n.frames) == FlattenFrames(front) + [top.open] + Flatten(top.children) by {
      assert front + [top] == n.frames;
      FlattenFramesAppend(front, top);
    }
    FlattenFramesAppend(front, grown);
    FlattenAppend(top.children, t);
  }

  /** Closing the innermost section moves it, with its body, into the enclosing collector. */
  lemma CloseFlat(n: Nesting, t: Token)
    requires t.Close? && n.frames != [] && IsFlat(Last(n.frames).open) && Last(n.frames).open.Section?
    requires Last(n.frames).open.value == t.value
    ensures var top := Last(n.frames);
      var closed := top.open.(children := top.children, closeStart := t.start);
      Flatten(Collect(n.(frames := Init(n.frames)), closed).root)
        + FlattenFrames(Collect(n.(frames := Init(n.frames)), closed).frames)
      == Flatten(n.root) + FlattenFrames(n.frames) + [EraseEnd(t)]
  {
    var top := Last(n.frames);
    var closed := top.open.(children := top.children, closeStart := t.start);
    assert closed.(children := [], closeStart := 0) == top.open;
    assert Unfold(closed) == [top.open] + Flatten(top.children) + [EraseEnd(t)];
    assert Init(n.frames) + [top] == n.frames;
    FlattenFramesAppend(Init(n.frames), top);
    CollectFlat(n.(frames := Init(n.frames)), closed);
    Regroup(Flatten(n.root), FlattenFrames(Init(n.frames)), [top.open], Flatten(top.children), [EraseEnd(t)]);
  }

  lemma Regroup<T>(a: seq<T>, b: seq<T>, c: seq<T>, d: seq<T>, e: seq<T>)
    ensures a + b + (c + d + e) == a + (b + c + d) + e
  {
  }

  /** One step of `nestTokens` adds the step's token to the flattening of its state. */
  lemma NestStepFlat(n: Nesting, t: Token)
    requires FramesOpen(n) && IsFlat(t)
    requires t.Close? ==> n.frames != [] && IsFlat(Last(n.frames).open) && Last(n.frames).open.value == t.value
    ensures Flatten(NestStep(n, t).root) + FlattenFrames(NestStep(n, t).frames)
         == Flatten(n.root) + FlattenFrames(n.frames) + [EraseEnd(t)]
  {
    if t.Section? {
      FlattenFramesAppend(n.frames, Frame(t, []));
      assert Flatten(t.children) == [];
    } else if t.Close? {
      CloseFlat(n, t);
    } else {
      CollectFlat(n, t);
    }
  }

  /** Every prefix of the token list is the flattening of the finished tree so far followed by
      the open sections with their bodies. */
  lemma {:induction false} NestFoldFlat(ts: seq<Token>)
    requires OpenStack(ts).Some? && AllFlat(ts)
    ensures Erased(ts) == Flatten(NestFold(ts).root) + FlattenFrames(NestFold(ts).frames)
  {
    if ts != [] {
      var t := Last(ts);
      assert Init(ts) + [t] == ts;
      StackAppend(Init(ts), t);
      assert AllFlat(Init(ts)) && IsFlat(t);
      NestFoldFlat(Init(ts));
      if t.Close? {
        var stack := OpenStack(Init(ts)).value;
        assert Last(stack) in Init(ts);
      }
      NestStepFlat(NestFold(Init(ts)), t);
    }
  }

  /** `nestTokens` gives each section exactly the tokens between its open tag and its matching
      close tag, records that close tag's start offset, and drops the close tags: flattening
      the tree gives the token list back. */
  lemma NestedFlattens(ts: seq<Token>)
    requires Balanced(ts) && AllFlat(ts)
    ensures Flatten(Nested(ts)) == Erased(ts)
  {
    NestFoldFlat(ts);
  }
}
