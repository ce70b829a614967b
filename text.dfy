/** Character classes and string helpers used by the scanner, the parser and the renderer. */
module Text {

  /** JavaScript's `\s`: the characters a regular expression treats as white space. */
  predicate IsSpace(c: char) {
    c == ' ' || c == '\t' || c == '\n' || c == '\r' || c == '\U{000B}' || c == '\U{000C}'
    || c == '\U{00A0}' || c == '\U{1680}' || ('\U{2000}' <= c <= '\U{200A}')
    || c == '\U{2028}' || c == '\U{2029}' || c == '\U{202F}' || c == '\U{205F}'
    || c == '\U{3000}' || c == '\U{FEFF}'
  }

  /** `isWhitespace`: the string holds no character outside `\s`. */
  predicate IsWhitespace(s: string) {
    forall i | 0 <= i < |s| :: IsSpace(s[i])
  }

  predicate IsPrefix(p: string, s: string) {
    |p| <= |s| && s[..|p|] == p
  }

  /** Number of `\s` characters at the front of `s` (what a greedy `\s*` consumes). */
  function WsRun(s: string): (n: nat)
    ensures n <= |s|
    ensures forall i | 0 <= i < n :: IsSpace(s[i])
    ensures n < |s| ==> !IsSpace(s[n])
  {
    if s != [] && IsSpace(s[0]) then 1 + WsRun(s[1..]) else 0
  }

  /** Index of the first `\s` character of `s`, or `|s|` when there is none. */
  function FirstSpace(s: string): (n: nat)
    ensures n <= |s|
    ensures forall i | 0 <= i < n :: !IsSpace(s[i])
    ensures n < |s| ==> IsSpace(s[n])
  {
    if s == [] || IsSpace(s[0]) then 0 else 1 + FirstSpace(s[1..])
  }

  /** `s.indexOf(c)`: the first index holding `c`, or -1. */
  function IndexOf(s: string, c: char): (r: int)
    ensures -1 <= r < |s|
    ensures r == -1 <==> c !in s
    ensures 0 <= r ==> s[r] == c && c !in s[..r]
  {
    if s == [] then -1
    else if s[0] == c then 0
    else
      var k := IndexOf(s[1..], c);
      if k < 0 then -1
      else
        assert s[..k + 1] == [s[0]] + s[1..][..k];
        k + 1
  }

  /** `s.split(sep)` for a one-character separator. */
  function SplitOn(s: string, sep: char): (parts: seq<string>)
    ensures |parts| >= 1
    ensures forall i | 0 <= i < |parts| :: sep !in parts[i]
    decreases |s|
  {
    var k := IndexOf(s, sep);
    if k < 0 then [s] else [s[..k]] + SplitOn(s[k + 1..], sep)
  }

  /** `parts.join(sep)` for a one-character separator. */
  function JoinWith(parts: seq<string>, sep: char): string {
    if parts == [] then ""
    else if |parts| == 1 then parts[0]
    else parts[0] + [sep] + JoinWith(parts[1..], sep)
  }

  /** Joining a piece in front of at least one other piece puts the separator between them. */
  lemma JoinCons(p: string, rest: seq<string>, sep: char)
    requires |rest| >= 1
    ensures JoinWith([p] + rest, sep) == p + [sep] + JoinWith(rest, sep)
  {
    assert ([p] + rest)[1..] == rest;
  }

  /** Splitting and joining again gives back the string. */
  lemma {:induction false} JoinSplit(s: string, sep: char)
    ensures JoinWith(SplitOn(s, sep), sep) == s
    decreases |s|
  {
    var k := IndexOf(s, sep);
    if k >= 0 {
      JoinSplit(s[k + 1..], sep);
      JoinCons(s[..k], SplitOn(s[k + 1..], sep), sep);
      assert s == s[..k] + [sep] + s[k + 1..];
    }
  }

  /** Joining pieces that do not contain the separator and splitting again gives back the pieces. */
  lemma {:induction false} SplitJoin(parts: seq<string>, sep: char)
    requires |parts| >= 1
    requires forall i | 0 <= i < |parts| :: sep !in parts[i]
    ensures SplitOn(JoinWith(parts, sep), sep) == parts
  {
    if |parts| > 1 {
      var tail := JoinWith(parts[1..], sep);
      JoinCons(parts[0], parts[1..], sep);
      assert [parts[0]] + parts[1..] == parts;
      var s := JoinWith(parts, sep);
      assert s == parts[0] + ([sep] + tail);
      IndexOfAfter(parts[0], [sep] + tail, sep);
      var k := |parts[0]|;
      assert s[..k] == parts[0];
      assert s[k + 1..] == tail;
      SplitJoin(parts[1..], sep);
    }
  }

  /** The first separator of `a + b` is the first one of `b` when `a` has none. */
  lemma {:induction false} IndexOfAfter(a: string, b: string, c: char)
    requires c !in a && b != [] && b[0] == c
    ensures IndexOf(a + b, c) == |a|
  {
    if a != [] {
      assert (a + b)[1..] == a[1..] + b;
      IndexOfAfter(a[1..], b, c);
    }
  }

  /** `s.split(/\s+/, 2)`: at most two pieces, cut at white-space runs. */
  function SplitSpaces2(s: string): (parts: seq<string>)
    ensures 1 <= |parts| <= 2
    ensures |parts| == 1 <==> forall i | 0 <= i < |s| :: !IsSpace(s[i])
    ensures parts[0] == s[..FirstSpace(s)]
    ensures |parts| == 2 ==>
      var gap := |parts[0]| + WsRun(s[|parts[0]|..]);
      && |parts[0]| < gap <= |s|
      && IsPrefix(parts[1], s[gap..])
      && (forall i | 0 <= i < |parts[1]| :: !IsSpace(parts[1][i]))
      && (gap + |parts[1]| < |s| ==> IsSpace(s[gap + |parts[1]|]))
  {
    var i := FirstSpace(s);
    if i == |s| then [s]
    else
      var gap := i + WsRun(s[i..]);
      assert s[i..][0] == s[i];
      FirstWord(s, gap);
      [s[..i], s[gap..][..FirstSpace(s[gap..])]]
  }

  /** The word at offset `at`: the non-space characters up to the next white space. */
  lemma FirstWord(s: string, at: nat)
    requires at <= |s|
    ensures var w := s[at..][..FirstSpace(s[at..])];
      && IsPrefix(w, s[at..])
      && (forall j | 0 <= j < |w| :: !IsSpace(w[j]))
      && (at + |w| < |s| ==> IsSpace(s[at + |w|]))
  {
    var rest := s[at..];
    var k := FirstSpace(rest);
    assert at + k < |s| ==> s[at + k] == rest[k];
  }

  /** Two words around a run of white space split into those two words. */
  lemma SplitWords(a: string, gap: string, b: string)
    requires forall i | 0 <= i < |a| :: !IsSpace(a[i])
    requires gap != [] && forall i | 0 <= i < |gap| :: IsSpace(gap[i])
    requires forall i | 0 <= i < |b| :: !IsSpace(b[i])
    ensures SplitSpaces2(a + gap + b) == [a, b]
  {
    var s := a + gap + b;
    FirstSpaceAt(a, gap + b);
    assert s == a + (gap + b);
    assert s[|a|..] == gap + b;
    WsRunAt(gap, b);
    assert s[|a| + |gap|..] == b;
    FirstSpaceAt(b, "");
    assert b + "" == b;
  }

  /** The first white space of `a + b` is the first of `b` when `a` has none and `b` starts
      with one (or is empty). */
  lemma FirstSpaceAt(a: string, b: string)
    requires forall i | 0 <= i < |a| :: !IsSpace(a[i])
    requires b == [] || IsSpace(b[0])
    ensures FirstSpace(a + b) == |a|
  {
    var s := a + b;
    assert forall i | 0 <= i < |a| :: s[i] == a[i];
    assert |a| < |s| ==> s[|a|] == b[0];
  }

  /** The white-space run at the front of `w + b` is `w` when `b` does not start with one. */
  lemma WsRunAt(w: string, b: string)
    requires forall i | 0 <= i < |w| :: IsSpace(w[i])
    requires b == [] || !IsSpace(b[0])
    ensures WsRun(w + b) == |w|
  {
    var s := w + b;
    assert forall i | 0 <= i < |w| :: s[i] == w[i];
    assert |w| < |s| ==> s[|w|] == b[0];
  }
}
