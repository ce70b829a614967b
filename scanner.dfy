/** The string scanner the parser reads templates with. Regular expressions are replaced by
    the only shapes the engine builds: an optional `\s*`, a literal, an optional `\s*`
    (delimiters, `=`, `}`), and the one-character sigil class `[!#&/=>^{]`. */
module Scanning {
  import opened Outcomes
  import opened Text

  datatype Pattern =
    | Delim(lead: bool, lit: string, trail: bool)  // (\s*)? literal (\s*)?
    | Sigil                                        // [!#&/=>^{]

  predicate IsSigil(c: char) {
    c == '!' || c == '#' || c == '&' || c == '/' || c == '=' || c == '>' || c == '^' || c == '{'
  }

  /** `escapeRegExp(open) + '\\s*'` */
  function OpeningTag(open: string): Pattern {
    Delim(false, open, true)
  }

  /** `'\\s*' + escapeRegExp(close)` */
  function ClosingTag(close: string): Pattern {
    Delim(true, close, false)
  }

  /** `'\\s*' + escapeRegExp('}' + close)` */
  function ClosingCurly(close: string): Pattern {
    Delim(true, "}" + close, false)
  }

  const White: Pattern := Delim(true, "", false)     // /\s*/
  const EqualsSign: Pattern := Delim(true, "=", false)  // /\s*=/
  const Curly: Pattern := Delim(true, "}", false)       // /\s*}/

  /** Backtracking of a greedy `\s*` placed before `lit`: the largest `k <= n` such that
      `lit` follows the first `k` characters. */
  function LastFit(s: string, lit: string, n: nat): (r: Option<nat>)
    requires n <= |s|
    ensures r.Some? ==> r.value <= n && IsPrefix(lit, s[r.value..])
  {
    if IsPrefix(lit, s[n..]) then Some(n)
    else if n == 0 then None
    else LastFit(s, lit, n - 1)
  }

  /** `LastFit` finds the largest fitting split, and no split fits when it finds none. */
  lemma {:induction false} LastFitGreedy(s: string, lit: string, n: nat)
    requires n <= |s|
    ensures LastFit(s, lit, n).Some? ==> forall k | LastFit(s, lit, n).value < k <= n :: !IsPrefix(lit, s[k..])
    ensures LastFit(s, lit, n).None? ==> forall k | 0 <= k <= n :: !IsPrefix(lit, s[k..])
  {
    if !IsPrefix(lit, s[n..]) && n > 0 {
      LastFitGreedy(s, lit, n - 1);
    }
  }

  /** The length of the match of `p` anchored at the start of `s`, as a backtracking
      regular-expression engine finds it; `None` when `p` does not match there. */
  function MatchLen(s: string, p: Pattern): (r: Option<nat>)
    ensures r.Some? ==> r.value <= |s|
    ensures r.Some? && p.Delim? ==> |p.lit| <= r.value
  {
    match p
    case Sigil => if |s| > 0 && IsSigil(s[0]) then Some(1) else None
    case Delim(lead, lit, trail) =>
      var k := if lead then LastFit(s, lit, WsRun(s)) else if IsPrefix(lit, s) then Some(0) else None;
      if k.None? then None
      else
        var e := k.value + |lit|;
        Some(if trail then e + WsRun(s[e..]) else e)
  }

  /** `s.search(re)`: the first position from `i` on where `p` matches, or -1. */
  function SearchFrom(s: string, p: Pattern, i: nat): (r: int)
    requires i <= |s|
    ensures r == -1 || i <= r <= |s|
    ensures r >= 0 ==> MatchLen(s[r..], p).Some?
    decreases |s| - i
  {
    if MatchLen(s[i..], p).Some? then i
    else if i == |s| then -1
    else SearchFrom(s, p, i + 1)
  }

  /** The search finds the leftmost match: `p` matches nowhere before the position found,
      and nowhere at all when the search fails. */
  lemma {:induction false} SearchFromFirst(s: string, p: Pattern, i: nat)
    requires i <= |s|
    ensures forall j | i <= j <= |s| && (SearchFrom(s, p, i) < 0 || j < SearchFrom(s, p, i)) :: MatchLen(s[j..], p).None?
    decreases |s| - i
  {
    if MatchLen(s[i..], p).None? && i < |s| {
      SearchFromFirst(s, p, i + 1);
    }
  }

  function Search(s: string, p: Pattern): (r: int)
    ensures -1 <= r <= |s|
  {
    SearchFrom(s, p, 0)
  }

  /** The opening-delimiter pattern matches exactly where the delimiter occurs. */
  lemma OpeningTagMatches(s: string, open: string)
    ensures MatchLen(s, OpeningTag(open)).Some? <==> IsPrefix(open, s)
  {
  }

  /** A text in which the opening delimiter never occurs is searched in vain. */
  lemma {:induction false} SearchAbsent(s: string, open: string)
    requires forall j | 0 <= j <= |s| :: !IsPrefix(open, s[j..])
    ensures Search(s, OpeningTag(open)) == -1
  {
    forall j | 0 <= j <= |s|
      ensures MatchLen(s[j..], OpeningTag(open)).None?
    {
      OpeningTagMatches(s[j..], open);
    }
    SearchFromNone(s, OpeningTag(open), 0);
  }

  /** Where `p` matches nowhere, the search fails. */
  lemma {:induction false} SearchFromNone(s: string, p: Pattern, i: nat)
    requires i <= |s|
    requires forall j | i <= j <= |s| :: MatchLen(s[j..], p).None?
    ensures SearchFrom(s, p, i) == -1
    decreases |s| - i
  {
    if i < |s| {
      SearchFromNone(s, p, i + 1);
    }
  }

  /** `scan` on a tail: the text matched at its front ("" without a match) and the rest. */
  function ScanFront(tail: string, p: Pattern): (r: (string, string))
    ensures r.0 + r.1 == tail
  {
    var m := MatchLen(tail, p);
    if m.None? then ("", tail) else (tail[..m.value], tail[m.value..])
  }

  /** `scanUntil` on a tail: everything before the first match (the whole tail without one)
      and the rest. */
  function ScanUntilFront(tail: string, p: Pattern): (r: (string, string))
    ensures r.0 + r.1 == tail
  {
    var index := Search(tail, p);
    if index < 0 then (tail, "")
    else if index == 0 then ("", tail)
    else (tail[..index], tail[index..])
  }

  /** A cursor over an immutable string: `tail` is what is not read yet, `pos` its offset. */
  class Scanner {
    const str: string
    var tail: string
    var pos: nat

    /** `string == consumed-prefix + tail` and `pos == |string| - |tail|`. */
    ghost predicate Valid()
      reads this
    {
      pos <= |str| && tail == str[pos..]
    }

    constructor (s: string)
      ensures Valid() && str == s && tail == s && pos == 0
    {
      str := s;
      tail := s;
      pos := 0;
    }

    /** `eos`: the whole string has been read. */
    method Eos() returns (b: bool)
      requires Valid()
      ensures b <==> pos == |str|
    {
      b := tail == "";
    }

    /** `scan`: consumes and returns the match of `p` at the cursor, or returns "" and
        changes nothing. */
    method Scan(p: Pattern) returns (m: string)
      requires Valid()
      modifies this
      ensures Valid()
      ensures (m, tail) == ScanFront(old(tail), p)
      ensures pos == old(pos) + |m|
      ensures MatchLen(old(tail), p).None? ==> m == "" && tail == old(tail) && pos == old(pos)
      ensures MatchLen(old(tail), p).Some? ==> |m| == MatchLen(old(tail), p).value && str[old(pos)..pos] == m
    {
      var found := MatchLen(tail, p);
      if found.None? {
        m := "";
        return;
      }
      m := tail[..found.value];
      tail := tail[|m|..];
      pos := pos + |m|;
    }

    /** `scanUntil`: consumes and returns everything up to the next match of `p`, or the
        whole tail when there is none. */
    method ScanUntil(p: Pattern) returns (m: string)
      requires Valid()
      modifies this
      ensures Valid()
      ensures (m, tail) == ScanUntilFront(old(tail), p)
      ensures pos == old(pos) + |m| && str[old(pos)..pos] == m
      ensures Search(old(tail), p) < 0 ==> m == old(tail) && pos == |str| && tail == ""
    {
      var index := Search(tail, p);
      if index == -1 {
        m := tail;
        tail := "";
      } else if index == 0 {
        m := "";
      } else {
        m := tail[..index];
        tail := tail[index..];
      }
      assert m + tail == str[pos..];
      pos := pos + |m|;
      assert str[old(pos)..pos] == (m + tail)[..|m|];
    }
  }
}
