/** `escapeHtml`: the default escaper, which replaces the eight characters of `entityMap`
    by their HTML entities and copies every other character. */
module Escape {
  import opened Outcomes

  /** The characters `/[&<>"'`=/]/` matches. */
  predicate IsSpecial(c: char) {
    c == '&' || c == '<' || c == '>' || c == '"' || c == '\'' || c == '/' || c == '`' || c == '='
  }

  /** `entityMap[c]` for a special character, the character itself otherwise. */
  function Entity(c: char): (e: string)
    ensures IsSpecial(c) ==> |e| >= 4 && e[0] == '&' && e[|e| - 1] == ';'
    ensures !IsSpecial(c) ==> e == [c]
  {
    match c
    case '&' => "&amp;"
    case '<' => "&lt;"
    case '>' => "&gt;"
    case '"' => "&quot;"
    case '\'' => "&#39;"
    case '/' => "&#x2F;"
    case '`' => "&#x60;"
    case '=' => "&#x3D;"
    case _ => [c]
  }

  /** Escaped text holds no markup-significant character other than the `&` that starts an entity. */
  predicate IsInert(s: string) {
    forall i | 0 <= i < |s| :: s[i] == '&' || !IsSpecial(s[i])
  }

  function EscapeHtml(s: string): (r: string)
    ensures |r| >= |s|
    ensures IsInert(r)
    ensures (forall i | 0 <= i < |s| :: !IsSpecial(s[i])) ==> r == s
  {
    if s == [] then [] else Entity(s[0]) + EscapeHtml(s[1..])
  }

  /** Escaping distributes over concatenation: characters are replaced one by one, in order. */
  lemma {:induction false} EscapeHtmlAppend(a: string, b: string)
    ensures EscapeHtml(a + b) == EscapeHtml(a) + EscapeHtml(b)
  {
    if a != [] {
      assert (a + b)[0] == a[0] && (a + b)[1..] == a[1..] + b;
      EscapeHtmlAppend(a[1..], b);
      calc {
        EscapeHtml(a + b);
        Entity(a[0]) + EscapeHtml(a[1..] + b);
        Entity(a[0]) + (EscapeHtml(a[1..]) + EscapeHtml(b));
      }
    } else {
      assert a + b == b;
    }
  }

  /** The entity an escaped text holds at its front, with its length, if any. */
  function EntityAt(s: string): Option<(char, nat)> {
    if IsPrefixOf("&amp;", s) then Some(('&', 5))
    else if IsPrefixOf("&lt;", s) then Some(('<', 4))
    else if IsPrefixOf("&gt;", s) then Some(('>', 4))
    else if IsPrefixOf("&quot;", s) then Some(('"', 6))
    else if IsPrefixOf("&#39;", s) then Some(('\'', 5))
    else if IsPrefixOf("&#x2F;", s) then Some(('/', 6))
    else if IsPrefixOf("&#x60;", s) then Some(('`', 6))
    else if IsPrefixOf("&#x3D;", s) then Some(('=', 6))
    else None
  }

  predicate IsPrefixOf(p: string, s: string) {
    |p| <= |s| && s[..|p|] == p
  }

  /** The reference inverse of `EscapeHtml`: decodes the eight entities. */
  function Unescape(s: string): string
    decreases |s|
  {
    if s == [] then []
    else
      var e := EntityAt(s);
      if e.Some? && 0 < e.value.1 <= |s| then [e.value.0] + Unescape(s[e.value.1..])
      else [s[0]] + Unescape(s[1..])
  }

  /** Decoding the entity of `c` in front of any text gives `c` back. */
  lemma EntityAtEntity(c: char, rest: string)
    requires IsSpecial(c)
    ensures EntityAt(Entity(c) + rest) == Some((c, |Entity(c)|))
  {
    var e := Entity(c);
    var s := e + rest;
    assert s[..|e|] == e;
    assert s[1] == e[1] && s[2] == e[2] && s[3] == e[3];
  }

  lemma UnescapeEntity(c: char, rest: string)
    requires IsSpecial(c)
    ensures Unescape(Entity(c) + rest) == [c] + Unescape(rest)
  {
    var s := Entity(c) + rest;
    EntityAtEntity(c, rest);
    assert s[|Entity(c)|..] == rest;
  }

  lemma UnescapePlain(c: char, rest: string)
    requires !IsSpecial(c)
    ensures Unescape([c] + rest) == [c] + Unescape(rest)
  {
    var s := [c] + rest;
    assert s[0] == c && s[1..] == rest;
    assert EntityAt(s) == None;
  }

  /** Round trip: unescaping escaped text gives the original text. */
  lemma {:induction false} UnescapeEscapeHtml(s: string)
    ensures Unescape(EscapeHtml(s)) == s
  {
    if s != [] {
      UnescapeEscapeHtml(s[1..]);
      if IsSpecial(s[0]) {
        UnescapeEntity(s[0], EscapeHtml(s[1..]));
      } else {
        UnescapePlain(s[0], EscapeHtml(s[1..]));
      }
      assert s == [s[0]] + s[1..];
    }
  }
}
