/** The `Writer`: a cache of parsed templates, and the rendering methods that walk a token tree
    against a `Context`. Each method is proved to compute the function of `Rendering` it
    implements, whatever the caches hold. */
module Writers {
  import opened Outcomes
  import opened Text
  import opened JsValues
  import opened Tokens
  import opened Parser
  import opened Contexts
  import opened Rendering

  /** What a parsed template is filed under: the template and the tags it was parsed with
      (the default tags when none were given). */
  datatype CacheKey = CacheKey(template: string, tags: seq<string>)

  function KeyOf(template: string, tags: Option<TagSpec>): CacheKey
    requires TagsOr(tags).TagList?
  {
    CacheKey(template, TagsOr(tags).items)
  }

  class Writer {
    /** `templateCache`: parsed templates by template and tags. */
    var templates: map<CacheKey, seq<Token>>
    /** How many partials deep rendering may go before the stack is exhausted. */
    const partialDepth: nat

    /** Every cached tree is what parsing its template with its tags gives. */
    ghost predicate Valid()
      reads this
    {
      forall k | k in templates :: Parsed(k.template, Some(TagList(k.tags))) == Ok(templates[k])
    }

    /** `new Writer()`: an empty cache. */
    constructor (partialDepth: nat)
      ensures Valid() && templates == map[] && this.partialDepth == partialDepth
    {
      templates := map[];
      this.partialDepth := partialDepth;
    }

    /** `clearCache()`: forgets every parsed template. */
    method ClearCache()
      modifies this
      ensures Valid() && templates == map[]
    {
      templates := map[];
    }

    /** `parse(template, tags)`: the cached tree when there is one, otherwise the parse, which
        is then cached. The result is the parse either way. */
    method Parse(template: string, tags: Option<TagSpec>) returns (r: Result<seq<Token>>)
      requires Valid()
      modifies this
      ensures Valid()
      ensures r == ParseWith(template, tags)
      ensures r.Ok? ==> templates == old(templates)[KeyOf(template, tags) := r.value]
      ensures r.Err? ==> templates == old(templates)
    {
      if TagsOr(tags).TagText? {
        return Err(TagsNotJoinable);
      }
      var key := KeyOf(template, tags);
      if key in templates {
        r := Ok(templates[key]);
        assert templates[key := r.value] == templates;
      } else {
        r := ParseTemplate(template, tags);
        if r.Ok? {
          templates := templates[key := r.value];
        }
      }
    }

    /** `render(template, view, partials, tags)`: parse, then render under a new context for
        the view. */
    method Render(template: string, view: Value, env: Env, tags: Option<TagSpec>) returns (r: Result<string>)
      requires Valid()
      modifies this
      ensures Valid()
      ensures r == Rendered(template, view, env, tags, partialDepth)
    {
      var tree := Parse(template, tags);
      if tree.Err? {
        return Err(tree.error);
      }
      var context := new Context(view, null);
      assert context.chain == [view];
      r := RenderTokens(tree.value, context, env, template, tags, partialDepth);
    }

    /** `renderTokens`: the outputs of the tokens appended in order. */
    method RenderTokens(ts: seq<Token>, context: Context, env: Env, original: string,
                        tags: Option<TagSpec>, fuel: nat) returns (r: Result<string>)
      requires Valid() && context.Valid()
      modifies this, context
      ensures Valid() && context.Valid()
      ensures r == Rendering.RenderTokens(ts, context.chain, env, original, tags, fuel)
      decreases fuel, ts, 3
    {
      var buffer := "";
      var index := 0;
      while index < |ts|
        invariant 0 <= index <= |ts|
        invariant Valid() && context.Valid()
        invariant Rendering.RenderTokens(ts[..index], context.chain, env, original, tags, fuel) == Ok(buffer)
      {
        var value := RenderToken(ts[index], context, env, original, tags, fuel);
        RenderTokensPrefix(ts, index, context.chain, env, original, tags, fuel);
        if value.Err? {
          return Err(value.error);
        }
        buffer := buffer + value.value;
        index := index + 1;
      }
      assert ts[..index] == ts;
      r := Ok(buffer);
    }

    /** The dispatch on the token's kind. */
    method RenderToken(t: Token, context: Context, env: Env, original: string,
                       tags: Option<TagSpec>, fuel: nat) returns (r: Result<string>)
      requires Valid() && context.Valid()
      modifies this, context
      ensures Valid() && context.Valid()
      ensures r == Rendering.RenderToken(t, context.chain, env, original, tags, fuel)
      decreases fuel, t, 2
    {
      match t
      case Section(inverted, _, _, _, _, _) =>
        if inverted {
          r := RenderInverted(t, context, env, original, fuel);
        } else {
          r := RenderSection(t, context, env, original, fuel);
        }
      case Partial(_, _, _, _, _, _) =>
        r := RenderPartial(t, context, env, tags, fuel);
      case Variable(escaped, _, _, _) =>
        if escaped {
          r := EscapedValue(t, context, env);
        } else {
          r := UnescapedValue(t, context, env);
        }
      case Text(_, _, _) =>
        r := Ok(RawValue(t));
      case _ =>
        r := Ok("");
    }

    /** `renderSection`: nothing for a falsy value; the body once per element of an array;
        the body under the value for an object, string or number; the host's answer for a
        function; the body in the same context otherwise. */
    method RenderSection(t: Token, context: Context, env: Env, original: string, fuel: nat)
      returns (r: Result<string>)
      requires t.Section? && Valid() && context.Valid()
      modifies this, context
      ensures Valid() && context.Valid()
      ensures r == Rendering.RenderSection(t, context.chain, env, original, fuel)
      decreases fuel, t, 1
    {
      var found := context.Lookup(t.value, env.host);
      if found.Err? {
        return Err(found.error);
      }
      var value := found.value;
      if Falsy(value) {
        r := Ok("");
      } else if value.Arr? {
        r := RenderItems(t, value.items, context, env, original, fuel);
      } else if value.Obj? || value.Str? || value.Num? {
        var inner := context.Push(value);
        r := RenderTokens(t.children, inner, env, original, None, fuel);
      } else if value.Lambda? {
        var out := env.host.section(value.id, context.view, Slice(original, t.end, t.closeStart));
        r := Ok(if IsNil(out) then "" else ToJsString(out));
      } else {
        r := RenderTokens(t.children, context, env, original, None, fuel);
      }
    }

    /** The loop of `renderSection` over an array's elements. */
    method RenderItems(t: Token, items: seq<Value>, context: Context, env: Env, original: string, fuel: nat)
      returns (r: Result<string>)
      requires t.Section? && Valid() && context.Valid()
      modifies this
      ensures Valid()
      ensures r == RenderEach(t, items, context.chain, env, original, fuel)
      decreases fuel, t, 0, |items|
    {
      var buffer := "";
      var index := 0;
      while index < |items|
        invariant 0 <= index <= |items|
        invariant Valid() && context.Valid()
        invariant RenderEach(t, items[..index], context.chain, env, original, fuel) == Ok(buffer)
      {
        var inner := context.Push(items[index]);
        var out := RenderTokens(t.children, inner, env, original, None, fuel);
        RenderEachPrefix(t, items, index, context.chain, env, original, fuel);
        if out.Err? {
          return Err(out.error);
        }
        buffer := buffer + out.value;
        index := index + 1;
      }
      assert items[..index] == items;
      r := Ok(buffer);
    }

    /** `renderInverted`: the body, in the same context, for a falsy value or an empty array. */
    method RenderInverted(t: Token, context: Context, env: Env, original: string, fuel: nat)
      returns (r: Result<string>)
      requires t.Section? && Valid() && context.Valid()
      modifies this, context
      ensures Valid() && context.Valid()
      ensures r == Rendering.RenderInverted(t, context.chain, env, original, fuel)
      decreases fuel, t, 1
    {
      var found := context.Lookup(t.value, env.host);
      if found.Err? {
        return Err(found.error);
      }
      if Falsy(found.value) || found.value == Arr([]) {
        r := RenderTokens(t.children, context, env, original, None, fuel);
      } else {
        r := Ok("");
      }
    }

    /** `renderPartial`: the named partial, indented when its tag stands alone at the start
        of a line, parsed through the cache and rendered in the same context. */
    method RenderPartial(t: Token, context: Context, env: Env, tags: Option<TagSpec>, fuel: nat)
      returns (r: Result<string>)
      requires t.Partial? && Valid() && context.Valid()
      modifies this, context
      ensures Valid() && context.Valid()
      ensures r == Rendering.RenderPartial(t, context.chain, env, tags, fuel)
      decreases fuel, t, 1
    {
      var source := PartialSource(t, env.partials);
      if source.None? {
        return Ok("");
      }
      if fuel == 0 {
        return Err(StackExhausted);
      }
      var tree := Parse(source.value, tags);
      r := RenderParsed(t, tree, source.value, context, env, tags, fuel);
    }

    /** `this.renderTokens(tree, context, partials, indentedValue, tags)`, one partial level
        deeper, once the partial's template is parsed. */
    method RenderParsed(ghost t: Token, tree: Result<seq<Token>>, template: string, context: Context,
                        env: Env, tags: Option<TagSpec>, fuel: nat) returns (r: Result<string>)
      requires fuel > 0 && Valid() && context.Valid()
      modifies this, context
      ensures Valid() && context.Valid()
      ensures r == Rendering.RenderParsed(t, tree, template, context.chain, env, tags, fuel)
      decreases fuel, t, 0
    {
      if tree.Err? {
        return Err(tree.error);
      }
      r := RenderTokens(tree.value, context, env, template, tags, fuel - 1);
    }

    /** `escapedValue`: the escaped value; nothing for null or undefined. */
    method EscapedValue(t: Token, context: Context, env: Env) returns (r: Result<string>)
      requires t.Variable? && context.Valid()
      modifies context
      ensures context.Valid()
      ensures r == Rendering.EscapedValue(t, context.chain, env)
    {
      var found := context.Lookup(t.value, env.host);
      if found.Err? {
        return Err(found.error);
      }
      r := Ok(if IsNil(found.value) then "" else EscapeWith(env.escaper, found.value));
    }

    /** `unescapedValue`: the value as it is; nothing for null or undefined. */
    method UnescapedValue(t: Token, context: Context, env: Env) returns (r: Result<string>)
      requires t.Variable? && context.Valid()
      modifies context
      ensures context.Valid()
      ensures r == Rendering.UnescapedValue(t, context.chain, env)
    {
      var found := context.Lookup(t.value, env.host);
      if found.Err? {
        return Err(found.error);
      }
      r := Ok(if IsNil(found.value) then "" else ToJsString(found.value));
    }
  }

  // ---------------------------------------------------------------------------------------
  // The cache key as the source writes it.

  /** The string `parse` files a template under: the template, a colon, and the tags joined
      with colons. */
  function JoinedKey(template: string, tags: seq<string>): (k: string)
    ensures |k| > |template| && k[..|template|] == template && k[|template|] == ':'
  {
    template + ":" + JoinWith(tags, ':')
  }

  /** `parse` with the joined string as the key: a hit returns what was filed under the key,
      a miss parses and files the result. */
  function ParseJoined(cache: map<string, seq<Token>>, template: string, tags: Option<TagSpec>)
    : (r: (Result<seq<Token>>, map<string, seq<Token>>))
    ensures r.0.Err? ==> r.1 == cache
    ensures r.0.Ok? && TagsOr(tags).TagList? ==>
      var key := JoinedKey(template, TagsOr(tags).items);
      key in r.1 && r.1[key] == r.0.value && r.1.Keys == cache.Keys + {key}
  {
    if TagsOr(tags).TagText? then (Err(TagsNotJoinable), cache)
    else
      var key := JoinedKey(template, TagsOr(tags).items);
      if key in cache then (Ok(cache[key]), cache)
      else
        match Parsed(template, tags)
        case Err(e) => (Err(e), cache)
        case Ok(ts) => (Ok(ts), cache[key := ts])
  }

  /** Two different templates under two different tag pairs share a joined key, so the
      second parse is served the first template's tree. */
  lemma JoinedKeyServesStale()
    ensures JoinedKey("a:b", ["c", "d"]) == JoinedKey("a", ["b:c", "d"])
    ensures var first := ParseJoined(map[], "a:b", Some(TagList(["c", "d"])));
            var second := ParseJoined(first.1, "a", Some(TagList(["b:c", "d"])));
            && second.0 == Ok([Text("a:b", 0, 3)])
            && ParseWith("a", Some(TagList(["b:c", "d"]))) == Ok([Text("a", 0, 1)])
  {
    JoinedKeysCollide();
    FirstParseFiles();
    SecondParseHits(map["a:b:c:d" := [Text("a:b", 0, 3)]]);
    TagFreeLiteral("a", "b:c", "d");
  }

  lemma JoinedKeysCollide()
    ensures JoinedKey("a:b", ["c", "d"]) == "a:b:c:d" == JoinedKey("a", ["b:c", "d"])
  {
    assert JoinWith(["c", "d"], ':') == "c:d" by {
      assert ["c", "d"][1..] == ["d"];
    }
    assert JoinWith(["b:c", "d"], ':') == "b:c:d" by {
      assert ["b:c", "d"][1..] == ["d"];
    }
  }

  /** The first parse misses and files its tree under `a:b:c:d`. */
  lemma FirstParseFiles()
    ensures ParseJoined(map[], "a:b", Some(TagList(["c", "d"])))
      == (Ok([Text("a:b", 0, 3)]), map["a:b:c:d" := [Text("a:b", 0, 3)]])
  {
    JoinedKeysCollide();
    TagFreeLiteral("a:b", "c", "d");
  }

  /** The second parse finds `a:b:c:d` filed and returns what is there. */
  lemma SecondParseHits(cache: map<string, seq<Token>>)
    requires "a:b:c:d" in cache
    ensures ParseJoined(cache, "a", Some(TagList(["b:c", "d"]))) == (Ok(cache["a:b:c:d"]), cache)
  {
    JoinedKeysCollide();
  }

  /** A template that does not contain the opening tag parses to itself as text. */
  lemma TagFreeLiteral(template: string, open: string, close: string)
    requires template != [] && open != []
    requires forall j | 0 <= j < |template| :: template[j] != open[0]
    ensures Parsed(template, Some(TagList([open, close]))) == Ok([Text(template, 0, |template|)])
  {
    var tags := Some(TagList([open, close]));
    assert CompileTags(TagsOr(tags)).value.0 == open;
    forall j | 0 <= j <= |template|
      ensures !IsPrefix(open, template[j..])
    {
      assert j < |template| ==> template[j..][0] == template[j] != open[0];
    }
    TagFree(template, tags);
  }
}
