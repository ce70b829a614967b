/** The context chain: a stack of views, innermost first, with the name resolution of
    `Context.lookup` and its per-frame cache. */
module Contexts {
  import opened Outcomes
  import opened Text
  import opened JsValues

  /** The host functions a view's functions stand for. `call(id, view)` is what calling the
      function `id` with `this` bound to `view` returns; `section(id, view, text)` is what it
      returns when called as a higher-order section on the section's raw text. */
  datatype Host = Host(call: (nat, Value) -> Value, section: (nat, Value, string) -> Value)

  /** `name.indexOf('.') > 0`: a dotted path (a leading dot does not count). */
  predicate Dotted(name: string) {
    IndexOf(name, '.') > 0
  }

  /** The descent along a dotted path: stops at the first null or undefined value; the last
      name must be an own property of the value reached, object or primitive. */
  function Descend(v: Value, names: seq<string>): (r: Option<Value>)
    requires |names| >= 1
    ensures r.Some? ==> !IsNil(v)
    decreases |names|
  {
    if IsNil(v) then None
    else if |names| == 1 then
      if HasProperty(v, names[0]) || PrimitiveHasOwnProperty(v, names[0]) then Some(Get(v, names[0])) else None
    else Descend(Get(v, names[0]), names[1..])
  }

  /** What one frame says about `name`: a hit with its value, a miss (`None`), or the error a
      plain name raises on a null or undefined view. */
  function FrameHit(view: Value, name: string): (r: Result<Option<Value>>)
    ensures r.Err? <==> !Dotted(name) && IsNil(view)
    ensures !Dotted(name) && !IsNil(view) ==>
      r == (if HasProperty(view, name) then Ok(Some(Get(view, name))) else Ok(None))
  {
    if Dotted(name) then Ok(Descend(view, SplitOn(name, '.')))
    else if IsNil(view) then Err(NilView(name))
    else if HasProperty(view, name) then Ok(Some(Get(view, name)))
    else Ok(None)
  }

  /** The walk from the innermost frame outwards: the first frame that hits gives the value;
      when no frame hits the value is undefined. */
  function Resolve(chain: seq<Value>, name: string): Result<Value>
    decreases |chain|
  {
    if chain == [] then Ok(Undefined)
    else
      match FrameHit(chain[0], name)
      case Err(e) => Err(e)
      case Ok(hit) => if hit.Some? then Ok(hit.value) else Resolve(chain[1..], name)
  }

  /** The value `lookup` caches for `name`: `.` is the frame's own view (the cache starts out
      holding it), anything else is resolved along the chain. */
  function Resolved(chain: seq<Value>, name: string): Result<Value>
    requires chain != []
  {
    if name == "." then Ok(chain[0]) else Resolve(chain, name)
  }

  /** A function value is called with `this` bound to the innermost view. */
  function Invoked(v: Value, view: Value, host: Host): Value {
    if v.Lambda? then host.call(v.id, view) else v
  }

  /** `context.lookup(name)` for a context whose views are `chain`. */
  function LookupIn(chain: seq<Value>, name: string, host: Host): (r: Result<Value>)
    requires chain != []
    ensures r.Err? ==> r.error == NilView(name)
  {
    match Resolved(chain, name)
    case Err(e) => ResolveError(chain, name); Err(e)
    case Ok(v) => Ok(Invoked(v, chain[0], host))
  }

  lemma {:induction false} ResolveError(chain: seq<Value>, name: string)
    ensures Resolve(chain, name).Err? ==> Resolve(chain, name).error == NilView(name)
    decreases |chain|
  {
    if chain != [] && FrameHit(chain[0], name) == Ok(None) {
      ResolveError(chain[1..], name);
    }
  }

  // ---------------------------------------------------------------------------------------
  // What resolution promises.

  /** The first frame that hits decides: frames before it are passed over, frames after it
      are never looked at. */
  lemma {:induction false} ResolveFirstHit(chain: seq<Value>, name: string, k: nat, v: Value)
    requires k < |chain|
    requires forall j | 0 <= j < k :: FrameHit(chain[j], name) == Ok(None)
    requires FrameHit(chain[k], name) == Ok(Some(v))
    ensures Resolve(chain, name) == Ok(v)
    decreases k
  {
    if k > 0 {
      assert FrameHit(chain[0], name) == Ok(None);
      ResolveFirstHit(chain[1..], name, k - 1, v);
    }
  }

  /** When no frame hits, the name resolves to undefined. */
  lemma {:induction false} ResolveMiss(chain: seq<Value>, name: string)
    requires forall j | 0 <= j < |chain| :: FrameHit(chain[j], name) == Ok(None)
    ensures Resolve(chain, name) == Ok(Undefined)
    decreases |chain|
  {
    if chain != [] {
      assert FrameHit(chain[0], name) == Ok(None);
      ResolveMiss(chain[1..], name);
    }
  }

  /** A plain name passes over a primitive view: a string has a `length`, but the name
      `length` is found in the frame below. */
  lemma PlainNameSkipsPrimitive(s: string, parent: map<string, Value>)
    requires "length" in parent
    ensures Resolve([Str(s), Obj(parent)], "length") == Ok(parent["length"])
  {
    assert IndexOf("length", '.') == -1;
    assert FrameHit(Str(s), "length") == Ok(None);
    assert FrameHit(Obj(parent), "length") == Ok(Some(parent["length"]));
    ResolveFirstHit([Str(s), Obj(parent)], "length", 1, parent["length"]);
  }

  /** A path of two names splits at its dot. */
  lemma SplitTwo(a: string, b: string)
    requires '.' !in a && '.' !in b
    ensures IndexOf(a + "." + b, '.') == |a|
    ensures SplitOn(a + "." + b, '.') == [a, b]
  {
    var path := a + "." + b;
    assert path == a + ("." + b);
    IndexOfAfter(a, "." + b, '.');
    assert path[..|a|] == a && path[|a| + 1..] == b;
  }

  /** A dotted path does reach a primitive's own property, such as a string's length. */
  lemma DottedPathReachesPrimitive(key: string, s: string)
    requires key != [] && '.' !in key
    ensures Resolve([Obj(map[key := Str(s)])], key + "." + "length") == Ok(Num(|s|))
  {
    var view := Obj(map[key := Str(s)]);
    var path := key + "." + "length";
    assert '.' !in "length";
    SplitTwo(key, "length");
    DescendKey(key, s);
    assert FrameHit(view, path) == Ok(Some(Num(|s|)));
  }

  lemma DescendKey(key: string, s: string)
    ensures Descend(Obj(map[key := Str(s)]), [key, "length"]) == Some(Num(|s|))
  {
    var view := Obj(map[key := Str(s)]);
    StringLength(s);
    var names := [key, "length"];
    assert names[1..] == ["length"];
    assert key in view.fields && view.fields[key] == Str(s);
    assert OwnMember(view, key) == Some(Str(s));
    assert Descend(view, names) == Descend(Str(s), ["length"]);
  }

  lemma StringLength(s: string)
    ensures Descend(Str(s), ["length"]) == Some(Num(|s|))
  {
    assert OwnMember(Str(s), "length") == Some(Num(|s|));
    assert PrimitiveHasOwnProperty(Str(s), "length");
  }

  // ---------------------------------------------------------------------------------------
  // The context objects.

  /** A `Context`: a view, a parent context, and a cache of resolved names. `chain` lists the
      views from this frame outwards. */
  class Context {
    const view: Value
    const parent: Context?
    ghost const chain: seq<Value>
    var cache: map<string, Value>

    /** `chain` is this view followed by the parent's chain. */
    ghost predicate Linked()
      decreases |chain|
    {
      && |chain| >= 1 && chain[0] == view
      && (parent == null ==> |chain| == 1)
      && (parent != null ==> chain[1..] == parent.chain && parent.Linked())
    }

    /** Every cached name holds the value resolution gives it. */
    ghost predicate Valid()
      reads this
    {
      && Linked() && "." in cache
      && forall name | name in cache :: Resolved(chain, name) == Ok(cache[name])
    }

    /** `new Context(view, parentContext)`: the cache starts out holding `.`. */
    constructor (view: Value, parent: Context?)
      requires parent != null ==> parent.Linked()
      ensures Valid() && this.view == view && this.parent == parent
      ensures chain == [view] + (if parent == null then [] else parent.chain)
      ensures cache == map["." := view]
    {
      this.view := view;
      this.parent := parent;
      this.chain := [view] + (if parent == null then [] else parent.chain);
      this.cache := map["." := view];
    }

    /** `push(view)`: a new innermost frame. */
    method Push(view: Value) returns (c: Context)
      requires Linked()
      ensures fresh(c) && c.Valid() && c.chain == [view] + chain && c.cache == map["." := view]
    {
      c := new Context(view, this);
    }

    /** `lookup(name)`: the cached value, or the walk outwards, whose result is cached; a
        function value is then called on this frame's view. */
    method Lookup(name: string, host: Host) returns (r: Result<Value>)
      requires Valid()
      modifies this
      ensures Valid()
      ensures r == LookupIn(chain, name, host)
      ensures cache == if Resolved(chain, name).Ok? then old(cache)[name := Resolved(chain, name).value] else old(cache)
    {
      var value: Value;
      if name in cache {
        value := cache[name];
        assert cache[name := value] == cache;
      } else {
        value := Undefined;
        var context: Context? := this;
        ghost var depth: nat := 0;
        assert name != ".";
        while context != null
          invariant depth <= |chain|
          invariant context == null ==> depth == |chain|
          invariant context != null ==> depth < |chain| && context.Linked() && context.chain == chain[depth..]
          invariant Resolve(chain, name) == Resolve(chain[depth..], name)
          invariant value == Undefined && cache == old(cache)
          decreases |chain| - depth
        {
          assert context.view == chain[depth];
          var found := FrameValue(context.view, name);
          if found.Err? {
            return Err(found.error);
          }
          if found.value.Some? {
            value := found.value.value;
            break;
          }
          assert chain[depth..][1..] == chain[depth + 1..];
          context := context.parent;
          depth := depth + 1;
        }
        cache := cache[name := value];
      }
      r := Ok(Invoked(value, view, host));
    }
  }

  /** One frame of `lookup`'s walk: the dotted descent or the plain property read. */
  method FrameValue(view: Value, name: string) returns (r: Result<Option<Value>>)
    ensures r == FrameHit(view, name)
  {
    if IndexOf(name, '.') > 0 {
      var names := SplitOn(name, '.');
      var intermediate := view;
      var index := 0;
      var hit := false;
      while !IsNil(intermediate) && index < |names|
        invariant 0 <= index <= |names|
        invariant index < |names| ==> !hit && Descend(view, names) == Descend(intermediate, names[index..])
        invariant index == |names| ==> Descend(view, names) == if hit then Some(intermediate) else None
        decreases |names| - index
      {
        if index == |names| - 1 {
          assert names[index..] == [names[index]];
          hit := HasProperty(intermediate, names[index]) || PrimitiveHasOwnProperty(intermediate, names[index]);
        } else {
          assert names[index..][0] == names[index] && names[index..][1..] == names[index + 1..];
        }
        intermediate := Get(intermediate, names[index]);
        index := index + 1;
      }
      return Ok(if hit then Some(intermediate) else None);
    } else if IsNil(view) {
      return Err(NilView(name));
    } else {
      return Ok(if HasProperty(view, name) then Some(Get(view, name)) else None);
    }
  }
}
