/** The context-stack engine: `RuntimeContextWrapper` keeps a stack of
    `Context` frames, one per active scope, resolves names innermost-out, and
    writes only into the current (topmost) frame. Every push fires
    "context_entered" and every pop fires "context_exited"; the listeners are
    not modelled, each firing is recorded in `events` instead. */
module RuntimeContext {
  import opened Basics
  import opened Stack

  /** Names that `__setattr__` and `__delattr__` treat as the engine's own
      machinery rather than as context variables. */
  const Internals: set<string> := {"_stack", "_hookery", "context_entered", "context_exited"}

  /** The frame `new_context` builds: `context_vars_dict or context_vars`, so
      a non-empty dict wins and otherwise the keyword arguments are used. */
  function NewContextVars<V>(varsDict: Option<Frame<V>>, kwargs: Frame<V>): Frame<V> {
    if varsDict.Some? && |varsDict.value| > 0 then varsDict.value else kwargs
  }

  /** The frames held by a stack of contexts, in the same order. */
  function VarsOf<V>(cs: seq<Context<V>>): (r: seq<Frame<V>>)
    reads cs
    ensures |r| == |cs|
    ensures forall i :: 0 <= i < |cs| ==> r[i] == cs[i].vars
  {
    if cs == [] then [] else VarsOf(cs[..|cs| - 1]) + [cs[|cs| - 1].vars]
  }

  /** One frame: a mutable mapping that knows the engine it belongs to, so it
      can push itself onto that engine's stack and pop itself off again. */
  class Context<V> {
    var vars: Frame<V>
    const wrapper: RuntimeContextWrapper<V>

    constructor (wrapper: RuntimeContextWrapper<V>, contextVars: Frame<V>)
      ensures this.wrapper == wrapper && vars == contextVars
    {
      this.wrapper := wrapper;
      vars := contextVars;
    }

    /** `_push_context`: the frame goes on top of its engine's stack and
        "entered" fires with its contents. */
    method PushContext()
      requires wrapper.Valid() && this !in wrapper.stack
      modifies wrapper
      ensures wrapper.Valid()
      ensures wrapper.stack == old(wrapper.stack) + [this]
      ensures wrapper.Frames() == old(wrapper.Frames()) + [vars]
      ensures wrapper.events == old(wrapper.events) + [ContextEntered(vars)]
    {
      wrapper.stack := wrapper.stack + [this];
      wrapper.events := wrapper.events + [ContextEntered(vars)];
    }

    /** `_pop_context`: fails when the stack is empty (`current` raises) or
        when this frame is not the current one (the assertion); otherwise the
        frame leaves the stack and then "exited" fires with its contents as
        they are now. A failure changes nothing. */
    method PopContext() returns (r: Outcome)
      requires wrapper.Valid()
      modifies wrapper
      ensures wrapper.Valid()
      ensures old(wrapper.stack) == [] ==> r == Fail(RuntimeError)
      ensures old(wrapper.stack) != [] && old(wrapper.stack[|wrapper.stack| - 1]) != this
              ==> r == Fail(AssertionError)
      ensures r.Fail? ==> wrapper.stack == old(wrapper.stack) && wrapper.events == old(wrapper.events)
      ensures r.Pass? <==> old(wrapper.stack) != [] && old(wrapper.stack[|wrapper.stack| - 1]) == this
      ensures r.Pass? ==>
        && wrapper.stack == old(wrapper.stack[..|wrapper.stack| - 1])
        && wrapper.Frames() == old(wrapper.Frames()[..|wrapper.stack| - 1])
        && wrapper.events == old(wrapper.events) + [ContextExited(vars)]
    {
      var cur := wrapper.Current();
      if cur.Err? {
        return Fail(cur.error);
      }
      if cur.value != this {
        return Fail(AssertionError);
      }
      wrapper.stack := wrapper.stack[..|wrapper.stack| - 1];
      wrapper.events := wrapper.events + [ContextExited(vars)];
      r := Pass;
    }

    /** `__enter__`: push this frame and hand back the engine. */
    method Enter() returns (w: RuntimeContextWrapper<V>)
      requires wrapper.Valid() && this !in wrapper.stack
      modifies wrapper
      ensures w == wrapper && wrapper.Valid()
      ensures wrapper.stack == old(wrapper.stack) + [this]
      ensures wrapper.Frames() == old(wrapper.Frames()) + [vars]
      ensures wrapper.events == old(wrapper.events) + [ContextEntered(vars)]
    {
      PushContext();
      w := wrapper;
    }

    /** `__exit__`: pop this frame, on every way out of the block. */
    method Exit() returns (r: Outcome)
      requires wrapper.Valid()
      modifies wrapper
      ensures wrapper.Valid()
      ensures old(wrapper.stack) == [] ==> r == Fail(RuntimeError)
      ensures old(wrapper.stack) != [] && old(wrapper.stack[|wrapper.stack| - 1]) != this
              ==> r == Fail(AssertionError)
      ensures r.Pass? <==> old(wrapper.stack) != [] && old(wrapper.stack[|wrapper.stack| - 1]) == this
      ensures r.Fail? ==> wrapper.stack == old(wrapper.stack) && wrapper.events == old(wrapper.events)
      ensures r.Pass? ==>
        && wrapper.stack == old(wrapper.stack[..|wrapper.stack| - 1])
        && wrapper.Frames() == old(wrapper.Frames()[..|wrapper.stack| - 1])
        && wrapper.events == old(wrapper.events) + [ContextExited(vars)]
    {
      r := PopContext();
    }
  }

  /** The engine. A new one already holds one empty frame, so reads and
      writes work before any scope is entered. */
  class RuntimeContextWrapper<V> {
    var stack: seq<Context<V>>
    var events: seq<Event<V>>

    /** Every frame on the stack is there once and belongs to this engine. */
    ghost predicate Valid()
      reads this
    {
      && (forall i, j :: 0 <= i < j < |stack| ==> stack[i] != stack[j])
      && (forall i :: 0 <= i < |stack| ==> stack[i].wrapper == this)
    }

    /** The stack as values: each frame's current contents, outermost first. */
    function Frames(): seq<Frame<V>>
      reads this, stack
    {
      VarsOf(stack)
    }

    constructor ()
      ensures Valid()
      ensures |stack| == 1 && fresh(stack[0])
      ensures Frames() == [map[]]
      ensures events == [ContextEntered(map[])]
    {
      stack := [];
      events := [];
      new;
      PushContext(None, map[]);
    }

    /** `get(name, default)`: the innermost frame's value for `name`, or
        `default` (None when not given) when no frame holds it. */
    method Get(name: string, default: Option<V>) returns (r: Option<V>)
      ensures Lookup(Frames(), name).Some? ==> r == Lookup(Frames(), name)
      ensures Lookup(Frames(), name).None? ==> r == default
    {
      var i := |stack|;
      assert Frames()[..i] == Frames();
      while i > 0
        invariant 0 <= i <= |stack|
        invariant Lookup(Frames(), name) == Lookup(Frames()[..i], name)
      {
        var ctx := stack[i - 1];
        assert Frames()[..i][..i - 1] == Frames()[..i - 1];
        if name in ctx.vars {
          return Some(ctx.vars[name]);
        }
        i := i - 1;
      }
      r := default;
    }

    /** `is_context_var(name)`: some frame on the stack holds `name`. */
    method IsContextVar(name: string) returns (b: bool)
      ensures b == Has(Frames(), name)
    {
      var i := |stack|;
      while i > 0
        invariant 0 <= i <= |stack|
        invariant forall j :: i <= j < |stack| ==> name !in stack[j].vars
      {
        if name in stack[i - 1].vars {
          assert name in Frames()[i - 1];
          return true;
        }
        i := i - 1;
      }
      b := false;
    }

    /** `current`: the topmost frame; raises when the stack is empty. */
    method Current() returns (r: Result<Context<V>>)
      ensures stack == [] ==> r == Err(RuntimeError)
      ensures stack != [] ==> r == Ok(stack[|stack| - 1])
    {
      if stack == [] {
        return Err(RuntimeError);
      }
      r := Ok(stack[|stack| - 1]);
    }

    /** `set(name, value)`: writes into the current frame only. */
    method Set(name: string, value: V) returns (r: Outcome)
      requires Valid()
      modifies stack
      ensures r == if stack == [] then Fail(RuntimeError) else Pass
      ensures stack != [] ==> Frames() == SetTop(old(Frames()), name, value)
    {
      var cur := Current();
      if cur.Err? {
        return Fail(cur.error);
      }
      var top := cur.value;
      top.vars := top.vars[name := value];
      r := Pass;
      assert Frames() == SetTop(old(Frames()), name, value) by {
        forall i | 0 <= i < |stack| - 1 ensures stack[i].vars == old(stack[i].vars) {
          assert stack[i] != top;
        }
      }
    }

    /** `reset(name)`: drops `name` from the current frame if it is there,
        leaving outer frames alone. */
    method Reset(name: string) returns (r: Outcome)
      requires Valid()
      modifies stack
      ensures r == if stack == [] then Fail(RuntimeError) else Pass
      ensures stack != [] ==> Frames() == ResetTop(old(Frames()), name)
    {
      var cur := Current();
      if cur.Err? {
        return Fail(cur.error);
      }
      var top := cur.value;
      if name in top.vars {
        top.vars := top.vars - {name};
      }
      r := Pass;
      assert Frames() == ResetTop(old(Frames()), name) by {
        forall i | 0 <= i < |stack| - 1 ensures stack[i].vars == old(stack[i].vars) {
          assert stack[i] != top;
        }
      }
    }

    /** `reset_context()`: empties the current frame. */
    method ResetContext() returns (r: Outcome)
      requires Valid()
      modifies stack
      ensures r == if stack == [] then Fail(RuntimeError) else Pass
      ensures stack != [] ==> Frames() == ClearTop(old(Frames()))
    {
      var cur := Current();
      if cur.Err? {
        return Fail(cur.error);
      }
      var top := cur.value;
      top.vars := map[];
      r := Pass;
      assert Frames() == ClearTop(old(Frames())) by {
        forall i | 0 <= i < |stack| - 1 ensures stack[i].vars == old(stack[i].vars) {
          assert stack[i] != top;
        }
      }
    }

    /** `new_context(...)`, also `__call__`: a fresh frame owned by this
        engine, not yet on the stack. */
    method NewContext(varsDict: Option<Frame<V>>, kwargs: Frame<V>) returns (c: Context<V>)
      ensures fresh(c) && c.wrapper == this
      ensures c.vars == NewContextVars(varsDict, kwargs)
    {
      c := new Context(this, NewContextVars(varsDict, kwargs));
    }

    /** `__call__(...)`: the frame for a `with` block. */
    method Call(varsDict: Option<Frame<V>>, kwargs: Frame<V>) returns (c: Context<V>)
      ensures fresh(c) && c.wrapper == this
      ensures c.vars == NewContextVars(varsDict, kwargs)
    {
      c := NewContext(varsDict, kwargs);
    }

    /** `push_context(...)`: a new frame goes on top and "entered" fires. */
    method PushContext(varsDict: Option<Frame<V>>, kwargs: Frame<V>)
      requires Valid()
      modifies this
      ensures Valid()
      ensures |stack| == |old(stack)| + 1 && stack[..|old(stack)|] == old(stack)
      ensures fresh(stack[|stack| - 1])
      ensures Frames() == old(Frames()) + [NewContextVars(varsDict, kwargs)]
      ensures events == old(events) + [ContextEntered(NewContextVars(varsDict, kwargs))]
    {
      var c := NewContext(varsDict, kwargs);
      c.PushContext();
    }

    /** `pop_context()`: the current frame leaves and "exited" fires with its
        contents; raises only when the stack is already empty. */
    method PopContext() returns (r: Outcome)
      requires Valid()
      modifies this
      ensures Valid()
      ensures r == if old(stack) == [] then Fail(RuntimeError) else Pass
      ensures r.Fail? ==> stack == old(stack) && events == old(events)
      ensures r.Pass? ==>
        && stack == old(stack[..|stack| - 1])
        && Frames() == old(Frames()[..|stack| - 1])
        && events == old(events) + [ContextExited(old(Frames()[|stack| - 1]))]
    {
      var cur := Current();
      if cur.Err? {
        return Fail(cur.error);
      }
      r := cur.value.PopContext();
    }

    /** `__getattr__`: strict read; a name that no frame holds raises. */
    method GetAttr(name: string) returns (r: Result<V>)
      ensures r.Ok? <==> Has(Frames(), name)
      ensures r.Ok? ==> Lookup(Frames(), name) == Some(r.value)
      ensures r.Err? ==> r.error == AttributeError(name)
    {
      var has := IsContextVar(name);
      if !has {
        return Err(AttributeError(name));
      }
      LookupSomeIffHas(Frames(), name);
      var v := Get(name, None);
      r := Ok(v.value);
    }

    /** `__setattr__` for a name that is not one of the engine's own: `set`. */
    method SetAttr(name: string, value: V) returns (r: Outcome)
      requires Valid() && name !in Internals
      modifies stack
      ensures r == if stack == [] then Fail(RuntimeError) else Pass
      ensures stack != [] ==> Frames() == SetTop(old(Frames()), name, value)
    {
      r := Set(name, value);
    }

    /** `__delattr__`: the engine's own names cannot be deleted; a name some
        frame holds is reset in the current frame (a no-op when only an
        outer frame holds it); any other name raises. */
    method DelAttr(name: string) returns (r: Outcome)
      requires Valid()
      modifies stack
      ensures name in Internals || !Has(old(Frames()), name) ==>
                r == Fail(AttributeError(name)) && Frames() == old(Frames())
      ensures name !in Internals && Has(old(Frames()), name) ==>
                stack != [] && r == Pass && Frames() == ResetTop(old(Frames()), name)
    {
      if name in Internals {
        return Fail(AttributeError(name));
      }
      var has := IsContextVar(name);
      if !has {
        return Fail(AttributeError(name));
      }
      r := Reset(name);
    }
  }
}
