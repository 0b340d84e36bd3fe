/** The environment facade of env.py: an application class declares the
    overridable names with their defaults; an instance reads them through the
    engine first and falls back to the defaults, writes them into the
    engine's current frame, keeps every other name as a plain instance
    attribute, and fires "context_var_updated" for each context variable
    that is set, or that a scope brings in or takes away. Listeners are not
    modelled: each firing is recorded, by name, in `updates`. */
module Env {
  import opened Basics
  import opened Stack
  import opened Resolution
  import RuntimeContext

  /** Names the facade base class itself defines (besides dunder names);
      they are never context variables. */
  const BaseNames: set<string> := {
    "_internals_", "runtime_context", "is_context_var", "get", "set",
    "reset_context", "_handle_runtime_context_entered", "_handle_runtime_context_exited"
  }

  /** `EnvBase._internals_`: names that attribute access hands straight to
      the facade's own members. */
  const Internals: set<string> := {
    "get", "set", "runtime_context", "is_context_var", "reset_context",
    "_hookery", "context_entered", "context_exited", "context_var_updated",
    "_handle_runtime_context_entered", "_handle_runtime_context_exited"
  }

  /** Names that `__getattribute__` and `__setattr__` resolve to the facade's
      own members instead of treating them as variables. */
  predicate Bypassed(name: string) {
    IsDunder(name) || name in Internals
  }

  /** `ks` lists every key of `m` exactly once, in some order. */
  ghost predicate EnumeratesKeys<V>(ks: seq<string>, m: map<string, V>) {
    multiset(ks) == multiset(m.Keys)
  }

  /** `list(context_vars.keys())`. */
  method KeyList<V>(m: map<string, V>) returns (ks: seq<string>)
    ensures EnumeratesKeys(ks, m)
  {
    ks := [];
    var rest := m.Keys;
    while rest != {}
      invariant rest <= m.Keys
      invariant multiset(ks) + multiset(rest) == multiset(m.Keys)
      decreases |rest|
    {
      var k :| k in rest;
      ks := ks + [k];
      rest := rest - {k};
    }
  }

  /** The class `runtime_context_env` builds: the application's declared
      defaults, and one engine shared by all its instances. */
  class EnvClass<V> {
    const defaults: map<string, V>
    const runtimeContext: RuntimeContext.RuntimeContextWrapper<V>

    ghost predicate Valid()
      reads runtimeContext
    {
      && runtimeContext.Valid()
      && forall name :: name in defaults ==> !Bypassed(name)
    }

    /** `runtime_context_env(env_cls)`: a fresh engine for the class. */
    constructor (defaults: map<string, V>)
      requires forall name :: name in defaults ==> !Bypassed(name)
      ensures Valid() && this.defaults == defaults && fresh(runtimeContext)
      ensures runtimeContext.Frames() == [map[]]
      ensures runtimeContext.events == [ContextEntered(map[])]
    {
      this.defaults := defaults;
      runtimeContext := new RuntimeContext.RuntimeContextWrapper();
    }
  }

  /** An instance of the application's environment class. */
  class EnvBase<V> {
    const cls: EnvClass<V>
    var attrs: map<string, V>
    var updates: seq<string>

    ghost predicate Valid()
      reads this, cls.runtimeContext
    {
      cls.Valid() && AttrsApart(BaseNames, cls.defaults, attrs)
    }

    /** The instance attributes and the engine's frames. */
    function View(): State<V>
      reads this, cls.runtimeContext, cls.runtimeContext.stack
    {
      State(attrs, cls.runtimeContext.Frames())
    }

    /** `is_context_var(name)`. */
    predicate IsContextVar(name: string) {
      Resolution.IsContextVar(BaseNames, cls.defaults, name)
    }

    /** `EnvBase.__init__`: no instance attributes yet, nothing fired. */
    constructor (cls: EnvClass<V>)
      requires cls.Valid()
      ensures Valid() && this.cls == cls
      ensures attrs == map[] && updates == []
    {
      this.cls := cls;
      attrs := map[];
      updates := [];
    }

    /** `__getattribute__(name)`. */
    method Read(name: string) returns (r: Result<V>)
      requires Valid() && !Bypassed(name)
      ensures r == Resolution.Read(BaseNames, cls.defaults, View(), name)
    {
      var rc := cls.runtimeContext;
      LookupSomeIffHas(rc.Frames(), name);
      if IsContextVar(name) {
        var held := rc.IsContextVar(name);
        if held {
          var v := rc.Get(name, None);
          return Ok(v.value);
        }
        // Not overridden: the instance dict never holds a context variable,
        // so the class attribute is what is found.
        assert name !in attrs;
        return Ok(cls.defaults[name]);
      }
      if name in attrs {
        return Ok(attrs[name]);
      }
      r := Err(AttributeError(name));
    }

    /** `__setattr__(name, value)`: a context variable goes to the engine's
        current frame and fires "context_var_updated" once; any other name
        goes to the instance dict. */
    method Write(name: string, value: V) returns (r: Outcome)
      requires Valid() && name !in Internals
      modifies this, cls.runtimeContext.stack
      ensures Valid()
      ensures var w := Resolution.Write(BaseNames, cls.defaults, old(View()), name, value);
        && (w.Ok? ==> r == Pass && View() == w.value)
        && (w.Err? ==> r == Fail(w.error) && View() == old(View()))
      ensures updates == old(updates) + (if IsContextVar(name) && r.Pass? then [name] else [])
    {
      if IsContextVar(name) {
        r := cls.runtimeContext.Set(name, value);
        if r.Pass? {
          updates := updates + [name];
        }
      } else {
        attrs := attrs[name := value];
        r := Pass;
      }
    }

    /** `get(name)`: raises for a name that is not a context variable. */
    method Get(name: string) returns (r: Result<V>)
      requires Valid()
      ensures r == Resolution.Get(BaseNames, cls.defaults, View(), name)
    {
      if !IsContextVar(name) {
        return Err(AttributeError(name));
      }
      r := Read(name);
    }

    /** `set(name, value)`: raises for a name that is not a context
        variable. */
    method Set(name: string, value: V) returns (r: Outcome)
      requires Valid()
      modifies this, cls.runtimeContext.stack
      ensures Valid()
      ensures var w := Resolution.Set(BaseNames, cls.defaults, old(View()), name, value);
        && (w.Ok? ==> r == Pass && View() == w.value)
        && (w.Err? ==> r == Fail(w.error) && View() == old(View()))
      ensures updates == old(updates) + (if r.Pass? then [name] else [])
    {
      if !IsContextVar(name) {
        return Fail(AttributeError(name));
      }
      r := Write(name, value);
    }

    /** `reset_context()`: the engine's current frame is emptied. */
    method ResetContext() returns (r: Outcome)
      requires Valid()
      modifies cls.runtimeContext.stack
      ensures Valid()
      ensures r == if cls.runtimeContext.stack == [] then Fail(RuntimeError) else Pass
      ensures r.Pass? ==> View() == ClearScope(old(View()))
      ensures r.Fail? ==> View() == old(View())
    {
      r := cls.runtimeContext.ResetContext();
    }

    /** `_handle_runtime_context_entered`: "context_var_updated" once per
        key of the entered frame. */
    method HandleEntered(contextVars: Frame<V>)
      modifies this
      ensures attrs == old(attrs)
      ensures |updates| >= |old(updates)| && updates[..|old(updates)|] == old(updates)
      ensures EnumeratesKeys(updates[|old(updates)|..], contextVars)
    {
      var ks := KeyList(contextVars);
      for i := 0 to |ks|
        invariant attrs == old(attrs)
        invariant updates == old(updates) + ks[..i]
      {
        updates := updates + [ks[i]];
      }
      assert updates[|old(updates)|..] == ks;
    }

    /** `_handle_runtime_context_exited`: "context_var_updated" once per
        key of the exited frame. */
    method HandleExited(contextVars: Frame<V>)
      modifies this
      ensures attrs == old(attrs)
      ensures |updates| >= |old(updates)| && updates[..|old(updates)|] == old(updates)
      ensures EnumeratesKeys(updates[|old(updates)|..], contextVars)
    {
      var ks := KeyList(contextVars);
      for i := 0 to |ks|
        invariant attrs == old(attrs)
        invariant updates == old(updates) + ks[..i]
      {
        updates := updates + [ks[i]];
      }
      assert updates[|old(updates)|..] == ks;
    }

    /** `__call__`: a new engine frame with exactly the given overrides; the
        names are not checked. */
    method Call(varsDict: Option<Frame<V>>, kwargs: Frame<V>) returns (c: RuntimeContext.Context<V>)
      ensures fresh(c) && c.wrapper == cls.runtimeContext
      ensures c.vars == RuntimeContext.NewContextVars(varsDict, kwargs)
    {
      c := cls.runtimeContext.NewContext(varsDict, kwargs);
    }

    /** Entering a scope made by `Call`: the engine pushes the frame and fires
        "context_entered", whose listener here fires "context_var_updated"
        for every key of the frame. */
    method Enter(ctx: RuntimeContext.Context<V>)
      requires Valid() && ctx.wrapper == cls.runtimeContext && ctx !in cls.runtimeContext.stack
      modifies this, cls.runtimeContext
      ensures Valid() && attrs == old(attrs)
      ensures cls.runtimeContext.stack == old(cls.runtimeContext.stack) + [ctx]
      ensures cls.runtimeContext.Frames() == old(cls.runtimeContext.Frames()) + [ctx.vars]
      ensures cls.runtimeContext.events == old(cls.runtimeContext.events) + [ContextEntered(ctx.vars)]
      ensures |updates| >= |old(updates)| && updates[..|old(updates)|] == old(updates)
      ensures EnumeratesKeys(updates[|old(updates)|..], ctx.vars)
    {
      var rc := ctx.Enter();
      HandleEntered(ctx.vars);
    }

    /** Leaving that scope: the engine pops the frame (failing, with nothing
        changed, when it is not the current one) and fires "context_exited",
        whose listener here fires "context_var_updated" for every key the
        frame holds at that moment. */
    method Exit(ctx: RuntimeContext.Context<V>) returns (r: Outcome)
      requires Valid() && ctx.wrapper == cls.runtimeContext
      modifies this, cls.runtimeContext
      ensures Valid() && attrs == old(attrs)
      ensures r.Pass? <==> (old(cls.runtimeContext.stack) != [] &&
                            old(cls.runtimeContext.stack[|cls.runtimeContext.stack| - 1]) == ctx)
      ensures r.Fail? ==> && cls.runtimeContext.stack == old(cls.runtimeContext.stack)
                          && cls.runtimeContext.events == old(cls.runtimeContext.events)
                          && updates == old(updates)
      ensures r.Pass? ==>
        && cls.runtimeContext.stack == old(cls.runtimeContext.stack[..|cls.runtimeContext.stack| - 1])
        && cls.runtimeContext.Frames() == old(cls.runtimeContext.Frames()[..|cls.runtimeContext.stack| - 1])
        && cls.runtimeContext.events == old(cls.runtimeContext.events) + [ContextExited(ctx.vars)]
        && |updates| >= |old(updates)| && updates[..|old(updates)|] == old(updates)
        && EnumeratesKeys(updates[|old(updates)|..], ctx.vars)
    {
      r := ctx.Exit();
      if r.Pass? {
        HandleExited(ctx.vars);
      }
    }
  }
}
