/** The earlier environment facade of env2.py: the same read and write
    resolution as env.py, with a smaller set of base-class names, no
    notifications of its own and no `reset_context`. */
module Env2 {
  import opened Basics
  import opened Stack
  import opened Resolution
  import RuntimeContext

  /** Names the facade base class itself defines (besides dunder names). */
  const BaseNames: set<string> := {"_internals_", "runtime_context", "is_context_var", "get", "set"}

  /** `EnvBase._internals_`. */
  const Internals: set<string> := {"get", "set", "runtime_context", "is_context_var"}

  /** Names that attribute access resolves to the facade's own members. */
  predicate Bypassed(name: string) {
    IsDunder(name) || name in Internals
  }

  /** The class `runtime_context_env` builds: declared defaults and one
      engine shared by all instances. */
  class EnvClass<V> {
    const defaults: map<string, V>
    const runtimeContext: RuntimeContext.RuntimeContextWrapper<V>

    ghost predicate Valid()
      reads runtimeContext
    {
      && runtimeContext.Valid()
      && forall name :: name in defaults ==> !Bypassed(name)
    }

    /** `runtime_context_env(env_cls)`: a fresh engine for the class. */
    constructor (defaults: map<string, V>)
      requires forall name :: name in defaults ==> !Bypassed(name)
      ensures Valid() && this.defaults == defaults && fresh(runtimeContext)
      ensures runtimeContext.Frames() == [map[]]
    {
      this.defaults := defaults;
      runtimeContext := new RuntimeContext.RuntimeContextWrapper();
    }
  }

  /** An instance of the application's environment class. */
  class EnvBase<V> {
    const cls: EnvClass<V>
    var attrs: map<string, V>

    ghost predicate Valid()
      reads this, cls.runtimeContext
    {
      cls.Valid() && AttrsApart(BaseNames, cls.defaults, attrs)
    }

    function View(): State<V>
      reads this, cls.runtimeContext, cls.runtimeContext.stack
    {
      State(attrs, cls.runtimeContext.Frames())
    }

    /** `is_context_var(name)`. */
    predicate IsContextVar(name: string) {
      Resolution.IsContextVar(BaseNames, cls.defaults, name)
    }

    constructor (cls: EnvClass<V>)
      requires cls.Valid()
      ensures Valid() && this.cls == cls && attrs == map[]
    {
      this.cls := cls;
      attrs := map[];
    }

    /** `__getattribute__(name)`. */
    method Read(name: string) returns (r: Result<V>)
      requires Valid() && !Bypassed(name)
      ensures r == Resolution.Read(BaseNames, cls.defaults, View(), name)
    {
      var rc := cls.runtimeContext;
      LookupSomeIffHas(rc.Frames(), name);
      if IsContextVar(name) {
        var held := rc.IsContextVar(name);
        if held {
          var v := rc.Get(name, None);
          return Ok(v.value);
        }
        assert name !in attrs;
        return Ok(cls.defaults[name]);
      }
      if name in attrs {
        return Ok(attrs[name]);
      }
      r := Err(AttributeError(name));
    }

    /** `__setattr__(name, value)`: a context variable goes to the engine's
        current frame, any other name to the instance dict. */
    method Write(name: string, value: V) returns (r: Outcome)
      requires Valid() && name !in Internals
      modifies this, cls.runtimeContext.stack
      ensures Valid()
      ensures var w := Resolution.Write(BaseNames, cls.defaults, old(View()), name, value);
        && (w.Ok? ==> r == Pass && View() == w.value)
        && (w.Err? ==> r == Fail(w.error) && View() == old(View()))
    {
      if IsContextVar(name) {
        r := cls.runtimeContext.Set(name, value);
      } else {
        attrs := attrs[name := value];
        r := Pass;
      }
    }

    /** `get(name)`: raises for a name that is not a context variable. */
    method Get(name: string) returns (r: Result<V>)
      requires Valid()
      ensures r == Resolution.Get(BaseNames, cls.defaults, View(), name)
    {
      if !IsContextVar(name) {
        return Err(AttributeError(name));
      }
      r := Read(name);
    }

    /** `set(name, value)`: raises for a name that is not a context
        variable. */
    method Set(name: string, value: V) returns (r: Outcome)
      requires Valid()
      modifies this, cls.runtimeContext.stack
      ensures Valid()
      ensures var w := Resolution.Set(BaseNames, cls.defaults, old(View()), name, value);
        && (w.Ok? ==> r == Pass && View() == w.value)
        && (w.Err? ==> r == Fail(w.error) && View() == old(View()))
    {
      if !IsContextVar(name) {
        return Fail(AttributeError(name));
      }
      r := Write(name, value);
    }

    /** `__call__`: a new engine frame with exactly the given overrides; the
        names are not checked. */
    method Call(varsDict: Option<Frame<V>>, kwargs: Frame<V>) returns (c: RuntimeContext.Context<V>)
      ensures fresh(c) && c.wrapper == cls.runtimeContext
      ensures c.vars == RuntimeContext.NewContextVars(varsDict, kwargs)
    {
      c := cls.runtimeContext.NewContext(varsDict, kwargs);
    }
  }
}
