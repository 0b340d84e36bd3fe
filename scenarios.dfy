/** Clients of the engine that replay scenarios of the library's own tests,
    proved from the method contracts alone. */
module Scenarios {
  import opened Basics
  import opened Stack
  import opened RuntimeContext
  import Env

  /** tests/test_runtime_context.py, test_rc_basics, outer block: `with
      rc(a=1)` makes `a` readable; `b` is unknown and its strict read
      raises. */
  method EnterOuter() returns (rc: RuntimeContextWrapper<int>)
    ensures fresh(rc) && rc.Valid()
    ensures rc.Frames() == [map[], map["a" := 1]]
  {
    rc := new RuntimeContextWrapper<int>();
    var outer := rc.Call(None, map["a" := 1]);
    var w := outer.Enter();
    assert rc.Frames() == [map[], map["a" := 1]];
    assert Lookup(rc.Frames(), "a") == Some(1);
    var a := rc.GetAttr("a");
    assert a == Ok(1);
    assert Lookup(rc.Frames()[..1], "b") == None;
    assert Lookup(rc.Frames(), "b") == None;
    var b := rc.GetAttr("b");
    assert b == Err(AttributeError("b"));
  }

  /** tests/test_runtime_context.py, test_rc_basics, inner block: `with
      rc(a=4)` shadows `a` and, once exited, reveals the outer value. */
  method NestedOverrides() {
    var rc := EnterOuter();
    var inner := rc.Call(None, map["a" := 4]);
    var w := inner.Enter();
    assert rc.Frames() == [map[], map["a" := 1], map["a" := 4]];
    var a := rc.GetAttr("a");
    assert a == Ok(4);

    var done := inner.Exit();
    assert rc.Frames() == [map[], map["a" := 1]];
    a := rc.GetAttr("a");
    assert a == Ok(1);
  }

  /** A scope entered and exited once: the engine is back to its base frame,
      and the log shows "entered" and "exited" nesting. */
  method EnterThenExit() returns (rc: RuntimeContextWrapper<int>, scope: Context<int>)
    ensures fresh(rc) && rc.Valid() && scope.wrapper == rc
    ensures |rc.stack| == 1 && rc.stack[0] != scope
    ensures rc.Frames() == [map[]]
    ensures rc.events == [ContextEntered(map[]), ContextEntered(map["a" := 1]), ContextExited(map["a" := 1])]
  {
    rc := new RuntimeContextWrapper<int>();
    scope := EmptyBlock(rc, map["a" := 1]);
  }

  /** `with rc(**vars): pass`: the block's frame is pushed and popped again,
      so the engine's stack is as it was and the log gains "entered" and
      "exited" for that frame. */
  method EmptyBlock<V>(rc: RuntimeContextWrapper<V>, vars: Frame<V>) returns (scope: Context<V>)
    requires rc.Valid()
    modifies rc
    ensures fresh(scope) && scope.wrapper == rc && rc.Valid()
    ensures rc.stack == old(rc.stack) && rc.Frames() == old(rc.Frames())
    ensures rc.events == old(rc.events) + [ContextEntered(vars), ContextExited(vars)]
  {
    scope := rc.Call(None, vars);
    var w := scope.Enter();
    var done := scope.Exit();
    assert done == Pass;
  }

  /** Exiting the same scope a second time is a stack-discipline violation
      that changes nothing; the name it held is gone. */
  method DoubleExitFails() {
    var rc, scope := EnterThenExit();
    var d := rc.Get("a", None);
    assert d == None;
    var done := scope.Exit();
    assert done == Fail(AssertionError);
    assert rc.Frames() == [map[]];
  }



  /** tests/test_runtime_context.py, test_rc_set: a write in an inner scope
      disappears with it. */
  method WriteInInnerScope() {
    var rc := new RuntimeContextWrapper<int>();
    var scope := rc.Call(None, map[]);
    var w := scope.Enter();
    var ok := rc.Set("yy", 0);
    assert ok == Pass;
    var v := rc.Get("yy", Some(5));
    assert v == Some(0);
    var done := scope.Exit();
    v := rc.Get("yy", Some(5));
    assert rc.Frames() == [map[]];
    assert v == Some(5);
  }

  /** One `with app(**vars)` block with an empty body, through the facade:
      the exit succeeds and the engine is back to where it was, with an
      "entered" and an "exited" for the frame logged, and
      "context_var_updated" fired twice for each of its keys. */
  method ScopeThroughFacade<V>(app: Env.EnvBase<V>, vars: Frame<V>)
    requires app.Valid()
    modifies app, app.cls.runtimeContext
    ensures app.Valid() && app.attrs == old(app.attrs)
    ensures app.cls.runtimeContext.stack == old(app.cls.runtimeContext.stack)
    ensures app.cls.runtimeContext.Frames() == old(app.cls.runtimeContext.Frames())
    ensures app.cls.runtimeContext.events
         == old(app.cls.runtimeContext.events) + [ContextEntered(vars), ContextExited(vars)]
    ensures |app.updates| >= |old(app.updates)| && app.updates[..|old(app.updates)|] == old(app.updates)
    ensures multiset(app.updates[|old(app.updates)|..]) == multiset(vars.Keys) + multiset(vars.Keys)
  {
    var u0, e0 := app.updates, app.cls.runtimeContext.events;
    var c := app.Call(None, vars);
    app.Enter(c);
    var u1 := app.updates;
    var done := app.Exit(c);
    assert done == Pass;
    assert app.cls.runtimeContext.events == e0 + [ContextEntered(vars)] + [ContextExited(vars)];
    assert app.updates[|u0|..] == u1[|u0|..] + app.updates[|u1|..];
  }

  /** tests/test_env.py, test_env_can_access_runtime_context_events:
      `with app(**outer): with app(**inner): pass` through the facade. Both
      exits succeed, the engine's frames are back to what they were (so every
      read is too), the instance attributes are untouched, and the engine
      logs entered/entered/exited/exited in LIFO order. */
  method NestedScopesThroughFacade<V>(app: Env.EnvBase<V>, outer: Frame<V>, inner: Frame<V>)
    requires app.Valid()
    modifies app, app.cls.runtimeContext
    ensures app.Valid() && app.attrs == old(app.attrs)
    ensures app.cls.runtimeContext.stack == old(app.cls.runtimeContext.stack)
    ensures app.cls.runtimeContext.Frames() == old(app.cls.runtimeContext.Frames())
    ensures app.cls.runtimeContext.events == old(app.cls.runtimeContext.events)
      + [ContextEntered(outer), ContextEntered(inner), ContextExited(inner), ContextExited(outer)]
  {
    var c := app.Call(None, outer);
    app.Enter(c);
    ScopeThroughFacade(app, inner);
    var done := app.Exit(c);
    assert done == Pass;
  }
}
