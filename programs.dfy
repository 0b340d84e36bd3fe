/** Programs of nested `with` blocks run on the engine itself: each statement
    becomes the engine call it stands for, and the engine's frames and log
    end up as the reference semantics of `Scopes` says. */
module Programs {
  import opened Basics
  import opened Scopes
  import opened RuntimeContext

  /** One statement on a live engine: `set`, `reset`, `reset_context`, or
      `with rc(**vars): body`. The stack holds the same contexts afterwards. */
  method Run<V>(rc: RuntimeContextWrapper<V>, s: Stmt<V>)
    requires rc.Valid() && rc.stack != []
    modifies rc, rc.stack
    ensures rc.Valid() && rc.stack == old(rc.stack)
    ensures rc.Frames() == Exec(old(rc.Frames()), s).0
    ensures rc.events == old(rc.events) + Exec(old(rc.Frames()), s).1
    decreases s, 1
  {
    match s
    case Assign(name, value) =>
      var r := rc.Set(name, value);
    case Unset(name) =>
      var r := rc.Reset(name);
    case Clear =>
      var r := rc.ResetContext();
    case Scope(vars, body) =>
      RunScope(rc, vars, body);
  }

  /** `with rc(**vars): body`: a fresh frame is entered, the body runs on it,
      and the same frame is exited. */
  method RunScope<V>(rc: RuntimeContextWrapper<V>, vars: Frame<V>, body: seq<Stmt<V>>)
    requires rc.Valid() && rc.stack != []
    modifies rc, rc.stack
    ensures rc.Valid() && rc.stack == old(rc.stack)
    ensures rc.Frames() == Exec(old(rc.Frames()), Scope(vars, body)).0
    ensures rc.events == old(rc.events) + Exec(old(rc.Frames()), Scope(vars, body)).1
    decreases Scope(vars, body), 0
  {
    ghost var st, fs, evs := rc.stack, rc.Frames(), rc.events;
    var c := Open(rc, vars);
    RunInside(rc, c, body);
    ghost var inner := ExecAll(fs + [vars], body);
    assert rc.stack == st && rc.Frames() == inner.0[..|inner.0| - 1];
    AppendAssoc(evs + [ContextEntered(vars)], inner.1, [ContextExited(inner.0[|inner.0| - 1])]);
    AppendAssoc(evs, [ContextEntered(vars)], inner.1);
    ExecScope(fs, vars, body);
  }

  /** `rc(**vars).__enter__()`: a new frame holding `vars` goes on top and
      "entered" is logged with it. */
  method Open<V>(rc: RuntimeContextWrapper<V>, vars: Frame<V>) returns (c: Context<V>)
    requires rc.Valid()
    modifies rc
    ensures fresh(c) && rc.Valid()
    ensures rc.stack == old(rc.stack) + [c]
    ensures rc.Frames() == old(rc.Frames()) + [vars]
    ensures rc.events == old(rc.events) + [ContextEntered(vars)]
  {
    c := rc.Call(None, vars);
    var w := c.Enter();
  }

  /** The rest of a `with` block once its frame `c` is on top: the body runs,
      then `c` exits and the frame it ended with is logged as exited. */
  method RunInside<V>(rc: RuntimeContextWrapper<V>, c: Context<V>, body: seq<Stmt<V>>)
    requires rc.Valid() && rc.stack != [] && rc.stack[|rc.stack| - 1] == c
    modifies rc, rc.stack
    ensures rc.Valid() && rc.stack == old(rc.stack[..|rc.stack| - 1])
    ensures var inner := ExecAll(old(rc.Frames()), body);
      && rc.Frames() == inner.0[..|inner.0| - 1]
      && rc.events == old(rc.events) + inner.1 + [ContextExited(inner.0[|inner.0| - 1])]
    decreases body, 3
  {
    ghost var st := rc.stack;
    RunAll(rc, body);
    assert rc.stack == st;
    var r := c.Exit();
    assert r == Pass;
  }

  /** How `Exec` runs one block: the body's frames and events between the
      block's "entered" and "exited". */
  lemma ExecScope<V>(fs: seq<Frame<V>>, vars: Frame<V>, body: seq<Stmt<V>>)
    requires fs != []
    ensures var inner := ExecAll(fs + [vars], body);
      Exec(fs, Scope(vars, body))
      == (inner.0[..|inner.0| - 1],
          [ContextEntered(vars)] + inner.1 + [ContextExited(inner.0[|inner.0| - 1])])
  {
  }

  /** Regrouping a concatenation of logs. */
  lemma AppendAssoc<T>(a: seq<T>, b: seq<T>, c: seq<T>)
    ensures a + b + c == a + (b + c)
  {
  }

  /** A block body on a live engine, statement by statement. */
  method RunAll<V>(rc: RuntimeContextWrapper<V>, body: seq<Stmt<V>>)
    requires rc.Valid() && rc.stack != []
    modifies rc, rc.stack
    ensures rc.Valid() && rc.stack == old(rc.stack)
    ensures rc.Frames() == ExecAll(old(rc.Frames()), body).0
    ensures rc.events == old(rc.events) + ExecAll(old(rc.Frames()), body).1
    decreases body, 2
  {
    if body != [] {
      ghost var fs, evs := rc.Frames(), rc.events;
      Run(rc, body[0]);
      ghost var first := Exec(fs, body[0]);
      assert rc.Frames() == first.0 && rc.events == evs + first.1;
      RunAll(rc, body[1..]);
      ghost var rest := ExecAll(first.0, body[1..]);
      assert ExecAll(fs, body) == (rest.0, first.1 + rest.1);
      AppendAssoc(evs, first.1, rest.1);
    }
  }
}
