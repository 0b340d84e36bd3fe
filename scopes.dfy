/** What a program of nested `with` blocks does to the context stack and to
    the engine's notifications. Entering a block pushes its frame and fires
    "entered" with the frame's initial contents; leaving it pops the frame and
    fires "exited" with the frame's contents at that moment. Inside a block,
    `set`, `reset` and `reset_context` change the current frame only. */
module Scopes {
  import opened Basics
  import opened Stack

  datatype Stmt<V> =
    | Assign(name: string, value: V)                 // set(name, value)
    | Unset(name: string)                            // reset(name)
    | Clear                                          // reset_context()
    | Scope(vars: Frame<V>, body: seq<Stmt<V>>)      // with rc(**vars): body

  /** How many notifications of each kind a log holds. */
  function Entries<V>(evs: seq<Event<V>>): nat {
    if evs == [] then 0 else Entries(evs[..|evs| - 1]) + (if evs[|evs| - 1].ContextEntered? then 1 else 0)
  }

  function Exits<V>(evs: seq<Event<V>>): nat {
    if evs == [] then 0 else Exits(evs[..|evs| - 1]) + (if evs[|evs| - 1].ContextExited? then 1 else 0)
  }

  lemma {:induction false} CountsAppend<V>(a: seq<Event<V>>, b: seq<Event<V>>)
    ensures Entries(a + b) == Entries(a) + Entries(b)
    ensures Exits(a + b) == Exits(a) + Exits(b)
    decreases |b|
  {
    if b != [] {
      var b' := b[..|b| - 1];
      assert (a + b)[..|a + b| - 1] == a + b';
      CountsAppend(a, b');
    } else {
      assert a + b == a;
    }
  }

  /** No prefix of the log has more "exited" than "entered": each exit closes
      a scope entered before it. */
  predicate Nested<V>(evs: seq<Event<V>>) {
    forall k :: 0 <= k <= |evs| ==> Exits(evs[..k]) <= Entries(evs[..k])
  }

  /** Two properly nested logs, one after the other, are properly nested. */
  lemma {:induction false} NestedAppend<V>(a: seq<Event<V>>, b: seq<Event<V>>)
    requires Nested(a) && Nested(b)
    ensures Nested(a + b)
  {
    assert a[..|a|] == a;
    forall k | 0 <= k <= |a + b|
      ensures Exits((a + b)[..k]) <= Entries((a + b)[..k])
    {
      if k <= |a| {
        assert (a + b)[..k] == a[..k];
      } else {
        assert (a + b)[..k] == a + b[..k - |a|];
        CountsAppend(a, b[..k - |a|]);
      }
    }
  }

  /** A scope's log, "entered" then the body's log then "exited", is properly
      nested when the body's log is nested and balanced. */
  lemma {:induction false} NestedWrap<V>(enter: Event<V>, evs: seq<Event<V>>, exit: Event<V>)
    requires enter.ContextEntered? && exit.ContextExited?
    requires Nested(evs) && Entries(evs) == Exits(evs)
    ensures Nested([enter] + evs + [exit])
  {
    var out := [enter] + evs + [exit];
    NestedAppend([enter], evs);
    CountsAppend([enter], evs);
    CountsAppend([enter] + evs, [exit]);
    assert out[..|out|] == out;
    forall k | 0 <= k <= |out|
      ensures Exits(out[..k]) <= Entries(out[..k])
    {
      if k < |out| {
        assert out[..k] == ([enter] + evs)[..k];
      }
    }
  }

  /** One statement run on a non-empty stack: the stack it leaves and the
      notifications it fires. Only the current frame can differ afterwards,
      a block leaves the stack exactly as it found it, and every "entered"
      is matched by an "exited". */
  function Exec<V>(fs: seq<Frame<V>>, s: Stmt<V>): (r: (seq<Frame<V>>, seq<Event<V>>))
    requires fs != []
    ensures SameOuterFrames(fs, r.0)
    ensures s.Scope? ==> r.0 == fs
    ensures Entries(r.1) == Exits(r.1) && Nested(r.1)
    decreases s
  {
    match s
    case Assign(name, value) => (SetTop(fs, name, value), [])
    case Unset(name) => (ResetTop(fs, name), [])
    case Clear => (ClearTop(fs), [])
    case Scope(vars, body) =>
      var (inner, evs) := ExecAll(fs + [vars], body);
      var out := [ContextEntered(vars)] + evs + [ContextExited(inner[|inner| - 1])];
      CountsAppend([ContextEntered(vars)], evs);
      CountsAppend([ContextEntered(vars)] + evs, [ContextExited(inner[|inner| - 1])]);
      NestedWrap(ContextEntered(vars), evs, ContextExited(inner[|inner| - 1]));
      (inner[..|inner| - 1], out)
  }

  /** A block body run statement by statement. */
  function ExecAll<V>(fs: seq<Frame<V>>, body: seq<Stmt<V>>): (r: (seq<Frame<V>>, seq<Event<V>>))
    requires fs != []
    ensures SameOuterFrames(fs, r.0)
    ensures Entries(r.1) == Exits(r.1) && Nested(r.1)
    decreases body
  {
    if body == [] then (fs, [])
    else
      var (fs1, evs1) := Exec(fs, body[0]);
      var (fs2, evs2) := ExecAll(fs1, body[1..]);
      CountsAppend(evs1, evs2);
      NestedAppend(evs1, evs2);
      (fs2, evs1 + evs2)
  }

  /** An override is seen only while its block runs: inside, the block's own
      values shadow the outer ones; once it exits every name reads as it did
      before it was entered. */
  lemma ScopeShadowsThenReverts<V>(fs: seq<Frame<V>>, vars: Frame<V>, body: seq<Stmt<V>>, name: string)
    requires fs != []
    ensures name in vars ==> Lookup(fs + [vars], name) == Some(vars[name])
    ensures Lookup(Exec(fs, Scope(vars, body)).0, name) == Lookup(fs, name)
  {
    LookupPushed(fs, vars, name);
  }

  /** What one statement does to the current frame. A nested block leaves the
      stack as it found it, so it leaves the frame alone. */
  function Step<V>(top: Frame<V>, s: Stmt<V>): Frame<V> {
    match s
    case Assign(name, value) => top[name := value]
    case Unset(name) => if name in top then top - {name} else top
    case Clear => map[]
    case Scope(_, _) => top
  }

  /** The current frame after a block body has run on it, statement by
      statement. */
  function Apply<V>(top: Frame<V>, body: seq<Stmt<V>>): Frame<V>
    decreases |body|
  {
    if body == [] then top else Apply(Step(top, body[0]), body[1..])
  }

  /** Running a body changes the current frame as `Apply` says and no other
      frame. */
  lemma {:induction false} ExecAllChangesTopOnly<V>(fs: seq<Frame<V>>, body: seq<Stmt<V>>)
    requires fs != []
    ensures ExecAll(fs, body).0 == fs[..|fs| - 1] + [Apply(fs[|fs| - 1], body)]
    decreases |body|
  {
    if body == [] {
      assert fs == fs[..|fs| - 1] + [fs[|fs| - 1]];
    } else {
      var fs1 := Exec(fs, body[0]).0;
      assert fs1 == fs[..|fs| - 1] + [Step(fs[|fs| - 1], body[0])];
      ExecAllChangesTopOnly(fs1, body[1..]);
      assert fs1[..|fs1| - 1] == fs[..|fs| - 1];
    }
  }

  /** "entered" carries the frame as the block began, and "exited" carries it
      as the block's own statements left it, nested blocks' notifications in
      between. */
  lemma ExitSeesChangesMadeInScope<V>(fs: seq<Frame<V>>, vars: Frame<V>, body: seq<Stmt<V>>)
    requires fs != []
    ensures Exec(fs, Scope(vars, body)).1
         == [ContextEntered(vars)] + ExecAll(fs + [vars], body).1 + [ContextExited(Apply(vars, body))]
  {
    ExecAllChangesTopOnly(fs + [vars], body);
    assert (fs + [vars])[..|fs|] == fs;
  }
}
