/** The context stack seen as a value: a sequence of frames, outermost first,
    innermost (current) last. The engine's methods are specified by the
    functions below, and the lemmas state what lookups see after each kind of
    change. */
module Stack {
  import opened Basics

  /** The value of `name` in the innermost frame that holds it, or None when
      no frame does: the scan of `RuntimeContextWrapper.get`. */
  function Lookup<V>(fs: seq<Frame<V>>, name: string): Option<V>
    decreases |fs|
  {
    if fs == [] then None
    else if name in fs[|fs| - 1] then Some(fs[|fs| - 1][name])
    else Lookup(fs[..|fs| - 1], name)
  }

  /** Some frame on the stack holds `name`. */
  predicate Has<V>(fs: seq<Frame<V>>, name: string) {
    exists i :: 0 <= i < |fs| && name in fs[i]
  }

  /** The stack after `current[name] = value`. */
  function SetTop<V>(fs: seq<Frame<V>>, name: string, value: V): seq<Frame<V>>
    requires fs != []
  {
    fs[|fs| - 1 := fs[|fs| - 1][name := value]]
  }

  /** The stack after `reset(name)`: the name leaves the current frame if it
      is there. */
  function ResetTop<V>(fs: seq<Frame<V>>, name: string): seq<Frame<V>>
    requires fs != []
  {
    var top := fs[|fs| - 1];
    if name in top then fs[|fs| - 1 := top - {name}] else fs
  }

  /** The stack after `reset_context()`: the current frame is emptied. */
  function ClearTop<V>(fs: seq<Frame<V>>): seq<Frame<V>>
    requires fs != []
  {
    fs[|fs| - 1 := map[]]
  }

  /** Same depth, and every frame but the current one is the same. */
  ghost predicate SameOuterFrames<V>(fs: seq<Frame<V>>, gs: seq<Frame<V>>) {
    |fs| == |gs| && (fs != [] ==> fs[..|fs| - 1] == gs[..|gs| - 1])
  }

  /** `get` finds a value exactly when `is_context_var` holds. */
  lemma {:induction false} LookupSomeIffHas<V>(fs: seq<Frame<V>>, name: string)
    ensures Lookup(fs, name).Some? <==> Has(fs, name)
    decreases |fs|
  {
    if fs != [] {
      var outer := fs[..|fs| - 1];
      LookupSomeIffHas(outer, name);
      if Has(fs, name) && name !in fs[|fs| - 1] {
        var i :| 0 <= i < |fs| && name in fs[i];
        assert name in outer[i];
      }
      if Has(outer, name) {
        var i :| 0 <= i < |outer| && name in outer[i];
        assert name in fs[i];
      }
    }
  }

  /** The value found is the one of the innermost frame that holds the name:
      frames nearer the top shadow those below them. */
  lemma {:induction false} LookupIsInnermost<V>(fs: seq<Frame<V>>, name: string, i: nat)
    requires i < |fs| && name in fs[i]
    requires forall j :: i < j < |fs| ==> name !in fs[j]
    ensures Lookup(fs, name) == Some(fs[i][name])
    decreases |fs|
  {
    if i < |fs| - 1 {
      var outer := fs[..|fs| - 1];
      LookupIsInnermost(outer, name, i);
    }
  }

  /** While a pushed frame is active it shadows every outer value of the names
      it holds, and lets the others through. */
  lemma LookupPushed<V>(fs: seq<Frame<V>>, f: Frame<V>, name: string)
    ensures Lookup(fs + [f], name) == if name in f then Some(f[name]) else Lookup(fs, name)
  {
    assert (fs + [f])[..|fs|] == fs;
  }

  /** After `set(name, value)` the name reads as `value`; every other name
      reads as before. */
  lemma SetTopEffect<V>(fs: seq<Frame<V>>, name: string, value: V, other: string)
    requires fs != []
    ensures SameOuterFrames(fs, SetTop(fs, name, value))
    ensures Lookup(SetTop(fs, name, value), name) == Some(value)
    ensures other != name ==> Lookup(SetTop(fs, name, value), other) == Lookup(fs, other)
  {
    assert SetTop(fs, name, value)[..|fs| - 1] == fs[..|fs| - 1];
  }

  /** After `reset(name)` the outer frames' value of the name shows again;
      every other name reads as before. */
  lemma ResetTopEffect<V>(fs: seq<Frame<V>>, name: string, other: string)
    requires fs != []
    ensures SameOuterFrames(fs, ResetTop(fs, name))
    ensures Lookup(ResetTop(fs, name), name) == Lookup(fs[..|fs| - 1], name)
    ensures other != name ==> Lookup(ResetTop(fs, name), other) == Lookup(fs, other)
  {
    assert ResetTop(fs, name)[..|fs| - 1] == fs[..|fs| - 1];
  }

  /** After `reset_context()` every name reads as the outer frames say. */
  lemma ClearTopEffect<V>(fs: seq<Frame<V>>, name: string)
    requires fs != []
    ensures SameOuterFrames(fs, ClearTop(fs))
    ensures Lookup(ClearTop(fs), name) == Lookup(fs[..|fs| - 1], name)
  {
    assert ClearTop(fs)[..|fs| - 1] == fs[..|fs| - 1];
  }
}
