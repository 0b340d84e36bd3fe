/** What the environment facade (`EnvBase` in env.py and in env2.py) decides
    on each attribute read and write, as functions of values: the declared
    defaults of the application class, the instance attributes, and the
    engine's frames. Both versions of the facade share these decisions; they
    differ only in which names belong to the facade base class. */
module Resolution {
  import opened Basics
  import opened Stack

  /** `name.startswith('__') and name.endswith('__')`. */
  predicate IsDunder(name: string) {
    |name| >= 2 && name[..2] == "__" && name[|name| - 2..] == "__"
  }

  /** `is_context_var`: the application class declares the name (with a
      default) and the facade base class does not define it. */
  predicate IsContextVar<V>(baseNames: set<string>, defaults: map<string, V>, name: string) {
    name in defaults && name !in baseNames
  }

  /** The facade's state as a value: the instance attribute dict and the
      engine's frames. */
  datatype State<V> = State(attrs: map<string, V>, frames: seq<Frame<V>>)

  /** No instance attribute has the name of a context variable: writes to
      those names never reach the instance dict. */
  ghost predicate AttrsApart<V>(baseNames: set<string>, defaults: map<string, V>, attrs: map<string, V>) {
    forall name :: name in attrs ==> !IsContextVar(baseNames, defaults, name)
  }

  /** `__getattribute__` for a name it does not hand straight to Python's
      object machinery: a context variable reads as the engine's value when
      some frame holds it and as the class default otherwise; any other name
      reads as the instance attribute, or raises. */
  function Read<V>(baseNames: set<string>, defaults: map<string, V>, s: State<V>, name: string): Result<V> {
    if IsContextVar(baseNames, defaults, name) then
      Ok(Lookup(s.frames, name).GetOr(defaults[name]))
    else if name in s.attrs then
      Ok(s.attrs[name])
    else
      Err(AttributeError(name))
  }

  /** `__setattr__` for such a name: a context variable goes into the
      engine's current frame (raising when there is none), anything else into
      the instance dict. */
  function Write<V>(baseNames: set<string>, defaults: map<string, V>, s: State<V>, name: string, value: V): Result<State<V>> {
    if IsContextVar(baseNames, defaults, name) then
      if s.frames == [] then Err(RuntimeError)
      else Ok(State(s.attrs, SetTop(s.frames, name, value)))
    else
      Ok(State(s.attrs[name := value], s.frames))
  }

  /** `get(name)`: only context variables, read as an attribute. */
  function Get<V>(baseNames: set<string>, defaults: map<string, V>, s: State<V>, name: string): Result<V> {
    if IsContextVar(baseNames, defaults, name) then Read(baseNames, defaults, s, name)
    else Err(AttributeError(name))
  }

  /** `set(name, value)`: only context variables, written as an attribute. */
  function Set<V>(baseNames: set<string>, defaults: map<string, V>, s: State<V>, name: string, value: V): Result<State<V>> {
    if IsContextVar(baseNames, defaults, name) then Write(baseNames, defaults, s, name, value)
    else Err(AttributeError(name))
  }

  /** A read of a context variable never fails; `get` of any other name
      fails even when an instance attribute of that name exists. */
  lemma GetIsStrict<V>(baseNames: set<string>, defaults: map<string, V>, s: State<V>, name: string)
    ensures Get(baseNames, defaults, s, name).Ok? <==> IsContextVar(baseNames, defaults, name)
  {
  }

  /** A successful write is read back; every other name reads as before; the
      engine's depth and outer frames are untouched. */
  lemma {:induction false} WriteThenRead<V>(baseNames: set<string>, defaults: map<string, V>, s: State<V>, name: string, value: V, other: string)
    requires Write(baseNames, defaults, s, name, value).Ok?
    ensures var s' := Write(baseNames, defaults, s, name, value).value;
      && Read(baseNames, defaults, s', name) == Ok(value)
      && (other != name ==> Read(baseNames, defaults, s', other) == Read(baseNames, defaults, s, other))
      && SameOuterFrames(s.frames, s'.frames)
  {
    if IsContextVar(baseNames, defaults, name) {
      SetTopEffect(s.frames, name, value, other);
    }
  }

  /** A write fails only for a context variable while the engine has no frame
      at all. */
  lemma WriteFailsOnlyOutsideAnyScope<V>(baseNames: set<string>, defaults: map<string, V>, s: State<V>, name: string, value: V)
    ensures Write(baseNames, defaults, s, name, value).Err?
        <==> IsContextVar(baseNames, defaults, name) && s.frames == []
  {
  }

  /** Writes keep instance attributes apart from context variables. */
  lemma WriteKeepsAttrsApart<V>(baseNames: set<string>, defaults: map<string, V>, s: State<V>, name: string, value: V)
    requires AttrsApart(baseNames, defaults, s.attrs)
    requires Write(baseNames, defaults, s, name, value).Ok?
    ensures AttrsApart(baseNames, defaults, Write(baseNames, defaults, s, name, value).value.attrs)
  {
  }

  /** The state after `reset_context()` on the engine. */
  function ClearScope<V>(s: State<V>): State<V>
    requires s.frames != []
  {
    State(s.attrs, ClearTop(s.frames))
  }

  /** After `reset_context()` a context variable reads as the outer frames
      say, or as the class default when none of them holds it. */
  lemma {:induction false} ClearScopeRevealsOuter<V>(baseNames: set<string>, defaults: map<string, V>, s: State<V>, name: string)
    requires s.frames != []
    requires IsContextVar(baseNames, defaults, name)
    ensures Read(baseNames, defaults, ClearScope(s), name)
         == Ok(Lookup(s.frames[..|s.frames| - 1], name).GetOr(defaults[name]))
  {
    ClearTopEffect(s.frames, name);
  }

  /** Writes, one after another; stops at the first failure. */
  function WriteAll<V>(baseNames: set<string>, defaults: map<string, V>, s: State<V>, ws: seq<(string, V)>): Result<State<V>>
    decreases |ws|
  {
    if ws == [] then Ok(s)
    else
      match Write(baseNames, defaults, s, ws[0].0, ws[0].1)
      case Err(e) => Err(e)
      case Ok(s1) => WriteAll(baseNames, defaults, s1, ws[1..])
  }

  /** Inside a scope, writes never fail and never touch the frames below the
      current one. */
  lemma {:induction false} WriteAllInScope<V>(baseNames: set<string>, defaults: map<string, V>, s: State<V>, ws: seq<(string, V)>)
    requires s.frames != []
    ensures WriteAll(baseNames, defaults, s, ws).Ok?
    ensures SameOuterFrames(s.frames, WriteAll(baseNames, defaults, s, ws).value.frames)
    decreases |ws|
  {
    if ws != [] {
      WriteThenRead(baseNames, defaults, s, ws[0].0, ws[0].1, ws[0].0);
      var s1 := Write(baseNames, defaults, s, ws[0].0, ws[0].1).value;
      WriteAllInScope(baseNames, defaults, s1, ws[1..]);
    }
  }

  /** Enter a scope with `vars`, write anything, leave the scope: every
      context variable reads as it did before the scope, while instance
      attributes keep the last value written inside it. */
  lemma ScopeExitRevertsOnlyContextVars<V>(baseNames: set<string>, defaults: map<string, V>, s: State<V>, vars: Frame<V>, ws: seq<(string, V)>, name: string)
    ensures var inside := WriteAll(baseNames, defaults, State(s.attrs, s.frames + [vars]), ws);
      && inside.Ok?
      && |inside.value.frames| == |s.frames| + 1
      && var after := State(inside.value.attrs, inside.value.frames[..|s.frames|]);
      && after.frames == s.frames
      && (IsContextVar(baseNames, defaults, name) ==> Read(baseNames, defaults, after, name) == Read(baseNames, defaults, s, name))
      && (!IsContextVar(baseNames, defaults, name) ==> Read(baseNames, defaults, after, name) == Read(baseNames, defaults, inside.value, name))
  {
    WriteAllInScope(baseNames, defaults, State(s.attrs, s.frames + [vars]), ws);
  }
}
