# runtime-context, modelled in Dafny

`runtime-context` is a small dynamic-scoping library for Python. An engine
(`RuntimeContextWrapper`) keeps a stack of frames. Each frame maps names to
values and belongs to one active `with` block. A name resolves to its value in
the innermost frame that holds it. A write goes into the current (topmost)
frame only, so it disappears when its block exits. Every push fires a
"context_entered" notification and every pop fires "context_exited".

On top of the engine sits an environment facade (`EnvBase`, in `env.py` and in
the older `env2.py`). An application class declares the overridable names
together with their defaults. A read of a declared name returns the engine's
value, or the class default when no frame holds the name. A write to a
declared name goes to the engine's current frame. Every other name is a plain
instance attribute. `env.py` also fires `context_var_updated` for each
declared name that is written, and for each key of a frame when its scope is
entered or exited.

The project has these modules:

- `Basics` (basics.dfy): frames, `Option`, the three exceptions the library
  raises (as `Error`), results, and the engine's notifications (as `Event`).
- `Stack` (stack.dfy): the stack of frames as a value. `Lookup` is the
  innermost-first scan. `SetTop`, `ResetTop` and `ClearTop` are the three ways
  the current frame changes. The lemmas say what a lookup sees after each of
  them.
- `Scopes` (scopes.dfy): a reference semantics for programs of nested `with`
  blocks. It records the stack each block leaves behind and the notifications
  it fires.
- `RuntimeContext` (runtime_context.dfy): the engine as two classes. `Context`
  is one frame and knows its engine. `RuntimeContextWrapper` holds
  `stack: seq<Context<V>>` and an `events` log. Each method's contract relates
  the new `Frames()` to a `Stack` function of the old ones.
- `Resolution` (resolution.dfy): what the facade decides on each read and
  write. These decisions are functions over the declared defaults, the
  instance attributes and the engine's frames. Both facades share them.
- `Env` (env.dfy) and `Env2` (env2.dfy): the two facades as classes. Each
  method is tied to the `Resolution` function it implements.
- `Scenarios` (scenarios.dfy): clients proved from the method contracts
  alone. `EnterOuter` and the nested-override client follow
  `tests/test_runtime_context.py` and assert the values that test expects.
  `EnterThenExit` and `DoubleExitFails` exercise the stack discipline of
  `Context.__exit__` (a frame exits once, and only from the top).
  `ScopeThroughFacade` and `NestedScopesThroughFacade` enter scopes through the
  facade, as `tests/test_env.py` does, and check the notification order.
- `Programs` (programs.dfy): runs a `Scopes` program on a live engine, one
  engine call per statement, and proves that the engine's frames and log come
  out as `Scopes.Exec` says.

`env.py` imports the engine under the name `RuntimeContext`.
`runtime_context.py` defines it as `RuntimeContextWrapper`. The model treats
the two names as one class.

The model follows the code where its documentation or its tests suggest otherwise:

- Calling the facade (`app(...)`) does not check that the override names are
  declared. `Env.EnvBase.Call` and `Env2.EnvBase.Call` accept any frame.
- `reset_context` on the facade fires no notification of its own.
- A new engine already holds one frame, so a scope entered by the user is the
  second frame. The fixture test `tests/test_runtime_context.py:12` expects a
  depth of 1 after entering a scope.
- `rc.has(...)` in the tests does not exist in the engine. The model reads it
  as `is_context_var`.
- The facade reads a name from the engine only when the name is declared
  (`runtime_context/env.py:49-57`, `runtime_context/env2.py:32-40`). A name
  that some frame holds but the class does not declare is read from the
  instance attributes, or raises AttributeError. `Resolution.Read` does the
  same.

## Model

| member | source | states |
|---|---|---|
| Stack.LookupSomeIffHas | runtime_context/runtime_context.py:89-93 | the innermost-first scan finds a value exactly when some frame holds the name, the condition `is_context_var` tests (lines 123-127) |
| Stack.LookupIsInnermost | runtime_context/runtime_context.py:89-93 | when frame `i` holds the name and no frame above it does, the scan returns frame `i`'s value: inner frames shadow outer ones |
| Stack.LookupPushed | runtime_context/runtime_context.py:31-33 | with a frame pushed, a name it holds reads as its value and every other name reads as it did before the push |
| Stack.SetTopEffect | runtime_context/runtime_context.py:95-96 | after `set(name, v)` the depth and all outer frames are unchanged, `name` reads as `v`, and every other name reads as before |
| Stack.ResetTopEffect | runtime_context/runtime_context.py:98-103 | after `reset(name)` the depth and outer frames are unchanged, `name` reads as the outer frames give it, and other names read as before |
| Stack.ClearTopEffect | runtime_context/runtime_context.py:105-109 | after `reset_context()` the depth and outer frames are unchanged, and every name reads as the outer frames give it |
| Scopes.CountsAppend | runtime_context/runtime_context.py:31-38 | the counts of "entered" and "exited" notifications add up over concatenated logs |
| Scopes.NestedAppend | runtime_context/runtime_context.py:31-38 | two properly nested notification logs, one after the other, form a properly nested log |
| Scopes.NestedWrap | runtime_context/runtime_context.py:31-38 | "entered", then a nested and balanced body log, then "exited" is properly nested |
| Scopes.Exec | runtime_context/runtime_context.py:24-38 | one statement leaves the stack at the same depth with the same outer frames, and a whole `with` block leaves it exactly as it found it; its log has as many "exited" as "entered", and no prefix has more "exited" than "entered" |
| Scopes.ExecAll | runtime_context/runtime_context.py:24-38 | a block body keeps the depth and outer frames, and its notifications are balanced and properly nested |
| Scopes.ScopeShadowsThenReverts | tests/test_runtime_context.py:24-49 | inside a block its overrides shadow the outer values; after it exits every name reads as it did before the block, whatever the body did |
| Scopes.ExecAllChangesTopOnly | runtime_context/runtime_context.py:95-109 | a block body changes only the current frame, and changes it as its `set`, `reset` and `reset_context` calls, applied in order (`Apply`), say; the frames below stay as they were |
| Scopes.ExitSeesChangesMadeInScope | runtime_context/runtime_context.py:31-38 | for any body, a block logs "entered" with the frame as pushed, then the body's own log, then "exited" with the frame after every change the body made to it (`Apply(vars, body)`) |
| RuntimeContext.VarsOf | runtime_context/runtime_context.py:10-22 | the frames of a stack of contexts are their contents, position by position |
| RuntimeContext.Context.constructor | runtime_context/runtime_context.py:20-22 | a frame holds the given variables and is bound to its engine |
| RuntimeContext.Context.PushContext | runtime_context/runtime_context.py:31-33 | the frame goes on top of its engine's stack, then "entered" is logged with its contents |
| RuntimeContext.Context.PopContext | runtime_context/runtime_context.py:35-38 | on an empty stack it raises RuntimeError; when this frame is not on top it raises AssertionError and changes nothing; otherwise the top frame is removed and "exited" is logged with its contents at that moment |
| RuntimeContext.Context.Enter | runtime_context/runtime_context.py:24-26 | pushes the frame as `PushContext` does and returns the engine |
| RuntimeContext.Context.Exit | runtime_context/runtime_context.py:28-29 | pops the frame as `PopContext` does, failing in the same two cases |
| RuntimeContext.RuntimeContextWrapper.constructor | runtime_context/runtime_context.py:55-64 | a new engine holds exactly one empty frame, and one "entered" with the empty frame has been logged |
| RuntimeContext.RuntimeContextWrapper.Get | runtime_context/runtime_context.py:89-93 | a loop over the stack from the top returns the innermost frame's value for the name, or the default when no frame holds it; it never fails |
| RuntimeContext.RuntimeContextWrapper.IsContextVar | runtime_context/runtime_context.py:123-127 | the result is true exactly when some frame on the stack holds the name |
| RuntimeContext.RuntimeContextWrapper.Current | runtime_context/runtime_context.py:117-121 | the topmost frame, or RuntimeError on an empty stack |
| RuntimeContext.RuntimeContextWrapper.Set | runtime_context/runtime_context.py:95-96 | RuntimeError on an empty stack; otherwise the frames become `SetTop` of the old frames: only the top frame changes, to `top[name := value]` |
| RuntimeContext.RuntimeContextWrapper.Reset | runtime_context/runtime_context.py:98-103 | RuntimeError on an empty stack; otherwise the name leaves the top frame if it is there, and nothing else changes |
| RuntimeContext.RuntimeContextWrapper.ResetContext | runtime_context/runtime_context.py:105-109 | RuntimeError on an empty stack; otherwise the top frame is emptied and the outer frames are unchanged |
| RuntimeContext.RuntimeContextWrapper.NewContext | runtime_context/runtime_context.py:132-134 | a new frame owned by this engine, holding the dict argument when it is non-empty and the keyword arguments otherwise |
| RuntimeContext.RuntimeContextWrapper.Call | runtime_context/runtime_context.py:129-130 | the same frame `new_context` builds, not yet on the stack |
| RuntimeContext.RuntimeContextWrapper.PushContext | runtime_context/runtime_context.py:111-112 | a new frame with the given variables goes on top, the frames below are unchanged, and "entered" is logged |
| RuntimeContext.RuntimeContextWrapper.PopContext | runtime_context/runtime_context.py:114-115 | RuntimeError on an empty stack; otherwise the top frame is removed and "exited" is logged with its contents |
| RuntimeContext.RuntimeContextWrapper.GetAttr | runtime_context/runtime_context.py:66-73 | the strict read succeeds exactly when some frame holds the name, then with the innermost value; otherwise it raises AttributeError for that name |
| RuntimeContext.RuntimeContextWrapper.SetAttr | runtime_context/runtime_context.py:75-79 | a name that is not one of the engine's own is written with `set` |
| RuntimeContext.RuntimeContextWrapper.DelAttr | runtime_context/runtime_context.py:81-87 | the engine's own names and names no frame holds raise AttributeError and change nothing; any other name is reset in the top frame |
| Resolution.IsContextVar | runtime_context/env.py:35-41 | a name is a context variable when the application class declares it with a default and the facade base class does not define it |
| Resolution.GetIsStrict | runtime_context/env.py:68-71 | `get` succeeds exactly for declared context variables, even when an instance attribute of that name exists |
| Resolution.WriteThenRead | runtime_context/env.py:46-66 | a successful write reads back, every other name reads as before, and the engine's depth and outer frames are untouched |
| Resolution.WriteFailsOnlyOutsideAnyScope | runtime_context/env.py:59-66 | a write fails exactly for a context variable while the engine has no frame |
| Resolution.WriteKeepsAttrsApart | runtime_context/env.py:59-66 | writes never put a context variable into the instance attributes |
| Resolution.ClearScopeRevealsOuter | runtime_context/env.py:78-79 | after `reset_context` a context variable reads as the outer frames give it, or as the class default |
| Resolution.WriteAllInScope | runtime_context/env.py:59-66 | inside a scope any sequence of writes succeeds and leaves the frames below the current one untouched |
| Resolution.ScopeExitRevertsOnlyContextVars | tests/test_env2.py:36-74 | after entering a scope, writing anything and leaving, context variables read as before the scope while instance attributes keep their last write |
| Env.KeyList | runtime_context/env.py:82 | the list holds every key of the frame exactly once |
| Env.EnvClass.constructor | runtime_context/env.py:90-93 | the built class keeps the declared defaults and gets a fresh engine with one empty frame |
| Env.EnvBase.constructor | runtime_context/env.py:27-33 | a new instance has no instance attributes and has fired nothing |
| Env.EnvBase.IsContextVar | runtime_context/env.py:35-41 | `is_context_var` is `Resolution.IsContextVar` over this class's declared defaults and env.py's base-class names |
| Env.EnvBase.Read | runtime_context/env.py:46-57 | attribute read is `Resolution.Read`: the engine's value, else the class default, for a declared name; the instance attribute, else AttributeError, for any other name |
| Env.EnvBase.Write | runtime_context/env.py:59-66 | attribute write is `Resolution.Write`; "context_var_updated" fires once, for a declared name whose write succeeded |
| Env.EnvBase.Get | runtime_context/env.py:68-71 | `Resolution.Get`: AttributeError for an undeclared name, otherwise the attribute read |
| Env.EnvBase.Set | runtime_context/env.py:73-76 | `Resolution.Set`: AttributeError for an undeclared name, otherwise the attribute write and its notification |
| Env.EnvBase.ResetContext | runtime_context/env.py:78-79 | the engine's current frame is emptied, giving `Resolution.ClearScope` of the old state |
| Env.EnvBase.HandleEntered | runtime_context/env.py:81-83 | "context_var_updated" fires once per key of the entered frame |
| Env.EnvBase.HandleExited | runtime_context/env.py:85-87 | "context_var_updated" fires once per key of the exited frame |
| Env.EnvBase.Call | runtime_context/env.py:43-44 | the engine's new frame with exactly the given overrides, names unchecked |
| Env.EnvBase.Enter | runtime_context/env.py:81-83 | entering a scope puts its frame on top of the engine's stack, logs "entered", and fires "context_var_updated" once per key |
| Env.EnvBase.Exit | runtime_context/env.py:85-87 | leaving a scope succeeds exactly when its frame is on top; it then removes that frame from the engine's stack, logs "exited", and fires "context_var_updated" once per key the frame holds at that moment; on failure nothing changes |
| Env2.EnvClass.constructor | runtime_context/env2.py:61-65 | the built class keeps the declared defaults and gets a fresh engine with one empty frame |
| Env2.EnvBase.constructor | runtime_context/env2.py:7-15 | a new instance has no instance attributes |
| Env2.EnvBase.IsContextVar | runtime_context/env2.py:18-24 | `is_context_var` is `Resolution.IsContextVar` over this class's declared defaults and env2.py's base-class names |
| Env2.EnvBase.Read | runtime_context/env2.py:29-40 | attribute read is `Resolution.Read` with env2's base-class names |
| Env2.EnvBase.Write | runtime_context/env2.py:42-48 | attribute write is `Resolution.Write`: a declared name goes only to the engine's current frame, any other only to the instance attributes |
| Env2.EnvBase.Get | runtime_context/env2.py:50-53 | `Resolution.Get`: AttributeError for an undeclared name, otherwise the attribute read |
| Env2.EnvBase.Set | runtime_context/env2.py:55-58 | `Resolution.Set`: AttributeError for an undeclared name, otherwise the attribute write |
| Env2.EnvBase.Call | runtime_context/env2.py:26-27 | the engine's new frame with exactly the given overrides, names unchecked |
| Scenarios.EnterOuter | tests/test_runtime_context.py:24-28 | once `with rc(a=1)` is entered the engine holds its base frame and `{a: 1}`, in that order |
| Scenarios.EnterThenExit | runtime_context/runtime_context.py:24-38 | after one scope is entered and exited the engine holds only its base frame, and the log is "entered" for the base frame, then "entered" and "exited" for the scope |
| Scenarios.EmptyBlock | runtime_context/runtime_context.py:24-38 | `with rc(**vars): pass` on any engine leaves the same contexts on its stack and the same frames, and logs "entered" then "exited" with `vars` |
| Scenarios.ScopeThroughFacade | runtime_context/env.py:81-87 | `with app(**vars)` through the facade leaves the engine's stack as it found it, logs "entered" then "exited" for the frame, and fires "context_var_updated" twice per key |
| Scenarios.NestedScopesThroughFacade | tests/test_env.py:143-170 | two nested `with app(...)` blocks log the outer "entered", the inner "entered", the inner "exited", then the outer "exited", and leave the stack as it was |
| Programs.Run | runtime_context/runtime_context.py:95-109 | one statement run as the engine call it stands for (`set`, `reset`, `reset_context`, or a `with` block) leaves the engine's frames and log exactly as `Scopes.Exec` says, with the same contexts on the stack |
| Programs.RunScope | runtime_context/runtime_context.py:24-38 | a `with rc(**vars)` block run on the engine leaves its frames and log as `Scopes.Exec` says for that block |
| Programs.Open | runtime_context/runtime_context.py:24-33 | `rc(**vars).__enter__()` puts a new frame holding `vars` on top, leaves the frames below as they were, and logs "entered" with it |
| Programs.RunInside | runtime_context/runtime_context.py:28-38 | with the block's frame on top, running the body and then exiting removes exactly that frame and logs the body's notifications, then "exited" with the frame as the body left it |
| Programs.RunAll | runtime_context/runtime_context.py:95-109 | a block body run statement by statement leaves the engine's frames and log as `Scopes.ExecAll` says |

## Left out

- Thread-local storage of the stacks (`_thread_local`): each engine owns its stack, and concurrency is not modelled.
- The `hookery` registry and listener dispatch: each firing is appended to a log instead (`events` in the engine, `updates` in `Env.EnvBase`). Listeners that re-enter the facade, such as the config loader in `tests/test_env.py`, are not modelled.
- Env.EnvBase.Enter: the facade's "context_var_updated" handlers are called only here and in `Env.EnvBase.Exit`. In the library every instance registers its handlers on the class's shared engine (`runtime_context/env.py:30-33`), so they fire on every push and pop of that engine: through `Context.__enter__` and `__exit__`, through `push_context` and `pop_context`, and through any other instance of the class. In the model `RuntimeContext.Context.Enter`, `RuntimeContext.Context.Exit`, `PushContext` and `PopContext` append nothing to any instance's `updates`, and an instance's `updates` records only the scopes it entered and exited itself. The same holds for `Env.EnvBase.Exit`.
- Notifications carry a copy of the frame as it is when they fire. The library passes the live dict, so a listener could see later changes.
- Env.EnvBase.HandleEntered: frames are maps, so `context_var_updated` fires once per key, in an order the model does not fix; the library fires in the dict's insertion order.
- Env.EnvBase.HandleExited: fires once per key in an order the model does not fix, for the same reason.
- Env.EnvBase.Enter: its "context_var_updated" firings are stated as a multiset of keys, not in dict order.
- Env.EnvBase.Exit: its "context_var_updated" firings are stated as a multiset of keys, not in dict order.
- RuntimeContext.Context.PushContext: requires that the frame is not already on its engine's stack. The library would push the same dict twice; the model keeps the stack's frames distinct. The same holds for `RuntimeContext.Context.Enter` and `Env.EnvBase.Enter`.
- RuntimeContext.RuntimeContextWrapper.SetAttr: requires a name that is not one of the engine's own (`_stack`, `_hookery`, `context_entered`, `context_exited`). Assigning those replaces the engine's machinery through `object.__setattr__`, which is Python object plumbing.
- RuntimeContext.RuntimeContextWrapper.GetAttr: models `__getattr__` itself. Python calls it only for names its normal lookup does not find, and that lookup is not modelled.
- Env.EnvBase.Read: requires a name that is neither a dunder nor in `_internals_`. Those names go to `object.__getattribute__`, which is not modelled. The same holds for `Env2.EnvBase.Read`.
- Env.EnvBase.Write: requires a name outside `_internals_`. Those names are set on the object by `object.__setattr__` for the facade's own machinery. The same holds for `Env2.EnvBase.Write`.
- Env.EnvClass.constructor: requires that no declared name is a dunder or one of the facade's `_internals_`. The library would let such a name be declared, but it could never be read as a context variable. The same holds for `Env2.EnvClass.constructor`.
- Declared names are given directly as a map of defaults. The `type(...)` class synthesis and the `hasattr` probing of `runtime_context_env` become this map plus the fixed set of base-class names. Inherited declarations are simply part of the map. Methods and properties defined on the application class are not modelled as declared names.
- Scopes.Exec: runs on a non-empty stack. A new engine always has its base frame, and a program that pops it is not modelled.
- `runtime_context_examples/` (printing and JSON file demos), `runtime_context/__init__.py` and `tests/conftest.py` (packaging and fixture glue) are not part of this model.
