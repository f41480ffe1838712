# Reducto store, modelled in Dafny

This project models the synchronous core of `Store<State>` from the Reducto
library (a Redux-style state container for .NET):

- **BasicStore** holds the single state value, the root reducer and the list of
  subscribers. Construction runs the reducer once on `default(State)` and the
  `InitStoreAction` marker. `Dispatch` replaces the state with the reducer's
  result, then calls every subscriber in list order. `Subscribe` appends and
  returns an unsubscribe closure that performs `List.Remove`.
- **The middleware chain** is built by `Store.Middleware`: the middlewares are
  reversed and folded over the BasicStore's `Dispatch`, so the first one
  registered is outermost. Calling `Middleware` again replaces the chain.
- **`Store.Dispatch(Object)`** sends a plain action through the current chain.
- **`asyncAction<T, Result>` / `asyncActionVoid<T>`** are closures that bind an
  async action body to a parameter; **`asyncAction<Result>`** wraps an
  unparameterised async action in a closure that forwards both delegates.

How the model represents them:

- The reducer is an arbitrary function `(S, Action<A>) -> Option<S>`. `None`
  stands for the reducer throwing. `Action<A>` is either `InitStoreAction` or
  any other object the caller dispatches.
- `default(State)` is a parameter (`defaultState`) of the store factories.
- Subscribers and middlewares are opaque callbacks. Each is identified by a
  number. The BasicStore keeps a ghost `trace` of every call into a middleware
  (`Pre`, `Post`), into the reducer (`Reduced`) and into a subscriber
  (`Notified`). The ordering properties are stated on this trace.
- A middleware has the standard shape: enter (`Pre`), call its next with the
  action, then leave (`Post`) when next returns normally. When the reducer
  throws, the exception passes out through every middleware, so no `Post`
  is recorded. The executor delegate chain becomes the datatype
  `Executor = Terminal | Wrap(middleware, next)`.
- A constructor that throws becomes a static `New` that returns `None`.
  `Store.Dispatch` and `BasicStore.Dispatch` return `ok == false` where the
  C# code's reducer would throw. Throwing subscribers are not modelled (see
  "Left out").
- `BasicStore.Valid()` says the state always equals the reducer folded left
  (`Replay`) from `default(State)` over `InitStoreAction` and then every
  action whose reduction succeeded.

Three behaviours of the code are easy to miss:
- Unsubscribing is `List.Remove`, which takes the FIRST equal entry. It is
  idempotent only when the subscriber is registered once
  (`Lists.RemoveTwiceOnSingle`). With duplicates, a second call removes another
  registration, and an unsubscribe returned by a later `Subscribe` removes the
  earlier registration (`Lists.RemoveAfterAppend`).
- Notification iterates the live list with `foreach`. It does not iterate a
  snapshot, and changing the list during the pass would throw. The model's
  subscribers cannot call back into the store, so the list cannot change
  during a pass.
- `Dispatch` takes no lock.

## Model

| member | source | states |
|---|---|---|
| `Lists.IndexOf` | src/Reducto/Store.cs:147 | The position List.Remove looks for: -1 exactly when the subscriber is absent, otherwise an index holding it with no earlier occurrence |
| `Lists.Remove` | src/Reducto/Store.cs:147 | List.Remove: an absent subscriber leaves the list unchanged; a present one shortens it by exactly one |
| `Lists.RemoveMultiset` | src/Reducto/Store.cs:147 | The unsubscribe closure takes away exactly one copy of its subscriber, and every other subscriber keeps all of its registrations |
| `Lists.RemoveCutsFirstOccurrence` | src/Reducto/Store.cs:147 | The removed entry is the first occurrence, and all other entries keep their relative order |
| `Lists.RemoveAfterAppend` | src/Reducto/Store.cs:144-147 | Subscribe followed by its unsubscribe restores the list when the subscriber was new. When it was already present, the earlier registration goes and the new one stays last |
| `Lists.RemoveTwiceOnSingle` | src/Reducto/Store.cs:147 | For a subscriber registered once, calling unsubscribe a second time changes nothing |
| `Lists.Reverse` | src/Reducto/Store.cs:125 | Enumerable.Reverse: same length, element i is the input's element n-1-i |
| `Lists.Aggregate` | src/Reducto/Store.cs:126 | Enumerable.Aggregate with a seed is a left fold: the seed for an empty list, otherwise the accumulator function applied to the fold of all but the last element and the last element |
| `Lists.AggregateSnoc` | src/Reducto/Store.cs:126 | Enumerable.Aggregate is a left fold: one more element applies the accumulator function once more, last |
| `Reducers.ReplayAppend` | src/Reducto/Store.cs:150-152 | Folding the reducer over xs + ys is folding over xs, then over ys from the state reached; a throw anywhere makes the whole fold fail |
| `Reducers.ReplaySnoc` | src/Reducto/Store.cs:150-152 | The state after one more dispatch is the reducer applied to the previous fold and the new action |
| `Trace.Notifications` | src/Reducto/Store.cs:153-156 | A notification pass makes one call per list entry, in list order, each with the new state |
| `Trace.CountsOfAppend` | src/Reducto/Store.cs:150-156 | Counts of reducer calls and of calls to a subscriber add up over concatenated histories |
| `Trace.NotificationCounts` | src/Reducto/Store.cs:153-156 | A notification pass never calls the reducer, and calls each subscriber as many times as it is registered |
| `Trace.TerminalCounts` | src/Reducto/Store.cs:150-157 | BasicStore.Dispatch calls the reducer exactly once. It calls each subscriber once per registration when the reducer returns, and never when it throws |
| `Middlewares.Compose` | src/Reducto/Store.cs:121-127 | The Select/Reverse/Aggregate pipeline yields M0(M1(...Mn-1(Dispatch)...)), and the bare BasicStore.Dispatch when there are no middlewares |
| `Middlewares.AggregateIsNested` | src/Reducto/Store.cs:124-126 | Folding the reversed list with "wrap the accumulator" nests the middlewares first-outermost around any seed |
| `Middlewares.NestedAroundTerminal` | src/Reducto/Store.cs:126 | Nesting around the seed store.Dispatch is the chain ending in the terminal dispatch |
| `Middlewares.Entries` | src/Reducto/Store.cs:123-126 | Middleware entries occur in registration order |
| `Middlewares.Exits` | src/Reducto/Store.cs:123-126 | Middleware exits occur in reverse registration order |
| `Middlewares.AroundNested` | src/Reducto/Store.cs:121-127 | Running the nested chain gives Pre0..Pre(n-1), then the terminal's calls, then Post(n-1)..Post0, with the Posts only when the dispatch completed |
| `BasicStores.BasicStore.constructor` | src/Reducto/Store.cs:138-142 | The state is rootReducer(default(State), InitStoreAction), the list is empty, and the reducer has run exactly once |
| `BasicStores.BasicStore.New` | src/Reducto/Store.cs:138-142 | Construction fails exactly when the init reduction throws; otherwise the fresh store is seeded as above, with [InitStoreAction] as its only applied action |
| `BasicStores.BasicStore.Subscribe` | src/Reducto/Store.cs:144-148 | Appends the subscriber at the end and leaves earlier entries, the state and the history unchanged. Returns a fresh closure bound to this store and subscriber |
| `BasicStores.BasicStore.Dispatch` | src/Reducto/Store.cs:150-157 | The state becomes rootReducer(old state, action). Then every subscriber is called once, in list order, with the new state. If the reducer throws, the state is kept and nobody is called. The list never changes, and the fold invariant is kept |
| `BasicStores.BasicStore.Notify` | src/Reducto/Store.cs:153-156 | The foreach calls every subscriber once, in list order, with the current state, and changes nothing but the history |
| `BasicStores.BasicStore.GetState` | src/Reducto/Store.cs:159-162 | Returns the committed state: the reducer folded over all successfully applied actions |
| `BasicStores.Unsubscribe.Invoke` | src/Reducto/Store.cs:147 | Removes the first occurrence of its subscriber from the owner's list and changes nothing else |
| `Stores.DispatchCounts` | src/Reducto/Store.cs:73-76 | For any list of middlewares of the enter / call next once / leave shape, one plain dispatch calls the reducer exactly once. Each subscriber is called once per registration on success, and never on a throw |
| `Stores.MiddlewareEventsCount` | src/Reducto/Store.cs:123-126 | Middleware entries and exits are neither reducer nor subscriber calls |
| `Stores.Store.constructor` | src/Reducto/Store.cs:62-66 | Builds its own fresh BasicStore, seeded with rootReducer(default(State), InitStoreAction) after one reducer call, and installs the empty chain, Middleware(), which is BasicStore.Dispatch itself |
| `Stores.Store.New` | src/Reducto/Store.cs:62-66 | Store construction fails exactly when the init reduction throws; otherwise a fresh store with a fresh BasicStore whose state is the fold from default(State) over [InitStoreAction], with no subscribers and no middlewares |
| `Stores.Store.Middleware` | src/Reducto/Store.cs:121-127 | Replaces the chain (does not extend it) with the first-outermost nesting of the given middlewares |
| `Stores.Store.Subscribe` | src/Reducto/Store.cs:68-71 | Forwards to BasicStore.Subscribe with the same effect: the subscriber is appended, and the state, the applied actions and the history are unchanged |
| `Stores.Store.Dispatch` | src/Reducto/Store.cs:73-76 | The action reaches the state only through the current chain. The state and subscriber calls are those of BasicStore.Dispatch. The history grows by exactly DispatchEvents of the registered middlewares |
| `Stores.Store.Execute` | src/Reducto/Store.cs:123-126 | Calling an executor runs each middleware's Pre, then its next, then its Post when next returned. The terminal is BasicStore.Dispatch |
| `Stores.Store.GetState` | src/Reducto/Store.cs:116-119 | Returns the committed state of the BasicStore |
| `AsyncActions.BindParameter` | src/Reducto/Store.cs:98-108 | asyncAction<T,Result> and asyncActionVoid<T>: the action built for parameter p, run with (dispatch, getState), is the body run with (dispatch, getState, p). So actions built for different parameters are independent |
| `AsyncActions.Forward` | src/Reducto/Store.cs:110-114 | asyncAction<Result>(action) behaves as the action on every pair of delegates |

## Left out

- The Task-returning `Dispatch` overloads for async actions (src/Reducto/Store.cs:78-96). They only call the action with the store's `Dispatch` and `GetState`. Their meaning lies in the scheduling of awaited tasks, which the model does not have.
- Concurrency. `Dispatch` takes no lock, and the model is sequential.
- Subscribers and middlewares calling back into the store. A subscriber that subscribes or unsubscribes during a notification pass makes the C# `foreach` throw. A middleware may use the `IBasicStore` it receives. Neither is modelled: subscribers and middlewares are inert identities.
- Subscribers that throw. In the C# code the new state is already assigned when a subscriber throws. The subscribers after it are skipped, and the exception leaves `Store.Dispatch` through the middlewares without their exits. The model's subscribers never throw, so `Dispatch` then returns `ok == true` with every subscriber called.
- Middlewares other than the enter / call next once / leave shape. Middlewares that swallow, rewrite, repeat or themselves throw are not modelled, and no `try`/`finally` inside a middleware is modelled.
- `SimpleReducer` and `CompositeReducer` (src/Reducto/Store.cs:54-60): their sources are not part of this model. The reducer is an arbitrary function.
- The exception object a throwing reducer raises: only the fact that it threw (`None`) is kept.
- `Lists.Remove`: the bool that `List.Remove` returns is not modelled, because the unsubscribe closure discards it.
