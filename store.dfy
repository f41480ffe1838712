/**
 * Store<State>: the public facade. It owns a BasicStore and the composed
 * middleware executor through which every plain action reaches it.
 */
module Stores {
  import opened Wrappers
  import opened Reducers
  import opened Trace
  import opened Middlewares
  import opened BasicStores

  /**
   * The calls one plain dispatch through middlewares `ms` makes, in order:
   * every middleware entered first to last, the reducer, and, if the reducer
   * returned a state, every subscriber with it and every middleware left last
   * to first. When the reducer throws, the exception passes back through the
   * middlewares and nothing after the reducer call happens.
   */
  function DispatchEvents<S, A>(ms: seq<MiddlewareId>, action: Action<A>, subscribers: seq<SubscriberId>, outcome: Option<S>): seq<Event<S, A>>
  {
    Entries(ms) + TerminalEvents(action, subscribers, outcome) + (if outcome.Some? then Exits(ms) else [])
  }

  /**
   * One plain dispatch calls the reducer exactly once whatever the chain, and
   * calls each subscriber once per registration if the reducer returned and
   * never if it threw.
   */
  lemma DispatchCounts<S, A>(ms: seq<MiddlewareId>, action: Action<A>, subscribers: seq<SubscriberId>, outcome: Option<S>, id: SubscriberId)
    ensures ReducerCalls(DispatchEvents(ms, action, subscribers, outcome)) == 1
    ensures CallsTo(DispatchEvents(ms, action, subscribers, outcome), id) ==
              if outcome.Some? then multiset(subscribers)[id] else 0
  {
    var pre: seq<Event<S, A>> := Entries(ms);
    var core := TerminalEvents(action, subscribers, outcome);
    var post: seq<Event<S, A>> := if outcome.Some? then Exits(ms) else [];
    MiddlewareEventsCount(pre, id);
    MiddlewareEventsCount(post, id);
    TerminalCounts(action, subscribers, outcome, id);
    CountsOfAppend(pre, core, id);
    CountsOfAppend(pre + core, post, id);
  }

  /** Middleware Pre and Post events are neither reducer calls nor subscriber calls. */
  lemma {:induction false} MiddlewareEventsCount<S, A>(t: seq<Event<S, A>>, id: SubscriberId)
    requires forall i :: 0 <= i < |t| ==> t[i].Pre? || t[i].Post?
    ensures ReducerCalls(t) == 0 && CallsTo(t, id) == 0
  {
    if t != [] {
      MiddlewareEventsCount(t[1..], id);
    }
  }

  class Store<S, A> {
    const store: BasicStore<S, A>
    var middlewares: Executor
    /** The middlewares of the last Middleware(...) call, in registration order. */
    ghost var registered: seq<MiddlewareId>

    ghost predicate Valid()
      reads this, store
    {
      store.Valid() && middlewares == Compose(registered)
    }

    /**
     * The store builds its own BasicStore, which runs the reducer once on the
     * init marker, and installs the empty chain, Middleware(). A reducer that
     * throws at init is the `None` branch of New below.
     */
    constructor (rootReducer: Reducer<S, A>, defaultState: S)
      requires rootReducer(defaultState, InitStoreAction).Some?
      ensures Valid() && fresh(store)
      ensures store.rootReducer == rootReducer && store.defaultState == defaultState
      ensures store.state == rootReducer(defaultState, InitStoreAction).value
      ensures store.subscriptions == [] && store.applied == [InitStoreAction]
      ensures store.trace == [Reduced(InitStoreAction)]
      ensures registered == [] && middlewares == Terminal
    {
      store := new BasicStore(rootReducer, defaultState);
      new;
      Middleware([]);
    }

    /** `new Store<State>(rootReducer)`, which throws when the reducer does at init. */
    static method New(rootReducer: Reducer<S, A>, defaultState: S) returns (r: Option<Store<S, A>>)
      ensures r.None? <==> rootReducer(defaultState, InitStoreAction).None?
      ensures r.Some? ==>
                && fresh(r.value) && fresh(r.value.store) && r.value.Valid()
                && r.value.store.rootReducer == rootReducer
                && r.value.store.defaultState == defaultState
                && r.value.store.state == rootReducer(defaultState, InitStoreAction).value
                && r.value.store.subscriptions == []
                && r.value.store.applied == [InitStoreAction]
                && r.value.store.trace == [Reduced(InitStoreAction)]
                && r.value.registered == []
    {
      if rootReducer(defaultState, InitStoreAction).None? {
        return None;
      }
      var s := new Store(rootReducer, defaultState);
      return Some(s);
    }

    /**
     * Middleware(ms) replaces the chain (it does not add to it) with the
     * nesting of `ms` around the BasicStore's Dispatch, first one outermost.
     */
    method Middleware(ms: seq<MiddlewareId>)
      requires store.Valid()
      modifies this
      ensures Valid()
      ensures registered == ms && middlewares == Nested(ms)
    {
      middlewares := Compose(ms);
      registered := ms;
    }

    method Subscribe(subscription: SubscriberId) returns (u: Unsubscribe<S, A>)
      requires Valid()
      modifies store
      ensures Valid()
      ensures store.subscriptions == old(store.subscriptions) + [subscription]
      ensures store.state == old(store.state) && store.applied == old(store.applied)
      ensures store.trace == old(store.trace)
      ensures fresh(u) && u.owner == store && u.subscription == subscription
    {
      u := store.Subscribe(subscription);
    }

    /**
     * Dispatch(action) runs the current chain. The reducer sees the action
     * once; the history grows by exactly DispatchEvents of the registered
     * middlewares; `ok` is false when the reducer threw, in which case the
     * state is unchanged.
     */
    method Dispatch(action: Action<A>) returns (ok: bool)
      requires Valid()
      modifies store
      ensures Valid()
      ensures ok <==> store.rootReducer(old(store.state), action).Some?
      ensures store.state == if ok then store.rootReducer(old(store.state), action).value else old(store.state)
      ensures store.applied == old(store.applied) + (if ok then [action] else [])
      ensures store.subscriptions == old(store.subscriptions)
      ensures store.trace == old(store.trace) +
                DispatchEvents(registered, action, store.subscriptions, store.rootReducer(old(store.state), action))
    {
      ok := Execute(middlewares, action);
      AroundNested(registered, TerminalEvents(action, store.subscriptions, store.rootReducer(old(store.state), action)), ok);
    }

    /** Calls executor `e` with the action: each middleware around its next, then the BasicStore. */
    method Execute(e: Executor, action: Action<A>) returns (ok: bool)
      requires store.Valid()
      modifies store
      ensures store.Valid()
      ensures ok <==> store.rootReducer(old(store.state), action).Some?
      ensures store.state == if ok then store.rootReducer(old(store.state), action).value else old(store.state)
      ensures store.applied == old(store.applied) + (if ok then [action] else [])
      ensures store.subscriptions == old(store.subscriptions)
      ensures store.trace == old(store.trace) +
                Around(e, TerminalEvents(action, store.subscriptions, store.rootReducer(old(store.state), action)), ok)
    {
      match e
      case Terminal =>
        ok := store.Dispatch(action);
      case Wrap(m, next) =>
        store.Record(Pre(m));
        ok := Execute(next, action);
        ghost var inner := store.trace;
        if ok {
          store.Record(Post(m));
        }
        assert store.trace == inner + (if ok then [Post(m)] else []);
    }

    method GetState() returns (s: S)
      requires Valid()
      ensures Replay(store.rootReducer, store.defaultState, store.applied) == Some(s)
    {
      s := store.GetState();
    }
  }
}
