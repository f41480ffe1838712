/**
 * The private BasicStore: the single state value, the root reducer and the
 * subscriber list, and the closure that Subscribe hands back.
 */
module BasicStores {
  import opened Wrappers
  import opened Lists
  import opened Reducers
  import opened Trace

  class BasicStore<S, A> {
    const rootReducer: Reducer<S, A>
    var state: S
    var subscriptions: seq<SubscriberId>

    /** The value of `state` before construction: default(State). */
    ghost const defaultState: S
    /** The actions the reducer has returned a state for, starting with the init marker. */
    ghost var applied: seq<Action<A>>
    /** Every call made so far into middlewares, the reducer and subscribers. */
    ghost var trace: seq<Event<S, A>>

    /** The state is always the reducer folded over the applied actions. */
    ghost predicate Valid()
      reads this
    {
      && |applied| >= 1
      && applied[0] == InitStoreAction
      && Replay(rootReducer, defaultState, applied) == Some(state)
    }

    /**
     * Construction: the reducer runs once, on default(State) and the init
     * marker. Its throwing is the `None` branch of New below.
     */
    constructor (rootReducer: Reducer<S, A>, defaultState: S)
      requires rootReducer(defaultState, InitStoreAction).Some?
      ensures Valid()
      ensures this.rootReducer == rootReducer && this.defaultState == defaultState
      ensures state == rootReducer(defaultState, InitStoreAction).value
      ensures subscriptions == []
      ensures applied == [InitStoreAction]
      ensures trace == [Reduced(InitStoreAction)]
    {
      this.rootReducer := rootReducer;
      this.defaultState := defaultState;
      state := rootReducer(defaultState, InitStoreAction).value;
      subscriptions := [];
      applied := [InitStoreAction];
      trace := [Reduced(InitStoreAction)];
      new;
      assert applied[1..] == [];
    }

    /** `new BasicStore(rootReducer)`, which throws when the reducer does. */
    static method New(rootReducer: Reducer<S, A>, defaultState: S) returns (r: Option<BasicStore<S, A>>)
      ensures r.None? <==> rootReducer(defaultState, InitStoreAction).None?
      ensures r.Some? ==>
                && fresh(r.value) && r.value.Valid()
                && r.value.rootReducer == rootReducer && r.value.defaultState == defaultState
                && r.value.state == rootReducer(defaultState, InitStoreAction).value
                && r.value.subscriptions == []
                && r.value.applied == [InitStoreAction]
                && r.value.trace == [Reduced(InitStoreAction)]
    {
      if rootReducer(defaultState, InitStoreAction).None? {
        return None;
      }
      var b := new BasicStore(rootReducer, defaultState);
      return Some(b);
    }

    /**
     * Subscribe appends the subscriber at the end of the list and returns the
     * closure that removes it again; nothing else changes.
     */
    method Subscribe(subscription: SubscriberId) returns (u: Unsubscribe<S, A>)
      requires Valid()
      modifies this
      ensures Valid()
      ensures subscriptions == old(subscriptions) + [subscription]
      ensures state == old(state) && applied == old(applied) && trace == old(trace)
      ensures fresh(u) && u.owner == this && u.subscription == subscription
    {
      subscriptions := subscriptions + [subscription];
      u := new Unsubscribe(this, subscription);
    }

    /**
     * Dispatch calls the reducer on the current state. If it throws, nothing
     * else happens and `ok` is false. Otherwise the new state is stored and
     * every subscriber is called once, in list order, with it.
     */
    method Dispatch(action: Action<A>) returns (ok: bool)
      requires Valid()
      modifies this
      ensures Valid()
      ensures ok <==> rootReducer(old(state), action).Some?
      ensures state == if ok then rootReducer(old(state), action).value else old(state)
      ensures applied == old(applied) + (if ok then [action] else [])
      ensures subscriptions == old(subscriptions)
      ensures trace == old(trace) + TerminalEvents(action, subscriptions, rootReducer(old(state), action))
    {
      trace := trace + [Reduced(action)];
      var next := rootReducer(state, action);
      if next.None? {
        return false;
      }
      ReplaySnoc(rootReducer, defaultState, applied, action);
      state := next.value;
      applied := applied + [action];
      Notify();
      ok := true;
    }

    /** The foreach over the subscriber list: each one is called once, in order, with the state. */
    method Notify()
      modifies this`trace
      ensures trace == old(trace) + Notifications(subscriptions, state)
    {
      var i := 0;
      while i < |subscriptions|
        invariant 0 <= i <= |subscriptions|
        invariant trace == old(trace) + Notifications(subscriptions[..i], state)
      {
        assert subscriptions[..i + 1] == subscriptions[..i] + [subscriptions[i]];
        NotificationsSnoc<S, A>(subscriptions[..i], subscriptions[i], state);
        trace := trace + [Notified(subscriptions[i], state)];
        i := i + 1;
      }
      assert subscriptions[..i] == subscriptions;
    }

    /** Appends one call into a middleware to the history. */
    ghost method Record(e: Event<S, A>)
      modifies this`trace
      ensures trace == old(trace) + [e]
    {
      trace := trace + [e];
    }

    /** GetState returns the committed state: the fold of the reducer over the applied actions. */
    method GetState() returns (s: S)
      requires Valid()
      ensures Replay(rootReducer, defaultState, applied) == Some(s)
    {
      s := state;
    }
  }

  /** The closure returned by Subscribe: a call removes its subscriber once. */
  class Unsubscribe<S, A> {
    const owner: BasicStore<S, A>
    const subscription: SubscriberId

    constructor (owner: BasicStore<S, A>, subscription: SubscriberId)
      ensures this.owner == owner && this.subscription == subscription
    {
      this.owner := owner;
      this.subscription := subscription;
    }

    /**
     * List.Remove on the owner's list: the first occurrence goes, the others
     * keep their order, and a call when none is left changes nothing.
     */
    method Invoke()
      requires owner.Valid()
      modifies owner
      ensures owner.Valid()
      ensures owner.subscriptions == Remove(old(owner.subscriptions), subscription)
      ensures owner.state == old(owner.state) && owner.applied == old(owner.applied)
      ensures owner.trace == old(owner.trace)
    {
      owner.subscriptions := Remove(owner.subscriptions, subscription);
    }
  }
}
