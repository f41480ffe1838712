/**
 * Client code: what a caller can conclude from the contracts alone, on a
 * counter store with two middlewares and one subscriber.
 */
module Scenarios {
  import opened Wrappers
  import opened Reducers
  import opened Trace
  import opened Middlewares
  import opened BasicStores
  import opened Stores

  /** Counts the actions it sees; throws on Custom(false). */
  function Counter(s: int, a: Action<bool>): Option<int>
  {
    match a
    case InitStoreAction => Some(0)
    case Custom(good) => if good then Some(s + 1) else None
  }

  method MiddlewareOrder()
  {
    var created := Store.New(Counter, 0);
    var st := created.value;
    st.Middleware([0, 1]);
    var u := st.Subscribe(7);
    assert Entries<int, bool>([0, 1]) == [Pre(0), Pre(1)];
    assert Exits<int, bool>([0, 1]) == [Post(1), Post(0)];
    assert Notifications<int, bool>([7], 1) == [Notified(7, 1)];

    ghost var t0 := st.store.trace;
    var ok := st.Dispatch(Custom(true));
    assert ok && st.store.state == 1;
    assert st.store.trace == t0 + [Pre(0), Pre(1), Reduced(Custom(true)), Notified(7, 1), Post(1), Post(0)];

    // A reducer that throws: state kept, no subscriber called, no middleware left normally.
    ghost var t1 := st.store.trace;
    ok := st.Dispatch(Custom(false));
    assert !ok && st.store.state == 1;
    assert st.store.trace == t1 + [Pre(0), Pre(1), Reduced(Custom(false))];
  }

  method UnsubscribeTwice()
  {
    var created := Store.New(Counter, 0);
    var st := created.value;
    st.Middleware([0]);
    var u := st.Subscribe(7);
    assert Notifications<int, bool>([], 1) == [];
    assert Entries<int, bool>([0]) == [Pre(0)];
    assert Exits<int, bool>([0]) == [Post(0)];

    // Unsubscribing twice is the same as once; 7 is not called any more.
    u.Invoke();
    u.Invoke();
    assert st.store.subscriptions == [];
    ghost var t0 := st.store.trace;
    var ok := st.Dispatch(Custom(true));
    assert st.store.state == 1;
    assert st.store.trace == t0 + [Pre(0), Reduced(Custom(true)), Post(0)];
  }

  method ReplaceChainAndFold()
  {
    var created := Store.New(Counter, 0);
    var st := created.value;
    st.Middleware([0]);
    var ok := st.Dispatch(Custom(true));

    // Replacing the chain: the old middleware is gone.
    st.Middleware([]);
    ghost var t0 := st.store.trace;
    ok := st.Dispatch(Custom(true));
    assert st.store.trace == t0 + [Reduced(Custom(true))];

    // The state read back is the reducer folded over everything dispatched.
    var s := st.GetState();
    assert st.store.applied == [InitStoreAction, Custom(true), Custom(true)];
    assert Replay(Counter, 0, [InitStoreAction, Custom(true), Custom(true)]) == Some(s);
  }
}
