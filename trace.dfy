/**
 * The observable history of a store. Subscribers and middlewares are opaque
 * callbacks; the model identifies each by a number and records, in order,
 * every call the store makes into them and into the reducer.
 */
module Trace {
  import opened Wrappers
  import opened Reducers

  type SubscriberId = nat
  type MiddlewareId = nat

  datatype Event<S, A> =
    | Pre(middleware: MiddlewareId)           // a middleware is entered with the action
    | Reduced(action: Action<A>)              // the root reducer is called
    | Notified(subscriber: SubscriberId, state: S)
    | Post(middleware: MiddlewareId)          // a middleware's call to its next returned

  /** One call per entry of `subscribers`, in list order, each with `state`. */
  function Notifications<S, A>(subscribers: seq<SubscriberId>, state: S): (r: seq<Event<S, A>>)
    ensures |r| == |subscribers|
    ensures forall i :: 0 <= i < |r| ==> r[i] == Notified(subscribers[i], state)
  {
    if subscribers == [] then []
    else [Notified(subscribers[0], state)] + Notifications(subscribers[1..], state)
  }

  /** Notifying one more subscriber appends its call at the end. */
  lemma NotificationsSnoc<S, A>(subscribers: seq<SubscriberId>, id: SubscriberId, state: S)
    ensures Notifications<S, A>(subscribers + [id], state) == Notifications<S, A>(subscribers, state) + [Notified(id, state)]
  {
  }

  /**
   * What the innermost dispatch adds to the history: the reducer call, then,
   * only if the reducer returned a state, the notifications with that state.
   */
  function TerminalEvents<S, A>(action: Action<A>, subscribers: seq<SubscriberId>, outcome: Option<S>): seq<Event<S, A>>
  {
    [Reduced(action)] + (if outcome.Some? then Notifications(subscribers, outcome.value) else [])
  }

  /** How many times the reducer was called. */
  function ReducerCalls<S, A>(t: seq<Event<S, A>>): nat
  {
    if t == [] then 0 else (if t[0].Reduced? then 1 else 0) + ReducerCalls(t[1..])
  }

  /** How many times subscriber `id` was called. */
  function CallsTo<S, A>(t: seq<Event<S, A>>, id: SubscriberId): nat
  {
    if t == [] then 0 else (if t[0].Notified? && t[0].subscriber == id then 1 else 0) + CallsTo(t[1..], id)
  }

  lemma {:induction false} CountsOfAppend<S, A>(t: seq<Event<S, A>>, u: seq<Event<S, A>>, id: SubscriberId)
    ensures ReducerCalls(t + u) == ReducerCalls(t) + ReducerCalls(u)
    ensures CallsTo(t + u, id) == CallsTo(t, id) + CallsTo(u, id)
  {
    if t == [] {
      assert t + u == u;
    } else {
      assert (t + u)[1..] == t[1..] + u;
      CountsOfAppend(t[1..], u, id);
    }
  }

  /**
   * A notification pass calls the reducer never, and calls each subscriber
   * exactly as many times as it is registered.
   */
  lemma {:induction false} NotificationCounts<S, A>(subscribers: seq<SubscriberId>, state: S, id: SubscriberId)
    ensures ReducerCalls(Notifications<S, A>(subscribers, state)) == 0
    ensures CallsTo(Notifications<S, A>(subscribers, state), id) == multiset(subscribers)[id]
  {
    if subscribers != [] {
      var n := Notifications<S, A>(subscribers, state);
      assert n[1..] == Notifications<S, A>(subscribers[1..], state);
      NotificationCounts<S, A>(subscribers[1..], state, id);
      assert subscribers == [subscribers[0]] + subscribers[1..];
    }
  }

  /**
   * The innermost dispatch calls the reducer once; each subscriber is called
   * once per registration when the reducer returns, and not at all when it throws.
   */
  lemma TerminalCounts<S, A>(action: Action<A>, subscribers: seq<SubscriberId>, outcome: Option<S>, id: SubscriberId)
    ensures ReducerCalls(TerminalEvents(action, subscribers, outcome)) == 1
    ensures CallsTo(TerminalEvents(action, subscribers, outcome), id) ==
              if outcome.Some? then multiset(subscribers)[id] else 0
  {
    var rest: seq<Event<S, A>> := if outcome.Some? then Notifications(subscribers, outcome.value) else [];
    var head: seq<Event<S, A>> := [Reduced(action)];
    CountsOfAppend(head, rest, id);
    assert head[1..] == [];
    if outcome.Some? {
      NotificationCounts<S, A>(subscribers, outcome.value, id);
    }
  }
}
