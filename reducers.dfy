/**
 * Actions and reducers. A reducer is an arbitrary pure function of the state
 * and the action; `None` stands for the reducer throwing.
 */
module Reducers {
  import opened Wrappers

  /**
   * What may be dispatched: the marker the store sends once at construction,
   * or any other object the caller passes to Dispatch.
   */
  datatype Action<A> = InitStoreAction | Custom(payload: A)

  type Reducer<!S, !A> = (S, Action<A>) -> Option<S>

  /**
   * The state reached by applying `reducer` to `s` and then to each action in
   * turn (a left fold); `None` as soon as one application throws.
   */
  function Replay<S, A>(reducer: Reducer<S, A>, s: S, actions: seq<Action<A>>): Option<S>
  {
    if actions == [] then Some(s)
    else
      match reducer(s, actions[0])
      case None => None
      case Some(next) => Replay(reducer, next, actions[1..])
  }

  /** Replaying `xs + ys` is replaying `xs`, then `ys` from where `xs` ended. */
  lemma {:induction false} ReplayAppend<S, A>(reducer: Reducer<S, A>, s: S, xs: seq<Action<A>>, ys: seq<Action<A>>)
    ensures Replay(reducer, s, xs + ys) ==
              match Replay(reducer, s, xs)
              case None => None
              case Some(t) => Replay(reducer, t, ys)
  {
    if xs == [] {
      assert xs + ys == ys;
    } else {
      assert (xs + ys)[0] == xs[0];
      assert (xs + ys)[1..] == xs[1..] + ys;
      match reducer(s, xs[0])
      case None =>
      case Some(next) => ReplayAppend(reducer, next, xs[1..], ys);
    }
  }

  /**
   * One more action: the fold of `xs + [a]` is the reducer applied to the fold
   * of `xs` and `a`, and fails exactly when one of the two fails.
   */
  lemma ReplaySnoc<S, A>(reducer: Reducer<S, A>, s: S, xs: seq<Action<A>>, a: Action<A>)
    ensures Replay(reducer, s, xs + [a]) ==
              match Replay(reducer, s, xs)
              case None => None
              case Some(t) => reducer(t, a)
  {
    ReplayAppend(reducer, s, xs, [a]);
    match Replay(reducer, s, xs)
    case None =>
    case Some(t) =>
      assert [a][1..] == [];
  }
}
