/**
 * The middleware chain. A registered middleware, once given the store, is a
 * "chainer" that wraps the next executor; the model identifies each by its
 * id and gives it the standard shape: enter (Pre), pass the action on to
 * next, and, when next returns normally, leave (Post).
 */
module Middlewares {
  import opened Lists
  import opened Trace

  /**
   * An executor: the store's own Dispatch, or a middleware wrapped around the
   * executor it received as its next.
   */
  datatype Executor = Terminal | Wrap(middleware: MiddlewareId, next: Executor)

  /** M0(M1(...Mn-1(Terminal)...)): the first middleware outermost. */
  function Nested(ms: seq<MiddlewareId>): Executor
  {
    if ms == [] then Terminal else Wrap(ms[0], Nested(ms[1..]))
  }

  /** Like Nested, but around an arbitrary innermost executor. */
  function NestedAround(ms: seq<MiddlewareId>, inner: Executor): Executor
  {
    if ms == [] then inner else Wrap(ms[0], NestedAround(ms[1..], inner))
  }

  /**
   * The chain as the store builds it: reverse the list, then fold it with the
   * store's Dispatch as seed, each middleware wrapping the accumulator. The
   * result is the nested composition, and the bare terminal when there are no
   * middlewares.
   */
  function Compose(ms: seq<MiddlewareId>): (e: Executor)
    ensures e == Nested(ms)
    ensures ms == [] ==> e == Terminal
  {
    AggregateIsNested(ms, Terminal);
    NestedAroundTerminal(ms);
    Aggregate(Reverse(ms), Terminal, (acc, m) => Wrap(m, acc))
  }

  lemma {:induction false} NestedAroundTerminal(ms: seq<MiddlewareId>)
    ensures NestedAround(ms, Terminal) == Nested(ms)
  {
    if ms != [] {
      NestedAroundTerminal(ms[1..]);
    }
  }

  /** Folding the reversed list wraps the LAST middleware first, so the first ends up outermost. */
  lemma {:induction false} AggregateIsNested(ms: seq<MiddlewareId>, seed: Executor)
    ensures Aggregate(Reverse(ms), seed, (acc, m) => Wrap(m, acc)) == NestedAround(ms, seed)
  {
    if ms != [] {
      var f := (acc: Executor, m: MiddlewareId) => Wrap(m, acc);
      AggregateSnoc(Reverse(ms[1..]), ms[0], seed, f);
      AggregateIsNested(ms[1..], seed);
    }
  }

  /** Pre events of the middlewares, in list order. */
  function Entries<S, A>(ms: seq<MiddlewareId>): (r: seq<Event<S, A>>)
    ensures |r| == |ms|
    ensures forall i :: 0 <= i < |ms| ==> r[i] == Pre(ms[i])
  {
    if ms == [] then [] else [Pre(ms[0])] + Entries(ms[1..])
  }

  /** Post events of the middlewares, in reverse list order. */
  function Exits<S, A>(ms: seq<MiddlewareId>): (r: seq<Event<S, A>>)
    ensures |r| == |ms|
    ensures forall i :: 0 <= i < |ms| ==> r[i] == Post(ms[|ms| - 1 - i])
  {
    if ms == [] then [] else Exits(ms[1..]) + [Post(ms[0])]
  }

  /**
   * The history produced by running executor `e` when the terminal dispatch
   * produces `core`: each middleware records Pre, runs its next, and records
   * Post only if the call returned normally (`completed`); a throw from the
   * reducer passes through every middleware without its Post.
   */
  function Around<S, A>(e: Executor, core: seq<Event<S, A>>, completed: bool): seq<Event<S, A>>
  {
    match e
    case Terminal => core
    case Wrap(m, next) => [Pre(m)] + Around(next, core, completed) + (if completed then [Post(m)] else [])
  }

  /**
   * Running the nested chain of [M0..Mn-1] gives Pre0..Pre(n-1), then the
   * terminal's events, then Post(n-1)..Post0 when the dispatch completed.
   */
  lemma {:induction false} AroundNested<S, A>(ms: seq<MiddlewareId>, core: seq<Event<S, A>>, completed: bool)
    ensures Around(Nested(ms), core, completed) ==
              Entries(ms) + core + (if completed then Exits(ms) else [])
  {
    if ms != [] {
      AroundNested(ms[1..], core, completed);
      var tail: seq<Event<S, A>> := if completed then [Post(ms[0])] else [];
      var rest: seq<Event<S, A>> := if completed then Exits(ms[1..]) else [];
      calc {
        Around(Nested(ms), core, completed);
        [Pre(ms[0])] + Around(Nested(ms[1..]), core, completed) + tail;
        [Pre(ms[0])] + (Entries(ms[1..]) + core + rest) + tail;
        ([Pre(ms[0])] + Entries(ms[1..])) + core + (rest + tail);
      }
    }
  }
}
