/**
 * The factories that turn an async action body into dispatchable closures.
 * The dispatch delegate, the getState delegate and the returned Task are
 * opaque here (type parameters D, G and T): the factories only rearrange
 * arguments and never look at them.
 */
module AsyncActions {

  /**
   * asyncAction<T, Result> and asyncActionVoid<T>: given a body taking
   * (dispatch, getState, param), returns a factory that, for each parameter
   * value, builds an async action closing over that value alone. Running the
   * action built for `p` is running the body with `p`, whichever other
   * parameters the factory has been used with.
   */
  function BindParameter<D(!new), G(!new), P(!new), T>(body: (D, G, P) -> T): (factory: P -> (D, G) -> T)
    ensures forall p, dispatch, getState :: factory(p)(dispatch, getState) == body(dispatch, getState, p)
  {
    invokeParam => (dispatch, getState) => body(dispatch, getState, invokeParam)
  }

  /**
   * asyncAction<Result>(action): wraps an unparameterised async action in a
   * fresh closure that forwards both delegates unchanged.
   */
  function Forward<D(!new), G(!new), T>(action: (D, G) -> T): (wrapped: (D, G) -> T)
    ensures forall dispatch, getState :: wrapped(dispatch, getState) == action(dispatch, getState)
  {
    (dispatch, getState) => action(dispatch, getState)
  }
}
