/**
 * The base view model: one observable view state, replaced whole by `updateState`, and
 * `launchCoroutine`, which runs a block to completion and hands an exception it throws to
 * `handleError`. A block is modelled by how it ended: the state it had reached and the exception,
 * if any. The concrete view models of this project call `Settle` for each of their blocks.
 */
module BaseViewModel {
  import opened Wrappers
  import opened ErrorHandler

  /** How a launched block ended: the state its `updateState` calls had reached, and what it threw. */
  datatype Outcome<S> = Outcome(reached: S, thrown: Option<Throwable>)

  /** The state `launchCoroutine` leaves: what the block reached, passed through `handleError` if it threw. */
  function Settle<S>(o: Outcome<S>, handleError: (S, Throwable) -> S): (s: S)
    ensures o.thrown.None? ==> s == o.reached
    ensures o.thrown.Some? ==> s == handleError(o.reached, o.thrown.value)
  {
    match o.thrown
    case None => o.reached
    case Some(e) => handleError(o.reached, e)
  }

  /** The default `handleError` does nothing. */
  function DefaultHandleError<S>(s: S, e: Throwable): S {
    s
  }

  /** Without an override, an exception is swallowed: the state stays wherever the block had left it. */
  lemma DefaultSwallows<S>(o: Outcome<S>)
    ensures Settle(o, DefaultHandleError) == o.reached
  {
  }

  /**
   * The base class itself, for blocks that only touch the view state. `errorsHandled` counts the
   * calls of `handleError`.
   */
  class ViewModel<S> {
    var state: S
    var errorsHandled: nat
    const handleError: (S, Throwable) -> S

    /** The state starts as `initViewState()`. */
    constructor(initViewState: S, handleError: (S, Throwable) -> S)
      ensures state == initViewState && errorsHandled == 0 && this.handleError == handleError
    {
      state := initViewState;
      errorsHandled := 0;
      this.handleError := handleError;
    }

    /** `updateState`: the state becomes `update` of the current one. */
    method UpdateState(update: S -> S)
      modifies this
      ensures state == update(old(state)) && errorsHandled == old(errorsHandled)
    {
      state := update(state);
    }

    /** `launchCoroutine`: `handleError` runs exactly once when the block throws, and never otherwise. */
    method LaunchCoroutine(block: S -> Outcome<S>)
      modifies this
      ensures state == Settle(block(old(state)), handleError)
      ensures errorsHandled == old(errorsHandled) + (if block(old(state)).thrown.Some? then 1 else 0)
    {
      var o := block(state);
      if o.thrown.Some? {
        state := handleError(o.reached, o.thrown.value);
        errorsHandled := errorsHandled + 1;
      } else {
        state := o.reached;
      }
    }
  }
}
