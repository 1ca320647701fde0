/** The variables the threads of a client share: lib/mqlight/thread_vars.rb. */
module ThreadVariables {
  import opened Wrappers
  import opened Destinations
  import opened ClientState

  /** An exception object. */
  datatype Cause = Cause(error: Error, text: string)

  /** A state the client has moved to, and the reason given for it. */
  datatype Transition = Transition(state: State, reason: Option<Cause>)

  /** What change_state adds to the callback queue: nothing unless a callback is registered and the state changes. */
  function Callbacks(registered: bool, state: State, newState: State, reason: Option<Cause>): seq<Transition> {
    if !registered || state == newState then [] else [Transition(newState, reason)]
  }

  /** The callbacks tell every change of the state since it was `from`, and nothing else. */
  predicate Tells(from: State, callbacks: seq<Transition>, state: State)
    decreases |callbacks|
  {
    if callbacks == [] then state == from
    else callbacks[0].state != from && Tells(callbacks[0].state, callbacks[1..], state)
  }

  /** What the queue is worth: every change if a callback is registered, and nothing otherwise. */
  predicate Accounts(registered: bool, from: State, callbacks: seq<Transition>, state: State) {
    if registered then Tells(from, callbacks, state) else callbacks == []
  }

  lemma {:induction false} TellsMore(
    from: State, callbacks: seq<Transition>, state: State, newState: State, reason: Option<Cause>)
    requires Tells(from, callbacks, state)
    ensures Tells(from, callbacks + Callbacks(true, state, newState, reason), newState)
    decreases |callbacks|
  {
    var more := Callbacks(true, state, newState, reason);
    if callbacks == [] {
      assert callbacks + more == more;
    } else {
      TellsMore(callbacks[0].state, callbacks[1..], state, newState, reason);
      assert (callbacks + more)[1..] == callbacks[1..] + more;
    }
  }

  /** A change of state keeps the account. */
  lemma ChangeKeepsAccount(
    registered: bool, from: State, callbacks: seq<Transition>, state: State, newState: State, reason: Option<Cause>)
    requires Accounts(registered, from, callbacks, state)
    ensures Accounts(registered, from, callbacks + Callbacks(registered, state, newState, reason), newState)
  {
    if registered { TellsMore(from, callbacks, state, newState, reason); }
  }

  class ThreadVars {
    var state: State
    var lastStateError: Option<Cause>
    var hasCallback: bool
    var callbackQueue: seq<Transition>
    var destinations: seq<Destination>
    var replyQueue: seq<Reply>

    constructor (hasCallback: bool)
      ensures this.hasCallback == hasCallback
      ensures state == Stopped && lastStateError == None && callbackQueue == []
      ensures destinations == [] && replyQueue == []
    {
      state, lastStateError, callbackQueue, destinations, replyQueue := Stopped, None, [], [], [];
      this.hasCallback := hasCallback;
    }

    /** change_state: the reason is kept even when the state is not new. */
    method ChangeState(newState: State, reason: Option<Cause>)
      modifies this`state, this`lastStateError, this`callbackQueue
      ensures state == newState && lastStateError == reason
      ensures callbackQueue == old(callbackQueue) + Callbacks(hasCallback, old(state), newState, reason)
    {
      lastStateError := reason;
      if state == newState { return; }
      state := newState;
      if hasCallback { callbackQueue := callbackQueue + [Transition(newState, reason)]; }
    }
  }
}
