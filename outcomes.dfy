/** Settlement states of a promise and the synchronous executor that runs when
    a promise is created (PromiseLite.swift, `State` and `init`). */
module Outcomes {

  /** Values and errors are opaque to the promise: the Swift generics `Value`,
      `NewValue` and the `Error` existential are all modelled by these two. */
  type Value = int
  type Error = string

  datatype Option<T> = None | Some(value: T)

  /** The three cases of `PromiseLite.State`. */
  datatype Settlement = Pending | Fulfilled(value: Value) | Rejected(error: Error)

  /** One call an executor makes on the capabilities it is handed. */
  datatype Call = ResolveCall(value: Value) | RejectCall(error: Error)

  /** An executor, defunctionalised: the capability calls it makes while the
      constructor runs it, in order, and the error it throws at the end, if any.
      Capabilities an executor keeps for later are modelled by calling
      `Resolve`/`Reject` on the promise after it has been built. */
  datatype Executor = Executor(calls: seq<Call>, throws: Option<Error>)

  /** The settlement a capability call asks for. */
  function Requested(c: Call): Settlement
  {
    match c
    case ResolveCall(v) => Fulfilled(v)
    case RejectCall(e) => Rejected(e)
  }

  /** The guard of `resolve(value:)` and `reject(error:)`: only a pending
      promise takes the requested settlement. */
  function Apply(s: Settlement, c: Call): Settlement
  {
    if s.Pending? then Requested(c) else s
  }

  /** The state after the given calls, made one after the other from `s`. */
  function Replay(s: Settlement, calls: seq<Call>): Settlement
  {
    if calls == [] then s else Apply(Replay(s, calls[..|calls| - 1]), calls[|calls| - 1])
  }

  /** The state `init(description:executor:)` leaves a new promise in: the
      executor's calls are replayed on a pending promise, then a thrown error
      goes to `reject(error:)`. */
  function Outcome(ex: Executor): Settlement
  {
    var s := Replay(Pending, ex.calls);
    match ex.throws
    case None => s
    case Some(e) => Apply(s, RejectCall(e))
  }

  /** Once settled, a promise ignores every further capability call. */
  lemma {:induction false} SettledIsFinal(s: Settlement, calls: seq<Call>)
    requires !s.Pending?
    ensures Replay(s, calls) == s
  {
    if calls != [] {
      SettledIsFinal(s, calls[..|calls| - 1]);
    }
  }

  /** The first capability call decides the state; a pending promise stays
      pending only if no call is made. */
  lemma {:induction false} FirstCallWins(calls: seq<Call>)
    ensures calls == [] <==> Replay(Pending, calls).Pending?
    ensures calls != [] ==> Replay(Pending, calls) == Requested(calls[0])
  {
    if calls != [] {
      var init := calls[..|calls| - 1];
      FirstCallWins(init);
      if init != [] {
        assert init[0] == calls[0];
      }
    }
  }

  /** What the constructor leaves behind, in closed form: the first call if
      there is one, otherwise the thrown error, otherwise still pending. */
  lemma OutcomeOfExecutor(ex: Executor)
    ensures Outcome(ex) == if ex.calls != [] then Requested(ex.calls[0])
                           else if ex.throws.Some? then Rejected(ex.throws.value)
                           else Pending
  {
    FirstCallWins(ex.calls);
  }

  /** An executor that throws after it has settled its promise changes nothing. */
  lemma ThrowAfterSettlingIgnored(calls: seq<Call>, e: Error)
    requires calls != []
    ensures Outcome(Executor(calls, Some(e))) == Outcome(Executor(calls, None)) == Requested(calls[0])
  {
    FirstCallWins(calls);
  }
}
