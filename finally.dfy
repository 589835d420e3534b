/** `flatFinally`, `finally` and their deprecated spellings
    (PromiseLite+Finally.swift): continuations that ignore how the source
    settled and are attached through the internal `flatMap`. */
module Finally {
  import opened Outcomes
  import opened Promises

  /** A `() throws -> NewValue` completion: the value it returns or the
      error it throws. */
  datatype Thunk = Gives(value: Value) | Raises(error: Error)

  /** The settlement a completion's result asks for. */
  function Result(h: Thunk): Settlement
  {
    match h
    case Gives(v) => Fulfilled(v)
    case Raises(e) => Rejected(e)
  }

  /** The executor `{ resolve, _ in resolve(try completion()) }` that `finally`
      builds its promise with: a throwing completion never reaches `resolve`,
      and the constructor rejects with the thrown error instead. */
  function Wrap(h: Thunk): (ex: Executor)
    ensures Outcome(ex) == Result(h) && !Outcome(ex).Pending?
    ensures h.Gives? <==> ex.calls != []
  {
    match h
    case Gives(v) =>
      FirstCallWins([ResolveCall(v)]);
      Executor([ResolveCall(v)], None)
    case Raises(e) => Executor([], Some(e))
  }

  /** `{ value in try completion() }`: whatever the value, the same reply. */
  function IgnoringValue(r: Reply): (h: Value -> Reply)
    ensures forall v :: h(v) == r
  {
    (v: Value) => r
  }

  /** `{ error in try completion() }`: whatever the error, the same reply. */
  function IgnoringError(r: Reply): (h: Error -> Reply)
    ensures forall e :: h(e) == r
  {
    (e: Error) => r
  }

  /** The pair `flatFinally` registers on its source: a `Chain` to `target`
      whose continuation answers with `r` however the source settled. */
  function FinallyChain(target: PromiseLite, r: Reply): (o: Observer)
    ensures o.Chain? && o.target == target
    ensures forall s: Settlement :: !s.Pending? ==> Respond(o.onValue, o.onError, s) == r
  {
    Chain(target, IgnoringValue(r), IgnoringError(r))
  }

  /** Whatever the source settled with, a finally pair hands on the same reply. */
  lemma FinallyIgnoresOutcome(target: PromiseLite, r: Reply, s1: Settlement, s2: Settlement)
    requires !s1.Pending? && !s2.Pending?
    ensures Respond(FinallyChain(target, r).onValue, FinallyChain(target, r).onError, s1)
         == Respond(FinallyChain(target, r).onValue, FinallyChain(target, r).onError, s2)
         == r
  {
  }

  /** `flatFinally(_:)`: a new promise that, once the source has settled
      either way, follows the promise `completion` answers with (or rejects
      with what it throws). */
  method FlatFinally(source: PromiseLite, completion: Reply, ghost U: set<PromiseLite>, log: Journal)
    returns (outer: PromiseLite, ghost U': set<PromiseLite>)
    requires source in U && Closed(U) && ReplyIn(completion, U)
    modifies U, log
    ensures fresh(outer) && U' == U + {outer} && Closed(U') && source.state == old(source.state)
    ensures Now(U', log) == FlatMapped(old(Now(U, log)), source, outer, IgnoringValue(completion), IgnoringError(completion))
    ensures old(source.state).Pending? ==>
      outer.state == Pending && outer.observers == [] && log.events == old(log.events) &&
      source.observers == old(source.observers) + [FinallyChain(outer, completion)] &&
      Snap(U - {source}) == old(Snap(U - {source}))
    ensures !old(source.state).Pending? ==>
      var st := Initially(completion, old(Snap(U)));
      outer.state == st && outer.observers == [] &&
      log.events == old(log.events) + [Invoked(FinallyChain(outer, completion), old(source.state))] +
                    (if st.Pending? then [] else [Invoked(Forward(outer), st)]) &&
      Snap(U) == (if st.Pending? && completion.Returns?
                  then old(Snap(U))[completion.promise := Cell(Pending, old(completion.promise.observers) + [Forward(outer)])]
                  else old(Snap(U)))
  {
    assert HandlersIn(IgnoringValue(completion), IgnoringError(completion), U);
    outer, U' := source.FlatMapWith(IgnoringValue(completion), IgnoringError(completion), U, log);
  }

  /** `finally(_:)`: a new promise that, once the source has settled either
      way, is fulfilled with what `completion` returns or rejected with what it
      throws. */
  method Finally(source: PromiseLite, completion: Thunk, ghost U: set<PromiseLite>, log: Journal)
    returns (outer: PromiseLite, ghost U': set<PromiseLite>)
    requires source in U && Closed(U)
    modifies U, log
    ensures fresh(outer) && U' == U + {outer} && Closed(U') && source.state == old(source.state)
    ensures Now(U', log) == FlatMapped(old(Now(U, log)), source, outer,
                                       IgnoringValue(Builds(Wrap(completion))), IgnoringError(Builds(Wrap(completion))))
    ensures old(source.state).Pending? ==>
      outer.state == Pending && outer.observers == [] && log.events == old(log.events) &&
      source.observers == old(source.observers) + [FinallyChain(outer, Builds(Wrap(completion)))] &&
      Snap(U - {source}) == old(Snap(U - {source}))
    ensures !old(source.state).Pending? ==>
      outer.state == Result(completion) && outer.observers == [] && Snap(U) == old(Snap(U)) &&
      log.events == old(log.events) + [Invoked(FinallyChain(outer, Builds(Wrap(completion))), old(source.state)),
                                       Invoked(Forward(outer), Result(completion))]
  {
    outer, U' := FlatFinally(source, Builds(Wrap(completion)), U, log);
  }

  /** The deprecated `flatMap(finally:)`: the same as `flatFinally(_:)`. */
  method FlatMapFinally(source: PromiseLite, completion: Reply, ghost U: set<PromiseLite>, log: Journal)
    returns (outer: PromiseLite, ghost U': set<PromiseLite>)
    requires source in U && Closed(U) && ReplyIn(completion, U)
    modifies U, log
    ensures fresh(outer) && U' == U + {outer} && Closed(U') && source.state == old(source.state)
    ensures Now(U', log) == FlatMapped(old(Now(U, log)), source, outer, IgnoringValue(completion), IgnoringError(completion))
    ensures old(source.state).Pending? ==>
      outer.state == Pending && outer.observers == [] && log.events == old(log.events) &&
      source.observers == old(source.observers) + [FinallyChain(outer, completion)] &&
      Snap(U - {source}) == old(Snap(U - {source}))
    ensures !old(source.state).Pending? ==>
      var st := Initially(completion, old(Snap(U)));
      outer.state == st && outer.observers == [] &&
      log.events == old(log.events) + [Invoked(FinallyChain(outer, completion), old(source.state))] +
                    (if st.Pending? then [] else [Invoked(Forward(outer), st)]) &&
      Snap(U) == (if st.Pending? && completion.Returns?
                  then old(Snap(U))[completion.promise := Cell(Pending, old(completion.promise.observers) + [Forward(outer)])]
                  else old(Snap(U)))
  {
    outer, U' := FlatFinally(source, completion, U, log);
  }

  /** The deprecated `map(finally:)`: the same as `finally(_:)`. */
  method MapFinally(source: PromiseLite, completion: Thunk, ghost U: set<PromiseLite>, log: Journal)
    returns (outer: PromiseLite, ghost U': set<PromiseLite>)
    requires source in U && Closed(U)
    modifies U, log
    ensures fresh(outer) && U' == U + {outer} && Closed(U') && source.state == old(source.state)
    ensures Now(U', log) == FlatMapped(old(Now(U, log)), source, outer,
                                       IgnoringValue(Builds(Wrap(completion))), IgnoringError(Builds(Wrap(completion))))
    ensures old(source.state).Pending? ==>
      outer.state == Pending && outer.observers == [] && log.events == old(log.events) &&
      source.observers == old(source.observers) + [FinallyChain(outer, Builds(Wrap(completion)))] &&
      Snap(U - {source}) == old(Snap(U - {source}))
    ensures !old(source.state).Pending? ==>
      outer.state == Result(completion) && outer.observers == [] && Snap(U) == old(Snap(U)) &&
      log.events == old(log.events) + [Invoked(FinallyChain(outer, Builds(Wrap(completion))), old(source.state)),
                                       Invoked(Forward(outer), Result(completion))]
  {
    outer, U' := Finally(source, completion, U, log);
  }
}
