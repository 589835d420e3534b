/** Whole-program uses of `PromiseLite`: each method builds its own promises,
    drives them through the operations and states what the caller observes. */
module Scenarios {
  import opened Outcomes
  import opened Promises
  import opened Finally

  /** A promise whose executor keeps its capabilities for later. */
  method NewPending() returns (p: PromiseLite)
    ensures fresh(p) && p.state == Pending && p.observers == []
  {
    p := new PromiseLite(Executor([], None));
  }

  lemma CallsOfOne(a: Observer, s: Settlement)
    ensures Calls([a], s) == [Invoked(a, s)]
  {
  }

  lemma CallsOfTwo(a: Observer, b: Observer, s: Settlement)
    ensures Calls([a, b], s) == [Invoked(a, s), Invoked(b, s)]
  {
  }

  /** Settling a pending promise with a single observer is one call of it. */
  lemma SettleSingle(w: World, p: PromiseLite, o: Observer, s: Settlement)
    requires !s.Pending? && Consistent(w.cells) && p in w.cells && w.cells[p] == Cell(Pending, [o])
    ensures Consistent(w.cells[p := Cell(s, [o])]) && ObserverIn(o, w.cells.Keys)
    ensures Settling(w, p, s) == Calling(World(w.cells[p := Cell(s, [o])], w.events), o, s)
  {
    SettleCell(w.cells, p, s);
    var w1 := World(w.cells[p := Cell(s, [o])], w.events);
    assert Settling(w, p, s) == Draining(w1, [o], s);
    assert Draining(w1, [o], s) == Draining(Calling(w1, o, s), [], s);
  }

  /** Settling a pending promise nobody observes only sets its state. */
  lemma SettleUnobserved(w: World, p: PromiseLite, s: Settlement)
    requires !s.Pending? && Consistent(w.cells) && p in w.cells && w.cells[p] == Cell(Pending, [])
    ensures Settling(w, p, s) == World(w.cells[p := Cell(s, [])], w.events)
  {
    SettleCell(w.cells, p, s);
    assert Settling(w, p, s) == Draining(World(w.cells[p := Cell(s, [])], w.events), [], s);
  }

  /** Settling a promise whose one observer forwards to an unobserved
      pending target: one call, and the target settles the same way. */
  lemma SingleForwardSettles(w: World, p: PromiseLite, t: PromiseLite, s: Settlement)
    requires !s.Pending? && Consistent(w.cells) && p in w.cells && t in w.cells && p != t
    requires w.cells[p] == Cell(Pending, [Forward(t)]) && w.cells[t] == Cell(Pending, [])
    ensures Settling(w, p, s) ==
      World(w.cells[p := Cell(s, [Forward(t)])][t := Cell(s, [])], w.events + [Invoked(Forward(t), s)])
  {
    SettleSingle(w, p, Forward(t), s);
    var w1 := World(w.cells[p := Cell(s, [Forward(t)])], w.events + [Invoked(Forward(t), s)]);
    assert Calling(World(w.cells[p := Cell(s, [Forward(t)])], w.events), Forward(t), s) == Settling(w1, t, s);
    SettleUnobserved(w1, t, s);
  }

  /** Settling a promise whose one observer is a `Chain` to an unobserved
      pending target, when the continuation answers with a promise settled
      with `st`: both calls are recorded and the target settles with `st`. */
  lemma SingleChainSettles(w: World, p: PromiseLite, t: PromiseLite, f: Value -> Reply, g: Error -> Reply, s: Settlement, st: Settlement)
    requires !s.Pending? && Consistent(w.cells) && p in w.cells && t in w.cells && p != t
    requires w.cells[p] == Cell(Pending, [Chain(t, f, g)]) && w.cells[t] == Cell(Pending, [])
    requires ReplyIn(Respond(f, g, s), w.cells.Keys) && !st.Pending?
    requires Initially(Respond(f, g, s), w.cells[p := Cell(s, [Chain(t, f, g)])]) == st
    ensures Settling(w, p, s) ==
      World(w.cells[p := Cell(s, [Chain(t, f, g)])][t := Cell(st, [])],
            w.events + [Invoked(Chain(t, f, g), s), Invoked(Forward(t), st)])
  {
    var c := Chain(t, f, g);
    SettleSingle(w, p, c, s);
    var w1 := World(w.cells[p := Cell(s, [c])], w.events);
    ChainFollowsReply(w1, t, f, g, s);
    var w2 := World(w1.cells, w1.events + [Invoked(c, s), Invoked(Forward(t), st)]);
    SettleUnobserved(w2, t, st);
  }

  /** A pending promise with one caller's pair registered. */
  method OneWaiting() returns (p: PromiseLite, log: Journal)
    ensures fresh(p) && fresh(log) && Closed({p})
    ensures p.state == Pending && p.observers == [User(1)] && log.events == []
  {
    log := new Journal();
    p := NewPending();
    p.Then(User(1), {p}, log);
  }

  /** `resolve(1)` on that promise: its one pair is called with 1. */
  method ResolvedOnce() returns (p: PromiseLite, log: Journal)
    ensures fresh(p) && fresh(log) && Closed({p})
    ensures p.state == Fulfilled(1) && log.events == [Invoked(User(1), Fulfilled(1))]
  {
    p, log := OneWaiting();
    p.Resolve(1, {p}, log);
    CallsOfOne(User(1), Fulfilled(1));
  }

  /** `resolve(1)`, then `resolve(2)`, then `reject`: the first call wins,
      and the later ones neither change the state nor call the observer again. */
  method FirstSettlementWins() returns (s: Settlement, events: seq<Event>)
    ensures s == Fulfilled(1) && events == [Invoked(User(1), Fulfilled(1))]
  {
    var p, log := ResolvedOnce();
    p.Resolve(2, {p}, log);
    p.Reject("late", {p}, log);
    s, events := p.state, log.events;
  }

  /** A pending promise with two callers' pairs registered, in order. */
  method TwoWaiting() returns (p: PromiseLite, log: Journal)
    ensures fresh(p) && fresh(log) && Closed({p})
    ensures p.state == Pending && p.observers == [User(1), User(2)] && log.events == []
  {
    p, log := OneWaiting();
    p.Then(User(2), {p}, log);
  }

  /** Two callers observe a pending promise; resolving it calls both, once
      each, in the order they registered, with the value. */
  method DrainOrder() returns (s: Settlement, events: seq<Event>)
    ensures s == Fulfilled(7)
    ensures events == [Invoked(User(1), Fulfilled(7)), Invoked(User(2), Fulfilled(7))]
  {
    var p, log := TwoWaiting();
    p.Resolve(7, {p}, log);
    CallsOfTwo(User(1), User(2), Fulfilled(7));
    s, events := p.state, log.events;
  }

  /** Observing an already rejected promise calls the rejection component at
      once and registers nothing. */
  method ObserveSettled() returns (s: Settlement, events: seq<Event>, registered: seq<Observer>)
    ensures s == Rejected("no") && events == [Invoked(User(3), Rejected("no"))] && registered == []
  {
    var log := new Journal();
    var p := new PromiseLite.AlreadyRejected("no");
    ghost var U := {p};
    p.Then(User(3), U, log);
    s, events, registered := p.state, log.events, p.observers;
  }

  /** An executor that resolves and then throws leaves the promise fulfilled;
      one that only throws leaves it rejected with the thrown error. */
  method ExecutorThrows() returns (kept: Settlement, thrown: Settlement)
    ensures kept == Fulfilled(5) && thrown == Rejected("oops")
  {
    var p := new PromiseLite(Executor([ResolveCall(5)], Some("oops")));
    var q := new PromiseLite(Executor([], Some("oops")));
    ThrowAfterSettlingIgnored([ResolveCall(5)], "oops");
    kept, thrown := p.state, q.state;
  }

  /** `PromiseLite { resolve, _ in resolve(10) }.flatMap { v in PromiseLite { resolve, _ in resolve(2 * v) } }`. */
  method DoublingChain() returns (s: Settlement)
    ensures s == Fulfilled(20)
  {
    var log := new Journal();
    var source := new PromiseLite(Executor([ResolveCall(10)], None));
    FirstCallWins([ResolveCall(10)]);
    FirstCallWins([ResolveCall(20)]);
    ghost var U := {source};
    var outer;
    ghost var U';
    outer, U' := source.FlatMap((v: Value) => Builds(Executor([ResolveCall(2 * v)], None)), U, log);
    s := outer.state;
  }

  /** The one-argument `flatMap` on a rejected promise: the continuation is
      skipped and the error reaches the new promise unchanged. */
  method RejectionPassesThrough() returns (s: Settlement)
    ensures s == Rejected("boom")
  {
    var log := new Journal();
    var source := new PromiseLite.AlreadyRejected("boom");
    ghost var U := {source};
    var outer;
    ghost var U';
    outer, U' := source.FlatMap((v: Value) => Builds(Executor([ResolveCall(v)], None)), U, log);
    s := outer.state;
  }

  /** A continuation that throws rejects the new promise with its error. */
  method ThrowingContinuation() returns (s: Settlement)
    ensures s == Rejected("bad")
  {
    var log := new Journal();
    var source := new PromiseLite(Executor([ResolveCall(5)], None));
    FirstCallWins([ResolveCall(5)]);
    ghost var U := {source};
    var outer;
    ghost var U';
    outer, U' := source.FlatMap((v: Value) => Throws("bad"), U, log);
    s := outer.state;
  }

  /** The one-argument `flatMap` with `f` on a pending promise: the source
      holds the chaining pair and the new promise waits. */
  method Chained(f: Value -> Reply) returns (source: PromiseLite, outer: PromiseLite, log: Journal)
    requires forall v :: !f(v).Returns?
    ensures fresh(source) && fresh(outer) && fresh(log) && source != outer && Closed({source, outer})
    ensures source.state == Pending && source.observers == [Chain(outer, f, Rethrow)]
    ensures outer.state == Pending && outer.observers == [] && log.events == []
  {
    log := new Journal();
    source := NewPending();
    ghost var U';
    outer, U' := source.FlatMap(f, {source}, log);
    assert U' == {source, outer};
  }

  /** `flatMap` on a pending promise registers its pair; the new promise
      settles when the source is resolved later. */
  method LateSettlement() returns (before: Settlement, after: Settlement)
    ensures before == Pending && after == Fulfilled(2)
  {
    var f := (v: Value) => Builds(Executor([ResolveCall(v + 1)], None));
    var source, outer, log := Chained(f);
    before := outer.state;
    FirstCallWins([ResolveCall(2)]);
    SingleChainSettles(Now({source, outer}, log), source, outer, f, Rethrow, Fulfilled(1), Fulfilled(2));
    source.Resolve(1, {source, outer}, log);
    after := outer.state;
  }

  /** A pending promise and a continuation that answers with it. */
  method Reflexive() returns (source: PromiseLite, log: Journal, f: Value -> Reply)
    ensures fresh(source) && fresh(log) && Closed({source})
    ensures forall v :: f(v) == Returns(source)
    ensures source.state == Pending && source.observers == [] && log.events == []
  {
    log := new Journal();
    source := NewPending();
    f := (v: Value) => Returns(source);
  }

  /** `flatMap` on a pending promise with a continuation that answers with
      the source itself. */
  method SelfChained() returns (source: PromiseLite, outer: PromiseLite, log: Journal, f: Value -> Reply)
    ensures fresh(source) && fresh(outer) && fresh(log) && source != outer && Closed({source, outer})
    ensures forall v :: f(v) == Returns(source)
    ensures source.state == Pending && source.observers == [Chain(outer, f, Rethrow)]
    ensures outer.state == Pending && outer.observers == [] && log.events == []
  {
    source, log, f := Reflexive();
    ghost var U';
    outer, U' := source.FlatMap(f, {source}, log);
    assert U' == {source, outer};
  }

  /** A continuation that answers with its own source re-enters `then` on a
      promise that is already fulfilled: the call is immediate and the
      source's observer list keeps only the pair `flatMap` registered. */
  method ReentrantContinuation() returns (s: Settlement, registered: nat)
    ensures s == Fulfilled(5) && registered == 1
  {
    var source, outer, log, f := SelfChained();
    SingleChainSettles(Now({source, outer}, log), source, outer, f, Rethrow, Fulfilled(5), Fulfilled(5));
    source.Resolve(5, {source, outer}, log);
    s, registered := outer.state, |source.observers|;
  }

  /** `finally` after a rejection: the handler's value fulfils the new promise;
      a throwing handler rejects it with its own error. */
  method FinallyAfterRejection() returns (gives: Settlement, raises: Settlement)
    ensures gives == Fulfilled(4) && raises == Rejected("handler")
  {
    var log := new Journal();
    var source := new PromiseLite.AlreadyRejected("x");
    ghost var U := {source};
    var outer;
    ghost var U';
    outer, U' := Finally.Finally(source, Gives(4), U, log);
    gives := outer.state;
    outer, U' := Finally.Finally(source, Raises("handler"), U', log);
    raises := outer.state;
  }

  /** `finally` with a handler returning 4 on a pending promise. */
  method FinallyRegistered() returns (source: PromiseLite, outer: PromiseLite, log: Journal)
    ensures fresh(source) && fresh(outer) && fresh(log) && source != outer && Closed({source, outer})
    ensures source.state == Pending && source.observers == [FinallyChain(outer, Builds(Wrap(Gives(4))))]
    ensures outer.state == Pending && outer.observers == [] && log.events == []
  {
    log := new Journal();
    source := NewPending();
    ghost var U';
    outer, U' := Finally.Finally(source, Gives(4), {source}, log);
    assert U' == {source, outer};
  }

  /** `finally` on a pending promise: the handler has not run and the new
      promise waits; once the source is rejected the handler's value wins. */
  method FinallyWaits() returns (before: Settlement, calls: nat, after: Settlement)
    ensures before == Pending && calls == 0 && after == Fulfilled(4)
  {
    var source, outer, log := FinallyRegistered();
    before, calls := outer.state, |log.events|;
    var c := FinallyChain(outer, Builds(Wrap(Gives(4))));
    SingleChainSettles(Now({source, outer}, log), source, outer, c.onValue, c.onError, Rejected("late"), Fulfilled(4));
    source.Reject("late", {source, outer}, log);
    after := outer.state;
  }

  /** Two pending promises `p` and `q`, and a continuation answering with `q`. */
  method TwoPending() returns (p: PromiseLite, q: PromiseLite, log: Journal, f: Value -> Reply)
    ensures fresh(p) && fresh(q) && fresh(log) && p != q && Closed({p, q})
    ensures forall v :: f(v) == Returns(q)
    ensures p.state == Pending && p.observers == [] && q.state == Pending && q.observers == []
    ensures log.events == []
  {
    log := new Journal();
    p := NewPending();
    q := NewPending();
    f := (v: Value) => Returns(q);
  }

  /** `flatMap` on a pending `p` whose continuation answers with `q`, which
      is pending too. */
  method Awaiting() returns (p: PromiseLite, q: PromiseLite, outer: PromiseLite, log: Journal, f: Value -> Reply)
    ensures fresh(p) && fresh(q) && fresh(outer) && fresh(log) && Closed({p, q, outer})
    ensures p != q && p != outer && q != outer
    ensures forall v :: f(v) == Returns(q)
    ensures p.state == Pending && p.observers == [Chain(outer, f, Rethrow)]
    ensures q.state == Pending && q.observers == [] && outer.state == Pending && outer.observers == []
    ensures log.events == []
  {
    p, q, log, f := TwoPending();
    ghost var before := Snap({q});
    assert {p, q} - {p} == {q};
    ghost var U';
    outer, U' := p.FlatMapWith(f, Rethrow, {p, q}, log);
    assert U' == {p, q, outer};
    assert Snap({q})[q] == before[q];
  }

  /** Resolving `p` runs the continuation; its promise `q` is pending, so
      the new promise waits on `q` and stays pending. */
  method ReplyWaits() returns (p: PromiseLite, q: PromiseLite, outer: PromiseLite, log: Journal)
    ensures fresh(p) && fresh(q) && fresh(outer) && fresh(log) && Closed({p, q, outer})
    ensures q != outer && p.state == Fulfilled(1)
    ensures q.state == Pending && q.observers == [Forward(outer)]
    ensures outer.state == Pending && outer.observers == []
  {
    var f;
    p, q, outer, log, f := Awaiting();
    ghost var U := {p, q, outer};
    ghost var c := Chain(outer, f, Rethrow);
    ghost var w := Now(U, log);
    SettleSingle(w, p, c, Fulfilled(1));
    ChainFollowsReply(World(w.cells[p := Cell(Fulfilled(1), [c])], w.events), outer, f, Rethrow, Fulfilled(1));
    p.Resolve(1, U, log);
  }

  /** `flatMap` whose continuation answers with a promise `q` that is still
      pending: resolving the source leaves the new promise pending, waiting
      on `q`; resolving `q` later settles it with `q`'s value. */
  method PendingReply() returns (waiting: Settlement, inner: Settlement, after: Settlement)
    ensures waiting == Pending && inner == Pending && after == Fulfilled(9)
  {
    var p, q, outer, log := ReplyWaits();
    waiting, inner := outer.state, q.state;
    SingleForwardSettles(Now({p, q, outer}, log), q, outer, Fulfilled(9));
    q.Resolve(9, {p, q, outer}, log);
    after := outer.state;
  }

  /** Two one-argument `flatMap` links with `f` on a pending promise. */
  method TwoChained(f: Value -> Reply) returns (p: PromiseLite, o1: PromiseLite, o2: PromiseLite, log: Journal)
    requires forall v :: !f(v).Returns?
    ensures fresh(p) && fresh(o1) && fresh(o2) && fresh(log) && Closed({p, o1, o2})
    ensures p != o1 && p != o2 && o1 != o2
    ensures p.state == Pending && p.observers == [Chain(o1, f, Rethrow)]
    ensures o1.state == Pending && o1.observers == [Chain(o2, f, Rethrow)]
    ensures o2.state == Pending && o2.observers == [] && log.events == []
  {
    p, o1, log := Chained(f);
    ghost var U';
    o2, U' := o1.FlatMap(f, {p, o1}, log);
    assert U' == {p, o1, o2};
  }

  /** Two `flatMap` links on a pending source, each adding one: resolving
      the source with 1 runs both continuations and fulfils the last promise
      with 3. */
  method TwoLinks() returns (first: Settlement, second: Settlement)
    ensures first == Fulfilled(2) && second == Fulfilled(3)
  {
    var f := (v: Value) => Builds(Executor([ResolveCall(v + 1)], None));
    var p, o1, o2, log := TwoChained(f);
    ghost var U := {p, o1, o2};
    ChainOfTwo(Now(U, log), p, o1, o2, f);
    p.Resolve(1, U, log);
    first, second := o1.state, o2.state;
  }

  /** Resolving the head of two pending `+1` links with 1 settles the links
      with 2 and 3. */
  lemma ChainOfTwo(w: World, p: PromiseLite, o1: PromiseLite, o2: PromiseLite, f: Value -> Reply)
    requires Consistent(w.cells) && p in w.cells && o1 in w.cells && o2 in w.cells
    requires p != o1 && p != o2 && o1 != o2
    requires forall v :: f(v) == Builds(Executor([ResolveCall(v + 1)], None))
    requires w.cells[p] == Cell(Pending, [Chain(o1, f, Rethrow)])
    requires w.cells[o1] == Cell(Pending, [Chain(o2, f, Rethrow)]) && w.cells[o2] == Cell(Pending, [])
    ensures Settling(w, p, Fulfilled(1)).cells[o1].state == Fulfilled(2)
    ensures Settling(w, p, Fulfilled(1)).cells[o2].state == Fulfilled(3)
  {
    var c1, c2 := Chain(o1, f, Rethrow), Chain(o2, f, Rethrow);
    FirstCallWins([ResolveCall(2)]);
    FirstCallWins([ResolveCall(3)]);
    assert Respond(f, Rethrow, Fulfilled(1)) == Builds(Executor([ResolveCall(2)], None));
    assert Respond(f, Rethrow, Fulfilled(2)) == Builds(Executor([ResolveCall(3)], None));
    SettleSingle(w, p, c1, Fulfilled(1));
    var w1 := World(w.cells[p := Cell(Fulfilled(1), [c1])], w.events);
    ChainFollowsReply(w1, o1, f, Rethrow, Fulfilled(1));
    var w2 := World(w1.cells, w1.events + [Invoked(c1, Fulfilled(1))] + [Invoked(Forward(o1), Fulfilled(2))]);
    assert Outcome(Executor([ResolveCall(2)], None)) == Fulfilled(2);
    assert Initially(Respond(f, Rethrow, Fulfilled(1)), w1.cells) == Fulfilled(2);
    assert Settling(w, p, Fulfilled(1)) == Calling(w1, c1, Fulfilled(1)) == Settling(w2, o1, Fulfilled(2));
    SingleChainSettles(w2, o1, o2, f, Rethrow, Fulfilled(2), Fulfilled(3));
  }
}
