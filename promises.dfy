/** The settlement state machine of `PromiseLite` (PromiseLite.swift): a
    mutable state, an ordered list of observers, `resolve`/`reject` that settle
    once and drain the observers in order, `then` that calls at once or
    appends, and `flatMap`, which wires a new promise to an old one.

    Closures are defunctionalised. An observer pair is an `Observer`; what a
    continuation handed to `flatMap` does is a `Reply`. Every call of an
    observer pair is recorded in a `Journal`, so that order and exactly-once
    delivery can be stated.

    Every operation takes a ghost universe `U` of promises. `Closed(U)` says
    that every promise an observer or a continuation can reach is in `U`; the
    operations modify only `U` (and promises they allocate themselves).

    Each operation is specified by a ghost function over a `World` (the state
    and observers of every promise of `U`, and the journal): `Settling` for
    `resolve`/`reject`, `Draining` for the `forEach`, `Calling` for one
    observer call, `Chaining` for the body of `flatMap`'s pair and `Observing`
    for `then`. The methods are proved to leave exactly the world these
    functions compute. */
module Promises {
  import opened Outcomes

  /** What a continuation (`completion` or `rejection` of `flatMap`) does. */
  datatype Reply =
    | Returns(promise: PromiseLite)   // returns a promise that already exists
    | Builds(executor: Executor)      // returns `PromiseLite { resolve, reject in ... }`, built on the spot
    | Rejects(error: Error)           // returns `PromiseLite.reject(error)`
    | Throws(error: Error)            // throws instead of returning a promise

  /** A `(completion, rejection)` pair held in `completions`. */
  datatype Observer =
    | User(id: nat)                   // a caller's pair; all it does is record its call
    | Forward(target: PromiseLite)    // `{ resolveWith($0) }, { rejectWith($0) }` inside `flatMap`
    | Chain(target: PromiseLite, onValue: Value -> Reply, onError: Error -> Reply)
                                      // the pair `flatMap` registers on its source

  /** One call of an observer pair: the first component with a value or the
      second with an error, as `outcome` says. */
  datatype Event = Invoked(observer: Observer, outcome: Settlement)

  /** The record of every observer call, in the order they happen. */
  class Journal {
    var events: seq<Event>

    constructor ()
      ensures events == []
    {
      events := [];
    }
  }

  /** `s` arriving at a promise in state `current`: only a pending promise takes it. */
  function Next(current: Settlement, s: Settlement): Settlement
  {
    if current.Pending? then s else current
  }

  /** The concatenation of the segments, in order. */
  function Flatten(segments: seq<seq<Event>>): seq<Event>
  {
    if segments == [] then [] else segments[0] + Flatten(segments[1..])
  }

  /** The calls of the observers `obs` with `s`, one each, in order. */
  function Calls(obs: seq<Observer>, s: Settlement): seq<Event>
  {
    seq(|obs|, i requires 0 <= i < |obs| => Invoked(obs[i], s))
  }

  predicate AllUsers(obs: seq<Observer>)
  {
    forall i :: 0 <= i < |obs| ==> obs[i].User?
  }

  // ---------------------------------------------------------------------
  // Worlds: snapshots of the universe and how they may evolve
  // ---------------------------------------------------------------------

  /** The state and observer list of one promise. */
  datatype Cell = Cell(state: Settlement, observers: seq<Observer>)

  /** The promises of the universe with their cells, and the journal so far. */
  datatype World = World(cells: map<PromiseLite, Cell>, events: seq<Event>)

  /** The cells of the promises in `U`. The value expression is guarded by
      `q in U` so that the map, as a whole, reads the heap only at `U`:
      without the guard, two snapshots of the same set equal on `U` would
      also be equated at promises outside it. */
  ghost function Snap(U: set<PromiseLite>): (m: map<PromiseLite, Cell>)
    reads U
    ensures m.Keys == U
  {
    map q | q in U :: if q in U then Cell(q.state, q.observers) else Cell(Pending, [])
  }

  ghost function Now(U: set<PromiseLite>, log: Journal): World
    reads U, log
  {
    World(Snap(U), log.events)
  }

  /** The promises of a snapshot that are still pending. */
  ghost function Waiting(m: map<PromiseLite, Cell>): set<PromiseLite>
  {
    set q | q in m && m[q].state.Pending?
  }

  /** The single-assignment rule for one promise: a settled promise never
      changes again; a pending one may settle, and its observer list only
      grows at the end. */
  ghost predicate Step(a: Cell, b: Cell)
  {
    if a.state.Pending? then a.observers <= b.observers else b == a
  }

  ghost predicate Advances(m0: map<PromiseLite, Cell>, m1: map<PromiseLite, Cell>)
  {
    forall q :: q in m0 ==> q in m1 && Step(m0[q], m1[q])
  }

  ghost predicate ReplyIn(r: Reply, K: set<PromiseLite>)
  {
    r.Returns? ==> r.promise in K
  }

  ghost predicate HandlersIn(onValue: Value -> Reply, onError: Error -> Reply, K: set<PromiseLite>)
  {
    (forall v :: ReplyIn(onValue(v), K)) && (forall e :: ReplyIn(onError(e), K))
  }

  ghost predicate ObserverIn(o: Observer, K: set<PromiseLite>)
  {
    match o
    case User(_) => true
    case Forward(t) => t in K
    case Chain(t, f, g) => t in K && HandlersIn(f, g, K)
  }

  ghost predicate AllIn(obs: seq<Observer>, K: set<PromiseLite>)
  {
    forall i :: 0 <= i < |obs| ==> ObserverIn(obs[i], K)
  }

  /** Every promise an observer of the snapshot can reach is in the snapshot. */
  ghost predicate Consistent(m: map<PromiseLite, Cell>)
  {
    forall q :: q in m ==> AllIn(m[q].observers, m.Keys)
  }

  ghost predicate Closed(U: set<PromiseLite>)
    reads U
  {
    Consistent(Snap(U))
  }

  /** `r` is a later world than `w`: the same promises, each advanced by the
      single-assignment rule, and the journal only extended. */
  ghost predicate Evolves(w: World, r: World)
  {
    && r.cells.Keys == w.cells.Keys && Consistent(r.cells)
    && Advances(w.cells, r.cells) && Waiting(r.cells) <= Waiting(w.cells)
    && w.events <= r.events
  }

  /** The promise `then` is called on, if the world tracks it. */
  ghost function Tracked(p: PromiseLite, U: set<PromiseLite>): Option<PromiseLite>
  {
    if p in U then Some(p) else None
  }

  /** The settlement a continuation's reply has in snapshot `m`: the state of
      the promise it returns, or of the promise it builds, or a rejection. */
  ghost function Initially(r: Reply, m: map<PromiseLite, Cell>): Settlement
    requires r.Returns? ==> r.promise in m
  {
    match r
    case Returns(p) => m[p].state
    case Builds(ex) => Outcome(ex)
    case Rejects(e) => Rejected(e)
    case Throws(e) => Rejected(e)
  }

  /** The default `rejection` of the one-argument `flatMap`:
      `{ error in PromiseLite<NewValue>.reject(error) }`. */
  function Rethrow(error: Error): (r: Reply)
    ensures !r.Returns? && !r.Builds? && r.error == error
  {
    Rejects(error)
  }

  /** The continuation a settled source hands its outcome to: `completion`
      with a value, `rejection` with an error. */
  function Respond(onValue: Value -> Reply, onError: Error -> Reply, s: Settlement): (r: Reply)
    requires !s.Pending?
    ensures s.Fulfilled? ==> r == onValue(s.value)
    ensures s.Rejected? ==> r == onError(s.error)
  {
    if s.Fulfilled? then onValue(s.value) else onError(s.error)
  }

  // ---------------------------------------------------------------------
  // Lemmas about snapshots
  // ---------------------------------------------------------------------

  lemma AdvancesTransitive(m0: map<PromiseLite, Cell>, m1: map<PromiseLite, Cell>, m2: map<PromiseLite, Cell>)
    requires Advances(m0, m1) && Advances(m1, m2)
    ensures Advances(m0, m2)
  {
    forall q | q in m0
      ensures q in m2 && Step(m0[q], m2[q])
    {
      if m0[q].state.Pending? && m1[q].state.Pending? {
        assert m0[q].observers <= m1[q].observers <= m2[q].observers;
      }
    }
  }

  lemma EvolvesTransitive(w0: World, w1: World, w2: World)
    requires Evolves(w0, w1) && Evolves(w1, w2)
    ensures Evolves(w0, w2)
  {
    AdvancesTransitive(w0.cells, w1.cells, w2.cells);
  }

  lemma ObserverInGrows(o: Observer, K: set<PromiseLite>, K': set<PromiseLite>)
    requires ObserverIn(o, K) && K <= K'
    ensures ObserverIn(o, K')
  {
    if o.Chain? {
      forall v ensures ReplyIn(o.onValue(v), K') {
        assert ReplyIn(o.onValue(v), K);
      }
      forall e ensures ReplyIn(o.onError(e), K') {
        assert ReplyIn(o.onError(e), K);
      }
    }
  }

  /** A promise with no observers can join a consistent snapshot. */
  lemma ConsistentAdopt(m: map<PromiseLite, Cell>, p: PromiseLite)
    requires Consistent(m)
    ensures Consistent(m[p := Cell(Pending, [])])
  {
    var m' := m[p := Cell(Pending, [])];
    forall q, i | q in m' && 0 <= i < |m'[q].observers|
      ensures ObserverIn(m'[q].observers[i], m'.Keys)
    {
      ObserverInGrows(m[q].observers[i], m.Keys, m'.Keys);
    }
  }

  /** Settling pending promise `p` keeps the snapshot consistent and takes `p`
      out of the waiting set. */
  lemma SettleCell(m: map<PromiseLite, Cell>, p: PromiseLite, s: Settlement)
    requires Consistent(m) && p in m && m[p].state.Pending? && !s.Pending?
    ensures var m' := m[p := Cell(s, m[p].observers)];
      Consistent(m') && Advances(m, m') && Waiting(m') < Waiting(m) && m'.Keys == m.Keys
  {
    var m' := m[p := Cell(s, m[p].observers)];
    assert m'.Keys == m.Keys;
    assert forall q :: q in m' ==> m'[q].observers == m[q].observers;
    assert p in Waiting(m) && p !in Waiting(m');
    assert forall q :: q in Waiting(m') ==> q in Waiting(m);
  }

  /** Appending observer `o` to pending promise `p` keeps the snapshot
      consistent and the waiting set as it was. */
  lemma AppendCell(m: map<PromiseLite, Cell>, p: PromiseLite, o: Observer)
    requires Consistent(m) && p in m && m[p].state.Pending? && ObserverIn(o, m.Keys)
    ensures var m' := m[p := Cell(m[p].state, m[p].observers + [o])];
      Consistent(m') && Advances(m, m') && Waiting(m') == Waiting(m) && m'.Keys == m.Keys
  {
    var m' := m[p := Cell(m[p].state, m[p].observers + [o])];
    assert m'.Keys == m.Keys;
    forall q, i | q in m' && 0 <= i < |m'[q].observers|
      ensures ObserverIn(m'[q].observers[i], m'.Keys)
    {
      if q == p && i == |m[p].observers| {
      } else {
        assert m'[q].observers[i] == m[q].observers[i];
      }
    }
    assert forall q :: q in m' ==> m'[q].state == m[q].state;
  }

  // ---------------------------------------------------------------------
  // The reference semantics
  //
  // The ranks in the `decreases` clauses follow the call graph, which is
  // the same for the functions and for the methods they specify:
  //   Draining/Drain (8) -> Calling/Invoke (Chain 6, others 3)
  //   Calling/Invoke on a Chain (6) -> Chaining/RunChain (5)
  //     -> Observing/Then with a Forward (4) -> Calling/Invoke (3)
  //   Calling/Invoke on a Forward (3) -> PassOn (2) -> Resolve/Reject (1)
  //     -> Settling/Settle (0) -> Draining/Drain,
  // and Settling has just settled a pending promise, so on that last edge
  // the set of pending promises is strictly smaller.
  // ---------------------------------------------------------------------

  /** Orders observer kinds for the termination argument. */
  function Rank(o: Observer): nat
  {
    if o.Chain? then 6 else 3
  }

  /** `resolve`/`reject` with `s` on `p`: nothing if `p` has settled;
      otherwise `p` takes `s` and then calls its observers, as they are at
      that moment, in order. */
  ghost function Settling(w: World, p: PromiseLite, s: Settlement): (r: World)
    requires !s.Pending? && Consistent(w.cells) && p in w.cells
    decreases Waiting(w.cells), 0
    ensures Evolves(w, r)
    ensures r.cells[p].state == Next(w.cells[p].state, s)
  {
    if !w.cells[p].state.Pending? then
      w
    else
      var obs := w.cells[p].observers;
      var w1 := World(w.cells[p := Cell(s, obs)], w.events);
      SettleCell(w.cells, p, s);
      var r := Draining(w1, obs, s);
      EvolvesTransitive(w, w1, r);
      r
  }

  /** `completions.forEach`: calls each observer of `obs` with `s`, in order. */
  ghost function Draining(w: World, obs: seq<Observer>, s: Settlement): (r: World)
    requires !s.Pending? && Consistent(w.cells) && AllIn(obs, w.cells.Keys)
    decreases Waiting(w.cells), 8, |obs|
    ensures Evolves(w, r)
  {
    if obs == [] then
      w
    else
      var w1 := Calling(w, obs[0], s);
      var r := Draining(w1, obs[1..], s);
      EvolvesTransitive(w, w1, r);
      r
  }

  /** One call of observer `o` with `s`: the call is recorded; a `User` pair
      does nothing else, a `Forward` pair settles its target with `s`, and a
      `Chain` pair runs its continuation. */
  ghost function Calling(w: World, o: Observer, s: Settlement): (r: World)
    requires !s.Pending? && Consistent(w.cells) && ObserverIn(o, w.cells.Keys)
    decreases Waiting(w.cells), Rank(o)
    ensures Evolves(w, r)
    ensures |r.events| > |w.events| && r.events[|w.events|] == Invoked(o, s)
  {
    var w1 := World(w.cells, w.events + [Invoked(o, s)]);
    assert Evolves(w, w1);
    match o
    case User(_) => w1
    case Forward(t) =>
      var r := Settling(w1, t, s);
      EvolvesTransitive(w, w1, r);
      r
    case Chain(t, f, g) =>
      var r := Chaining(w1, t, f, g, s);
      EvolvesTransitive(w, w1, r);
      r
  }

  /** The body of the pair `flatMap` registers: the matching continuation
      answers, a throw becomes `PromiseLite.reject`, and the resulting
      promise is observed with a `Forward` to the target. */
  ghost function Chaining(w: World, t: PromiseLite, f: Value -> Reply, g: Error -> Reply, s: Settlement): (r: World)
    requires !s.Pending? && Consistent(w.cells) && t in w.cells && HandlersIn(f, g, w.cells.Keys)
    decreases Waiting(w.cells), 5
    ensures Evolves(w, r)
  {
    var reply := Respond(f, g, s);
    Observing(w, Initially(reply, w.cells), if reply.Returns? then Some(reply.promise) else None, Forward(t))
  }

  /** `then` with pair `o` on a promise in state `st`; `q` is that promise if
      the world tracks it. A settled promise calls `o` at once; a pending one
      appends it to its list. */
  ghost function Observing(w: World, st: Settlement, q: Option<PromiseLite>, o: Observer): (r: World)
    requires Consistent(w.cells) && ObserverIn(o, w.cells.Keys)
    requires q.Some? ==> q.value in w.cells && w.cells[q.value].state == st
    decreases Waiting(w.cells), Rank(o) + 1
    ensures Evolves(w, r)
  {
    if !st.Pending? then
      Calling(w, o, st)
    else if q.Some? then
      var c := w.cells[q.value];
      AppendCell(w.cells, q.value, o);
      World(w.cells[q.value := Cell(c.state, c.observers + [o])], w.events)
    else
      w
  }

  /** The world with one more promise, fresh, pending and unobserved. */
  ghost function Adopt(w: World, p: PromiseLite): (r: World)
    requires Consistent(w.cells)
    ensures Consistent(r.cells) && r.cells.Keys == w.cells.Keys + {p} && r.events == w.events
  {
    ConsistentAdopt(w.cells, p);
    World(w.cells[p := Cell(Pending, [])], w.events)
  }

  /** The internal `flatMap`: a new pending promise `outer`, and `then` on
      `p` with the pair that chains `outer` to the continuations. */
  ghost function FlatMapped(w: World, p: PromiseLite, outer: PromiseLite, f: Value -> Reply, g: Error -> Reply): (r: World)
    requires Consistent(w.cells) && p in w.cells && outer !in w.cells && HandlersIn(f, g, w.cells.Keys)
    ensures Evolves(Adopt(w, outer), r)
  {
    var w0 := Adopt(w, outer);
    ObserverInGrows(Chain(outer, f, g), w.cells.Keys + {outer}, w0.cells.Keys);
    assert HandlersIn(f, g, w0.cells.Keys) by {
      forall v ensures ReplyIn(f(v), w0.cells.Keys) {
        assert ReplyIn(f(v), w.cells.Keys);
      }
      forall e ensures ReplyIn(g(e), w0.cells.Keys) {
        assert ReplyIn(g(e), w.cells.Keys);
      }
    }
    Observing(w0, w.cells[p].state, Some(p), Chain(outer, f, g))
  }

  // ---------------------------------------------------------------------
  // Properties of the reference semantics
  // ---------------------------------------------------------------------

  /** A drain over callers' pairs records exactly one call per pair, in
      registration order, and changes no promise. */
  lemma {:induction false} UsersOnly(w: World, obs: seq<Observer>, s: Settlement)
    requires !s.Pending? && Consistent(w.cells) && AllIn(obs, w.cells.Keys) && AllUsers(obs)
    ensures Draining(w, obs, s) == World(w.cells, w.events + Calls(obs, s))
    decreases |obs|
  {
    if obs != [] {
      var w1 := Calling(w, obs[0], s);
      assert w1 == World(w.cells, w.events + [Invoked(obs[0], s)]);
      UsersOnly(w1, obs[1..], s);
      assert Calls(obs, s) == [Invoked(obs[0], s)] + Calls(obs[1..], s);
    }
  }

  /** What each observer call of a drain records, in order. */
  ghost function Segments(w: World, obs: seq<Observer>, s: Settlement): seq<seq<Event>>
    requires !s.Pending? && Consistent(w.cells) && AllIn(obs, w.cells.Keys)
    decreases |obs|
  {
    if obs == [] then []
    else
      var w1 := Calling(w, obs[0], s);
      [w1.events[|w.events|..]] + Segments(w1, obs[1..], s)
  }

  /** One call only appends to the journal. */
  lemma CallExtends(w: World, o: Observer, s: Settlement)
    requires !s.Pending? && Consistent(w.cells) && ObserverIn(o, w.cells.Keys)
    ensures Calling(w, o, s).events == w.events + Calling(w, o, s).events[|w.events|..]
  {
    var r := Calling(w, o, s);
    assert w.events <= r.events;
  }

  /** Flattening one more segment in front. */
  lemma FlattenStep(a: seq<Event>, head: seq<Event>, rest: seq<seq<Event>>, b: seq<Event>)
    requires b == (a + head) + Flatten(rest)
    ensures b == a + Flatten([head] + rest)
  {
    assert ([head] + rest)[1..] == rest;
  }

  /** After the first call of a drain, the rest may still be drained. */
  lemma RestIn(w: World, obs: seq<Observer>, s: Settlement)
    requires !s.Pending? && Consistent(w.cells) && AllIn(obs, w.cells.Keys) && obs != []
    ensures Consistent(Calling(w, obs[0], s).cells) && AllIn(obs[1..], Calling(w, obs[0], s).cells.Keys)
  {
  }

  /** The journal of a drain is the journal before it followed by the
      segments, in order. */
  lemma {:induction false} DrainRecordsSegments(w: World, obs: seq<Observer>, s: Settlement)
    requires !s.Pending? && Consistent(w.cells) && AllIn(obs, w.cells.Keys)
    ensures Draining(w, obs, s).events == w.events + Flatten(Segments(w, obs, s))
    decreases |obs|
  {
    if obs != [] {
      var w1 := Calling(w, obs[0], s);
      RestIn(w, obs, s);
      CallExtends(w, obs[0], s);
      DrainRecordsSegments(w1, obs[1..], s);
      var head := w1.events[|w.events|..];
      assert Segments(w, obs, s) == [head] + Segments(w1, obs[1..], s);
      FlattenStep(w.events, head, Segments(w1, obs[1..], s), Draining(w, obs, s).events);
    }
  }

  /** There is one segment per observer, and the segment of `obs[i]` opens
      with its call with `s`. */
  lemma {:induction false} SegmentsOpenWithCalls(w: World, obs: seq<Observer>, s: Settlement)
    requires !s.Pending? && Consistent(w.cells) && AllIn(obs, w.cells.Keys)
    ensures |Segments(w, obs, s)| == |obs|
    ensures forall i :: 0 <= i < |obs| ==>
      Segments(w, obs, s)[i] != [] && Segments(w, obs, s)[i][0] == Invoked(obs[i], s)
    decreases |obs|
  {
    if obs != [] {
      var w1 := Calling(w, obs[0], s);
      SegmentsOpenWithCalls(w1, obs[1..], s);
      var segs := Segments(w, obs, s);
      assert segs == [w1.events[|w.events|..]] + Segments(w1, obs[1..], s);
      forall i | 0 < i < |obs|
        ensures segs[i] != [] && segs[i][0] == Invoked(obs[i], s)
      {
        assert segs[i] == Segments(w1, obs[1..], s)[i - 1];
      }
    }
  }

  /** A drain calls every observer exactly once, in registration order: the
      journal grows by one segment per observer, and the segment of `obs[i]`
      opens with its call with `s`. */
  lemma DrainCallsInOrder(w: World, obs: seq<Observer>, s: Settlement)
    requires !s.Pending? && Consistent(w.cells) && AllIn(obs, w.cells.Keys)
    ensures |Segments(w, obs, s)| == |obs|
    ensures forall i :: 0 <= i < |obs| ==>
      Segments(w, obs, s)[i] != [] && Segments(w, obs, s)[i][0] == Invoked(obs[i], s)
    ensures Draining(w, obs, s).events == w.events + Flatten(Segments(w, obs, s))
  {
    DrainRecordsSegments(w, obs, s);
    SegmentsOpenWithCalls(w, obs, s);
  }

  /** After a drain, the target of every `Forward` pair among the observers
      has settled. */
  lemma {:induction false} ForwardTargetsSettle(w: World, obs: seq<Observer>, s: Settlement)
    requires !s.Pending? && Consistent(w.cells) && AllIn(obs, w.cells.Keys)
    ensures forall i :: 0 <= i < |obs| && obs[i].Forward? ==>
      !Draining(w, obs, s).cells[obs[i].target].state.Pending?
    decreases |obs|
  {
    if obs != [] {
      var w1 := Calling(w, obs[0], s);
      var r := Draining(w1, obs[1..], s);
      ForwardTargetsSettle(w1, obs[1..], s);
      forall i | 0 <= i < |obs| && obs[i].Forward?
        ensures !r.cells[obs[i].target].state.Pending?
      {
        if i == 0 {
          var t := obs[0].target;
          assert w1 == Settling(World(w.cells, w.events + [Invoked(obs[0], s)]), t, s);
          assert !w1.cells[t].state.Pending?;
        } else {
          assert obs[i] == obs[1..][i - 1];
        }
      }
    }
  }

  /** A `Chain` pair called with `s`. If the continuation's promise has
      settled with `st`, the target is settled exactly as by `resolve` or
      `reject` with `st`, after the `Forward` call is recorded. Otherwise the
      target waits: the `Forward` pair is appended to that promise's list (if
      the world tracks it) and nothing else changes. */
  lemma ChainFollowsReply(w: World, t: PromiseLite, f: Value -> Reply, g: Error -> Reply, s: Settlement)
    requires !s.Pending? && Consistent(w.cells) && ObserverIn(Chain(t, f, g), w.cells.Keys)
    ensures var reply := Respond(f, g, s);
            var st := Initially(reply, w.cells);
            var called := w.events + [Invoked(Chain(t, f, g), s)];
            Calling(w, Chain(t, f, g), s) ==
              if !st.Pending? then
                Settling(World(w.cells, called + [Invoked(Forward(t), st)]), t, st)
              else if reply.Returns? then
                World(w.cells[reply.promise := Cell(Pending, w.cells[reply.promise].observers + [Forward(t)])], called)
              else
                World(w.cells, called)
  {
    var reply := Respond(f, g, s);
    var st := Initially(reply, w.cells);
    var w1 := World(w.cells, w.events + [Invoked(Chain(t, f, g), s)]);
    var q := if reply.Returns? then Some(reply.promise) else None;
    assert Calling(w, Chain(t, f, g), s) == Chaining(w1, t, f, g, s);
    assert Chaining(w1, t, f, g, s) == Observing(w1, st, q, Forward(t));
    if !st.Pending? {
      assert Observing(w1, st, q, Forward(t)) == Calling(w1, Forward(t), st);
    }
  }

  /** `flatMap` on a settled source: the outer promise takes the settlement
      of the continuation's promise when that has settled, and otherwise
      waits on it, as `ChainFollowsReply` says; it never has observers of its
      own, and no other promise changes except the one it waits on. */
  lemma FlatMappedSettled(w: World, p: PromiseLite, outer: PromiseLite, f: Value -> Reply, g: Error -> Reply)
    requires Consistent(w.cells) && p in w.cells && outer !in w.cells && HandlersIn(f, g, w.cells.Keys)
    requires !w.cells[p].state.Pending?
    ensures var s := w.cells[p].state;
            var reply := Respond(f, g, s);
            var st := Initially(reply, w.cells);
            var kept := if st.Pending? && reply.Returns?
                        then w.cells[reply.promise := Cell(Pending, w.cells[reply.promise].observers + [Forward(outer)])]
                        else w.cells;
            FlatMapped(w, p, outer, f, g) ==
              World(kept[outer := Cell(st, [])],
                    w.events + [Invoked(Chain(outer, f, g), s)] + (if st.Pending? then [] else [Invoked(Forward(outer), st)]))
  {
    var s := w.cells[p].state;
    var w0 := Adopt(w, outer);
    var reply := Respond(f, g, s);
    var st := Initially(reply, w.cells);
    assert Initially(reply, w0.cells) == st;
    var o := Chain(outer, f, g);
    assert FlatMapped(w, p, outer, f, g) == Calling(w0, o, s);
    ChainFollowsReply(w0, outer, f, g, s);
    if !st.Pending? {
      var w2 := World(w0.cells, w0.events + [Invoked(o, s), Invoked(Forward(outer), st)]);
      assert Settling(w2, outer, st) == Draining(World(w2.cells[outer := Cell(st, [])], w2.events), [], st);
    } else if reply.Returns? {
      var q := reply.promise;
      var c := Cell(Pending, w.cells[q].observers + [Forward(outer)]);
      assert w0.cells[q := c] == w.cells[q := c][outer := Cell(Pending, [])];
    }
  }

  /** A snapshot of `U` plus a promise `p` outside it is the snapshot of `U`
      with `p`'s cell added. */
  lemma SnapWithout(U: set<PromiseLite>, p: PromiseLite, c: Cell, m: map<PromiseLite, Cell>)
    requires p !in U && m.Keys == U && Snap(U + {p}) == m[p := c]
    ensures Snap(U) == m
  {
    assert forall q :: q in U ==> Snap(U)[q] == Snap(U + {p})[q];
  }

  /** `flatMap` on a pending source: the chaining pair is appended to the
      source's list and nothing else changes. */
  lemma FlatMappedPending(w: World, p: PromiseLite, outer: PromiseLite, f: Value -> Reply, g: Error -> Reply)
    requires Consistent(w.cells) && p in w.cells && outer !in w.cells && HandlersIn(f, g, w.cells.Keys)
    requires w.cells[p].state.Pending?
    ensures FlatMapped(w, p, outer, f, g) ==
      World(w.cells[outer := Cell(Pending, [])][p := Cell(Pending, w.cells[p].observers + [Chain(outer, f, g)])], w.events)
  {
  }

  // ---------------------------------------------------------------------
  // The promise
  // ---------------------------------------------------------------------

  class PromiseLite {
    var state: Settlement
    var observers: seq<Observer>

    /** `init(description:executor:)`: runs the executor at once; its calls
        of `resolve`/`reject` meet a promise nobody observes yet, and an error
        it throws goes to `reject(error:)`. */
    constructor (executor: Executor)
      ensures state == Outcome(executor) && observers == []
    {
      state := Pending;
      observers := [];
      new;
      var i := 0;
      while i < |executor.calls|
        invariant 0 <= i <= |executor.calls|
        invariant state == Replay(Pending, executor.calls[..i]) && observers == []
      {
        match executor.calls[i] {
          case ResolveCall(v) =>
            if state.Pending? {
              state := Fulfilled(v);
            }
          case RejectCall(e) =>
            if state.Pending? {
              state := Rejected(e);
            }
        }
        assert executor.calls[..i + 1][..i] == executor.calls[..i];
        i := i + 1;
      }
      assert executor.calls[..i] == executor.calls;
      if executor.throws.Some? && state.Pending? {
        state := Rejected(executor.throws.value);
      }
    }

    /** `PromiseLite<NewValue>.reject(error)`: a promise that is already rejected. */
    constructor AlreadyRejected(error: Error)
      ensures state == Rejected(error) && observers == []
    {
      state := Rejected(error);
      observers := [];
    }

    /** `resolve(value:)`. */
    method Resolve(value: Value, ghost U: set<PromiseLite>, log: Journal)
      requires this in U && Closed(U)
      modifies U, log
      decreases Waiting(Snap(U)), 1
      ensures Now(U, log) == Settling(old(Now(U, log)), this, Fulfilled(value))
      ensures Closed(U) && Advances(old(Snap(U)), Snap(U))
      ensures state == Next(old(state), Fulfilled(value))
      ensures !old(state).Pending? ==> Snap(U) == old(Snap(U)) && log.events == old(log.events)
      ensures old(state).Pending? && AllUsers(old(observers)) ==>
        Snap(U) == old(Snap(U))[this := Cell(Fulfilled(value), old(observers))] &&
        log.events == old(log.events) + Calls(old(observers), Fulfilled(value))
    {
      ghost var w := Now(U, log);
      Settle(Fulfilled(value), U, log);
      if w.cells[this].state.Pending? && AllUsers(w.cells[this].observers) {
        UsersOnly(World(w.cells[this := Cell(Fulfilled(value), w.cells[this].observers)], w.events),
                  w.cells[this].observers, Fulfilled(value));
      }
    }

    /** `reject(error:)`. */
    method Reject(error: Error, ghost U: set<PromiseLite>, log: Journal)
      requires this in U && Closed(U)
      modifies U, log
      decreases Waiting(Snap(U)), 1
      ensures Now(U, log) == Settling(old(Now(U, log)), this, Rejected(error))
      ensures Closed(U) && Advances(old(Snap(U)), Snap(U))
      ensures state == Next(old(state), Rejected(error))
      ensures !old(state).Pending? ==> Snap(U) == old(Snap(U)) && log.events == old(log.events)
      ensures old(state).Pending? && AllUsers(old(observers)) ==>
        Snap(U) == old(Snap(U))[this := Cell(Rejected(error), old(observers))] &&
        log.events == old(log.events) + Calls(old(observers), Rejected(error))
    {
      ghost var w := Now(U, log);
      Settle(Rejected(error), U, log);
      if w.cells[this].state.Pending? && AllUsers(w.cells[this].observers) {
        UsersOnly(World(w.cells[this := Cell(Rejected(error), w.cells[this].observers)], w.events),
                  w.cells[this].observers, Rejected(error));
      }
    }

    /** The common body of `resolve` and `reject`: leave unless pending, set
        the state, then call every observer with `s`, in order. */
    method Settle(s: Settlement, ghost U: set<PromiseLite>, log: Journal)
      requires !s.Pending? && this in U && Closed(U)
      modifies U, log
      decreases Waiting(Snap(U)), 0
      ensures Now(U, log) == Settling(old(Now(U, log)), this, s)
    {
      if !state.Pending? {
        return;
      }
      ghost var entry := Snap(U);
      state := s;
      assert Snap(U) == entry[this := Cell(s, observers)];
      SettleCell(entry, this, s);
      Drain(s, U, log);
    }

    /** `completions.forEach { ... }` on a promise that has just settled with
        `s`: calls every observer with `s`, in registration order. */
    method Drain(s: Settlement, ghost U: set<PromiseLite>, log: Journal)
      requires !s.Pending? && this in U && Closed(U) && state == s
      modifies U, log
      decreases Waiting(Snap(U)), 8
      ensures Now(U, log) == Draining(old(Now(U, log)), old(observers), s)
    {
      var pending := observers;   // `forEach` walks the array value as it was at settlement
      ghost var start := Now(U, log);
      assert AllIn(pending, U) by {
        assert Snap(U)[this].observers == pending;
      }
      var i := 0;
      while i < |pending|
        invariant 0 <= i <= |pending|
        invariant Closed(U) && AllIn(pending, U) && Waiting(Snap(U)) <= Waiting(start.cells)
        invariant Draining(Now(U, log), pending[i..], s) == Draining(start, pending, s)
      {
        ghost var before := Now(U, log);
        assert pending[i..][1..] == pending[i + 1..];
        Invoke(pending[i], s, U, log);
        i := i + 1;
      }
    }

    /** `then(completion:rejection:)`: a settled promise calls the matching
        component at once; a pending one appends the pair. */
    method Then(o: Observer, ghost U: set<PromiseLite>, log: Journal)
      requires Closed(U) && ObserverIn(o, U)
      modifies this, U, log
      decreases Waiting(Snap(U)), Rank(o) + 1
      ensures Now(U, log) == Observing(old(Now(U, log)), old(state), Tracked(this, U), o)
      ensures Closed(U) && state == old(state)
      ensures observers == if old(state).Pending? then old(observers) + [o] else old(observers)
      ensures old(state).Pending? ==> log.events == old(log.events) && unchanged(U - {this})
      ensures !old(state).Pending? ==> |log.events| > |old(log.events)| && log.events[|old(log.events)|] == Invoked(o, old(state))
    {
      if state.Pending? {
        observers := observers + [o];
        if this in U {
          assert Snap(U) == old(Snap(U))[this := Cell(Pending, observers)];
        }
      } else {
        Invoke(o, state, U, log);
        if this in U {
          assert Snap(U)[this] == old(Snap(U))[this];
        }
      }
    }

    /** The internal `flatMap(completion:rejection:)`: a new promise whose
        executor observes this one through a `Chain`. */
    method FlatMapWith(onValue: Value -> Reply, onError: Error -> Reply, ghost U: set<PromiseLite>, log: Journal)
      returns (outer: PromiseLite, ghost U': set<PromiseLite>)
      requires this in U && Closed(U) && HandlersIn(onValue, onError, U)
      modifies U, log
      ensures fresh(outer) && U' == U + {outer} && Closed(U') && state == old(state)
      ensures Now(U', log) == FlatMapped(old(Now(U, log)), this, outer, onValue, onError)
      ensures old(state).Pending? ==>
        outer.state == Pending && outer.observers == [] && log.events == old(log.events) &&
        observers == old(observers) + [Chain(outer, onValue, onError)] &&
        Snap(U - {this}) == old(Snap(U - {this}))
      ensures !old(state).Pending? ==>
        var reply := Respond(onValue, onError, old(state));
        var st := Initially(reply, old(Snap(U)));
        outer.state == st && outer.observers == [] &&
        log.events == old(log.events) + [Invoked(Chain(outer, onValue, onError), old(state))] +
                      (if st.Pending? then [] else [Invoked(Forward(outer), st)]) &&
        Snap(U) == (if st.Pending? && reply.Returns?
                    then old(Snap(U))[reply.promise := Cell(Pending, old(reply.promise.observers) + [Forward(outer)])]
                    else old(Snap(U)))
    {
      ghost var w := Now(U, log);
      outer := new PromiseLite(Executor([], None));
      U' := U + {outer};
      assert Now(U', log) == Adopt(w, outer);
      assert HandlersIn(onValue, onError, U') by {
        ObserverInGrows(Chain(this, onValue, onError), U, U');
      }
      Then(Chain(outer, onValue, onError), U', log);
      if w.cells[this].state.Pending? {
        FlatMappedPending(w, this, outer, onValue, onError);
        assert forall q :: q in U ==> Snap(U)[q] == Snap(U')[q];
      } else {
        FlatMappedSettled(w, this, outer, onValue, onError);
        ghost var reply := Respond(onValue, onError, w.cells[this].state);
        ghost var st := Initially(reply, w.cells);
        ghost var kept := if st.Pending? && reply.Returns?
                          then w.cells[reply.promise := Cell(Pending, w.cells[reply.promise].observers + [Forward(outer)])]
                          else w.cells;
        SnapWithout(U, outer, Cell(st, []), kept);
      }
    }

    /** The one-argument `flatMap(_:)`: a rejection passes to the new promise unchanged. */
    method FlatMap(onValue: Value -> Reply, ghost U: set<PromiseLite>, log: Journal)
      returns (outer: PromiseLite, ghost U': set<PromiseLite>)
      requires this in U && Closed(U) && forall v :: ReplyIn(onValue(v), U)
      modifies U, log
      ensures fresh(outer) && U' == U + {outer} && Closed(U') && state == old(state)
      ensures Now(U', log) == FlatMapped(old(Now(U, log)), this, outer, onValue, Rethrow)
      ensures old(state).Pending? ==>
        outer.state == Pending && outer.observers == [] && log.events == old(log.events) &&
        observers == old(observers) + [Chain(outer, onValue, Rethrow)] &&
        Snap(U - {this}) == old(Snap(U - {this}))
      ensures old(state).Rejected? ==>
        outer.state == old(state) && outer.observers == [] && Snap(U) == old(Snap(U)) &&
        log.events == old(log.events) + [Invoked(Chain(outer, onValue, Rethrow), old(state)), Invoked(Forward(outer), old(state))]
      ensures old(state).Fulfilled? ==>
        var reply := onValue(old(state).value);
        var st := Initially(reply, old(Snap(U)));
        outer.state == st && outer.observers == [] &&
        log.events == old(log.events) + [Invoked(Chain(outer, onValue, Rethrow), old(state))] +
                      (if st.Pending? then [] else [Invoked(Forward(outer), st)]) &&
        Snap(U) == (if st.Pending? && reply.Returns?
                    then old(Snap(U))[reply.promise := Cell(Pending, old(reply.promise.observers) + [Forward(outer)])]
                    else old(Snap(U)))
    {
      outer, U' := FlatMapWith(onValue, Rethrow, U, log);
    }
  }

  /** Calls observer `o` with `s`: a `User` pair records its call, a
      `Forward` pair passes `s` on to its target, and a `Chain` pair runs the
      matching continuation, turns a throw into `PromiseLite.reject`, and
      observes the resulting promise with a `Forward` to its target. */
  method Invoke(o: Observer, s: Settlement, ghost U: set<PromiseLite>, log: Journal)
    requires !s.Pending? && Closed(U) && ObserverIn(o, U)
    modifies U, log
    decreases Waiting(Snap(U)), Rank(o)
    ensures Now(U, log) == Calling(old(Now(U, log)), o, s)
    ensures Closed(U)
  {
    log.events := log.events + [Invoked(o, s)];
    if o.Forward? {
      PassOn(o.target, s, U, log);
    } else if o.Chain? {
      RunChain(o, s, U, log);
    }
  }

  /** The body of the `Forward` closure: settles the target as the observed
      promise settled. */
  method PassOn(t: PromiseLite, s: Settlement, ghost U: set<PromiseLite>, log: Journal)
    requires !s.Pending? && Closed(U) && t in U
    modifies U, log
    decreases Waiting(Snap(U)), 2
    ensures Now(U, log) == Settling(old(Now(U, log)), t, s)
  {
    if s.Fulfilled? {
      t.Resolve(s.value, U, log);
    } else {
      t.Reject(s.error, U, log);
    }
  }

  /** The body of the `Chain` closure: runs the matching continuation, turns a
      throw into `PromiseLite.reject`, and observes the resulting promise with
      a `Forward` to the chain's target. */
  method RunChain(o: Observer, s: Settlement, ghost U: set<PromiseLite>, log: Journal)
    requires o.Chain? && !s.Pending? && Closed(U) && ObserverIn(o, U)
    modifies U, log
    decreases Waiting(Snap(U)), 5
    ensures Now(U, log) == Chaining(old(Now(U, log)), o.target, o.onValue, o.onError, s)
  {
    var reply := Respond(o.onValue, o.onError, s);
    var inner: PromiseLite;
    if reply.Returns? {
      inner := reply.promise;
    } else if reply.Builds? {
      inner := new PromiseLite(reply.executor);
    } else {
      // `PromiseLite<NewValue>.reject(error)`, returned or built by the `catch`
      inner := new PromiseLite.AlreadyRejected(reply.error);
    }
    assert Initially(reply, old(Snap(U))) == inner.state;
    inner.Then(Forward(o.target), U, log);
  }
}
