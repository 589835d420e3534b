# PromiseLite settlement state machine in Dafny

This project models the core of PromiseLite, a small Swift promise library.
A `PromiseLite` object holds a state that is `pending`, `fulfilled(value)` or
`rejected(error)`, and an ordered list of observer pairs.

- `resolve` and `reject` settle a pending promise once. They then call every
  registered pair in registration order.
- The internal `then` calls the matching component at once if the promise
  has settled, and appends the pair otherwise.
- The constructor runs its executor synchronously and turns a thrown error
  into a rejection.
- `flatMap`, `flatFinally` and `finally` build a new promise that observes
  the source and follows the promise returned by a continuation.

The model is imperative where the Swift code is. `PromiseLite` is a Dafny
class with the fields `state` and `observers`. `Resolve`, `Reject` and `Then`
update them in place, and the drain is a `while` loop over the observer list.

Closures are defunctionalised:
- an observer pair is an `Observer`: a caller's `User` pair, the `Forward`
  pair that `flatMap` puts on an inner promise, or the `Chain` pair that
  `flatMap` puts on its source;
- a continuation answers with a `Reply`: an existing promise, a promise built
  from an executor, `PromiseLite.reject(error)`, or a throw;
- an executor is a script of `resolve`/`reject` calls plus an optional error
  thrown at the end.

Every observer call is appended to a `Journal`. This makes order and
exactly-once delivery expressible.

Every operation takes a ghost set `U` of promises that is closed under what
observers and continuations can reach (`Closed`). A `World` is the state and
observer list of every promise of `U`, together with the journal. Each
operation has a ghost function over worlds that computes what it does, with
nested settlements included:
- `Settling` for `resolve`/`reject`;
- `Draining` for the `forEach` over the observers;
- `Calling` for one observer call;
- `Chaining` for the body of the pair `flatMap` registers;
- `Observing` for `then`;
- `FlatMapped` for the internal `flatMap`.

Each method ensures that the world it leaves is exactly the one its function
computes from the world it found. So every promise of `U` that the method
does not reach is unchanged. Each function ensures `Evolves`:
- the set of promises stays the same;
- a settled promise never changes again;
- a pending promise may settle, and its observer list only grows at the end;
- no promise goes back to pending;
- the journal only grows.

Lemmas then state the properties in closed form:
- `UsersOnly` and `DrainCallsInOrder`: a drain calls each observer once, in
  registration order.
- `ForwardTargetsSettle`: a drain settles the target of every forwarding
  pair.
- `ChainFollowsReply`: a `flatMap` pair settles its target like the
  continuation's promise, or leaves it waiting on that promise.
- `FlatMappedSettled` and `FlatMappedPending`: `flatMap` on a settled or a
  pending source.

Modules:
- `Outcomes` (outcomes.dfy): the settlement states, the executor script, and
  what the constructor leaves behind.
- `Promises` (promises.dfy): the class, `resolve`/`reject`/`then`/`flatMap`,
  and the cascade of observer calls.
- `Finally` (finally.dfy): `flatFinally`, `finally` and their deprecated
  forms.
- `Scenarios` (scenarios.dfy): whole uses of the library with their exact
  outcomes.

A drained observer list is sometimes described as cleared, but
`completions` is never emptied in PromiseLite.swift (lines 19 and 51-63). The
model follows the code: a settled promise keeps its observer list, frozen.

## Model

| member | source | states |
|---|---|---|
| Promises.PromiseLite.constructor | PromiseLite/Classes/PromiseLite.swift:37-49 | a new promise has no observers and is in the state its executor's calls and throw produce (`Outcome`) |
| Outcomes.FirstCallWins | PromiseLite/Classes/PromiseLite.swift:51-63 | a promise stays pending iff no capability call is made; otherwise the first call decides the state |
| Outcomes.SettledIsFinal | PromiseLite/Classes/PromiseLite.swift:51-63 | once settled, any sequence of further `resolve`/`reject` calls leaves the state unchanged |
| Outcomes.OutcomeOfExecutor | PromiseLite/Classes/PromiseLite.swift:44-48 | the constructor's result: the first call's settlement, else `rejected(e)` for a thrown `e`, else pending |
| Outcomes.ThrowAfterSettlingIgnored | PromiseLite/Classes/PromiseLite.swift:44-48 | an executor that settles and then throws ends as if it had not thrown |
| Promises.PromiseLite.AlreadyRejected | PromiseLite/Classes/PromiseLite.swift:105 | `PromiseLite.reject(error)` yields a promise already rejected with `error` and without observers |
| Promises.PromiseLite.Resolve | PromiseLite/Classes/PromiseLite.swift:51-56 | leaves exactly the world `Settling` computes with `fulfilled(v)`: a pending promise takes the value and its observers run in order, with their nested effects; on a settled promise no promise and no journal entry changes; with only callers' pairs, the log grows by exactly one call per pair, in order |
| Promises.PromiseLite.Reject | PromiseLite/Classes/PromiseLite.swift:58-63 | the same with `rejected(e)` |
| Promises.PromiseLite.Settle | PromiseLite/Classes/PromiseLite.swift:51-63 | leaves exactly the world `Settling` computes: the guard, then the state, then the drain of the list as it was at settlement |
| Promises.PromiseLite.Drain | PromiseLite/Classes/PromiseLite.swift:55 | the `forEach` loop leaves exactly the world `Draining` computes over the list as it was when the loop started |
| Promises.PromiseLite.Then | PromiseLite/Classes/PromiseLite.swift:65-74 | leaves exactly the world `Observing` computes. Settled: the matching component runs at once, is logged first, and the list is unchanged. Pending: the pair is appended, nothing is logged and no other promise changes. The state never changes |
| Promises.Invoke | PromiseLite/Classes/PromiseLite.swift:98-118 | calling an observer leaves exactly the world `Calling` computes |
| Promises.PassOn | PromiseLite/Classes/PromiseLite.swift:107-108 | the forwarding pair leaves exactly the world `Settling` computes for its target, the target's own drain included |
| Promises.RunChain | PromiseLite/Classes/PromiseLite.swift:100-117 | the `flatMap` pair leaves exactly the world `Chaining` computes |
| Promises.PromiseLite.FlatMapWith | PromiseLite/Classes/PromiseLite.swift:97-120 | leaves exactly the world `FlatMapped` computes, with a fresh outer promise. Pending source: the outer promise is pending, one `Chain` pair is appended and nothing else changes. Settled source: the pair is called at once, and the outer promise takes the settlement of the continuation's promise. If that promise is pending, the outer promise stays pending and only that promise gains a forwarding pair |
| Promises.PromiseLite.FlatMap | PromiseLite/Classes/PromiseLite.swift:79-82 | the same as the internal `flatMap` with `Rethrow` as `rejection`: a rejected source gives an outer promise rejected with the same error and changes no other promise |
| Promises.Rethrow | PromiseLite/Classes/PromiseLite.swift:81 | the default `rejection` answers with a rejected promise carrying the same error, never with an existing or a built promise |
| Promises.Respond | PromiseLite/Classes/PromiseLite.swift:100-112 | a fulfilled source calls `completion` with its value, a rejected one calls `rejection` with its error |
| Promises.Settling | PromiseLite/Classes/PromiseLite.swift:51-63 | `resolve`/`reject` evolve the world by the single-assignment rule, and the promise's new state is `Next(old, s)`: only a pending promise takes `s` |
| Promises.Draining | PromiseLite/Classes/PromiseLite.swift:55 | the drain evolves the world by the single-assignment rule: no settled promise changes, nothing returns to pending, the journal only grows |
| Promises.Calling | PromiseLite/Classes/PromiseLite.swift:98-118 | an observer call evolves the world, and its first journal entry is that call with the settlement |
| Promises.Chaining | PromiseLite/Classes/PromiseLite.swift:100-117 | running a `flatMap` pair evolves the world by the single-assignment rule |
| Promises.Observing | PromiseLite/Classes/PromiseLite.swift:65-74 | `then` evolves the world by the single-assignment rule |
| Promises.FlatMapped | PromiseLite/Classes/PromiseLite.swift:97-120 | `flatMap` evolves the world extended with the fresh outer promise |
| Promises.UsersOnly | PromiseLite/Classes/PromiseLite.swift:51-63 | a drain over callers' pairs changes no promise and logs exactly one call per pair, in registration order, with the settlement |
| Promises.DrainCallsInOrder | PromiseLite/Classes/PromiseLite.swift:55 | any drain splits the new journal into one segment per observer, in registration order, each opening with that observer's call with the settlement |
| Promises.ForwardTargetsSettle | PromiseLite/Classes/PromiseLite.swift:107-108 | after a drain, the target of every forwarding pair among the observers has settled |
| Promises.ChainFollowsReply | PromiseLite/Classes/PromiseLite.swift:100-118 | a `flatMap` pair is logged, then runs the matching continuation. If the reply's promise has settled with `st`, the target settles with `st` exactly as `resolve`/`reject` would, after the forwarding call is logged. If it is pending, the target waits: the forwarding pair is appended to that promise's list and nothing else changes |
| Promises.FlatMappedSettled | PromiseLite/Classes/PromiseLite.swift:97-120 | `flatMap` on a settled source: the outer promise takes the settlement of the continuation's promise, or stays pending while that promise is pending; only the promise it waits on changes, and the log grows by the chain's call and, if settled, the forwarding call |
| Promises.FlatMappedPending | PromiseLite/Classes/PromiseLite.swift:65-74 | `flatMap` on a pending source appends the chaining pair and changes nothing else |
| Finally.Wrap | PromiseLite/Classes/PromiseLite+Finally.swift:27 | the executor `finally` builds settles its promise at once: `fulfilled(x)` for a returned `x`, `rejected(e)` for a thrown `e` |
| Finally.IgnoringValue | PromiseLite/Classes/PromiseLite+Finally.swift:17 | the `completion` of the finally pair answers with the same reply whatever the value |
| Finally.IgnoringError | PromiseLite/Classes/PromiseLite+Finally.swift:18 | the `rejection` of the finally pair answers with the same reply whatever the error |
| Finally.FinallyChain | PromiseLite/Classes/PromiseLite+Finally.swift:17-18 | the pair `flatFinally` registers chains to the outer promise and hands on the same reply however the source settled |
| Finally.FinallyIgnoresOutcome | PromiseLite/Classes/PromiseLite+Finally.swift:17-18 | a finally pair hands on the same reply whatever the source settled with |
| Finally.FlatFinally | PromiseLite/Classes/PromiseLite+Finally.swift:16-19 | the internal `flatMap` with a pair that ignores the outcome. Pending source: the outer promise is pending, the handler has not run and no other promise changes. Settled source: the outer promise takes the settlement of the handler's promise, or waits on it while it is pending |
| Finally.Finally | PromiseLite/Classes/PromiseLite+Finally.swift:26-30 | pending source: the outer promise is pending, the handler has not run and no other promise changes. Settled source: the outer promise is `fulfilled(x)` if the handler returns `x` and `rejected(e)` if it throws `e`; no other promise changes |
| Finally.FlatMapFinally | PromiseLite/Classes/PromiseLite+Finally.swift:34-36 | the same contract as `flatFinally` |
| Finally.MapFinally | PromiseLite/Classes/PromiseLite+Finally.swift:40-42 | the same contract as `finally` |
| Scenarios.FirstSettlementWins | PromiseLite/Classes/PromiseLite.swift:51-63 | `resolve(1)`, `resolve(2)`, `reject`: the state is `fulfilled(1)` and the observer ran once |
| Scenarios.DrainOrder | PromiseLite/Classes/PromiseLite.swift:51-56 | two pairs registered before `resolve(7)` are called in registration order, once each, with 7 |
| Scenarios.ObserveSettled | PromiseLite/Classes/PromiseLite.swift:65-74 | observing a rejected promise calls the rejection component at once and registers nothing |
| Scenarios.ExecutorThrows | PromiseLite/Classes/PromiseLite.swift:44-48 | resolve-then-throw stays fulfilled; a bare throw rejects with the thrown error |
| Scenarios.DoublingChain | PromiseLite/Classes/PromiseLite.swift:97-120 | `flatMap { v in resolve(2 * v) }` on a promise fulfilled with 10 gives `fulfilled(20)` |
| Scenarios.RejectionPassesThrough | PromiseLite/Classes/PromiseLite.swift:79-82 | the one-argument `flatMap` on a promise rejected with `boom` gives `rejected(boom)` |
| Scenarios.ThrowingContinuation | PromiseLite/Classes/PromiseLite.swift:102-106 | a continuation that throws on 5 gives an outer promise rejected with its error |
| Scenarios.LateSettlement | PromiseLite/Classes/PromiseLite.swift:65-74 | `flatMap` on a pending promise leaves the outer promise pending until `resolve`, which then settles it |
| Scenarios.ReentrantContinuation | PromiseLite/Classes/PromiseLite.swift:54-55 | a continuation that answers with its own, now fulfilled, source gets an immediate call and the source's list is not extended |
| Scenarios.FinallyAfterRejection | PromiseLite/Classes/PromiseLite+Finally.swift:26-30 | `finally` on a rejected promise: a returning handler fulfils the outer promise, a throwing one rejects it with its own error |
| Scenarios.FinallyWaits | PromiseLite/Classes/PromiseLite+Finally.swift:16-30 | on a pending source the handler does not run and the outer promise waits; a later `reject` settles it with the handler's value |
| Scenarios.PendingReply | PromiseLite/Classes/PromiseLite.swift:101-108 | a continuation that answers with a pending promise `q`: after `resolve(1)` on the source, the outer promise and `q` are still pending; `resolve(9)` on `q` then fulfils the outer promise with 9 |
| Scenarios.TwoLinks | PromiseLite/Classes/PromiseLite.swift:97-120 | two `+1` links on a pending source: `resolve(1)` fulfils the first link with 2 and the second with 3 |

## Left out

- The `Configuration.debugger` hook, the `Date()` timestamp and the `description` string (PromiseLite.swift:16, 40-42): they are diagnostics only. The convenience initialisers (PromiseLite.swift:23-32) only supply a description, so they are the same constructor here.
- Swift generics: `Value` and `NewValue` are both `int`, and `Error` is `string`.
- `@escaping` capture, memory lifetime and ARC: closures are the defunctionalised `Observer`, `Reply` and `Executor` values described above.
- Thread safety: the model assumes one sequential caller, as the code does; it has no locking.
- Side effects of user code: a `User` pair only logs its call, and a continuation only answers with a `Reply`. A callback that itself settles other promises is not modelled.
- An executor that keeps its capabilities for later is modelled by calling `Resolve`/`Reject` on the promise after construction. The constructor applies the executor's own calls directly with the same pending guard; no observer can exist yet at that point.
- `PromiseLite.reject(_:)` (used at PromiseLite.swift:81, 105, 114) is not part of this model; `AlreadyRejected` stands for its result.
- The deprecated public `flatMap(_:rejection:)` (PromiseLite.swift:89-91) only forwards to the internal `flatMap`, so it is `FlatMapWith` here.
- Promises reachable from observers must lie in a ghost set closed under what callbacks can reach; promises a continuation builds on the spot are fresh and outside it.
- Swift's `completions` is a `lazy var` array (PromiseLite.swift:19); the model's list is a plain sequence field, initially empty.
- The cost bound for chains of N `flatMap` links (linear in N) is not modelled; the model proves that each observer is called once per settlement, not a bound on the total.
