# Futuristics in Dafny

A model of the Futuristics Swift library: a settle-once `Future`, its completion handlers, the
write-side `PromiseGuarantor`, the `Result` sum type and the `>>>` / `|>` composition operators.
The library shipped two generations of its future engine, and both are modelled:

- `QueueFuture` (Source/Future.swift). Every block the future runs on its serial `syncQueue` is
  one atomic method. `fulfill`/`reject` write the state and enqueue a separate flush block, so
  `Flush` is a method of its own. The class keeps `state`, `stateHandlers`, a `flushScheduled`
  flag for the enqueued flush, and a `dispatched` log that stands for `queue.async`. Ghost fields
  keep the history of registrations in three parts: `early` (made while pending), `overtaking`
  (made after settlement but before the flush) and `late` (made after the flush). The object
  invariant says exactly what the log holds. A registration that runs between the settlement
  and its flush is handed to its queue before the handlers stored while pending
  (`Scenarios.RegistrationBeforeFlush`). Without such a registration, the log
  after the flush is the dispatch of every registration in registration order
  (`QueueFuture.Future.FlushedLog`).
- `SyncFuture` (Source/Promise.swift). Assigning a terminal state runs the `didSet` observer.
  It dispatches and clears the stored handlers within the same call, so the invariant is exact:
  once settled, the log is the dispatch of every registration, in registration order. This holds
  for handlers that neither register on nor settle the same future while they run (see
  "## Left out").

Shared pieces live in `Settlement`: the state, the settle-once rule (`Apply`), handler records,
and the dispatch filter of `executeCompletionHandler` (`Execute`, `DispatchAll`), with the
lemmas that dispatch is sound, ordered and exactly-once.

Representation choices:

- Errors are a type parameter `E`: opaque values compared by equality.
- A Swift `throws` call yields `Prelude.Completion` (returned a value or threw an error). A
  throwing function `A throws -> B` is a function `A -> Completion<B, E>`.
- `result()` throws either `FutureError.stillPending` or the stored error. Its error type is
  `QueueFuture.FutureError`, the union of the two.
- Handler closures and queues/execution contexts are opaque numbers (`TaskId`, `ContextId`). A
  dispatch is an entry of the log.
- `bind`, `>>>` and `|>` over futures are modelled on outcomes, in `FutureComposition`. A
  future-returning function becomes the function from its argument to the state its future
  eventually settles in (`Pending` if it never settles). FutureComposition.swift and
  PromiseComposition.swift are identical in behaviour, so one definition covers both.
- `Scenarios` restates the scenarios of the repository's tests over the model.

## Model

| member | source | states |
|---|---|---|
| `Results.Result.Error` | Source/Result.swift:16-22 | `error` is set exactly for a failure, and then holds its error |
| `Results.Result.Value` | Source/Result.swift:24-30 | `value` is set exactly for a success, and then holds its value |
| `Results.Result.ValueOrThrow` | Source/Result.swift:40-47 | returns the value of a success; throws the stored error of a failure |
| `Results.Result.OrValue` | Source/Result.swift:53-60 | `result ?? v` is the success value, or the fallback on failure |
| `Results.Result.OrResult` | Source/Result.swift:62-69 | `result ?? r` is `result` unchanged if it is a success, otherwise the fallback |
| `Results.FromThrowing` | Source/Result.swift:32-38 | `Result(f)` is `Success(v)` when `f` returns `v` and `Failure(e)` when `f` throws `e` |
| `Results.ExactlyOneProjection` | Source/Result.swift:16-30 | exactly one of `value` and `error` is set |
| `Results.CatchRethrowRoundTrip` | Source/Result.swift:32-47 | `Result(try r.valueOrThrow()) == r`, and `valueOrThrow` of a caught computation replays it |
| `Results.CoalesceFirstSuccess` | Tests/ResultTests.swift:102-122 | in a `??` chain the first success wins; an all-failure chain yields its last failure |
| `FunctionComposition.ComposeOutcome` | Source/FunctionComposition.swift:21-26 | `(f >>> g)(a)` is `g(f(a))` when `f` returns; a throw of `f` propagates unchanged whatever `g` is; a throw of `g` propagates |
| `FunctionComposition.PipeIsComposition` | Source/FunctionComposition.swift:40-42 | `a \|> f` is `f(a)`, errors included; `a \|> f \|> g` agrees with `(f >>> g)(a)` |
| `FunctionComposition.ComposeAssociative` | Source/FunctionComposition.swift:21-26 | `(f >>> g) >>> h` and `f >>> (g >>> h)` agree on every input |
| `Settlement.FutureState.IsPending` | Source/Future.swift:15-20 | `isPending` holds exactly when the state is neither fulfilled nor rejected |
| `Settlement.Target` | Source/Future.swift:67-77 | `fulfill(v)` asks for `fulfilled(v)`, `reject(e)` for `rejected(e)`, never for pending |
| `Settlement.Apply` | Source/Future.swift:67-81 | a pending future takes the requested terminal state; a settled future ignores the call |
| `Settlement.SettledIsFinal` | Source/Future.swift:39-46 | once settled, no sequence of `fulfill`/`reject` calls changes the state |
| `Settlement.FirstSettlementWins` | Tests/FutureTests.swift:53-72 | after N >= 1 settlement calls the state is what the first call asked for, as after that call alone |
| `Settlement.Resolve` | Source/Future.swift:83-89 | `resolveWith(f)` fulfills with what `f` returns and rejects with what it throws |
| `Settlement.Execute` | Source/Future.swift:104-114 | a handler is dispatched at most once, only if its kind fits the state, to its own queue, success with the value, failure with the error, finally without argument |
| `Settlement.DispatchAll` | Source/Future.swift:99-102 | dispatching a list yields at most one entry per handler, and nothing while pending |
| `Settlement.DispatchAllSound` | Source/Promise.swift:96-106 | every dispatch comes from a listed handler whose kind fits the state |
| `Settlement.DispatchPosition` | Source/Promise.swift:59 | a fitting handler is dispatched right after the dispatches of the handlers listed before it |
| `Settlement.DispatchOrder` | Source/Future.swift:100 | of two fitting handlers, the one registered first is dispatched first |
| `Settlement.DispatchedOnce` | Source/Future.swift:99-114 | with distinct closures, each fitting handler is dispatched exactly once and every other handler never |
| `QueueFuture.Future.constructor` | Source/Future.swift:39-54 | a fresh future is pending with no handlers and no dispatches |
| `QueueFuture.Future.Result` | Source/Future.swift:56-65 | `result()` throws `stillPending` when pending, throws the stored error when rejected, returns the value when fulfilled |
| `QueueFuture.Future.Fulfill` | Source/Future.swift:67-73 | settle-once `fulfill`; a successful one schedules the flush; handlers and log are untouched |
| `QueueFuture.Future.Reject` | Source/Future.swift:75-81 | settle-once `reject`; a successful one schedules the flush; handlers and log are untouched |
| `QueueFuture.Future.ResolveWith` | Source/Future.swift:83-89 | fulfills with the returned value or rejects with the thrown error, settle-once |
| `QueueFuture.Future.ExecuteCompletionHandler` | Source/Future.swift:104-114 | appends to the log exactly the dispatch the filter allows |
| `QueueFuture.Future.Flush` | Source/Future.swift:99-102 | dispatches the stored handlers that fit the terminal state, in list order, then empties the list; the invariant is kept |
| `QueueFuture.Future.FlushedLog` | Source/Future.swift:99-114 | after the flush the log is the overtaking registrations' dispatches followed by everyone else's, in registration order |
| `QueueFuture.Future.DeferCompletionHandler` | Source/Future.swift:116-118 | appends the handler to the stored list |
| `QueueFuture.Future.OnSuccess` | Source/Future.swift:120-136 | pending: stored; fulfilled: dispatched at once with the value; rejected: dropped; state unchanged; returns the future itself |
| `QueueFuture.Future.OnFailure` | Source/Future.swift:138-154 | pending: stored; rejected: dispatched at once with the error; fulfilled: dropped; returns the future itself |
| `QueueFuture.Future.Finally` | Source/Future.swift:156-169 | pending: stored; either terminal state: dispatched at once; returns the future itself |
| `SyncFuture.Future.constructor` | Source/Promise.swift:46-68 | a fresh future is pending with no handlers |
| `SyncFuture.Future.SetState` | Source/Promise.swift:46-64 | requires a pending old state (`willSet`); on a terminal state runs every fitting stored handler in list order and empties the list (`didSet`) |
| `SyncFuture.Future.Fulfill` | Source/Promise.swift:70-73 | settle-once `fulfill`; a successful one runs the stored handlers within the call |
| `SyncFuture.Future.Reject` | Source/Promise.swift:75-78 | settle-once `reject`; a successful one runs the stored handlers within the call |
| `SyncFuture.Future.Resolve` | Source/Promise.swift:80-86 | fulfills with the returned value or rejects with the thrown error, settle-once |
| `SyncFuture.Future.ExecuteCompletionHandler` | Source/Promise.swift:96-106 | runs the handler through its context exactly when the filter allows |
| `SyncFuture.Future.OnSuccess` | Source/Promise.swift:108-119 | pending: appended; fulfilled: executed at once; rejected: nothing; returns the future itself |
| `SyncFuture.Future.OnFailure` | Source/Promise.swift:121-132 | pending: appended; rejected: executed at once; fulfilled: nothing; returns the future itself |
| `SyncFuture.Future.Finally` | Source/Promise.swift:134-143 | pending: appended; otherwise executed at once; returns the future itself |
| `SyncFuture.DefaultExecutionContext` | Source/Promise.swift:26-32 | runs the task at once; the new future is fulfilled if it returned and rejected with its error if it threw |
| `Guarantor.PromiseGuarantor.constructor` | Source/PromiseGuarantor.swift:13-22 | owns a fresh promise and reports `isPending` |
| `Guarantor.PromiseGuarantor.IsPending` | Source/PromiseGuarantor.swift:15-20 | true exactly when the owned promise's state is pending |
| `Guarantor.PromiseGuarantor.Reject` | Source/PromiseGuarantor.swift:24-27 | settle-once `reject` on the owned promise, which it returns |
| `Guarantor.PromiseGuarantor.Fulfill` | Source/PromiseGuarantor.swift:29-32 | settle-once `fulfill` on the owned promise, which it returns |
| `Guarantor.PromiseGuarantor.Resolve` | Source/PromiseGuarantor.swift:34-36 | forwards `resolve`: fulfills or rejects with the thrown error |
| `Guarantor.PromiseGuarantor.EnsureResolution` | Source/PromiseGuarantor.swift:41-43 | the assertion holds exactly when the promise is no longer pending |
| `FutureComposition.Correlate` | Source/Future.swift:91-97 | on a pending target (the only kind `bind` passes), the correlated future stays pending while the source does, is fulfilled with the transformed value, or rejected with the same error |
| `FutureComposition.BindOutcome` | Source/FutureComposition.swift:12-22 | `bind(k)(fa)`: pending while `fa` is; a rejection passes with the same error whatever `k`; a fulfillment with `a` takes `k(a)`'s outcome |
| `FutureComposition.CorrelateIdentity` | Source/PromiseComposition.swift:15-16 | correlating with the identity transform copies the next stage's outcome |
| `FutureComposition.PipeIsComposition` | Source/FutureComposition.swift:31-37 | `a \|> f` is `f(a)`, and `a \|> f \|> g` is `(f >>> g)(a)` |
| `FutureComposition.ComposeAssociative` | Source/FutureComposition.swift:24-29 | regrouping a `>>>` chain does not change its outcome |
| `FutureComposition.RejectionPassesStages` | Source/PromiseComposition.swift:17-19 | a rejected future piped through any stages stays rejected with the same error |
| `FutureComposition.RejectionReachesEnd` | Tests/FutureCompositionTests.swift:76-92 | a rejection in the middle of a pipeline reaches its end unchanged |
| `Scenarios.FunctionCompositionScenarios` | Tests/FunctionCompositionTests.swift:32-88 | `"100"` gives 200 and `"abc"` throws the conversion error, by `>>>` and by `\|>` |
| `Scenarios.SuccessfulChain` | Tests/FutureCompositionTests.swift:63-74 | the six-stage chain settles with "1776" for 444 |
| `Scenarios.FailingChain` | Tests/PromiseCopositionTests.swift:79-95 | the chain with a rejecting stage rejects with `failedToConvertNumberToString(888)` |
| `Scenarios.PipeScenarios` | Tests/FutureCompositionTests.swift:95-114 | `100 \|> ...` settles with 400; with a rejecting stage it rejects |
| `Scenarios.CoalescingScenarios` | Tests/ResultTests.swift:102-137 | `D ?? C ?? B ?? A` gives "testB"; `C ?? D` has D's error; `B ?? C ?? "final"` gives "final" |
| `Scenarios.MultipleSettlement` | Tests/FutureTests.swift:53-72 | fulfill "test", fulfill "testA", reject: the state stays `fulfilled("test")`; reject `someError`, fulfill "test": the state stays `rejected(someError)` |
| `Scenarios.PendingRegistrations` | Tests/FutureTests.swift:97-109 | registrations on a pending future are stored in call order and nothing is dispatched |
| `Scenarios.FulfilledRegistrations` | Tests/FutureTests.swift:109-113 | after fulfillment and the flush, handlers 1, 3 and 4 have been dispatched in registration order and failure handler 2 has not |
| `Scenarios.MultipleHandlers` | Tests/FutureTests.swift:88-129 | success and finally handlers, early and late, are dispatched once each with "test"; failure handlers never are |
| `Scenarios.RegistrationBeforeFlush` | Source/Future.swift:69-72 | a registration between the settlement and its flush is dispatched before the stored one |
| `Scenarios.GuarantorFulfillThenReject` | Tests/PromiseGuarantorTests.swift:29-56 | fulfill then reject leaves `Fulfilled("test")` and not pending |
| `Scenarios.GuarantorRejectThenFulfill` | Tests/PromiseGuarantorTests.swift:58-85 | reject then fulfill leaves `Rejected(AnotherError)` and not pending |
| `Scenarios.GuarantorResolve` | Tests/PromiseGuarantorTests.swift:87-143 | resolving with a returning function fulfills, with a throwing one rejects; resolution is ensured |

## Left out

- Source/Asynchronous.swift is not part of this model. It holds `onMainQueue`/`onBackgroundQueue`/`onQueue`, which are queue dispatch wrappers, and `await`, which blocks on a semaphore. Its main-thread precondition is thread plumbing with no sequential counterpart.
- Source/ExecutionContexts.swift is not part of this model. `futureAsync`/`futureSync` only wrap `DispatchQueue.async`/`sync` around `resolveWith`.
- Source/Operators.swift declares precedence and left associativity only. That associativity is used where `a |> f |> g` is read as `(a |> f) |> g`.
- The unsynchronised read of `state` in the guards of Source/Future.swift:68 and 76 is not modelled. The model treats each guard and its state write as one atomic step, so the `willSet` assertion of Source/Future.swift:40-45 can never fail there. In Source/Promise.swift that assertion becomes the precondition of `SyncFuture.Future.SetState`.
- When and on which thread a dispatched handler runs is not modelled. The model also does not cover `DispatchQueue.main` as the default queue, nor the ordering between different target queues. A dispatch is an entry of a log.
- `FutureComposition.Correlate`: `correlate` registers a success and a failure handler on the source future. The model gives only the outcome those handlers produce, because handler closures are opaque identifiers.
- `FutureComposition.BindOutcome`: `bind` allocates a fresh future and registers handlers on its input. The model states only the outcome of the new future, not the allocation or the registrations.
- `Guarantor.PromiseGuarantor`: the `Promise<T>` type it owns is not among the modelled files. It is taken to be the future class of Source/Promise.swift, whose `state` and `Pending` case the guarantor reads.
- `SyncFuture.Future.SetState`: a handler that runs inside `didSet` may call `onSuccess`, `onFailure` or `finally` on the same future. That handler then runs at once, before the remaining stored handlers. The model does not capture this re-entrant registration, or settlement from a running handler, because handler closures are opaque identifiers that do nothing when run.
- `Scenarios`: the guarantor scenarios follow Tests/PromiseGuarantorTests.swift, which exercises `Promise<String>()` through `promise.future.state`. The model treats that `Promise` as `Guarantor.PromiseGuarantor` owning a `SyncFuture.Future`.
- The `Promise<T>` write-side class of the current engine (`.future`, `resolveWith`, `isPending`) is not part of this model.
- Errors are opaque values with equality. Swift's `Error` existential and casts such as `error as? TestError` are not modelled.
- The `@autoclosure` laziness of the `??` fallbacks has no observable effect in a model without side effects.
- `Scenarios`: the test helpers' `number * 2` would trap on 64-bit overflow; the model does not, because the tests' values are small. `Int(str)!` traps on a non-number; a trapping stage is modelled as a future that never settles.
- Performance tests, the brute-force threading tests and the asynchronous test expectations are not modelled.
