# MVI base: a Dafny model

This project models the logic of an Android application shell built on the
Model-View-Intent pattern. It has three parts:

- **The MVI state container** (`MviViewModel`). It holds one current state. It
  restores that state from an optional saved-state handle under the key
  `"mvi_state_key"` or builds it with the screen's factory. It accepts intents
  on an unbounded FIFO queue and hands them, one at a time, to the screen's
  handler. `setState(reducer)` commits a new state and writes it back to the
  handle. `sendEffect(effect)` sends a one-shot effect to whoever is collecting
  effects at that moment.
- **The error classifier** (`ErrorHandlerImpl.getError`). It maps every
  throwable to one of four user messages.
- **The use-case wrapper** (`BaseUseCase.invoke`). It runs a use case's
  `execute` flow and turns an upstream failure into one final `Result.Error`, so
  the resulting flow always completes normally.

Files and modules:

- `results.dfy` (`Results`): `Option`, the `Throwable` kinds the code tells
  apart, and `Result` = `Success(data) | Error(exception)`. `Wrapped(cause)` is
  the plain `Exception(cause)` that the use-case layer builds.
- `error_handler.dfy` (`ErrorHandling`): `GetError` and what is proved about
  its range.
- `use_case.dfy` (`UseCase`): a finite `Flow` is a list of emitted values plus an
  optional terminal failure. `Catch` models the flow operator and `Invoke` the
  use case. The lemmas relate the output to the upstream flow.
- `mvi_actions.dfy` (`MviActions`): a handler's work as values. The handler
  answers an intent with a sequence of `SetState(reducer)` / `Emit(effect)`
  actions. `Reduce`, `Effects`, `StateAfter` and `Emitted` give the reference
  meaning of handling one intent and a queue of intents. The lemmas show that
  handling composes in FIFO order.
- `mvi_view_model.dfy` (`Mvi`): the `SavedStateHandle` key/value store and the
  `MviViewModel` class. The class has the state, the intent queue and the effect
  subscribers' inboxes as fields. Its methods are proved against the functions
  of `MviActions`. A ghost history (`sent`, `handled`) with the invariant
  `sent == handled + intents` states FIFO order. The invariant
  "the saved slot, once written, equals the state" states the mirroring.

The screen's `createInitialState` and `handleIntent` are constructor
parameters, not subclass methods. The factory has type `() --> S`. The
constructor requires it to be callable only when no saved state exists. This is
how the model states that the Elvis operator at `MviViewModel.kt:50` never calls
the factory when a saved state is restored. `RestoreAfterSetState` uses this: the
second container is built with a factory that is never needed.

A proved consequence of combining the two pure parts
(`UseCase.CaughtFailureMessage`): an error appended by `invoke` wraps the failure
in a new `Exception`, and `getError` does not recognise that wrapper. Classifying
the appended error itself therefore always gives "An unexpected error
occurred", even for an I/O failure. Classifying its cause gives the original
message.

Three facts about the container's code shape the model:

- Exceptions thrown by `handleIntent` are not caught.
- There is no teardown operation.
- `setState` writes the handle synchronously.

## Model

| member | source | states |
|---|---|---|
| `ErrorHandling.GetError` | app/src/main/java/com/capaocho/espert/data/error/ErrorHandlerImpl.kt:10-22 | Every throwable maps to one of the four messages. A message is "No internet connection" exactly for I/O exceptions, "Internal server error" exactly for response exceptions with status 500, "Resource not found" exactly for status 404, and "An unexpected error occurred" for every other response status and every other throwable. |
| `ErrorHandling.MessagesAreExactlyFour` | app/src/main/java/com/capaocho/espert/data/error/ErrorHandlerImpl.kt:10-22 | The four messages are distinct, and a string is one of them exactly when some throwable is classified as it: the range is exactly the four strings. |
| `ErrorHandling.WrappedIsUnexpected` | app/src/main/java/com/capaocho/espert/data/error/ErrorHandlerImpl.kt:20 | A plain exception wrapping any cause falls into the final `else` branch and gets the generic message. |
| `UseCase.Catch` | app/src/main/java/com/capaocho/espert/domain/usecase/BaseUseCase.kt:34 | The caught flow always completes normally. A normally completing upstream passes through unchanged. A failing upstream keeps its values, followed by what the handler emits for the failure. |
| `UseCase.Invoke` | app/src/main/java/com/capaocho/espert/domain/usecase/BaseUseCase.kt:32-35 | Once `execute` has returned its flow, `invoke`'s flow always completes normally. If that flow completes normally, the output is exactly its results in order. If it fails, its results are kept in order and followed by exactly one `Error` whose exception wraps the original throwable as its cause. |
| `UseCase.InvokeKeepsSuccesses` | app/src/main/java/com/capaocho/espert/domain/usecase/BaseUseCase.kt:32-34 | The successful data of the output, in order, is exactly that of `execute`'s flow, including values emitted before a failure. |
| `UseCase.InvokeErrorCount` | app/src/main/java/com/capaocho/espert/domain/usecase/BaseUseCase.kt:32-34 | Errors that `execute` emits itself pass through. The output has as many errors as the upstream, plus one exactly when the upstream fails. |
| `UseCase.InvokeIdempotent` | app/src/main/java/com/capaocho/espert/domain/usecase/BaseUseCase.kt:27-34 | Wrapping a use case's output a second time changes nothing, because the output never ends in a failure. |
| `UseCase.CaughtFailureMessage` | app/src/main/java/com/capaocho/espert/domain/usecase/BaseUseCase.kt:34 | For a failing upstream, the last output is an `Error` whose exception is a wrapper. Classifying its cause gives the failure's own message. Classifying the wrapper gives "An unexpected error occurred". |
| `UseCase.WelcomeUseCase` | app/src/main/java/com/capaocho/espert/data/repository/WelcomeRepositoryImpl.kt:10-13 | A use case over the welcome repository's producer emits exactly its one welcome `Success`. |
| `MviActions.ReduceAppend` | app/src/main/java/com/capaocho/espert/ui/mvi/MviViewModel.kt:73-75 | Successive `setState` calls compose: applying two action sequences in turn equals applying their concatenation. |
| `MviActions.EffectsAppend` | app/src/main/java/com/capaocho/espert/ui/mvi/MviViewModel.kt:82-86 | Effects are emitted in the order the handler issues them, across concatenated action sequences. |
| `MviActions.CommitsStateIff` | app/src/main/java/com/capaocho/espert/ui/mvi/MviViewModel.kt:76 | The saved slot is written during a handler's turn exactly when one of its actions is a `setState`. |
| `MviActions.EmitsKeepState` | app/src/main/java/com/capaocho/espert/ui/mvi/MviViewModel.kt:82-86 | Actions that only send effects leave the state unchanged and never write the saved slot. |
| `MviActions.NoCommitKeepsState` | app/src/main/java/com/capaocho/espert/ui/mvi/MviViewModel.kt:73-75 | The state changes only through `setState`: actions that commit nothing leave it as it was. |
| `MviActions.DeliverAppend` | app/src/main/java/com/capaocho/espert/ui/mvi/MviViewModel.kt:40 | Two rounds of delivery equal one delivery of the concatenated effects. Delivery never adds or removes subscribers. |
| `MviActions.NoReplay` | app/src/main/java/com/capaocho/espert/ui/mvi/MviViewModel.kt:40-44 | The effect stream has no replay. An effect sent with no subscribers is dropped. A subscriber that joins later receives only the effects emitted after it joined. |
| `MviActions.StateAfterAppend` | app/src/main/java/com/capaocho/espert/ui/mvi/MviViewModel.kt:53-57 | FIFO handling composes: the state after handling `q1 + q2` is the state after handling `q2` from the state that `q1` left. |
| `MviActions.EmittedAppend` | app/src/main/java/com/capaocho/espert/ui/mvi/MviViewModel.kt:53-57 | The effects of handling `q1 + q2` are those of `q1` followed by those of `q2`, the latter handled from the state `q1` left. |
| `Mvi.SavedStateHandle.Get` | app/src/main/java/com/capaocho/espert/ui/mvi/MviViewModel.kt:50 | Reading a key gives its stored value when present and nothing otherwise. |
| `Mvi.SavedStateHandle.Set` | app/src/main/java/com/capaocho/espert/ui/mvi/MviViewModel.kt:76 | Writing a key replaces that key's value and leaves every other key unchanged. |
| `Mvi.MviViewModel.constructor` | app/src/main/java/com/capaocho/espert/ui/mvi/MviViewModel.kt:49-51 | The initial state is the value saved under `"mvi_state_key"` when a handle is given and holds one. Otherwise it is the factory's value, and only then must the factory be callable. The queue, the history and the subscribers start empty. |
| `Mvi.MviViewModel.GetState` | app/src/main/java/com/capaocho/espert/ui/mvi/MviViewModel.kt:34-38 | The `state` getter returns the current state, which equals the saved slot whenever the slot holds a value. |
| `Mvi.MviViewModel.SendIntent` | app/src/main/java/com/capaocho/espert/ui/mvi/MviViewModel.kt:63-67 | The intent is appended to the back of the unbounded queue. It is never rejected. The state, the saved slot, the subscribers and the handled history are unchanged. |
| `Mvi.MviViewModel.SetState` | app/src/main/java/com/capaocho/espert/ui/mvi/MviViewModel.kt:73-77 | The new state is the reducer applied to the state current at the call. With a handle, the slot under `"mvi_state_key"` then holds the new state and no other key changes. With no handle, nothing is stored. The queue and the subscribers are unchanged. |
| `Mvi.MviViewModel.SendEffect` | app/src/main/java/com/capaocho/espert/ui/mvi/MviViewModel.kt:82-86 | The effect is appended to the inbox of every subscriber present now, and to nobody else. With no subscribers it is dropped. The state and the saved slot are unchanged. |
| `Mvi.MviViewModel.SubscribeEffects` | app/src/main/java/com/capaocho/espert/ui/mvi/MviViewModel.kt:40-44 | A new collector of the effect stream gets an identity never handed out before (the subscriber counter, which then advances) and an empty inbox. Nothing emitted before it subscribed is replayed. |
| `Mvi.MviViewModel.UnsubscribeEffects` | app/src/main/java/com/capaocho/espert/ui/mvi/MviViewModel.kt:40-44 | A collector that stops is removed and receives nothing more. Every other inbox is unchanged. |
| `Mvi.MviViewModel.Perform` | app/src/main/java/com/capaocho/espert/ui/mvi/MviViewModel.kt:93-96 | The handler's `setState`/`sendEffect` calls are applied in order. The state becomes `Reduce` of them, every subscriber receives `Effects` of them, and the slot is written with the final state exactly when some action committed; otherwise the handle is unchanged. |
| `Mvi.MviViewModel.ProcessNext` | app/src/main/java/com/capaocho/espert/ui/mvi/MviViewModel.kt:53-57 | One collector turn. On an empty queue nothing changes, including every key of the handle. Otherwise the oldest intent is removed, recorded as handled, and handled completely against the state current at that moment. |
| `Mvi.MviViewModel.ProcessAll` | app/src/main/java/com/capaocho/espert/ui/mvi/MviViewModel.kt:53-57 | Running the collect loop until the queue is empty handles every pending intent in the order sent. The final state is `StateAfter` of the queue, and every subscriber receives `Emitted` of the queue. With a handle, the slot is written with the final state exactly when some intent's actions committed (`CommitsAny`); otherwise the handle is unchanged, and no other key ever changes. The subscriber counter is unchanged. |
| `Mvi.RestoreAfterSetState` | app/src/main/java/com/capaocho/espert/ui/mvi/MviViewModel.kt:50-76 | Round trip: a new container built with the same handle after a `setState` starts in the last committed state, without needing its factory. |
| `Mvi.LateSubscriber` | app/src/main/java/com/capaocho/espert/ui/mvi/MviViewModel.kt:82-86 | An effect sent before a subscriber joins is not delivered to it. The one sent after is, and the state is unchanged throughout. |
| `Mvi.CounterScenario` | app/src/main/java/com/capaocho/espert/ui/mvi/MviViewModel.kt:53-67 | With a counter screen starting at 0 and the intents Increment, Increment, Decrement sent before any is processed, the observed states are 0, 1, 2, 1. |

## Left out

- Coroutines are not modelled: `viewModelScope`, its cancellation, and the `launch` inside `sendIntent` and `sendEffect`. Sending an intent is an immediate enqueue. Sending an effect is an immediate delivery. The collector runs only when `ProcessNext` or `ProcessAll` is called.
- Collectors of `state` are not modelled. The `StateFlow` replay of the current value, its conflation for slow collectors and its skipping of equal values are left out. The state is read through `GetState`.
- The screen handler is a function of the intent and of the state current when the intent is dequeued. A Kotlin handler that reads `state.value` again after its own `setState` must express that through its reducers. A handler that sends further intents or launches background work is not modelled.
- The code does not catch exceptions thrown by `handleIntent`. An exception from the handler escapes `intentFlow.collect` (MviViewModel.kt:54-56) inside the coroutine started by `viewModelScope.launch`. That coroutine fails, and since no exception handler is installed, the exception goes to the thread's uncaught-exception handler. The model has no fault path for it.
- `SavedStateHandle` is an in-memory key/value map. Bundle and Parcelable serialisation, a key holding `null` and the unchecked cast in `get<S>` are left out.
- UseCase.Invoke: `execute(params)` is evaluated inside `invoke`, before and outside the `catch` operator (BaseUseCase.kt:33). An exception that `execute` throws before returning its flow therefore escapes `invoke` and does not become a `Result.Error`. The model's `execute` always returns a flow, so it does not capture this path.
- UseCase.Catch: Kotlin's `catch` operator does not see exceptions thrown downstream or cancellation. A handler that itself throws is not modelled.
- `flowOn(dispatcher)` only moves where the flow runs, so it is left out.
- Results.Result: `Result.Error` holds an `Exception` in Kotlin. The model allows any `Throwable`, since `Other` does not say whether it is an `Exception`.
- `DataStorePreferenceStorage`, `PreferenceStorage` and the dependency-injection modules are left out. They wrap the DataStore, Hilt, Ktor and Room libraries and hold no logic of their own.
