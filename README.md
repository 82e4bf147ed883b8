# SuasStore, modelled in Dafny

This project models the runtime of Suas's in-process state store, `SuasStore`.
The store holds one current `State`, a map from top-level keys to sub-state
values. It changes that state only through its combined reducer, which runs
inside the dispatch continuation that the middleware chain calls. The
continuation is guarded by an `isReducing` flag: in Idle it reduces, installs
the new state, notifies the matching listeners and clears the flag again; in
Reducing it throws. The store keeps its listeners in a map keyed by listener
identity. `reset` merges the reducers' empty state with a given state and
notifies as if every key had changed. Each `addListener` returns a subscription
handle that can re-arm, remove, or inform its listener with the current state.

Modules:

- `Optional` (`optional.dfy`): `Option`, for the places where the Java code passes `null`.
- `States` (`states.dfy`): `State` and `State.mergeStates`. A Dafny map is a value, so every read of the state is already a defensive copy.
- `Collaborators` (`collaborators.dfy`): the collaborators whose code is not part of this model, reduced to what the store relies on:
  - `CombinedReducer`: a pure `reduce`, the empty state and the set of owned keys;
  - `CombinedMiddleware`: a driver that dispatches further actions and either calls the continuation or does not;
  - `Listener`: an object, whose identity keys the registry;
  - `StateListener`: the record `Listeners.create` builds;
  - `Action`.
- `Subscriptions` (`subscriptions.dfy`): the registry operations (`put`, `remove`), the matching rule, and the set of notifications one transition delivers, with lemmas about it.
- `Store` (`store.dfy`): class `SuasStore` and class `DefaultSubscription`. Their fields are the source's fields. The executor is a FIFO queue of actions (`tasks`). Every `StateListener.update` call is recorded in a ghost log of `Notification`s.
- `Scenarios` (`scenarios.dfy`): a client. It uses a counter reducer and a listener for `"counter"`, dispatches `"INC"` twice and runs both tasks.

Listener notification order follows `HashMap` iteration, so it is unordered. Each batch of notifications is therefore stated as a set. The log is compared with that set as a multiset: every matching listener appears exactly once, in some order.

Two behaviours of the code that a reader might not expect:

- A listener without a state key is notified on every reduce, even one whose updated-key set is empty (`SuasStore.java:66`), not only on reduces that changed something. See `NoUpdatedKeysReachesOnlyCatchAll`.
- `reset` notifies listeners whose key is null or among the reducers' keys (`SuasStore.java:76`), not every registered listener. A listener keyed to a key that no reducer owns is not notified.

## Model

| member | source | states |
|---|---|---|
| `Store.SuasStore.constructor` | suas-lib/src/main/java/zendesk/suas/SuasStore.java:25-33 | The store keeps the given state, reducer, middleware and default filter, and starts idle with an empty listener map, nothing queued and nothing notified. It requires a non-empty reducer collection, which `Suas.createStore` checks at Suas.java lines 43-48 |
| `Store.SuasStore.GetState` | suas-lib/src/main/java/zendesk/suas/SuasStore.java:37-39 | Returns the current state as an independent value. Later store changes do not reach it, as `Scenarios.CounterScenario` shows |
| `Store.SuasStore.Dispatch` | suas-lib/src/main/java/zendesk/suas/SuasStore.java:42-43 | The action is queued behind every earlier one (FIFO executor); nothing else changes |
| `Store.SuasStore.RunNextTask` | suas-lib/src/main/java/zendesk/suas/SuasStore.java:43-61 | The oldest task leaves the queue. Actions the middleware dispatches are queued behind the rest. If the middleware calls the continuation, the continuation's full effect follows; if not, state, flag and log are untouched |
| `Store.SuasStore.Next` | suas-lib/src/main/java/zendesk/suas/SuasStore.java:47-58 | Idle: the new state is exactly the reducer's new state for (old state, action), the flag is clear again, and every matching listener is notified once with (old, new, not initial). Reducing: it fails with the source's message and leaves state, flag and log unchanged |
| `Store.SuasStore.NotifyListener` | suas-lib/src/main/java/zendesk/suas/SuasStore.java:64-70 | The log grows by exactly the notifications of the listeners whose key is null or among the updated keys, each once, in some order |
| `Store.SuasStore.Reset` | suas-lib/src/main/java/zendesk/suas/SuasStore.java:72-77 | The state becomes `mergeStates(emptyState, s)`. The listeners whose key is null or among all reducer keys are notified once each. The flag is outside the frame, so it is neither read nor written |
| `Store.SuasStore.AddListener` | suas-lib/src/main/java/zendesk/suas/SuasStore.java:79-138 | Every overload builds its state listener and returns a fresh subscription bound to this store and listener. The registry maps the listener to that state listener, replacing any earlier entry |
| `Store.SuasStore.RemoveListener` | suas-lib/src/main/java/zendesk/suas/SuasStore.java:129-132 | The registry loses exactly that listener's entry. An absent listener leaves it unchanged |
| `Store.DefaultSubscription.constructor` | suas-lib/src/main/java/zendesk/suas/SuasStore.java:145-148 | The handle remembers its store, state listener and listener |
| `Store.DefaultSubscription.RemoveListener` | suas-lib/src/main/java/zendesk/suas/SuasStore.java:150-153 | Same effect as the store's `removeListener` for its listener |
| `Store.DefaultSubscription.AddListener` | suas-lib/src/main/java/zendesk/suas/SuasStore.java:155-158 | Re-arms: the registry maps its listener to its state listener, overwriting any entry |
| `Store.DefaultSubscription.InformWithCurrentState` | suas-lib/src/main/java/zendesk/suas/SuasStore.java:160-163 | Exactly one notification (no old state, the current state, initial), with no key matching. State and registry are outside the frame |
| `Store.DeliveredSingle` | suas-lib/src/main/java/zendesk/suas/SuasStore.java:64-69 | A batch of one notification is delivered by appending exactly that notification to the log |
| `States.MergeStates` | suas-lib/src/main/java/zendesk/suas/SuasStore.java:75 | The merged state has the keys of both states. The given state's values win, and the empty state fills in the keys the given state omits |
| `States.MergeStatesCovering` | suas-lib/src/main/java/zendesk/suas/SuasStore.java:75 | A reset state that covers every key of the empty state is installed as it is |
| `Collaborators.CreateStateListener` | suas-lib/src/main/java/zendesk/suas/SuasStore.java:79-127 | The state key is present exactly for the overloads given a String key, and equals that key. Class-only, selector and whole-state listeners are assumed to have none (see "## Left out"). An explicit filter wins over the store's default filter |
| `Subscriptions.Register` | suas-lib/src/main/java/zendesk/suas/SuasStore.java:156-158 | After `put`, the listener maps to the new state listener and every other entry is unchanged. The size grows by one only when the listener was absent |
| `Subscriptions.Unregister` | suas-lib/src/main/java/zendesk/suas/SuasStore.java:130-132 | After `remove`, only that listener's entry is gone. An absent listener leaves the map equal to before. The size drops by one only when the listener was present |
| `Subscriptions.RegisterOverwrites` | suas-lib/src/main/java/zendesk/suas/SuasStore.java:156-158 | Registering a listener twice keeps only the later state listener |
| `Subscriptions.UnregisterUndoesRegister` | suas-lib/src/main/java/zendesk/suas/SuasStore.java:129-158 | Removing a listener that was newly registered restores the registry |
| `Subscriptions.NotificationsAmongStep` | suas-lib/src/main/java/zendesk/suas/SuasStore.java:65-69 | Visiting one more registered listener adds its notification, only if it matches, and that notification was not there yet |
| `Subscriptions.RecipientsAmongStep` | suas-lib/src/main/java/zendesk/suas/SuasStore.java:65-69 | Visiting one more listener adds it to the recipients exactly when it is registered and matches |
| `Subscriptions.NotificationsAmongSkip` | suas-lib/src/main/java/zendesk/suas/SuasStore.java:65-69 | A listener that is not registered adds no notification |
| `Subscriptions.NotificationsAmongCount` | suas-lib/src/main/java/zendesk/suas/SuasStore.java:65-69 | For any set of listeners, the notifications number exactly the registered, matching listeners |
| `Subscriptions.NotifiedExactlyOnce` | suas-lib/src/main/java/zendesk/suas/SuasStore.java:64-69 | One notification per recipient and none for anyone else. A listener is notified iff its key is null or updated. Each notification carries that listener's own state listener, the transition's old and new states, and is not initial |
| `Subscriptions.NotificationsOfOne` | suas-lib/src/main/java/zendesk/suas/SuasStore.java:64-69 | With a single registered listener, the batch is that listener's notification if it matches, and empty otherwise |
| `Subscriptions.RecipientsGrowWithKeys` | suas-lib/src/main/java/zendesk/suas/SuasStore.java:66 | More updated keys never notify fewer listeners |
| `Subscriptions.NoUpdatedKeysReachesOnlyCatchAll` | suas-lib/src/main/java/zendesk/suas/SuasStore.java:66 | A reduce that updated no key still notifies every listener without a state key, and only those |
| `Subscriptions.ResetReachesEveryReduceRecipient` | suas-lib/src/main/java/zendesk/suas/SuasStore.java:53-76 | When the reducer reports only keys it owns, `reset` notifies every listener that any reduce could notify |
| `Scenarios.RunIncrement` | suas-lib/src/main/java/zendesk/suas/SuasStore.java:43-69 | One queued "INC" on a counter store raises the counter by one. The single listener for "counter" is notified once, with the old and new counter states |
| `Scenarios.CounterScenario` | suas-lib/src/main/java/zendesk/suas/SuasStore.java:37-69 | Two dispatched "INC"s raise the counter by two, with two non-initial notifications to the same listener, whose state listener is keyed to "counter", carrying the right old and new states. A snapshot taken before is unchanged |

## Left out

- Collaborators.CreateStateListener: `Listeners.create` is not part of this model. The model assumes that the Class-only overloads (SuasStore.java lines 99-107), the selector overloads and the whole-state overloads build a state listener with no state key. The store's matching rule then notifies such a listener on every reduce and every reset, including a reduce that updated no key. How a Class-only listener is actually matched is not modelled: the sub-value type test, or any key that `Listeners.create` might derive from the class.
- States.MergeStates: `State.mergeStates` is not part of this model. It is taken to be a copy of the empty state with every entry of the given state put over it. So `reset(s)` keeps a key of `s` that no reducer owns, and fills in every reducer key that `s` omits.
- Threading: the executor's thread, `synchronized` on `dispatch` and the atomicity of `AtomicBoolean.compareAndSet` are not modelled. The flag is a plain boolean, and the executor is a FIFO queue that runs one task to completion per `RunNextTask` call.
- Executor selection, the Android detection and the builder's null checks in `Suas.java` are not modelled. Only the non-empty reducer collection is kept, as the constructor's precondition. The builder's merge of the initial state with the empty state is not modelled either: the constructor takes the state as given, as `SuasStore`'s constructor does.
- Store.SuasStore.NotifyListener: the order in which listeners are notified is left open, because `HashMap` iteration order is unspecified.
- The internals of `CombinedReducer` are abstract: per-key reducers, change detection by value equality, and the duplicate-key check. `reduce`, the empty state and the key set are given values.
- The internals of `CombinedMiddleware` are abstract: the chain of middleware, its view of the store, and asynchronous middleware that calls the continuation later. One run of the chain is a pure function of the action and the current state. It names the actions it dispatches and whether, and with which action, it continues.
- A middleware chain that calls the continuation more than once for one action is not modelled: `MiddlewareStep.next` allows at most one call. In the Java code each such call made while the flag is clear is a separate reduce, with its own state change and its own notifications.
- Type and selector matching in `Listeners.create` and the filter evaluation inside `StateListener.update` are not modelled. A filter is known only by name, and a state listener records its specification. `update` is recorded in a ghost log, and what the listener then does is not modelled.
- Re-entry is not modelled: nothing in the model invokes a continuation from inside a reduce or a notification (for example, a listener calling a continuation it captured). `Next` is specified for both values of the flag, and its error branch covers that case.
- Exceptions thrown by reducers or listeners are not modelled. In the Java code such an exception skips `isReducing.set(false)`, so the flag stays set and every later continuation fails.
- Sub-state values are a small stand-in universe (`Value`), because the store never inspects them. Actions carry a type string and an optional value.
