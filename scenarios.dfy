/**
 * A client of the store: one reducer owning the key "counter" that increments
 * it on the action type "INC", no middleware, and one listener for "counter".
 */
module Scenarios {

  import opened Optional
  import opened States
  import opened Collaborators
  import opened Subscriptions
  import opened Store

  /** The counter reducer: "INC" adds one to an integer counter and reports the
   *  key as updated; anything else changes nothing. */
  function CounterReduce(s: State, a: Action): (r: ReduceResult)
    ensures r.updatedKeys <= {"counter"}
    ensures r.updatedKeys == {} ==> r.newState == s
  {
    if a.actionType == "INC" && "counter" in s && s["counter"].IntValue? then
      ReduceResult(s["counter" := IntValue(s["counter"].i + 1)], {"counter"})
    else
      ReduceResult(s, {})
  }

  function CounterReducer(): (r: CombinedReducer)
    ensures r.allKeys == {"counter"} && OwnsUpdatedKeys(r)
  {
    CombinedReducer(CounterReduce, map["counter" := IntValue(0)], {"counter"})
  }

  /** The counter state holding `k`. */
  function Counter(k: int): (s: State)
    ensures s.Keys == {"counter"} && s["counter"] == IntValue(k)
  {
    map["counter" := IntValue(k)]
  }

  /** The executor runs one queued "INC" on a counter store with one listener
   *  for "counter": the counter goes up by one and that listener alone hears it. */
  method RunIncrement(store: SuasStore, listener: Listener, sl: StateListener, k: int)
    requires store.reducer == CounterReducer() && store.middleware == EmptyChain()
    requires store.listeners == map[listener := sl] && sl.stateKey == Some("counter")
    requires !store.reducing && store.state == Counter(k)
    requires store.tasks != [] && store.tasks[0] == Action("INC", None)
    modifies store`tasks, store`state, store`reducing, store`log
    ensures store.tasks == old(store.tasks)[1..] && !store.reducing && store.state == Counter(k + 1)
    ensures store.log == old(store.log) + [Notification(listener, sl, Some(Counter(k)), Counter(k + 1), false)]
  {
    var inc := store.tasks[0];
    assert store.middleware.onAction(inc, Counter(k)) == MiddlewareStep([], Some(inc));
    assert CounterReduce(Counter(k), inc) == ReduceResult(Counter(k + 1), {"counter"});
    var r := store.RunNextTask();
    NotificationsOfOne(listener, sl, Some(Counter(k)), Counter(k + 1), {"counter"});
    DeliveredSingle(old(store.log), store.log, Notification(listener, sl, Some(Counter(k)), Counter(k + 1), false));
  }

  /**
   * Dispatching "INC" twice and letting the executor run both tasks leaves the
   * counter two higher; the listener for "counter" hears each step once, with
   * the right old and new states; a snapshot taken before is untouched.
   */
  method CounterScenario(start: int) returns (before: State, after: State, ghost log: seq<Notification>)
    ensures before == Counter(start)
    ensures after == Counter(start + 2)
    ensures |log| == 2
    ensures log[0].listener == log[1].listener && !log[0].isInitial && !log[1].isInitial
    ensures log[0].stateListener == log[1].stateListener && log[0].stateListener.stateKey == Some("counter")
    ensures log[0].oldState == Some(before) && log[0].newState == Counter(start + 1)
    ensures log[1].oldState == Some(log[0].newState) && log[1].newState == after
  {
    var store := new SuasStore(Counter(start), CounterReducer(), EmptyChain(), "DEFAULT");
    var listener := new Listener();
    var sub := store.AddListener(listener, ForKey("counter"), None);
    before := store.GetState();
    var inc := Action("INC", None);
    store.Dispatch(inc);
    store.Dispatch(inc);
    RunIncrement(store, listener, sub.stateListener, start);
    RunIncrement(store, listener, sub.stateListener, start + 1);
    after := store.GetState();
    log := store.log;
  }
}
