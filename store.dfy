/**
 * SuasStore: the store runtime.  It owns the current state, the reducing flag
 * that guards the dispatch continuation, the listener registry, and (standing
 * in for the executor) a FIFO queue of dispatched actions that are run one at
 * a time to completion.  Listener callbacks are recorded in a ghost log.
 */
module Store {

  import opened Optional
  import opened States
  import opened Collaborators
  import opened Subscriptions

  /** The message of the error a re-entrant continuation raises. */
  const ReentrantDispatchMessage := "You must not dispatch actions in your reducer. Seriously. (╯°□°）╯︵ ┻━┻"

  /** How a continuation or a task ended: normally, or with the error it raised. */
  datatype Outcome = Pass | Fail(message: string)

  /** `after` extends `before` by exactly the notifications of `batch`, each
   *  once, in some order. */
  ghost predicate Delivered(before: seq<Notification>, after: seq<Notification>, batch: set<Notification>)
  {
    && |before| <= |after|
    && after[..|before|] == before
    && multiset(after[|before|..]) == multiset(batch)
  }

  /** A batch of one notification is delivered by appending exactly it. */
  lemma {:induction false} DeliveredSingle(before: seq<Notification>, after: seq<Notification>, n: Notification)
    requires Delivered(before, after, {n})
    ensures after == before + [n]
  {
    var delta := after[|before|..];
    assert multiset(delta) == multiset{n};
    assert |delta| == 1;
    assert delta[0] in multiset(delta);
    assert after == after[..|before|] + delta;
  }

  class SuasStore {

    var state: State
    const reducer: CombinedReducer
    const middleware: CombinedMiddleware
    const defaultFilter: FilterName
    /** The executor's queue of dispatched actions, oldest first. */
    var tasks: seq<Action>
    var listeners: ListenerMap
    var reducing: bool
    /** Every StateListener.update call so far, oldest first. */
    ghost var log: seq<Notification>

    /** A store needs at least one reducer; it starts idle, with no listeners
     *  and nothing queued. */
    constructor (initial: State, reducer: CombinedReducer, middleware: CombinedMiddleware, defaultFilter: FilterName)
      requires reducer.allKeys != {}
      ensures this.state == initial && this.reducer == reducer && this.middleware == middleware
      ensures this.defaultFilter == defaultFilter
      ensures tasks == [] && listeners == map[] && !reducing && log == []
    {
      this.state := initial;
      this.reducer := reducer;
      this.middleware := middleware;
      this.defaultFilter := defaultFilter;
      this.tasks := [];
      this.listeners := map[];
      this.reducing := false;
      this.log := [];
    }

    /** getState: a copy of the current state.  The result is a value, so no
     *  later change to the store can reach it, nor it the store. */
    method GetState() returns (s: State)
      ensures s == state
    {
      s := state;
    }

    /** dispatch: hand the action to the executor, which queues it behind every
     *  action dispatched earlier. */
    method Dispatch(action: Action)
      modifies this`tasks
      ensures tasks == old(tasks) + [action]
    {
      tasks := tasks + [action];
    }

    /** The effect of one call of the dispatch continuation with `action`:
     *  when idle, the reducer's new state is installed, the matching listeners
     *  hear of it and the flag is clear again; when already reducing, it fails
     *  and changes nothing. */
    twostate predicate ContinuedWith(action: Action, r: Outcome)
      reads this
    {
      if old(reducing) then
        && r == Fail(ReentrantDispatchMessage)
        && state == old(state) && reducing && log == old(log)
      else
        var result := reducer.reduce(old(state), action);
        && r == Pass
        && state == result.newState && !reducing
        && Delivered(old(log), log, Notifications(listeners, Some(old(state)), state, result.updatedKeys))
    }

    /** The executor runs the oldest queued task: the middleware chain sees the
     *  action and the current state, may dispatch further actions (queued
     *  behind the rest), and calls the continuation or suppresses the action. */
    method RunNextTask() returns (r: Outcome)
      modifies this`tasks, this`state, this`reducing, this`log
      ensures old(tasks) == [] ==>
        tasks == [] && r == Pass && state == old(state) && reducing == old(reducing) && log == old(log)
      ensures old(tasks) != [] ==>
        var step := middleware.onAction(old(tasks)[0], old(state));
        && tasks == old(tasks)[1..] + step.dispatched
        && (step.next.None? ==>
              r == Pass && state == old(state) && reducing == old(reducing) && log == old(log))
        && (step.next.Some? ==> ContinuedWith(step.next.value, r))
    {
      if tasks == [] {
        return Pass;
      }
      var action := tasks[0];
      var step := middleware.onAction(action, state);
      tasks := tasks[1..] + step.dispatched;
      if step.next.Some? {
        r := Next(step.next.value);
      } else {
        r := Pass;
      }
    }

    /** The terminal continuation of the middleware chain (the reducing guard). */
    method Next(action: Action) returns (r: Outcome)
      modifies this`state, this`reducing, this`log
      ensures ContinuedWith(action, r)
    {
      if !reducing {
        reducing := true;
        var oldState := GetState();
        var result := reducer.reduce(oldState, action);
        state := result.newState;
        var newState := GetState();
        NotifyListener(oldState, newState, result.updatedKeys);
        reducing := false;
        r := Pass;
      } else {
        r := Fail(ReentrantDispatchMessage);
      }
    }

    /** notifyListener: walk the registry in no particular order and call
     *  update(old, new, false) on every state listener that matches. */
    method NotifyListener(oldState: State, newState: State, updatedKeys: set<string>)
      modifies this`log
      ensures Delivered(old(log), log, Notifications(listeners, Some(oldState), newState, updatedKeys))
    {
      var pending := listeners.Keys;
      ghost var delta: seq<Notification> := [];
      while pending != {}
        invariant pending <= listeners.Keys
        invariant log == old(log) + delta
        invariant multiset(delta)
               == multiset(NotificationsAmong(listeners, listeners.Keys - pending, Some(oldState), newState, updatedKeys))
        decreases pending
      {
        var l :| l in pending;
        var sl := listeners[l];
        ghost var visited := listeners.Keys - pending;
        NotificationsAmongStep(listeners, visited, l, Some(oldState), newState, updatedKeys);
        assert listeners.Keys - (pending - {l}) == visited + {l};
        if Matches(sl, updatedKeys) {
          var n := Notification(l, sl, Some(oldState), newState, false);
          log := log + [n];
          delta := delta + [n];
        }
        pending := pending - {l};
      }
      assert listeners.Keys - pending == listeners.Keys;
      assert log[|old(log)|..] == delta;
    }

    /** reset: the reducers' empty state merged with `s` becomes current, and
     *  listeners are notified as if every key the reducers own had changed.
     *  The reducing flag is neither consulted nor changed. */
    method Reset(s: State)
      modifies this`state, this`log
      ensures state == MergeStates(reducer.emptyState, s)
      ensures Delivered(old(log), log, Notifications(listeners, Some(old(state)), state, reducer.allKeys))
    {
      var oldState := GetState();
      state := MergeStates(reducer.emptyState, s);
      NotifyListener(oldState, state, reducer.allKeys);
    }

    /** addListener (every overload) through registerListener: build the state
     *  listener, wrap it in a subscription and arm it. */
    method AddListener(listener: Listener, spec: ListenerSpec, filter: Option<FilterName>)
      returns (sub: DefaultSubscription)
      modifies this`listeners
      ensures fresh(sub)
      ensures sub.store == this && sub.listener == listener
      ensures sub.stateListener == CreateStateListener(spec, filter, defaultFilter)
      ensures listeners == Register(old(listeners), listener, sub.stateListener)
    {
      sub := new DefaultSubscription(this, CreateStateListener(spec, filter, defaultFilter), listener);
      sub.AddListener();
    }

    /** removeListener: drop the listener's entry, if there is one. */
    method RemoveListener(listener: Listener)
      modifies this`listeners
      ensures listeners == Unregister(old(listeners), listener)
    {
      listeners := Unregister(listeners, listener);
    }
  }

  /** The handle addListener returns, bound to one listener of one store. */
  class DefaultSubscription {

    const store: SuasStore
    const stateListener: StateListener
    const listener: Listener

    constructor (store: SuasStore, stateListener: StateListener, listener: Listener)
      ensures this.store == store && this.stateListener == stateListener && this.listener == listener
    {
      this.store := store;
      this.stateListener := stateListener;
      this.listener := listener;
    }

    /** Deregister this subscription's listener from its store. */
    method RemoveListener()
      modifies store`listeners
      ensures store.listeners == Unregister(old(store.listeners), listener)
    {
      store.RemoveListener(listener);
    }

    /** (Re-)arm: map the listener to this subscription's state listener,
     *  replacing whatever entry it had. */
    method AddListener()
      modifies store`listeners
      ensures store.listeners == Register(old(store.listeners), listener, stateListener)
    {
      store.listeners := Register(store.listeners, listener, stateListener);
    }

    /** Call the state listener once with no old state and the current state,
     *  as an initial notification, with no key matching.  Neither the state
     *  nor the registry changes. */
    method InformWithCurrentState()
      modifies store`log
      ensures store.log == old(store.log) + [Notification(listener, stateListener, None, store.state, true)]
    {
      var current := store.GetState();
      store.log := store.log + [Notification(listener, stateListener, None, current, true)];
    }
  }
}
