/**
 * The store's listener registry (a map keyed by listener identity) and the
 * notifications one transition delivers.  HashMap iteration is unordered, so a
 * batch of notifications is a set; the store's log is compared with it as a
 * multiset.
 */
module Subscriptions {

  import opened Optional
  import opened States
  import opened Collaborators

  type ListenerMap = map<Listener, StateListener>

  /** One call of StateListener.update(old, new, isInitial), recorded with the
   *  listener it was registered for. */
  datatype Notification = Notification(
    listener: Listener,
    stateListener: StateListener,
    oldState: Option<State>,
    newState: State,
    isInitial: bool)

  /** The store's matching rule: a listener without a state key hears every
   *  transition, one with a key hears those that updated it. */
  predicate Matches(sl: StateListener, updatedKeys: set<string>)
  {
    sl.stateKey.None? || sl.stateKey.value in updatedKeys
  }

  /** Map.put(listener, stateListener). */
  function Register(m: ListenerMap, l: Listener, sl: StateListener): (r: ListenerMap)
    ensures l in r && r[l] == sl
    ensures r.Keys == m.Keys + {l}
    ensures forall o :: o in m && o != l ==> r[o] == m[o]
    ensures |r| == if l in m then |m| else |m| + 1
  {
    m[l := sl]
  }

  /** Map.remove(listener). */
  function Unregister(m: ListenerMap, l: Listener): (r: ListenerMap)
    ensures r.Keys == m.Keys - {l}
    ensures forall o :: o in r ==> r[o] == m[o]
    ensures l !in m ==> r == m
    ensures |r| == if l in m then |m| - 1 else |m|
  {
    m - {l}
  }

  /** Registering the same listener twice keeps only the later entry. */
  lemma RegisterOverwrites(m: ListenerMap, l: Listener, first: StateListener, second: StateListener)
    ensures Register(Register(m, l, first), l, second) == Register(m, l, second)
  {
  }

  /** Removing a listener undoes registering it when it was not there before. */
  lemma UnregisterUndoesRegister(m: ListenerMap, l: Listener, sl: StateListener)
    requires l !in m
    ensures Unregister(Register(m, l, sl), l) == m
  {
  }

  /** The listeners of `ls` that are registered and that a transition which
   *  updated `updatedKeys` notifies. */
  ghost function RecipientsAmong(m: ListenerMap, ls: set<Listener>, updatedKeys: set<string>): set<Listener>
  {
    set l | l in ls && l in m && Matches(m[l], updatedKeys)
  }

  /** The listeners a transition that updated `updatedKeys` notifies. */
  ghost function Recipients(m: ListenerMap, updatedKeys: set<string>): set<Listener>
  {
    RecipientsAmong(m, m.Keys, updatedKeys)
  }

  /** The notifications delivered to the listeners of `ls` that are registered
   *  and match the transition. */
  ghost function NotificationsAmong(m: ListenerMap, ls: set<Listener>, oldState: Option<State>, newState: State,
                                    updatedKeys: set<string>): set<Notification>
  {
    set l | l in ls && l in m && Matches(m[l], updatedKeys) :: Notification(l, m[l], oldState, newState, false)
  }

  /** The notifications notifyListener(old, new, updatedKeys) delivers. */
  ghost function Notifications(m: ListenerMap, oldState: Option<State>, newState: State,
                               updatedKeys: set<string>): set<Notification>
  {
    NotificationsAmong(m, m.Keys, oldState, newState, updatedKeys)
  }

  /** Visiting one more registered listener adds its notification, if it matches,
   *  and that notification is new. */
  lemma NotificationsAmongStep(m: ListenerMap, ls: set<Listener>, l: Listener, oldState: Option<State>,
                               newState: State, updatedKeys: set<string>)
    requires l in m && l !in ls
    ensures var n := Notification(l, m[l], oldState, newState, false);
      && n !in NotificationsAmong(m, ls, oldState, newState, updatedKeys)
      && NotificationsAmong(m, ls + {l}, oldState, newState, updatedKeys)
         == NotificationsAmong(m, ls, oldState, newState, updatedKeys)
            + (if Matches(m[l], updatedKeys) then {n} else {})
  {
  }

  /** Visiting one more listener adds it to the recipients exactly when it is
   *  registered and matches. */
  lemma RecipientsAmongStep(m: ListenerMap, ls: set<Listener>, l: Listener, updatedKeys: set<string>)
    requires l !in ls
    ensures l !in RecipientsAmong(m, ls, updatedKeys)
    ensures RecipientsAmong(m, ls + {l}, updatedKeys)
         == RecipientsAmong(m, ls, updatedKeys) + (if l in m && Matches(m[l], updatedKeys) then {l} else {})
  {
  }

  /** Visiting a listener that is not registered adds no notification. */
  lemma NotificationsAmongSkip(m: ListenerMap, ls: set<Listener>, l: Listener, oldState: Option<State>,
                               newState: State, updatedKeys: set<string>)
    requires l !in m
    ensures NotificationsAmong(m, ls + {l}, oldState, newState, updatedKeys)
         == NotificationsAmong(m, ls, oldState, newState, updatedKeys)
  {
  }

  /** Among any set of listeners, there are exactly as many notifications as
   *  listeners that are registered and match. */
  lemma {:induction false} NotificationsAmongCount(m: ListenerMap, ls: set<Listener>, oldState: Option<State>,
                                                   newState: State, updatedKeys: set<string>)
    ensures |NotificationsAmong(m, ls, oldState, newState, updatedKeys)| == |RecipientsAmong(m, ls, updatedKeys)|
    decreases ls
  {
    if ls != {} {
      var l :| l in ls;
      var rest := ls - {l};
      assert rest + {l} == ls;
      NotificationsAmongCount(m, rest, oldState, newState, updatedKeys);
      RecipientsAmongStep(m, rest, l, updatedKeys);
      if l in m {
        NotificationsAmongStep(m, rest, l, oldState, newState, updatedKeys);
      } else {
        NotificationsAmongSkip(m, rest, l, oldState, newState, updatedKeys);
      }
    }
  }

  /**
   * notifyListener notifies each matching listener exactly once and no other:
   * there is one notification per recipient, it names the recipient's own state
   * listener, carries the transition's old and new states and is not initial.
   */
  lemma NotifiedExactlyOnce(m: ListenerMap, oldState: Option<State>, newState: State, updatedKeys: set<string>)
    ensures |Notifications(m, oldState, newState, updatedKeys)| == |Recipients(m, updatedKeys)|
    ensures forall l :: l in m ==>
      (Notification(l, m[l], oldState, newState, false) in Notifications(m, oldState, newState, updatedKeys)
       <==> Matches(m[l], updatedKeys))
    ensures forall n :: n in Notifications(m, oldState, newState, updatedKeys) ==>
      && n.listener in Recipients(m, updatedKeys)
      && n.stateListener == m[n.listener]
      && n.oldState == oldState && n.newState == newState && !n.isInitial
  {
    NotificationsAmongCount(m, m.Keys, oldState, newState, updatedKeys);
  }

  /** With a single registered listener, a transition notifies it alone, or
   *  nobody when it does not match. */
  lemma NotificationsOfOne(l: Listener, sl: StateListener, oldState: Option<State>, newState: State,
                           updatedKeys: set<string>)
    ensures Notifications(map[l := sl], oldState, newState, updatedKeys)
         == if Matches(sl, updatedKeys) then {Notification(l, sl, oldState, newState, false)} else {}
  {
    var m := map[l := sl];
    assert m.Keys == {} + {l};
    NotificationsAmongStep(m, {}, l, oldState, newState, updatedKeys);
  }

  /** A transition that updated more keys notifies at least the same listeners. */
  lemma RecipientsGrowWithKeys(m: ListenerMap, fewer: set<string>, more: set<string>)
    requires fewer <= more
    ensures Recipients(m, fewer) <= Recipients(m, more)
  {
  }

  /** Even a transition that updated no key notifies every listener without a
   *  state key, and only those. */
  lemma NoUpdatedKeysReachesOnlyCatchAll(m: ListenerMap)
    ensures Recipients(m, {}) == set l | l in m && m[l].stateKey.None?
  {
  }

  /** reset, which notifies as if every key the reducer owns had changed, reaches
   *  every listener that any reduce could reach. */
  lemma ResetReachesEveryReduceRecipient(m: ListenerMap, reducer: CombinedReducer, s: State, a: Action)
    requires OwnsUpdatedKeys(reducer)
    ensures Recipients(m, reducer.reduce(s, a).updatedKeys) <= Recipients(m, reducer.allKeys)
  {
  }
}
