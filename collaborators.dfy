/**
 * The collaborators SuasStore calls but whose code is not part of this model:
 * the combined reducer, the combined middleware chain, listener identities and
 * the state listeners that Listeners.create builds.  Each is reduced to the
 * behaviour the store relies on.
 */
module Collaborators {

  import opened Optional
  import opened States

  /** An action: its logical type discriminator and an optional payload. */
  datatype Action = Action(actionType: string, data: Option<Value>)

  /** CombinedReducer.ReduceResult: the new state and the keys whose value changed. */
  datatype ReduceResult = ReduceResult(newState: State, updatedKeys: set<string>)

  /**
   * CombinedReducer as the store sees it: a pure whole-state transition,
   * the state every reducer produces on its initial action, and the set of
   * keys owned by some reducer.
   */
  datatype CombinedReducer = CombinedReducer(
    reduce: (State, Action) -> ReduceResult,
    emptyState: State,
    allKeys: set<string>)

  /** The reducer only ever reports keys it owns as updated. */
  ghost predicate OwnsUpdatedKeys(reducer: CombinedReducer)
  {
    forall s, a :: reducer.reduce(s, a).updatedKeys <= reducer.allKeys
  }

  /**
   * What one run of the middleware chain does with an action, given the state
   * it can read through the store: the further actions it dispatches, and
   * whether it calls the terminal continuation (and with which action).
   */
  datatype MiddlewareStep = MiddlewareStep(dispatched: seq<Action>, next: Option<Action>)

  /** CombinedMiddleware as an abstract driver of the continuation. */
  datatype CombinedMiddleware = CombinedMiddleware(onAction: (Action, State) -> MiddlewareStep)

  /** The chain with no middleware in it calls the continuation at once with
   *  the dispatched action and dispatches nothing else. */
  function EmptyChain(): (m: CombinedMiddleware)
    ensures forall a, s :: m.onAction(a, s) == MiddlewareStep([], Some(a))
  {
    CombinedMiddleware((a, s) => MiddlewareStep([], Some(a)))
  }

  /** A listener registered with the store.  Only its identity matters: the
   *  store's registry is keyed by the listener object itself. */
  class Listener {
    constructor ()
    {
    }
  }

  /** A filter, known to the store only by name. */
  type FilterName = string

  /** What an addListener overload was asked to watch. */
  datatype ListenerSpec =
    | WholeState
    | ForKey(key: string)
    | ForType(typeName: string)
    | ForKeyAndType(key: string, typeName: string)
    | ForSelector(selectorName: string)

  /** Listeners.StateListener: the match specification built for a listener.
   *  The store itself consults only `stateKey`. */
  datatype StateListener = StateListener(stateKey: Option<string>, spec: ListenerSpec, filter: FilterName)

  /**
   * Listeners.create, as used by the addListener overloads: the state key is the
   * one the overload was given (none for the whole-state, type-only and selector
   * overloads), and the overload's own filter wins over the store's default.
   */
  function CreateStateListener(spec: ListenerSpec, filter: Option<FilterName>, defaultFilter: FilterName): (sl: StateListener)
    ensures sl.spec == spec
    ensures sl.stateKey.Some? <==> (spec.ForKey? || spec.ForKeyAndType?)
    ensures sl.stateKey.Some? ==> sl.stateKey.value == spec.key
    ensures filter.Some? ==> sl.filter == filter.value
    ensures filter.None? ==> sl.filter == defaultFilter
  {
    var key := match spec
      case ForKey(k) => Some(k)
      case ForKeyAndType(k, _) => Some(k)
      case _ => None;
    StateListener(key, spec, if filter.Some? then filter.value else defaultFilter)
  }
}
