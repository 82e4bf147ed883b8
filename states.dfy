/**
 * The State container the store holds: an immutable-per-version mapping from
 * top-level state keys to sub-state values.  A Dafny map is a value, so every
 * read of it is already a defensive copy (State.copy() in the Java library).
 */
module States {

  /** Sub-state values.  The store never looks inside them; this small universe
   *  stands in for the Java Object a reducer stores under its key. */
  datatype Value = IntValue(i: int) | TextValue(text: string)

  type State = map<string, Value>

  /**
   * State.mergeStates(base, patch): a new state holding every key of both,
   * where the patch's value wins and the base fills in the keys the patch omits.
   */
  function MergeStates(base: State, patch: State): (r: State)
    ensures r.Keys == base.Keys + patch.Keys
    ensures forall k :: k in patch ==> r[k] == patch[k]
    ensures forall k :: k in base && k !in patch ==> r[k] == base[k]
  {
    base + patch
  }

  /** A patch that covers every key of the base replaces the base outright. */
  lemma MergeStatesCovering(base: State, patch: State)
    requires base.Keys <= patch.Keys
    ensures MergeStates(base, patch) == patch
  {
  }
}
