/** Definitions every other module shares. */
module Prelude {
  datatype Option<+T> = None | Some(value: T)

  /** What became of one call to the API server or to garam.  `Vanished` is a call that took
      effect while its answer was lost; the caller sees the same error as for `Failed`. */
  datatype Outcome = Done | Failed | Vanished {
    predicate Effective() { !Failed? }
  }

  /** `order` visits every element of `keys` exactly once. */
  predicate Enumerates<K(==)>(order: seq<K>, keys: set<K>) {
    && (forall k :: k in order ==> k in keys)
    && (forall k :: k in keys ==> k in order)
    && (forall i, j :: 0 <= i < j < |order| ==> order[i] != order[j])
  }
}
