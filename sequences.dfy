/** Predicates on sequences shared by the screen-mode cycle and the layout. */
module Sequences {

  /** No element occurs twice. */
  predicate Distinct<T(==)>(sl: seq<T>) {
    forall i, j :: 0 <= i < j < |sl| ==> sl[i] != sl[j]
  }
}
