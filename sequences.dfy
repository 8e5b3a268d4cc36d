/** Facts about sequences shared by the aggregation and the dashboard. */
module Sequences {
  /** No element occurs twice, as with the keys of a dictionary. */
  predicate NoDuplicates<T(==)>(s: seq<T>) {
    forall i, j :: 0 <= i < j < |s| ==> s[i] != s[j]
  }
}
