/** Sequences without repeats. */
module Sequences {
  /** No two elements have the same key. */
  predicate DistinctBy<T, K(==)>(s: seq<T>, key: T -> K) {
    forall i, j :: 0 <= i < j < |s| ==> key(s[i]) != key(s[j])
  }

  predicate Distinct<T(==)>(s: seq<T>) {
    DistinctBy(s, (x: T) => x)
  }
}
