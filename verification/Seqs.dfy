/** Sequences without repetitions. */
module Seqs {

  ghost predicate NoDup<T>(s: seq<T>) {
    forall i, j :: 0 <= i < j < |s| ==> s[i] != s[j]
  }

  /** No element from index `start` on occurs twice. */
  ghost predicate NoRepeat<T>(s: seq<T>, start: nat) {
    forall i, j :: start <= i < j < |s| ==> s[i] != s[j]
  }
}
