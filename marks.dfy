/**
 * Several components highlight one entry of a list (the active navigation
 * button, the current reel's progress segment, the active admin tab).
 * This module states what "exactly one entry is highlighted" means.
 */
module Marks {

  /** Entry `k` is highlighted and no other entry is. */
  predicate OnlyMarked(marks: seq<bool>, k: int)
  {
    && 0 <= k < |marks|
    && marks[k]
    && forall j :: 0 <= j < |marks| && j != k ==> !marks[j]
  }

  /** No entry is highlighted. */
  predicate NoneMarked(marks: seq<bool>)
  {
    forall j :: 0 <= j < |marks| ==> !marks[j]
  }

  /** The number of highlighted entries. */
  function CountMarked(marks: seq<bool>): (n: nat)
    ensures n <= |marks|
  {
    if marks == [] then 0 else (if marks[0] then 1 else 0) + CountMarked(marks[1..])
  }

  /** When exactly one entry is highlighted, the count of highlighted entries is one. */
  lemma {:induction false} OnlyMarkedCountsOne(marks: seq<bool>, k: int)
    requires OnlyMarked(marks, k)
    ensures CountMarked(marks) == 1
  {
    if k == 0 {
      NoneMarkedCountsZero(marks[1..]);
    } else {
      OnlyMarkedCountsOne(marks[1..], k - 1);
    }
  }

  /** When no entry is highlighted, the count is zero. */
  lemma {:induction false} NoneMarkedCountsZero(marks: seq<bool>)
    requires NoneMarked(marks)
    ensures CountMarked(marks) == 0
  {
    if marks != [] {
      NoneMarkedCountsZero(marks[1..]);
    }
  }
}
