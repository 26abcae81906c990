/** Addresses and descriptors that are not in use: there is always one. */
module Unused {

  lemma {:induction false} UnusedFrom(used: set<int>, k: int) returns (x: int)
    ensures x >= k && x !in used
    decreases |used|
  {
    if k in used {
      x := UnusedFrom(used - {k}, k + 1);
    } else {
      x := k;
    }
  }
}
