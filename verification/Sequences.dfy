/** A fact about sequences that more than one component needs. */
module Sequences {
  lemma {:induction false} FirstPlace<T>(xs: seq<T>, x: T) returns (k: nat)
    requires x in xs
    ensures k < |xs| && xs[k] == x && x !in xs[..k]
  {
    var n := |xs| - 1;
    if x in xs[..n] {
      k := FirstPlace(xs[..n], x);
      assert xs[..n][..k] == xs[..k];
    } else {
      k := n;
    }
  }
}
