/** Positions into a sequence, as the order-preserving embeddings use them. */
module Sequences {

  /** Each position is larger than every one before it. */
  predicate StrictlyIncreasing(idx: seq<nat>) {
    forall k, l :: 0 <= k < l < |idx| ==> idx[k] < idx[l]
  }
}
