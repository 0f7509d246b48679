/** Order-preserving selection from a sequence, as `filter` and `replace` perform it. */
module Seqs {

  /** `a` is what is left of `b` after deleting some elements; the rest keep their order. */
  predicate IsSubsequence<T(==)>(a: seq<T>, b: seq<T>)
    decreases |b|
  {
    if a == [] then true
    else if b == [] then false
    else if a[0] == b[0] then IsSubsequence(a[1..], b[1..])
    else IsSubsequence(a, b[1..])
  }
}
