/** Order-keeping selections from a sequence, shared by the list filters. */
module Sequences {

  /** `xs` is `ys` with some elements left out, in the same order: each
      element of `ys` is either skipped or taken as the next one of `xs`. */
  predicate IsSubsequence<T(==)>(xs: seq<T>, ys: seq<T>)
    decreases |ys|
  {
    if ys == [] then xs == []
    else IsSubsequence(xs, ys[1..]) || (xs != [] && xs[0] == ys[0] && IsSubsequence(xs[1..], ys[1..]))
  }
}
