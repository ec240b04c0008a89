/** Order-preserving selection from a sequence. */
module Sequences {

  /** `xs` is `ys` with some elements left out, the rest kept in their order. */
  predicate Embeds<T(==)>(xs: seq<T>, ys: seq<T>)
    decreases |ys|
  {
    if xs == [] then true
    else if ys == [] then false
    else (xs[0] == ys[0] && Embeds(xs[1..], ys[1..])) || Embeds(xs, ys[1..])
  }
}
