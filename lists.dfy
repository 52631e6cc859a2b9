/** Order-preserving sublists: what `Array.prototype.filter` returns of its input. */
module Lists {

  /** xs is ys with some elements dropped and the rest kept in order. */
  ghost predicate Sublist<T>(xs: seq<T>, ys: seq<T>)
    decreases |ys|
  {
    xs == [] ||
    (ys != [] && ((xs[0] == ys[0] && Sublist(xs[1..], ys[1..])) || Sublist(xs, ys[1..])))
  }
}
