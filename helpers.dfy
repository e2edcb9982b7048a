/**
 * The small iterable helpers of deep_prefetch/base.py, on sequences.
 * `drop` and `tail` are kept as written: `islice(xs, n)` keeps the first
 * n elements, although their doc comments promise to drop them; `Rest` is
 * what `tail` is documented to return. The traversal engine calls none of
 * the three.
 */
module Helpers {
  import opened Wrappers

  /** `reversed(xs)`. */
  function Reverse<T>(xs: seq<T>): (r: seq<T>)
    ensures |r| == |xs|
    ensures forall i :: 0 <= i < |xs| ==> r[i] == xs[|xs| - 1 - i]
  {
    if xs == [] then [] else Reverse(xs[1..]) + [xs[0]]
  }

  /** `head(xs)`: `next(iter(xs))`; `None` stands for StopIteration. */
  function Head<T>(xs: seq<T>): (r: Option<T>)
    ensures r.None? <==> xs == []
    ensures r.Some? ==> r.value == xs[0]
  {
    if |xs| == 0 then None else Some(xs[0])
  }

  /** `last(xs)`: the head of the reversed sequence; `None` stands for the
      TypeError('Empty list!') raised on an empty sequence. */
  function Last<T>(xs: seq<T>): (r: Option<T>)
    ensures r.None? <==> xs == []
    ensures r.Some? ==> r.value == xs[|xs| - 1]
  {
    Head(Reverse(xs))
  }

  /** `drop(n, xs)`, i.e. `islice(xs, n)`: the first n elements. */
  function Drop<T>(n: nat, xs: seq<T>): (r: seq<T>)
    ensures r <= xs
    ensures |r| == if n < |xs| then n else |xs|
  {
    if n < |xs| then xs[..n] else xs
  }

  /** `tail(xs)`, i.e. `drop(1, xs)`: the first element only, not the rest. */
  function Tail<T>(xs: seq<T>): (r: seq<T>)
    ensures xs == [] ==> r == []
    ensures xs != [] ==> r == [xs[0]]
  {
    Drop(1, xs)
  }

  /** What `tail` is documented to return: all elements but the first. */
  function Rest<T>(xs: seq<T>): (r: seq<T>)
    ensures xs == [] ==> r == []
    ensures xs != [] ==> [xs[0]] + r == xs
  {
    if xs == [] then [] else xs[1..]
  }

  /** On a two-element list `tail` returns the first element, where its
      documentation promises the second: the input of the `tail`/`drop`
      row under Findings in README.md. */
  lemma TailKeepsHead()
    ensures Tail([1, 2]) == [1] != Rest([1, 2])
  {
  }

  /** `is_not_none(x)`: true exactly for a present value. */
  predicate IsNotNone<T>(x: Option<T>): (r: bool)
    ensures r <==> !x.None?
  {
    x.Some?
  }
}
