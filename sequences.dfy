/** Order-preserving selection from a sequence, and concatenation of the
    pieces a sequence's elements map to. */
module Sequences {

  /** `a` can be read off `b` by deleting elements. */
  predicate IsSubsequence<T(==)>(a: seq<T>, b: seq<T>)
    decreases |b|
  {
    if b == [] then a == []
    else
      || (a != [] && a[|a| - 1] == b[|b| - 1] && IsSubsequence(a[..|a| - 1], b[..|b| - 1]))
      || IsSubsequence(a, b[..|b| - 1])
  }

  /** The pieces `f` gives for the elements of `xs`, joined in order. */
  function FlatMap<T, U>(f: T -> seq<U>, xs: seq<T>): seq<U> {
    if xs == [] then [] else FlatMap(f, xs[..|xs| - 1]) + f(xs[|xs| - 1])
  }

  /** Joining the pieces of two sequences is joining the two results. */
  lemma {:induction false} FlatMapAppend<T, U>(f: T -> seq<U>, a: seq<T>, b: seq<T>)
    ensures FlatMap(f, a + b) == FlatMap(f, a) + FlatMap(f, b)
  {
    if b != [] {
      var init := b[..|b| - 1];
      FlatMapAppend(f, a, init);
      assert (a + b)[..|a + b| - 1] == a + init;
      assert (a + b)[|a + b| - 1] == b[|b| - 1];
      assert (FlatMap(f, a) + FlatMap(f, init)) + f(b[|b| - 1]) == FlatMap(f, a) + (FlatMap(f, init) + f(b[|b| - 1]));
    } else {
      assert a + b == a;
    }
  }

  /** The pieces of `xs`: those before element `i`, its own, those after. */
  lemma {:induction false} FlatMapAround<T, U>(f: T -> seq<U>, xs: seq<T>, i: nat)
    requires i < |xs|
    ensures FlatMap(f, xs) == FlatMap(f, xs[..i]) + f(xs[i]) + FlatMap(f, xs[i + 1..])
  {
    var upTo := xs[..i + 1];
    assert FlatMap(f, upTo) == FlatMap(f, xs[..i]) + f(xs[i]) by {
      assert upTo[..i] == xs[..i];
    }
    FlatMapAppend(f, upTo, xs[i + 1..]);
    assert upTo + xs[i + 1..] == xs;
  }
}
