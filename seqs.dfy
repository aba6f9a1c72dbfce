/** Generic sequence helpers: the `for x in xs { out.append(contentsOf: f(x)) }`
    shape every provider parser has, as a function. */
module Seqs {

  /** Concatenation of `f(x)` over `xs`, in order. Defined from the back so that
      a loop that appends `f(xs[i])` keeps `out == FlatMap(f, xs[..i])`. */
  function FlatMap<A, B>(f: A -> seq<B>, xs: seq<A>): seq<B>
    decreases |xs|
  {
    if xs == [] then [] else FlatMap(f, xs[..|xs| - 1]) + f(xs[|xs| - 1])
  }

  lemma {:induction false} FlatMapConcat<A, B>(f: A -> seq<B>, xs: seq<A>, ys: seq<A>)
    ensures FlatMap(f, xs + ys) == FlatMap(f, xs) + FlatMap(f, ys)
    decreases |ys|
  {
    if ys == [] {
      assert xs + ys == xs;
    } else {
      var ys' := ys[..|ys| - 1];
      assert (xs + ys)[..|xs + ys| - 1] == xs + ys';
      assert (xs + ys)[|xs + ys| - 1] == ys[|ys| - 1];
      assert ys[..|ys| - 1] == ys';
      FlatMapConcat(f, xs, ys');
    }
  }

  /** Every output element stems from some input element. */
  lemma {:induction false} FlatMapOrigin<A, B>(f: A -> seq<B>, xs: seq<A>, y: B)
    requires y in FlatMap(f, xs)
    ensures exists i :: 0 <= i < |xs| && y in f(xs[i])
    decreases |xs|
  {
    var init := xs[..|xs| - 1];
    if y in FlatMap(f, init) {
      FlatMapOrigin(f, init, y);
      var i :| 0 <= i < |init| && y in f(init[i]);
      assert init[i] == xs[i];
    } else {
      assert y in f(xs[|xs| - 1]);
    }
  }

  /** Every element of every `f(xs[i])` is in the output. */
  lemma {:induction false} FlatMapHas<A, B>(f: A -> seq<B>, xs: seq<A>, i: nat, y: B)
    requires i < |xs| && y in f(xs[i])
    ensures y in FlatMap(f, xs)
    decreases |xs|
  {
    if i < |xs| - 1 {
      assert xs[..|xs| - 1][i] == xs[i];
      FlatMapHas(f, xs[..|xs| - 1], i, y);
    }
  }

  /** A property that holds of every element of every `f(x)` holds of the whole output. */
  lemma FlatMapAll<A, B>(f: A -> seq<B>, xs: seq<A>, P: B -> bool)
    requires forall i, j :: 0 <= i < |xs| && 0 <= j < |f(xs[i])| ==> P(f(xs[i])[j])
    ensures forall y :: y in FlatMap(f, xs) ==> P(y)
  {
    forall y | y in FlatMap(f, xs) ensures P(y) {
      FlatMapOrigin(f, xs, y);
      var i :| 0 <= i < |xs| && y in f(xs[i]);
      var j :| 0 <= j < |f(xs[i])| && f(xs[i])[j] == y;
    }
  }
}
