/** Collecting per-element contributions in order, as the nested `append`/`extend` loops do. */
module Sequences {

  /** The concatenation, in order, of what `f` yields for each element. */
  function FlatMap<A>(xs: seq<A>, f: A -> seq<string>): seq<string>
    decreases |xs|
  {
    if |xs| == 0 then [] else FlatMap(xs[..|xs| - 1], f) + f(xs[|xs| - 1])
  }

  /** A single element contributes exactly its own value. */
  lemma FlatMapSingleton<A>(x: A, f: A -> seq<string>)
    ensures FlatMap([x], f) == f(x)
  {
    assert [x][..0] == [];
  }

  /** Collecting over two consecutive runs is collecting over each, in order. */
  lemma {:induction false} FlatMapAppend<A>(xs: seq<A>, ys: seq<A>, f: A -> seq<string>)
    ensures FlatMap(xs + ys, f) == FlatMap(xs, f) + FlatMap(ys, f)
    decreases |ys|
  {
    if |ys| == 0 {
      assert xs + ys == xs;
    } else {
      var init := ys[..|ys| - 1];
      FlatMapAppend(xs, init, f);
      assert (xs + ys)[..|xs + ys| - 1] == xs + init;
    }
  }

  /** Every collected value comes from the contribution of some element. */
  lemma {:induction false} FlatMapSound<A>(xs: seq<A>, f: A -> seq<string>)
    ensures forall u :: u in FlatMap(xs, f) ==> exists i :: 0 <= i < |xs| && u in f(xs[i])
    decreases |xs|
  {
    if |xs| > 0 {
      var n := |xs| - 1;
      FlatMapSound(xs[..n], f);
      forall u | u in FlatMap(xs, f)
        ensures exists i :: 0 <= i < |xs| && u in f(xs[i])
      {
        if u in FlatMap(xs[..n], f) {
          var i :| 0 <= i < n && u in f(xs[..n][i]);
          assert xs[..n][i] == xs[i];
        } else {
          assert u in f(xs[n]);
        }
      }
    }
  }

  /** Every contribution of every element is collected. */
  lemma {:induction false} FlatMapComplete<A>(xs: seq<A>, f: A -> seq<string>, i: nat)
    requires i < |xs|
    ensures forall u :: u in f(xs[i]) ==> u in FlatMap(xs, f)
    decreases |xs|
  {
    var n := |xs| - 1;
    if i < n {
      FlatMapComplete(xs[..n], f, i);
      assert xs[..n][i] == xs[i];
    }
  }

  /** When every element contributes at most one value, at most |xs| values are collected. */
  lemma {:induction false} FlatMapAtMostOneEach<A>(xs: seq<A>, f: A -> seq<string>)
    requires forall i :: 0 <= i < |xs| ==> |f(xs[i])| <= 1
    ensures |FlatMap(xs, f)| <= |xs|
    decreases |xs|
  {
    if |xs| > 0 {
      var n := |xs| - 1;
      assert forall i :: 0 <= i < n ==> xs[..n][i] == xs[i];
      FlatMapAtMostOneEach(xs[..n], f);
    }
  }
}
