/** Sequence helpers shared by the models of the JavaScript and Go code:
    first-occurrence de-duplication (`if (!xs.includes(x)) xs.push(x)`),
    and duplicate freedom. */
module Seqs {

  predicate NoDup<T(==)>(xs: seq<T>) {
    forall i, j :: 0 <= i < j < |xs| ==> xs[i] != xs[j]
  }

  /** The elements of `xs` in first-occurrence order, each once: what a loop
      that pushes `x` only when the result does not yet include it builds. */
  function Dedup<T(==, !new)>(xs: seq<T>): (r: seq<T>)
    ensures NoDup(r)
    ensures forall x :: x in r <==> x in xs
    ensures |r| <= |xs|
  {
    if xs == [] then []
    else
      var d := Dedup(xs[..|xs| - 1]);
      var x := xs[|xs| - 1];
      assert xs == xs[..|xs| - 1] + [x];
      if x in d then d else d + [x]
  }

  /** Pushing `x` onto the input pushes it onto the result exactly when the
      result does not yet include it. */
  lemma DedupSnoc<T(!new)>(xs: seq<T>, x: T)
    ensures Dedup(xs + [x]) == if x in Dedup(xs) then Dedup(xs) else Dedup(xs) + [x]
  {
    assert (xs + [x])[..|xs|] == xs;
  }

  /** De-duplication keeps the first occurrence: an element's position in
      the result follows the order of first appearance in the input. */
  lemma {:induction false} DedupKeepsFirstOrder<T(!new)>(xs: seq<T>, i: nat, j: nat)
    requires i < j < |xs|
    requires xs[i] != xs[j]
    requires forall k :: 0 <= k < i ==> xs[k] != xs[i]
    requires forall k :: 0 <= k < j ==> xs[k] != xs[j]
    ensures exists p, q :: 0 <= p < q < |Dedup(xs)| && Dedup(xs)[p] == xs[i] && Dedup(xs)[q] == xs[j]
  {
    var n := |xs| - 1;
    var init := xs[..n];
    if j < n {
      DedupKeepsFirstOrder(init, i, j);
      var p, q :| 0 <= p < q < |Dedup(init)| && Dedup(init)[p] == init[i] && Dedup(init)[q] == init[j];
      var d := Dedup(init);
      assert Dedup(xs) == d || Dedup(xs) == d + [xs[n]];
      assert Dedup(xs)[p] == d[p] && Dedup(xs)[q] == d[q];
    } else {
      // xs[j] is the last element and occurs nowhere before it
      var d := Dedup(init);
      assert xs[j] !in init by {
        forall k | 0 <= k < |init| ensures init[k] != xs[j] { assert init[k] == xs[k]; }
      }
      assert xs[j] !in d;
      assert Dedup(xs) == d + [xs[j]];
      assert init[i] == xs[i];
      assert xs[i] in d;
      var p :| 0 <= p < |d| && d[p] == xs[i];
      assert Dedup(xs)[p] == xs[i] && Dedup(xs)[|d|] == xs[j];
    }
  }
}
