/** Loops that keep some elements of a list, possibly transformed, in order. */
module Selections {
  import opened Text

  /** `ys` are the images of the elements of `xs` that `f` accepts: `at` gives their places, in order, none missing. */
  ghost predicate Selects<A, B>(xs: seq<A>, f: A -> Option<B>, ys: seq<B>, at: seq<nat>) {
    && |at| == |ys|
    && (forall k :: 0 <= k < |at| ==> at[k] < |xs| && f(xs[at[k]]) == Some(ys[k]))
    && (forall k, l :: 0 <= k < l < |at| ==> at[k] < at[l])
    && (forall j :: 0 <= j < |xs| && f(xs[j]).Some? ==> j in at)
  }

  lemma SelectsNext<A, B>(xs: seq<A>, f: A -> Option<B>, ys: seq<B>, at: seq<nat>, x: A)
    requires Selects(xs, f, ys, at)
    ensures f(x) == None ==> Selects(xs + [x], f, ys, at)
    ensures f(x).Some? ==> Selects(xs + [x], f, ys + [f(x).value], at + [|xs|])
  {
    var longer := xs + [x];
    forall j | 0 <= j < |longer| && f(longer[j]).Some? ensures j in at + [|xs|] {
      if j < |xs| {
        assert longer[j] == xs[j] && j in at;
      } else {
        assert (at + [|xs|])[|at|] == j;
      }
    }
  }
}
