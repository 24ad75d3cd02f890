/** Collecting the present entries of a sequence of optional values, in order:
    the second loop of `serveBatchRequest`, which drops the nil responses. */
module Gather {
  import opened Wrappers

  /** The values of the `Some` entries of `xs`, in the order they occur. */
  function Present<T>(xs: seq<Option<T>>): (r: seq<T>)
    ensures |r| <= |xs|
    ensures r == [] <==> forall i :: 0 <= i < |xs| ==> xs[i].None?
    decreases |xs|
  {
    if xs == [] then []
    else
      var last := xs[|xs| - 1];
      Present(xs[..|xs| - 1]) + (if last.Some? then [last.value] else [])
  }

  /** The positions of the `Some` entries of `xs`, in increasing order. */
  function PresentIndices<T>(xs: seq<Option<T>>): seq<nat>
    decreases |xs|
  {
    if xs == [] then []
    else
      PresentIndices(xs[..|xs| - 1]) + (if xs[|xs| - 1].Some? then [|xs| - 1] else [])
  }

  /** `out` is the subsequence of the present entries of `xs` picked out by the
      strictly increasing positions `idx`, and `idx` misses no present entry. */
  ghost predicate Selects<T>(xs: seq<Option<T>>, idx: seq<nat>, out: seq<T>) {
    && |idx| == |out|
    && (forall k :: 0 <= k < |idx| ==> idx[k] < |xs| && xs[idx[k]] == Some(out[k]))
    && (forall k, l :: 0 <= k < l < |idx| ==> idx[k] < idx[l])
    && (forall i :: 0 <= i < |xs| && xs[i].Some? ==> i in idx)
  }

  /** `Present` keeps every present entry, once, in input order. */
  lemma {:induction false} PresentSelects<T>(xs: seq<Option<T>>)
    ensures Selects(xs, PresentIndices(xs), Present(xs))
    decreases |xs|
  {
    if xs != [] {
      var n := |xs| - 1;
      var init := xs[..n];
      PresentSelects(init);
      assert forall i :: 0 <= i < n ==> init[i] == xs[i];
      var idx := PresentIndices(xs);
      assert forall k :: 0 <= k < |PresentIndices(init)| ==> PresentIndices(init)[k] < n;
      if xs[n].Some? {
        assert idx == PresentIndices(init) + [n];
        assert Present(xs) == Present(init) + [xs[n].value];
      } else {
        assert idx == PresentIndices(init);
        assert Present(xs) == Present(init);
      }
    }
  }

  /** A value is collected exactly when some entry holds it. */
  lemma PresentMembership<T>(xs: seq<Option<T>>, x: T)
    ensures x in Present(xs) <==> Some(x) in xs
  {
  }
}
