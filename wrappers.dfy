/** Optional values, standing in for JavaScript's `undefined` and for a thrown TypeError. */
module Wrappers {

  datatype Option<+T> = None | Some(value: T) {

    /** The value, or `default` when there is none. */
    function GetOr(default: T): T
    {
      match this
      case Some(v) => v
      case None => default
    }
  }

  /** Applying `f` to each element in order, stopping at the first failure: the
      results when every application succeeds, `None` otherwise. */
  function Collect<A, B>(f: A -> Option<B>, xs: seq<A>): Option<seq<B>>
  {
    if xs == [] then Some([])
    else
      var init := Collect(f, xs[..|xs| - 1]);
      var last := f(xs[|xs| - 1]);
      if init.None? || last.None? then None else Some(init.value + [last.value])
  }

  /** The collection succeeds exactly when every application does, and then holds
      each element's result at its position. */
  lemma {:induction false} CollectShape<A, B>(f: A -> Option<B>, xs: seq<A>)
    ensures Collect(f, xs).Some? <==> forall i :: 0 <= i < |xs| ==> f(xs[i]).Some?
    ensures Collect(f, xs).Some? ==>
      |Collect(f, xs).value| == |xs| && forall i :: 0 <= i < |xs| ==> Collect(f, xs).value[i] == f(xs[i]).value
  {
    if xs != [] {
      var init := xs[..|xs| - 1];
      CollectShape(f, init);
      assert forall i :: 0 <= i < |init| ==> init[i] == xs[i];
    }
  }

  lemma {:induction false} CollectSnoc<A, B>(f: A -> Option<B>, xs: seq<A>, i: nat)
    requires i < |xs|
    ensures var init := Collect(f, xs[..i]); var last := f(xs[i]);
      Collect(f, xs[..i + 1]) == if init.None? || last.None? then None else Some(init.value + [last.value])
  {
    assert xs[..i + 1][..i] == xs[..i];
  }

  lemma {:induction false} CollectStopped<A, B>(f: A -> Option<B>, xs: seq<A>, k: nat)
    requires 0 < k <= |xs|
    requires Collect(f, xs[..k]).None?
    ensures Collect(f, xs).None?
    decreases |xs|
  {
    if k < |xs| {
      assert xs[..|xs| - 1][..k] == xs[..k];
      CollectStopped(f, xs[..|xs| - 1], k);
    } else {
      assert xs[..k] == xs;
    }
  }

  /** Every application succeeding with the given results collects those results. */
  lemma {:induction false} CollectAll<A, B>(f: A -> Option<B>, xs: seq<A>, ys: seq<B>)
    requires |xs| == |ys| && forall i :: 0 <= i < |xs| ==> f(xs[i]) == Some(ys[i])
    ensures Collect(f, xs) == Some(ys)
  {
    CollectShape(f, xs);
    assert Collect(f, xs).value == ys;
  }
}
