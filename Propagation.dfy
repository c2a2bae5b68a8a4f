/**
 * The calls a bindable node makes while it propagates a context: the reserved property
 * names, the record of outgoing calls (binding Apply/Unapply/Dispose, the two overridable
 * hooks and the PropertyChanged event), and the call sequences of a pass over the list.
 */
module Propagation {
  import opened Wrappers
  import opened Bindings

  const ContextProperty := "context"
  const InheritedContextProperty := "inheritedContext"
  const EnabledProperty := "enabled"
  const TagProperty := "tag"
  /** The identity path: a context binding with this path passes the context straight through. */
  const IdentityPath := "."
  const TwoWayMode := "twoway"

  /** One call made by a node, in the order made. An Apply or Unapply records the target and
      context the binding held when the call was made. */
  datatype Event<C(==)> =
    | Notified(propertyName: string)
    | ContextChanging
    | InheritedContextChanged
    | Applied(binding: Binding<C>, isInitial: bool, target: object?, context: Option<C>)
    | Unapplied(binding: Binding<C>, target: object?, context: Option<C>)
    | Disposed(binding: Binding<C>)

  /** The calls of one "context changed" pass over `bs`: in list order, every binding not
      named "context" is applied (not as an initial application) against `target` and `ctx`. */
  function ApplyPass<C(==)>(bs: seq<Binding<C>>, target: object?, ctx: Option<C>): seq<Event<C>>
  {
    if bs == [] then []
    else
      var b := bs[|bs| - 1];
      ApplyPass(bs[..|bs| - 1], target, ctx) +
      (if b.propertyName != ContextProperty then [Applied(b, false, target, ctx)] else [])
  }

  /** The calls of the teardown pass over `bs`: one Dispose per entry, in list order. */
  function DisposeAll<C(==)>(bs: seq<Binding<C>>): seq<Event<C>>
  {
    if bs == [] then [] else DisposeAll(bs[..|bs| - 1]) + [Disposed(bs[|bs| - 1])]
  }

  /** No object appears twice in `s`. */
  predicate Distinct<T(==)>(s: seq<T>)
  {
    forall i, j :: 0 <= i < j < |s| ==> s[i] != s[j]
  }

  lemma DistinctCount<T>(s: seq<T>, x: T)
    requires Distinct(s)
    ensures multiset(s)[x] == if x in s then 1 else 0
  {
    if s != [] {
      var n := |s| - 1;
      assert s == s[..n] + [s[n]];
      assert Distinct(s[..n]);
      DistinctCount(s[..n], x);
      assert s[n] !in s[..n];
    }
  }

  /** The pass follows list order: a pass over a list is the pass over any prefix followed
      by the pass over the rest. */
  lemma {:induction false} ApplyPassSplit<C>(bs: seq<Binding<C>>, k: nat, target: object?, ctx: Option<C>)
    requires k <= |bs|
    ensures ApplyPass(bs, target, ctx) == ApplyPass(bs[..k], target, ctx) + ApplyPass(bs[k..], target, ctx)
  {
    if k < |bs| {
      var n := |bs| - 1;
      ApplyPassSplit(bs[..n], k, target, ctx);
      assert bs[..n][..k] == bs[..k];
      assert bs[k..][..|bs[k..]| - 1] == bs[..n][k..];
    } else {
      assert bs[..k] == bs;
    }
  }

  /** A pass makes no call but a non-initial Apply of a listed binding not named "context",
      against the given target and context. */
  lemma {:induction false} ApplyPassCalls<C>(bs: seq<Binding<C>>, target: object?, ctx: Option<C>)
    ensures forall e :: e in ApplyPass(bs, target, ctx) ==>
      e.Applied? && e.binding in bs && e.binding.propertyName != ContextProperty &&
      !e.isInitial && e.target == target && e.context == ctx
  {
    if bs != [] {
      ApplyPassCalls(bs[..|bs| - 1], target, ctx);
    }
  }

  /** A pass applies a binding once per occurrence in the list, unless it is named "context",
      in which case it never applies it. */
  lemma {:induction false} ApplyPassCount<C>(bs: seq<Binding<C>>, b: Binding<C>, target: object?, ctx: Option<C>)
    ensures multiset(ApplyPass(bs, target, ctx))[Applied(b, false, target, ctx)] ==
      if b.propertyName == ContextProperty then 0 else multiset(bs)[b]
  {
    if bs != [] {
      var n := |bs| - 1;
      ApplyPassCount(bs[..n], b, target, ctx);
      assert bs == bs[..n] + [bs[n]];
    }
  }

  /** Over a list without repeats, a pass applies every listed binding not named "context"
      exactly once and no binding named "context". */
  lemma ApplyPassOnce<C>(bs: seq<Binding<C>>, b: Binding<C>, target: object?, ctx: Option<C>)
    requires Distinct(bs) && b in bs
    ensures multiset(ApplyPass(bs, target, ctx))[Applied(b, false, target, ctx)] ==
      if b.propertyName == ContextProperty then 0 else 1
  {
    ApplyPassCount(bs, b, target, ctx);
    DistinctCount(bs, b);
  }

  /** Teardown disposes the entries in list order, one call per entry. */
  lemma {:induction false} DisposeAllAt<C>(bs: seq<Binding<C>>)
    ensures |DisposeAll(bs)| == |bs|
    ensures forall i :: 0 <= i < |bs| ==> DisposeAll(bs)[i] == Disposed(bs[i])
  {
    if bs != [] {
      DisposeAllAt(bs[..|bs| - 1]);
    }
  }

  /** Over a list without repeats, teardown disposes every listed binding exactly once
      and no other binding. */
  lemma {:induction false} DisposeAllOnce<C>(bs: seq<Binding<C>>, b: Binding<C>)
    requires Distinct(bs)
    ensures multiset(DisposeAll(bs))[Disposed(b)] == if b in bs then 1 else 0
  {
    if bs != [] {
      var n := |bs| - 1;
      assert bs == bs[..n] + [bs[n]];
      assert Distinct(bs[..n]);
      DisposeAllOnce(bs[..n], b);
    }
  }
}
