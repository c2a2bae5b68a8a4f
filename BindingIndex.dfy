/**
 * The name index of a node's bindings: the dictionary that GetBinding fills from the
 * declared list, entry by entry in list order, so that a later declaration overwrites an
 * earlier one with the same property name.
 */
module BindingIndex {
  import opened Bindings

  /** Dictionary lookup: the entry for `name`, or null when there is none. */
  function Find<C(==)>(index: map<string, Binding<C>>, name: string): (r: Binding?<C>)
    ensures r == null <==> name !in index
    ensures name in index ==> r == index[name]
  {
    if name in index then index[name] else null
  }

  /** The dictionary after `index[b.propertyName] = b` for every b of `bs`, in order. */
  function Indexed<C(==)>(index: map<string, Binding<C>>, bs: seq<Binding<C>>): (r: map<string, Binding<C>>)
    ensures index.Keys <= r.Keys
    ensures forall b :: b in bs ==> b.propertyName in r
  {
    if bs == [] then index
    else
      var b := bs[|bs| - 1];
      Indexed(index, bs[..|bs| - 1])[b.propertyName := b]
  }

  /** The last binding of `bs` declared for `name`, or null when none is. */
  function LastNamed<C(==)>(bs: seq<Binding<C>>, name: string): (r: Binding?<C>)
    ensures r != null ==> r in bs && r.propertyName == name
  {
    if bs == [] then null
    else if bs[|bs| - 1].propertyName == name then bs[|bs| - 1]
    else LastNamed(bs[..|bs| - 1], name)
  }

  /** LastNamed finds nothing exactly when no listed binding carries the name. */
  lemma {:induction false} LastNamedAbsent<C>(bs: seq<Binding<C>>, name: string)
    ensures LastNamed(bs, name) == null <==> forall i :: 0 <= i < |bs| ==> bs[i].propertyName != name
  {
    if bs != [] {
      var n := |bs| - 1;
      LastNamedAbsent(bs[..n], name);
      assert forall i :: 0 <= i < n ==> bs[i] == bs[..n][i];
    }
  }

  /** What LastNamed finds sits at a position after which no binding carries the name:
      the last declaration wins. */
  lemma {:induction false} LastNamedIsLast<C>(bs: seq<Binding<C>>, name: string)
    ensures LastNamed(bs, name) != null ==>
      exists i :: 0 <= i < |bs| && bs[i] == LastNamed(bs, name) &&
        forall j :: i < j < |bs| ==> bs[j].propertyName != name
  {
    if bs != [] {
      var n := |bs| - 1;
      var front := bs[..n];
      if bs[n].propertyName == name {
        assert bs[n] == LastNamed(bs, name);
      } else if LastNamed(front, name) != null {
        assert LastNamed(bs, name) == LastNamed(front, name);
        LastNamedIsLast(front, name);
        var i :| 0 <= i < n && front[i] == LastNamed(front, name) &&
          forall j :: i < j < n ==> front[j].propertyName != name;
        assert bs[i] == front[i];
        assert forall j :: i < j < |bs| ==> bs[j].propertyName != name by {
          assert forall j :: i < j < n ==> bs[j] == front[j];
        }
      }
    }
  }

  /** Looking a name up after indexing `bs` gives the last binding declared for it,
      and falls back to the entry already in the dictionary only when `bs` declares none. */
  lemma {:induction false} IndexedFind<C>(index: map<string, Binding<C>>, bs: seq<Binding<C>>, name: string)
    ensures Find(Indexed(index, bs), name) ==
      if LastNamed(bs, name) != null then LastNamed(bs, name) else Find(index, name)
  {
    if bs != [] {
      IndexedFind(index, bs[..|bs| - 1], name);
    }
  }

  /** Indexing only adds entries: the dictionary is never cleared. */
  lemma {:induction false} IndexedKeys<C>(index: map<string, Binding<C>>, bs: seq<Binding<C>>)
    ensures Indexed(index, bs).Keys == index.Keys + set b | b in bs :: b.propertyName
  {
    if bs != [] {
      var front := bs[..|bs| - 1];
      IndexedKeys(index, front);
      assert bs == front + [bs[|bs| - 1]];
      assert (set b | b in bs :: b.propertyName) ==
        (set b | b in front :: b.propertyName) + {bs[|bs| - 1].propertyName};
    }
  }

  /** Indexing the same list twice gives the dictionary that indexing it once gives:
      re-filling on every lookup behaves like a cache built once, while the list is unchanged. */
  lemma IndexedIdempotent<C>(index: map<string, Binding<C>>, bs: seq<Binding<C>>)
    ensures Indexed(Indexed(index, bs), bs) == Indexed(index, bs)
  {
    var once := Indexed(index, bs);
    var twice := Indexed(once, bs);
    IndexedKeys(index, bs);
    IndexedKeys(once, bs);
    forall name | name in twice
      ensures twice[name] == once[name]
    {
      IndexedFind(once, bs, name);
      IndexedFind(index, bs, name);
    }
  }
}
