/** Exactly which layers may be merged with a later layer before they are merged over their base. */
module MergeExact {
  import opened Text
  import opened Ast
  import opened Merge
  import opened MergeCompose

  /** The layer as the merge writes it out: one declaration of every key, the last one, where the key came first. */
  function Normal(ds: seq<Decl>): seq<Decl> { MergeDecls(ds, []) }

  /**
   * What a caller can check of the first layer: applied to nothing it makes what its last declarations say, and when
   * it is written out no REMOVE comes after the declaration that it deletes.
   */
  predicate Groups(ds: seq<Decl>) { OverrideAll(map[], ds) == View(ds) && Composable(Normal(ds)) }

  /** The two ways of grouping three layers stand for the same map. */
  ghost predicate Agree(b: seq<Decl>, f: seq<Decl>, s: seq<Decl>) {
    View(MergeDecls(MergeDecls(b, f), s)) == View(MergeDecls(b, MergeDecls(f, s)))
  }

  // ---------------------------------------------------------------- the normal form

  /** An index whose order lists every key once. */
  ghost predicate Distinct(idx: Index) {
    && Covers(idx) && (forall x | x in idx.order :: x in idx.decls)
    && forall i, j :: 0 <= i < j < |idx.order| ==> idx.order[i] != idx.order[j]
  }

  lemma {:induction false} IndexIsDistinct(ds: seq<Decl>)
    ensures Distinct(IndexAll(EMPTY, ds)) && IndexAll(EMPTY, ds).decls == View(ds)
  {
    IndexIsView(ds);
    hide KeyOf;
    if ds != [] {
      var init, last := ds[..|ds| - 1], ds[|ds| - 1];
      IndexIsDistinct(init);
      IndexSnoc(EMPTY, init, last);
      assert ds == init + [last];
    }
  }

  lemma {:induction false} FlattenAt(order: seq<Key>, m: DeclMap)
    requires forall x | x in order :: x in m
    ensures |Flatten(order, m)| == |order| && forall i :: 0 <= i < |order| ==> Flatten(order, m)[i] == m[order[i]]
  {
    if order != [] {
      FlattenAt(order[1..], m);
      forall i | 0 < i < |order|
        ensures Flatten(order, m)[i] == m[order[i]]
      {
        assert order[i] == order[1..][i - 1];
      }
    }
  }

  lemma NormalAt(ds: seq<Decl>)
    ensures var idx := IndexAll(EMPTY, ds);
      && Normal(ds) == Flatten(idx.order, idx.decls) && |Normal(ds)| == |idx.order|
      && forall i :: 0 <= i < |idx.order| ==>
           idx.order[i] in idx.decls && Normal(ds)[i] == idx.decls[idx.order[i]] && KeyOf(Normal(ds)[i]) == idx.order[i]
  {
    IndexIsDistinct(ds);
    hide KeyOf, View;
    var idx := IndexAll(EMPTY, ds);
    FlattenAt(idx.order, idx.decls);
    assert forall i :: 0 <= i < |idx.order| ==> idx.order[i] in idx.order;
    hide IndexAll, Flatten;
  }

  /** The entries of some keys. */
  function Part(m: DeclMap, keys: seq<Key>): DeclMap { map k | k in m && k in keys :: m[k] }

  lemma PartSnoc(m: DeclMap, keys: seq<Key>, x: Key)
    requires x in m && x !in keys
    ensures Part(m, keys + [x]) == Part(m, keys)[x := m[x]] && x !in Part(m, keys)
  {}

  lemma NewKey(idx: Index, n: nat)
    requires Distinct(idx) && n < |idx.order|
    ensures idx.order[n] !in idx.order[..n] && idx.order[n] in idx.decls && KeyOf(idx.decls[idx.order[n]]) == idx.order[n]
  {
    hide KeyOf;
    assert idx.order[n] in idx.order;
  }

  /** Reading the normal form builds the index again, key by key. */
  lemma {:induction false} Rebuilt(idx: Index, ds: seq<Decl>, n: nat)
    requires Distinct(idx) && |ds| == |idx.order| && n <= |ds|
    requires forall i :: 0 <= i < |ds| ==> idx.order[i] in idx.decls && ds[i] == idx.decls[idx.order[i]]
    ensures IndexAll(EMPTY, ds[..n]) == Index(idx.order[..n], Part(idx.decls, idx.order[..n]))
  {
    hide KeyOf, Part, Distinct;
    if n == 0 {
      NoPart(idx.decls);
    } else {
      Rebuilt(idx, ds, n - 1);
      NewKey(idx, n - 1);
      PartSnoc(idx.decls, idx.order[..n - 1], idx.order[n - 1]);
      IndexSnoc(EMPTY, ds[..n - 1], ds[n - 1]);
      hide IndexAll;
      TakeSnoc(ds, n);
      TakeSnoc(idx.order, n);
    }
  }

  lemma TakeSnoc<T>(s: seq<T>, n: nat)
    requires 0 < n <= |s|
    ensures s[..n] == s[..n - 1] + [s[n - 1]]
  {}

  lemma NoPart(m: DeclMap)
    ensures Part(m, []) == map[]
  {}

  lemma WholePart(idx: Index)
    requires Distinct(idx)
    ensures Part(idx.decls, idx.order) == idx.decls
  {
    hide KeyOf;
  }

  lemma NormalIndexes(ds: seq<Decl>)
    ensures IndexAll(EMPTY, Normal(ds)) == IndexAll(EMPTY, ds) && View(Normal(ds)) == View(ds)
  {
    var idx := IndexAll(EMPTY, ds);
    IndexIsDistinct(ds);
    IndexIsDistinct(Normal(ds));
    NormalAt(ds);
    hide Normal, IndexAll, View, KeyOf, Distinct, Part;
    Rebuilt(idx, Normal(ds), |Normal(ds)|);
    WholePart(idx);
    assert Normal(ds)[..|Normal(ds)|] == Normal(ds) && idx.order[..|idx.order|] == idx.order;
  }

  /** Merging further layers into a layer does not tell it from its normal form. */
  lemma NormalMerges(ds: seq<Decl>, s: seq<Decl>)
    ensures MergeDecls(ds, s) == MergeDecls(Normal(ds), s)
  {
    NormalIndexes(ds);
    hide Normal, IndexAll, ApplyAll, Flatten;
  }

  // ---------------------------------------------------------------- the condition suffices

  lemma {:induction false} ViewMembers(ds: seq<Decl>)
    ensures forall k | k in View(ds) :: View(ds)[k] in ds && KeyOf(View(ds)[k]) == k
    ensures forall d | d in ds :: KeyOf(d) in View(ds)
  {
    hide KeyOf;
    if ds != [] {
      var init, last := ds[..|ds| - 1], ds[|ds| - 1];
      ViewMembers(init);
      assert ds == init + [last];
    }
  }

  lemma NormalRemoves(ds: seq<Decl>, k: Key)
    ensures AnyRemoves(ds, k) <==> AnyRemoves(Normal(ds), k)
  {
    ViewMembers(ds);
    ViewMembers(Normal(ds));
    NormalIndexes(ds);
    hide Normal, View, IndexAll;
    if AnyRemoves(ds, k) {
      var d :| d in ds && Removes(d, k);
      SameRemove(d, View(ds)[KeyOf(d)]);
      assert d in Normal(ds);
    }
    if AnyRemoves(Normal(ds), k) {
      var d :| d in Normal(ds) && Removes(d, k);
      SameRemove(d, View(ds)[KeyOf(d)]);
      assert d in ds;
    }
  }

  lemma SameRemove(d: Decl, e: Decl)
    requires d.RemoveDecl? && KeyOf(e) == KeyOf(d)
    ensures d == e
  {
    RemoveKeysDiffer(d, e);
  }

  /** What a layer does to an entry depends only on what it makes of nothing and on whether it removes the key. */
  lemma LayerActs(ds: seq<Decl>, k: Key, o: Option<Decl>)
    requires o.Some? ==> KeyOf(o.value) == k
    ensures var own, was := Lookup(OverrideAll(map[], ds), k), Before(AnyRemoves(ds, k), o);
      ActAll(o, ds, k) == if own.Some? then Some(Combine(was, own.value)) else was
  {
    NormalRun(ds, k, o);
    ApplyAllCovers(EMPTY, ds);
    hide ActAll, OverrideAll, ApplyAll, KeyOf, RunOrder, Combine, AnyRemoves;
    RegularValue(ApplyAll(EMPTY, ds), k, AnyRemoves(ds, k), o);
    hide Regular;
  }

  lemma NormalOverrides(m: DeclMap, ds: seq<Decl>)
    requires WellKeyed(m) && Groups(ds)
    ensures OverrideAll(m, ds) == OverrideAll(m, Normal(ds))
  {
    var normal := Normal(ds);
    NormalIndexes(ds);
    IndexIsDistinct(ds);
    IndexIsApplied(normal);
    ApplyAllCovers(EMPTY, normal);
    assert OverrideAll(map[], ds) == OverrideAll(map[], normal) by { hide IndexAll, ApplyAll, OverrideAll, View; }
    hide Normal, OverrideAll, View, IndexAll, ApplyAll, Composable, KeyOf, Combine, Covers, Distinct, AnyRemoves;
    forall k
      ensures Lookup(OverrideAll(m, ds), k) == Lookup(OverrideAll(m, normal), k)
    {
      OverrideAllActs(m, ds, k);
      OverrideAllActs(m, normal, k);
      LayerActs(ds, k, Lookup(m, k));
      LayerActs(normal, k, Lookup(m, k));
      NormalRemoves(ds, k);
    }
    SameMap(OverrideAll(m, ds), OverrideAll(m, normal));
  }

  lemma GroupsAgrees(b: seq<Decl>, f: seq<Decl>, s: seq<Decl>)
    requires Groups(f)
    ensures Agree(b, f, s)
  {
    var normal := Normal(f);
    LayersCompose(Program(b, []), Program(normal, []), Program(s, []));
    NormalMerges(f, s);
    MergeIsOverride(b, f);
    MergeIsOverride(b, normal);
    MergeIsOverride(MergeDecls(b, f), s);
    MergeIsOverride(MergeDecls(b, normal), s);
    assert WellKeyed(View(b)) by { ViewMembers(b); hide KeyOf, View; }
    NormalOverrides(View(b), f);
    hide View, OverrideAll, MergeDecls, Normal, KeyOf, Groups;
  }

  // ---------------------------------------------------------------- and is necessary

  lemma JustOne(m: DeclMap, d: Decl, k: Key)
    requires KeyOf(d) == k && !d.RemoveDecl?
    ensures Lookup(OverrideAll(m, [d]), k).Some?
  {
    OverrideAllActs(m, [d], k);
    assert [d][1..] == [] && ActAll(Lookup(m, k), [d], k) == ActAll(Act(Lookup(m, k), d, k), [], k);
    hide OverrideAll, Combine;
  }

  /** After a REMOVE of k nothing brings k back, unless it is declared there. */
  lemma {:induction false} StaysRemoved(o: Option<Decl>, order: seq<Key>, m: DeclMap, k: Key, j: nat, n: nat)
    requires WellKeyed(m) && j < n <= |order| && order[j] in m && Removes(m[order[j]], k)
    requires forall i :: j < i < n ==> order[i] != k
    ensures RunOrder(o, order[..n], m, k) == None
    decreases n
  {
    hide KeyOf, Removed;
    assert order[..n] == order[..n - 1] + [order[n - 1]];
    RunSnoc(o, order[..n - 1], order[n - 1], m, k);
    if j < n - 1 {
      StaysRemoved(o, order, m, k, j, n - 1);
    }
    hide RunOrder, Combine;
  }

  /** A declaration that is declared again by the second layer stays before a REMOVE that comes after it. */
  lemma LateRemoveDisagrees(f: seq<Decl>, i: nat, j: nat)
    requires i < j < |Normal(f)| && Removes(Normal(f)[j], KeyOf(Normal(f)[i]))
    ensures !Agree([], f, [Normal(f)[i]])
  {
    var d, k, idx := Normal(f)[i], KeyOf(Normal(f)[i]), IndexAll(EMPTY, f);
    NormalAt(f);
    IndexIsDistinct(f);
    assert !d.RemoveDecl? by {
      if d.RemoveDecl? { RemoveIsNoTarget(d, Normal(f)[j]); }
    }
    hide Normal, IndexAll, View, KeyOf, Removed, Combine;
    var next := ApplyOne(idx, d);
    assert ApplyAll(idx, [d]) == next by { ApplyJust(idx, d); }
    assert next.order == idx.order;
    IrrelevantKeeps(idx, d);
    assert idx.order[j] != k && next.decls[idx.order[j]] == Normal(f)[j];
    StaysRemoved(None, idx.order, next.decls, k, j, |idx.order|);
    assert idx.order[..|idx.order|] == idx.order;
    var merged := MergeDecls(f, [d]);
    assert merged == Flatten(idx.order, next.decls);
    RunIsFlattened(None, idx.order, next.decls, k);
    MergeIsOverride([], merged);
    MergeIsOverride(MergeDecls([], f), [d]);
    hide ApplyAll, ApplyOne, MergeDecls, Flatten, RunOrder, ActAll, OverrideAll, Distinct;
    ViewOfNothing();
    OverrideAllActs(map[], merged, k);
    JustOne(View(MergeDecls([], f)), d, k);
  }

  lemma AgreeingNormal(f: seq<Decl>)
    requires forall s :: Agree([], f, s)
    ensures Composable(Normal(f))
  {
    NormalAt(f);
    IndexIsDistinct(f);
    hide Normal, IndexAll, View, KeyOf, Agree, Removes;
    forall i, j | 0 <= i < j < |Normal(f)|
      ensures KeyOf(Normal(f)[i]) != KeyOf(Normal(f)[j]) && !Removes(Normal(f)[j], KeyOf(Normal(f)[i]))
    {
      if Removes(Normal(f)[j], KeyOf(Normal(f)[i])) { LateRemoveDisagrees(f, i, j); }
    }
  }

  lemma AgreeingGroups(f: seq<Decl>)
    requires forall s :: Agree([], f, s)
    ensures Groups(f)
  {
    AgreeingNormal(f);
    var normal := Normal(f);
    assert Agree([], f, []);
    MergeIsOverride([], f);
    MergeIsOverride(MergeDecls([], f), []);
    MergeIsOverride([], normal);
    NormalIndexes(f);
    IndexIsDistinct(f);
    IndexIsApplied(normal);
    ApplyAllCovers(EMPTY, normal);
    ViewOfNothing();
    assert OverrideAll(View(MergeDecls([], f)), []) == View(MergeDecls([], f));
    hide IndexAll, ApplyAll, OverrideAll, View, Composable, KeyOf, Flatten, Covers, Distinct;
  }

  /**
   * Exactly when layers compose: a first layer gives the same map in both groupings, for every base and every
   * second layer, if and only if it passes the check.
   */
  lemma LayersComposeExactly(f: seq<Decl>)
    ensures (forall b, s :: Agree(b, f, s)) <==> Groups(f)
  {
    hide Agree, Groups;
    if Groups(f) {
      forall b, s
        ensures Agree(b, f, s)
      {
        GroupsAgrees(b, f, s);
      }
    }
    if forall b, s :: Agree(b, f, s) {
      AgreeingGroups(f);
    }
  }

  /** The simple layers, without a key twice and without a late REMOVE, pass the check. */
  lemma ComposableGroups(f: seq<Decl>)
    requires Composable(f)
    ensures Groups(f)
  {
    hide Groups, Composable, View, MergeDecls;
    forall s
      ensures Agree([], f, s)
    {
      LayersCompose(Program([], []), Program(f, []), Program(s, []));
    }
    AgreeingGroups(f);
  }
}
