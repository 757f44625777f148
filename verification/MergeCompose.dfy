/** Layers compose: merging two layers first and then over a base is merging them one after the other. */
module MergeCompose {
  import opened Text
  import opened Ast
  import opened Merge

  // ---------------------------------------------------------------- unions are associative

  lemma {:induction false} WithoutMember(b: seq<string>, a: seq<string>)
    ensures forall x :: x in Without(b, a) <==> x in b && x !in a
  {
    if b != [] { WithoutMember(b[1..], a); }
  }

  lemma {:induction false} WithoutConcat(b: seq<string>, c: seq<string>, a: seq<string>)
    ensures Without(b + c, a) == Without(b, a) + Without(c, a)
  {
    if b == [] {
      assert b + c == c;
    } else {
      assert (b + c)[1..] == b[1..] + c;
      WithoutConcat(b[1..], c, a);
    }
  }

  lemma {:induction false} WithoutTwice(c: seq<string>, a: seq<string>, b: seq<string>)
    ensures Without(c, a + Without(b, a)) == Without(Without(c, b), a)
  {
    WithoutMember(b, a);
    if c != [] {
      WithoutTwice(c[1..], a, b);
      WithoutConcat(if c[0] in b then [] else [c[0]], Without(c[1..], b), a);
      assert Without([c[0]], a) == (if c[0] in a then [] else [c[0]]) + Without([], a);
    }
  }

  lemma UnionStringsAssociates(a: seq<string>, b: seq<string>, c: seq<string>)
    ensures UnionStrings(UnionStrings(a, b), c) == UnionStrings(a, UnionStrings(b, c))
  {
    WithoutTwice(c, a, b);
    WithoutConcat(b, Without(c, b), a);
    ConcatAssociates(a, Without(b, a), Without(c, a + Without(b, a)));
  }

  lemma {:induction false} UnionMountsConcat(a: seq<Mount>, b: seq<Mount>, c: seq<Mount>)
    ensures UnionMounts(a, b + c) == UnionMounts(UnionMounts(a, b), c)
    decreases b
  {
    hide PutMount;
    if b == [] {
      assert b + c == c;
    } else {
      assert (b + c)[1..] == b[1..] + c;
      UnionMountsConcat(PutMount(a, b[0]), b[1..], c);
    }
  }

  lemma LastIndexIs(ms: seq<Mount>, slug: string, i: int)
    requires -1 <= i < |ms| && (i >= 0 ==> ms[i].slug == slug) && forall j :: i < j < |ms| ==> ms[j].slug != slug
    ensures LastIndex(ms, slug) == i
  {}

  lemma PutMountAt(ms: seq<Mount>, m: Mount, slug: string)
    ensures LastIndex(PutMount(ms, m), slug) ==
      if slug != m.slug then LastIndex(ms, slug) else if LastIndex(ms, slug) >= 0 then LastIndex(ms, slug) else |ms|
  {
    var i := LastIndex(ms, slug);
    LastIndexIs(PutMount(ms, m), slug, if slug != m.slug || i >= 0 then i else |ms|);
  }

  lemma PutSame(ms: seq<Mount>, x: Mount, m: Mount)
    requires x.slug == m.slug
    ensures PutMount(PutMount(ms, x), m) == PutMount(ms, m)
  {
    PutMountAt(ms, x, m.slug);
    hide LastIndex;
  }

  lemma PutsCommute(ms: seq<Mount>, m: Mount, y: Mount)
    requires LastIndex(ms, m.slug) >= 0 && y.slug != m.slug
    ensures PutMount(PutMount(ms, y), m) == PutMount(PutMount(ms, m), y)
    ensures LastIndex(PutMount(ms, y), m.slug) >= 0
  {
    PutMountAt(ms, y, m.slug);
    PutMountAt(ms, m, y.slug);
    hide LastIndex;
  }

  lemma {:induction false} PutBeforeUnion(ms: seq<Mount>, more: seq<Mount>, m: Mount)
    requires LastIndex(ms, m.slug) >= 0 && forall y | y in more :: y.slug != m.slug
    ensures PutMount(UnionMounts(ms, more), m) == UnionMounts(PutMount(ms, m), more)
    decreases more
  {
    hide PutMount, LastIndex;
    if more != [] {
      PutsCommute(ms, m, more[0]);
      PutBeforeUnion(PutMount(ms, more[0]), more[1..], m);
    }
  }

  lemma UnionOne(q: seq<Mount>, m: Mount, post: seq<Mount>)
    ensures UnionMounts(q, [m] + post) == UnionMounts(PutMount(q, m), post)
    ensures UnionMounts(q, [m]) == PutMount(q, m)
  {
    hide PutMount;
    assert ([m] + post)[1..] == post && [m][1..] == [];
  }

  /** Putting again what is already in the list commutes with all that came after. */
  lemma PutAgain(q: seq<Mount>, x: Mount, post: seq<Mount>, m: Mount)
    requires x.slug == m.slug && forall y | y in post :: y.slug != m.slug
    ensures PutMount(UnionMounts(q, [x] + post), m) == UnionMounts(q, [m] + post)
  {
    hide PutMount, LastIndex, UnionMounts;
    UnionOne(q, x, post);
    UnionOne(q, m, post);
    PutSame(q, x, m);
    PutMountAt(q, x, m.slug);
    PutBeforeUnion(PutMount(q, x), post, m);
  }

  lemma SplitAt(b: seq<Mount>, i: nat, m: Mount)
    requires i < |b|
    ensures b == b[..i] + ([b[i]] + b[i + 1..]) && b[i := m] == b[..i] + ([m] + b[i + 1..])
  {}

  lemma PutInUnion(a: seq<Mount>, b: seq<Mount>, m: Mount)
    ensures PutMount(UnionMounts(a, b), m) == UnionMounts(a, PutMount(b, m))
  {
    var i := LastIndex(b, m.slug);
    assert PutMount(b, m) == if i >= 0 then b[i := m] else b + [m];
    hide PutMount, LastIndex, UnionMounts;
    if i < 0 {
      UnionMountsConcat(a, b, [m]);
      UnionOne(UnionMounts(a, b), m, []);
    } else {
      var pre, x, post := b[..i], b[i], b[i + 1..];
      assert forall y | y in post :: y.slug != m.slug;
      SplitAt(b, i, m);
      UnionMountsConcat(a, pre, [x] + post);
      UnionMountsConcat(a, pre, [m] + post);
      PutAgain(UnionMounts(a, pre), x, post, m);
    }
  }

  lemma {:induction false} UnionMountsAssociates(a: seq<Mount>, b: seq<Mount>, c: seq<Mount>)
    ensures UnionMounts(UnionMounts(a, b), c) == UnionMounts(a, UnionMounts(b, c))
    decreases c
  {
    hide PutMount;
    if c != [] {
      PutInUnion(a, b, c[0]);
      UnionMountsAssociates(a, PutMount(b, c[0]), c[1..]);
    }
  }

  /** Overriding twice is overriding by the combination. */
  lemma CombineAssociates(o: Option<Decl>, e: Decl, d: Decl)
    requires KeyOf(e) == KeyOf(d) && (o.Some? ==> KeyOf(o.value) == KeyOf(d))
    ensures Combine(o, Combine(Some(e), d)) == Combine(Some(Combine(o, e)), d)
  {
    hide UnionMounts, UnionStrings;
    if d.SkillsDecl? && o.Some? { UnionStringsAssociates(o.value.slugs, e.slugs, d.slugs); }
    if d.KnowledgeDecl? && o.Some? { UnionMountsAssociates(o.value.mounts, e.mounts, d.mounts); }
  }

  // ---------------------------------------------------------------- a layer is its own normal form

  /** The kind of a removed declaration has no dot, so the key of a REMOVE tells its parts apart. */
  lemma DottedPartsDiffer(s: string, a: string, t: string, b: string)
    requires '.' !in s && '.' !in t && s + "." + a == t + "." + b
    ensures s == t && a == b
  {
    var all := s + "." + a;
    assert all[|s|] == '.' && (t + "." + b)[|t|] == '.';
    assert forall i :: 0 <= i < |s| ==> all[i] == s[i];
    assert forall i :: 0 <= i < |t| ==> (t + "." + b)[i] == t[i];
    assert |s| == |t|;
    assert all[..|s|] == s && (t + "." + b)[..|t|] == t;
    assert all[|s| + 1..] == a && (t + "." + b)[|t| + 1..] == b;
  }

  lemma RemoveKeysDiffer(d: Decl, e: Decl)
    requires d.RemoveDecl? && e.RemoveDecl? && KeyOf(d) == KeyOf(e)
    ensures d == e
  {
    DottedPartsDiffer(TargetName(d.target), d.name, TargetName(e.target), e.name);
  }

  /** The entry of k before the last time it was set: deleted, or what was there to begin with. */
  function Before(removed: bool, o: Option<Decl>): Option<Decl> { if removed then None else o }

  ghost function RunWith(idx: Index, k: Key, o: Option<Decl>, c: Decl): Option<Decl> {
    RunOrder(o, idx.order, idx.decls[k := c], k)
  }

  /** Running the index with any declaration c in place of k's puts c over what was there. */
  ghost predicate Runs(idx: Index, k: Key, removed: bool) {
    forall o, c | KeyOf(c) == k && !c.RemoveDecl? ::
      RunWith(idx, k, o, c) ==
      if k in idx.decls then Some(Combine(Before(removed, o), c)) else Before(removed, o)
  }

  ghost predicate RunsAbsent(idx: Index, k: Key, removed: bool) {
    k !in idx.decls ==> forall o :: RunOrder(o, idx.order, idx.decls, k) == Before(removed, o)
  }

  /** A REMOVE that is recorded stays recorded. */
  ghost predicate RunsRemove(idx: Index, k: Key) {
    k in idx.decls && idx.decls[k].RemoveDecl? ==> forall o :: RunOrder(o, idx.order, idx.decls, k) == Some(idx.decls[k])
  }

  ghost predicate Regular(idx: Index, k: Key, removed: bool) {
    WellKeyed(idx.decls) && Runs(idx, k, removed) && RunsAbsent(idx, k, removed) && RunsRemove(idx, k)
  }

  lemma RegularValue(idx: Index, k: Key, removed: bool, o: Option<Decl>)
    requires Regular(idx, k, removed)
    ensures RunOrder(o, idx.order, idx.decls, k) ==
      if k in idx.decls then Some(Combine(Before(removed, o), idx.decls[k])) else Before(removed, o)
  {
    hide RunOrder, KeyOf, UnionMounts, UnionStrings;
    if k in idx.decls {
      assert KeyOf(idx.decls[k]) == k;
      assert idx.decls[k := idx.decls[k]] == idx.decls;
    }
  }

  lemma IrrelevantStep(idx: Index, d: Decl, k: Key)
    requires WellKeyed(idx.decls) && KeyOf(d) != k && !Removes(d, k)
    ensures var m := Override(idx.decls, d);
      WellKeyed(m) && (k in m <==> k in idx.decls) && (k in m ==> m[k] == idx.decls[k])
    ensures forall x, o | x != k :: ActEntry(o, x, idx.decls, k) == ActEntry(o, x, Override(idx.decls, d), k)
  {
    var m := Override(idx.decls, d);
    CombineKeepsKey(Lookup(idx.decls, KeyOf(d)), d);
    forall x, o | x != k
      ensures ActEntry(o, x, idx.decls, k) == ActEntry(o, x, m, k)
    {
      IrrelevantEntry(idx.decls, d, x, k, o);
    }
    hide KeyOf, Removed, Combine;
  }

  lemma IrrelevantEntry(m: DeclMap, d: Decl, x: Key, k: Key, o: Option<Decl>)
    requires WellKeyed(m) && KeyOf(d) != k && !Removes(d, k) && x != k
    ensures ActEntry(o, x, m, k) == ActEntry(o, x, Override(m, d), k)
  {
    var n := Override(m, d);
    CombineKeepsKey(Lookup(m, KeyOf(d)), d);
    if x == KeyOf(d) {
      if x in m && d.RemoveDecl? && m[x].RemoveDecl? { RemoveKeysDiffer(m[x], d); }
      SameKind(m, d);
      hide Combine, Removed;
    } else if d.RemoveDecl? && x == Removed(d) {
      if x in m && m[x].RemoveDecl? { RemoveIsNoTarget(m[x], d); }
      hide Combine, KeyOf, Removed;
    } else {
      hide Combine, KeyOf, Removed;
    }
  }

  lemma SameKind(m: DeclMap, d: Decl)
    requires WellKeyed(m)
    ensures KeyOf(d) in m ==> (m[KeyOf(d)].RemoveDecl? <==> d.RemoveDecl?)
    ensures Combine(Lookup(m, KeyOf(d)), d).RemoveDecl? <==> d.RemoveDecl?
  {
    assert KeyOf(d) in m ==> KeyOf(m[KeyOf(d)]) == KeyOf(d);
    hide UnionMounts, UnionStrings;
  }

  ghost predicate SameEntries(m: DeclMap, n: DeclMap, k: Key) {
    forall x, o :: ActEntry(o, x, m, k) == ActEntry(o, x, n, k)
  }

  lemma IrrelevantOrder(idx: Index, d: Decl, k: Key, m: DeclMap, n: DeclMap, o: Option<Decl>)
    requires KeyOf(d) != k && !Removes(d, k) && KeyOf(d) in n && Kept(n, d) && SameEntries(m, n, k)
    ensures RunOrder(o, ApplyOne(idx, d).order, n, k) == RunOrder(o, idx.order, m, k)
  {
    RunSame(o, idx.order, m, n, k);
    hide RunOrder;
    if ApplyOne(idx, d).order != idx.order {
      RunSnoc(o, idx.order, KeyOf(d), n, k);
    }
  }

  /** The entry of d's own key is d, or d combined with what was there. */
  ghost predicate Kept(n: DeclMap, d: Decl) {
    KeyOf(d) in n && KeyOf(n[KeyOf(d)]) == KeyOf(d) && (n[KeyOf(d)] == d || !n[KeyOf(d)].RemoveDecl?)
  }

  lemma KeptByOverride(m: DeclMap, d: Decl)
    requires WellKeyed(m)
    ensures Kept(Override(m, d), d)
  {
    CombineKeepsKey(Lookup(m, KeyOf(d)), d);
    SameKind(m, d);
    hide Combine, KeyOf, Removed;
  }

  lemma SameWith(m: DeclMap, n: DeclMap, k: Key, c: Decl)
    requires forall x, o | x != k :: ActEntry(o, x, m, k) == ActEntry(o, x, n, k)
    ensures SameEntries(m[k := c], n[k := c], k)
  {
    hide Act;
    var m1, n1 := m[k := c], n[k := c];
    forall x, o
      ensures ActEntry(o, x, m1, k) == ActEntry(o, x, n1, k)
    {
      assert x != k ==> ActEntry(o, x, m, k) == ActEntry(o, x, n, k);
    }
  }

  /** What an irrelevant declaration adds to the index does not show in k's run, with any c as k's entry. */
  lemma IrrelevantRunWith(idx: Index, d: Decl, k: Key, o: Option<Decl>, c: Decl)
    requires WellKeyed(idx.decls) && KeyOf(d) != k && !Removes(d, k)
    ensures var next := ApplyOne(idx, d);
      RunOrder(o, next.order, next.decls[k := c], k) == RunOrder(o, idx.order, idx.decls[k := c], k)
  {
    IrrelevantStep(idx, d, k);
    KeptByOverride(idx.decls, d);
    hide RunOrder, Override, KeyOf, Removed, Removes;
    SameWith(idx.decls, ApplyOne(idx, d).decls, k, c);
    IrrelevantOrder(idx, d, k, idx.decls[k := c], ApplyOne(idx, d).decls[k := c], o);
  }

  lemma SameWithout(m: DeclMap, n: DeclMap, k: Key)
    requires forall x, o | x != k :: ActEntry(o, x, m, k) == ActEntry(o, x, n, k)
    requires (k in m <==> k in n) && (k in m ==> m[k] == n[k])
    ensures SameEntries(m, n, k)
  {
    hide Act;
  }

  lemma IrrelevantRun(idx: Index, d: Decl, k: Key, o: Option<Decl>)
    requires WellKeyed(idx.decls) && KeyOf(d) != k && !Removes(d, k)
    ensures var next := ApplyOne(idx, d); RunOrder(o, next.order, next.decls, k) == RunOrder(o, idx.order, idx.decls, k)
  {
    IrrelevantStep(idx, d, k);
    KeptByOverride(idx.decls, d);
    hide RunOrder, Override, KeyOf, Removed, Removes;
    SameWithout(idx.decls, ApplyOne(idx, d).decls, k);
    IrrelevantOrder(idx, d, k, idx.decls, ApplyOne(idx, d).decls, o);
  }

  // ---------------------------------------------------------------- the steps that touch k

  lemma IrrelevantRegular(idx: Index, d: Decl, k: Key, removed: bool)
    requires Regular(idx, k, removed) && KeyOf(d) != k && !Removes(d, k)
    ensures Regular(ApplyOne(idx, d), k, removed)
  {
    var next := ApplyOne(idx, d);
    IrrelevantStep(idx, d, k);
    hide RunOrder, Override, KeyOf, Removed, Removes, ActEntry, Combine;
    forall o
      ensures RunOrder(o, next.order, next.decls, k) == RunOrder(o, idx.order, idx.decls, k)
    {
      IrrelevantRun(idx, d, k, o);
    }
    forall o, c
      ensures RunWith(next, k, o, c) == RunWith(idx, k, o, c)
    {
      IrrelevantRunWith(idx, d, k, o, c);
    }
  }

  /** A REMOVE of k: whatever went before, k is gone, and stays skipped until it is declared again. */
  lemma RemovingRegular(idx: Index, d: Decl, k: Key, removed: bool)
    requires WellKeyed(idx.decls) && Removes(d, k)
    ensures Regular(ApplyOne(idx, d), k, true) && k !in ApplyOne(idx, d).decls
  {
    var next := ApplyOne(idx, d);
    RemoveIsNoTarget(d, d);
    IrrelevantKeeps(idx, d);
    forall o
      ensures RunOrder(o, next.order, next.decls, k) == None
    {
      RunSnoc(o, idx.order, KeyOf(d), next.decls, k);
    }
    forall o, c | KeyOf(c) == k
      ensures RunWith(next, k, o, c) == None
    {
      RunSnoc(o, idx.order, KeyOf(d), next.decls[k := c], k);
    }
    hide RunOrder, Combine;
  }

  lemma IrrelevantKeeps(idx: Index, d: Decl)
    requires WellKeyed(idx.decls)
    ensures WellKeyed(Override(idx.decls, d))
  {
    CombineKeepsKey(Lookup(idx.decls, KeyOf(d)), d);
    hide KeyOf, Removed, Combine;
  }

  /** Declaring k, where it stands or at the end. */
  lemma DeclaringRuns(idx: Index, d: Decl, k: Key, removed: bool, o: Option<Decl>, c: Decl)
    requires Runs(idx, k, removed) && KeyOf(d) == k && !d.RemoveDecl? && KeyOf(c) == k && !c.RemoveDecl?
    ensures RunWith(ApplyOne(idx, d), k, o, c) == Some(Combine(Before(removed, o), c))
  {
    var next := ApplyOne(idx, d);
    assert next.decls[k := c] == idx.decls[k := c];
    hide RunOrder, Combine, KeyOf, Removed;
    assert RunWith(idx, k, o, c) == if k in idx.decls then Some(Combine(Before(removed, o), c)) else Before(removed, o);
    if k !in idx.decls {
      RunSnoc(o, idx.order, k, next.decls[k := c], k);
      CombineEntry(Before(removed, o), c, k, next.decls[k := c]);
    }
  }

  lemma CombineEntry(o: Option<Decl>, c: Decl, k: Key, m: DeclMap)
    requires k in m && m[k] == c && KeyOf(c) == k && !c.RemoveDecl?
    ensures ActEntry(o, k, m, k) == Some(Combine(o, c))
  {
    hide Combine, KeyOf, Removed;
  }

  lemma DeclaringRegular(idx: Index, d: Decl, k: Key, removed: bool)
    requires Regular(idx, k, removed) && KeyOf(d) == k && !d.RemoveDecl?
    ensures Regular(ApplyOne(idx, d), k, removed)
  {
    var next := ApplyOne(idx, d);
    IrrelevantKeeps(idx, d);
    SameKind(idx.decls, d);
    assert k in next.decls && !next.decls[k].RemoveDecl?;
    hide RunOrder, Combine, KeyOf, ApplyOne, RunWith;
    forall o, c | KeyOf(c) == k && !c.RemoveDecl?
      ensures RunWith(next, k, o, c) == Some(Combine(Before(removed, o), c))
    {
      DeclaringRuns(idx, d, k, removed, o, c);
    }
  }

  /** Recording a REMOVE, once more or for the first time. */
  lemma RecordingRegular(idx: Index, d: Decl, k: Key, removed: bool)
    requires Regular(idx, k, removed) && KeyOf(d) == k && d.RemoveDecl?
    ensures Regular(ApplyOne(idx, d), k, removed)
  {
    var next := ApplyOne(idx, d);
    IrrelevantKeeps(idx, d);
    RemoveIsNoTarget(d, d);
    forall o
      ensures RunOrder(o, next.order, next.decls, k) == Some(d)
    {
      RunSnoc(o, idx.order, k, next.decls, k);
    }
    NoOtherKind(d, k);
    hide RunOrder, Combine, KeyOf;
  }

  lemma NoOtherKind(d: Decl, k: Key)
    requires d.RemoveDecl? && KeyOf(d) == k
    ensures forall c | KeyOf(c) == k :: c.RemoveDecl?
  {}

  lemma StepRegular(idx: Index, d: Decl, k: Key, removed: bool)
    requires Regular(idx, k, removed)
    ensures Regular(ApplyOne(idx, d), k, removed || Removes(d, k))
  {
    hide Regular, ApplyOne, KeyOf, Removed;
    if Removes(d, k) {
      assert WellKeyed(idx.decls) by { RegularIsWellKeyed(idx, k, removed); }
      RemovingRegular(idx, d, k, removed);
    } else if KeyOf(d) != k {
      IrrelevantRegular(idx, d, k, removed);
    } else if d.RemoveDecl? {
      RecordingRegular(idx, d, k, removed);
    } else {
      DeclaringRegular(idx, d, k, removed);
    }
  }

  lemma RegularIsWellKeyed(idx: Index, k: Key, removed: bool)
    requires Regular(idx, k, removed)
    ensures WellKeyed(idx.decls)
  {}

  // ---------------------------------------------------------------- composition

  lemma {:induction false} ApplySnoc(idx: Index, ds: seq<Decl>, d: Decl)
    ensures ApplyAll(idx, ds + [d]) == ApplyOne(ApplyAll(idx, ds), d)
    decreases ds
  {
    hide ApplyOne;
    if ds == [] {
      assert (ds + [d])[1..] == [];
    } else {
      assert (ds + [d])[1..] == ds[1..] + [d];
      ApplySnoc(ApplyOne(idx, ds[0]), ds[1..], d);
    }
  }

  const EMPTY := Index([], map[])

  predicate AnyRemoves(ds: seq<Decl>, k: Key) { exists d | d in ds :: Removes(d, k) }

  /** The value that running the index gives follows the declarations one by one. */
  lemma StepValue(idx: Index, d: Decl, k: Key, removed: bool, o: Option<Decl>)
    requires Regular(idx, k, removed) && (o.Some? ==> KeyOf(o.value) == k)
    ensures var next := ApplyOne(idx, d);
      RunOrder(o, next.order, next.decls, k) == Act(RunOrder(o, idx.order, idx.decls, k), d, k)
  {
    var next := ApplyOne(idx, d);
    StepRegular(idx, d, k, removed);
    RegularValue(idx, k, removed, o);
    RegularValue(next, k, removed || Removes(d, k), o);
    OverrideActs(idx.decls, d, k);
    hide RunOrder, Runs, RunsAbsent, RunsRemove, KeyOf, Removed, Combine;
    if Removes(d, k) || KeyOf(d) != k {
    } else if k in idx.decls {
      CombineAssociates(Before(removed, o), idx.decls[k], d);
    } else {
      CombineNone(d);
    }
  }

  lemma CombineNone(d: Decl)
    ensures Combine(None, d) == d
  {}

  lemma {:induction false} NormalRun(ds: seq<Decl>, k: Key, o: Option<Decl>)
    requires o.Some? ==> KeyOf(o.value) == k
    ensures var idx := ApplyAll(EMPTY, ds);
      Regular(idx, k, AnyRemoves(ds, k)) && RunOrder(o, idx.order, idx.decls, k) == ActAll(o, ds, k)
  {
    hide ApplyOne, Act, Removes;
    if ds == [] {
      EmptyRegular(k);
    } else {
      var init, last := ds[..|ds| - 1], ds[|ds| - 1];
      assert ds == init + [last];
      NormalRun(init, k, o);
      ApplySnoc(EMPTY, init, last);
      StepRegular(ApplyAll(EMPTY, init), last, k, AnyRemoves(init, k));
      StepValue(ApplyAll(EMPTY, init), last, k, AnyRemoves(init, k), o);
      ActAllConcat(o, init, [last], k);
      hide Regular, RunOrder;
    }
  }

  lemma EmptyRegular(k: Key)
    ensures Regular(EMPTY, k, false)
  {
    hide Combine;
    forall o, c
      ensures RunWith(EMPTY, k, o, c) == o
    {}
  }

  /** A layer that is applied to nothing and written out again overrides every map as the layer itself does. */
  lemma NormalFormOverrides(m: DeclMap, ds: seq<Decl>)
    requires WellKeyed(m)
    ensures var idx := ApplyAll(EMPTY, ds); OverrideAll(m, Flatten(idx.order, idx.decls)) == OverrideAll(m, ds)
  {
    var idx := ApplyAll(EMPTY, ds);
    var flat := Flatten(idx.order, idx.decls);
    hide OverrideAll, Flatten, ApplyAll, KeyOf;
    forall k
      ensures Lookup(OverrideAll(m, flat), k) == Lookup(OverrideAll(m, ds), k)
    {
      OverrideAllActs(m, flat, k);
      OverrideAllActs(m, ds, k);
      NormalRun(ds, k, Lookup(m, k));
      RunIsFlattened(Lookup(m, k), idx.order, idx.decls, k);
    }
    SameMap(OverrideAll(m, flat), OverrideAll(m, ds));
  }

  lemma SameMap(m: DeclMap, n: DeclMap)
    requires forall k :: Lookup(m, k) == Lookup(n, k)
    ensures m == n
  {
    forall k
      ensures k in m <==> k in n
      ensures k in m && k in n ==> m[k] == n[k]
    {
      assert Lookup(m, k) == Lookup(n, k);
    }
  }

  /** No key is declared twice in the layer, and no REMOVE follows a declaration of its key. */
  predicate Composable(ds: seq<Decl>) {
    forall i, j :: 0 <= i < j < |ds| ==> KeyOf(ds[i]) != KeyOf(ds[j]) && !Removes(ds[j], KeyOf(ds[i]))
  }

  /** Indexing a composable layer is applying it to nothing. */
  lemma {:induction false} IndexIsApplied(ds: seq<Decl>)
    requires Composable(ds)
    ensures IndexAll(EMPTY, ds) == ApplyAll(EMPTY, ds)
    ensures forall k | k in ApplyAll(EMPTY, ds).decls :: exists i :: 0 <= i < |ds| && KeyOf(ds[i]) == k
  {
    if ds != [] {
      var init, last := ds[..|ds| - 1], ds[|ds| - 1];
      assert ds == init + [last];
      assert Composable(init) by {
        forall i, j | 0 <= i < j < |init|
          ensures KeyOf(init[i]) != KeyOf(init[j]) && !Removes(init[j], KeyOf(init[i]))
        {
          assert init[i] == ds[i] && init[j] == ds[j];
        }
      }
      IndexIsApplied(init);
      IndexSnoc(EMPTY, init, last);
      ApplySnoc(EMPTY, init, last);
      hide IndexAll, ApplyAll, KeyOf, Removed;
      var idx := ApplyAll(EMPTY, init);
      assert KeyOf(last) !in idx.decls;
      assert last.RemoveDecl? ==> Removed(last) !in idx.decls;
      CombineNone(last);
      hide Combine;
      assert last.RemoveDecl? ==> idx.decls - {Removed(last)} == idx.decls;
      assert IndexOne(idx, last) == ApplyOne(idx, last);
      forall k | k in ApplyOne(idx, last).decls
        ensures exists i :: 0 <= i < |ds| && KeyOf(ds[i]) == k
      {
        if k == KeyOf(last) {
          assert KeyOf(ds[|ds| - 1]) == k;
        } else {
          var i :| 0 <= i < |init| && KeyOf(init[i]) == k;
          assert KeyOf(ds[i]) == k;
        }
      }
    }
  }

  lemma {:induction false} ApplyConcat(idx: Index, a: seq<Decl>, b: seq<Decl>)
    ensures ApplyAll(idx, a + b) == ApplyAll(ApplyAll(idx, a), b)
    decreases a
  {
    hide ApplyOne;
    if a == [] {
      assert a + b == b;
    } else {
      assert (a + b)[1..] == a[1..] + b;
      ApplyConcat(ApplyOne(idx, a[0]), a[1..], b);
    }
  }

  lemma {:induction false} OverrideConcat(m: DeclMap, a: seq<Decl>, b: seq<Decl>)
    ensures OverrideAll(m, a + b) == OverrideAll(OverrideAll(m, a), b)
    decreases a
  {
    hide Override;
    if a == [] {
      assert a + b == b;
    } else {
      assert (a + b)[1..] == a[1..] + b;
      OverrideConcat(Override(m, a[0]), a[1..], b);
    }
  }

  /** Layers compose: for every base, every composable first layer and every second layer. */
  lemma LayersCompose(base: Program, first: Program, second: Program)
    requires Composable(first.declarations)
    ensures var one, two := MergePrograms(MergePrograms(base, first), second), MergePrograms(base, MergePrograms(first, second));
      View(one.declarations) == View(two.declarations) && one.statements == two.statements
  {
    var b, f, s := base.declarations, first.declarations, second.declarations;
    MergeIsOverride(b, f);
    MergeIsOverride(MergeDecls(b, f), s);
    MergeIsOverride(b, MergeDecls(f, s));
    IndexIsView(b);
    IndexIsApplied(f);
    ApplyConcat(EMPTY, f, s);
    NormalFormOverrides(View(b), f + s);
    OverrideConcat(View(b), f, s);
    ConcatAssociates(base.statements, first.statements, second.statements);
    hide View, OverrideAll, ApplyAll, IndexAll, Flatten, KeyOf, Composable;
  }

  // ---------------------------------------------------------------- what composition needs

  function EnvText(value: string): Decl { EnvDecl("a", Fixed, value, None, None, false) }

  lemma ApplyJust(idx: Index, d: Decl)
    ensures ApplyAll(idx, [d]) == ApplyOne(idx, d)
  {
    hide ApplyOne;
    assert [d][1..] == [] && ApplyAll(ApplyOne(idx, d), []) == ApplyOne(idx, d);
  }

  lemma IndexTwo(d: Decl, e: Decl)
    ensures IndexAll(EMPTY, [d, e]) == IndexOne(IndexOne(EMPTY, d), e)
  {
    hide IndexOne;
    var one := IndexOne(EMPTY, d);
    assert [d, e][1..] == [e] && [e][1..] == [];
    assert IndexAll(one, [e]) == IndexAll(IndexOne(one, e), []);
  }

  lemma FlattenTwo(a: Key, b: Key, m: DeclMap)
    requires a in m && b in m
    ensures Flatten([a, b], m) == [m[a], m[b]]
  {
    assert [a, b][1..] == [b] && [b][1..] == [];
    assert Flatten([b], m) == [m[b]];
  }

  /** The second declaration of a key takes the place of the first, before the REMOVE. */
  lemma LateRemoveMerges()
    ensures MergeDecls([EnvText("1"), RemoveDecl(RemoveEnv, "a")], [EnvText("2")]) ==
      [EnvText("2"), RemoveDecl(RemoveEnv, "a")]
  {
    var d, r, e := EnvText("1"), RemoveDecl(RemoveEnv, "a"), EnvText("2");
    IndexTwo(d, r);
    var idx := IndexAll(EMPTY, [d, r]);
    assert KeyOf(d) == KeyOf(e) != KeyOf(r);
    hide KeyOf, IndexAll;
    assert idx.order == [KeyOf(d), KeyOf(r)];
    ApplyJust(idx, e);
    hide ApplyAll;
    FlattenTwo(KeyOf(e), KeyOf(r), idx.decls[KeyOf(e) := e]);
  }

  lemma RunTwo(o: Option<Decl>, a: Decl, b: Decl, k: Key)
    ensures ActAll(o, [a, b], k) == Act(Act(o, a, k), b, k)
    ensures ActAll(o, [b], k) == Act(o, b, k)
  {
    hide Act;
    assert [a, b][1..] == [b] && [b][1..] == [];
    assert ActAll(o, [b], k) == ActAll(Act(o, b, k), [], k);
    assert ActAll(Act(o, a, k), [b], k) == ActAll(Act(Act(o, a, k), b, k), [], k);
  }

  lemma ViewOfNothing()
    ensures View([]) == map[]
  {}

  /** A REMOVE after its declaration deletes too late: a later declaration has taken the place before it. */
  lemma LateRemoveDoesNotCompose()
    ensures var first, second := [EnvText("1"), RemoveDecl(RemoveEnv, "a")], [EnvText("2")];
      var k := Key("ENV", "a");
      && Lookup(View(MergeDecls(MergeDecls([], first), second)), k) == Some(EnvText("2"))
      && Lookup(View(MergeDecls([], MergeDecls(first, second))), k) == None
  {
    var k, d, r, e := Key("ENV", "a"), EnvText("1"), RemoveDecl(RemoveEnv, "a"), EnvText("2");
    assert forall o :: Act(o, r, k) == None && (o == None ==> Act(o, e, k) == Some(e));
    var first, second := [d, r], [e];
    LateRemoveMerges();
    MergeIsOverride([], first);
    MergeIsOverride(MergeDecls([], first), second);
    MergeIsOverride([], [e, r]);
    hide MergeDecls, View, KeyOf, Removed, Act, ActAll, OverrideAll;
    ViewOfNothing();
    OverrideAllActs(map[], first, k);
    OverrideAllActs(View(MergeDecls([], first)), second, k);
    OverrideAllActs(map[], [e, r], k);
    RunTwo(None, e, r, k);
    RunTwo(None, d, r, k);
    RunTwo(None, d, e, k);
  }
}
