/** The merge as the program runs it: an index that is built and changed in place, and a base that is rewritten. */
module Merger {
  import opened Ast
  import opened Merge
  import opened MergeLaws
  import opened Text

  class IndexedDecls {
    var order: seq<Key>
    var decls: map<Key, Decl>

    ghost function Value(): Index
      reads this
    {
      Index(order, decls)
    }

    constructor ()
      ensures Value() == Index([], map[])
    {
      order := [];
      decls := map[];
    }

    method IndexDeclarations(ds: seq<Decl>)
      modifies this
      ensures Value() == IndexAll(old(Value()), ds)
    {
      hide IndexOne, KeyOf;
      assert ds[0..] == ds;
      for i := 0 to |ds|
        invariant IndexAll(Value(), ds[i..]) == IndexAll(old(Value()), ds)
      {
        assert ds[i..][1..] == ds[i + 1..];
        IndexStep(Value(), ds[i]);
        var key := KeyOf(ds[i]);
        if key !in decls { order := order + [key]; }
        decls := decls[key := ds[i]];
      }
    }

    method ApplySlice(ds: seq<Decl>)
      modifies this
      ensures Value() == ApplyAll(old(Value()), ds)
    {
      hide ApplyOne, KeyOf, Combine;
      assert ds[0..] == ds;
      for i := 0 to |ds|
        invariant ApplyAll(Value(), ds[i..]) == ApplyAll(old(Value()), ds)
      {
        assert ds[i..][1..] == ds[i + 1..];
        ApplyDeclaration(ds[i]);
      }
    }

    method ApplyDeclaration(d: Decl)
      modifies this
      ensures Value() == ApplyOne(old(Value()), d)
    {
      hide UnionStrings, UnionMounts;
      var key := KeyOf(d);
      match d {
        case RemoveDecl(_, _) =>
          decls := (decls - {Removed(d)})[key := d];
          order := order + [key];
        case SkillsDecl(slugs) =>
          if key in decls && decls[key].SkillsDecl? {
            var merged := MergeSlugs(decls[key].slugs, slugs);
            decls := decls[key := SkillsDecl(merged)];
          } else {
            AddOrReplace(key, d);
          }
        case KnowledgeDecl(mounts) =>
          if key in decls && decls[key].KnowledgeDecl? {
            var merged := MergeMounts(decls[key].mounts, mounts);
            decls := decls[key := KnowledgeDecl(merged)];
          } else {
            AddOrReplace(key, d);
          }
        case ConfigDecl(_, typ, _, default) =>
          if typ == Untyped && key in decls && decls[key].ConfigDecl? {
            decls := decls[key := decls[key].(default := default)];
          } else {
            AddOrReplace(key, d);
          }
        case _ => AddOrReplace(key, d);
      }
    }

    method AddOrReplace(key: Key, d: Decl)
      modifies this
      ensures order == old(order) + if key in old(decls) then [] else [key]
      ensures decls == old(decls)[key := d]
    {
      if key !in decls { order := order + [key]; }
      decls := decls[key := d];
    }

    method FlattenDeclarations() returns (ds: seq<Decl>)
      ensures ds == Flatten(order, decls)
    {
      ds := [];
      for i := 0 to |order|
        invariant ds == Flatten(order[..i], decls)
      {
        assert order[..i + 1] == order[..i] + [order[i]];
        FlattenSnoc(order[..i], order[i], decls);
        if order[i] in decls { ds := ds + [decls[order[i]]]; }
      }
      assert order[..|order|] == order;
    }
  }

  lemma IndexStep(idx: Index, d: Decl)
    ensures IndexOne(idx, d) ==
      Index(if KeyOf(d) in idx.decls then idx.order else idx.order + [KeyOf(d)], idx.decls[KeyOf(d) := d])
  {
    hide KeyOf;
  }

  /** Only what the first list holds counts as seen. */
  method MergeSlugs(a: seq<string>, b: seq<string>) returns (result: seq<string>)
    ensures result == UnionStrings(a, b) && IsUnion(a, b, result)
  {
    UnionIsExact(a, b);
    hide IsUnion;
    var seen: set<string> := {};
    for i := 0 to |a|
      invariant seen == set j | 0 <= j < i :: a[j]
    {
      seen := seen + {a[i]};
    }
    result := a;
    for i := 0 to |b|
      invariant result == a + Without(b[..i], a)
    {
      assert b[..i + 1] == b[..i] + [b[i]];
      WithoutOneMore(b[..i], b[i], a);
      if b[i] !in seen { result := result + [b[i]]; }
    }
    assert b[..|b|] == b;
  }

  /** The position table holds the last position of every slug. */
  ghost predicate Positions(pos: map<string, int>, ms: seq<Mount>) {
    forall slug :: if slug in pos then LastIndex(ms, slug) == pos[slug] && pos[slug] >= 0 else LastIndex(ms, slug) == -1
  }

  lemma PositionOfLast(ms: seq<Mount>, m: Mount, slug: string)
    ensures LastIndex(ms + [m], slug) == if slug == m.slug then |ms| else LastIndex(ms, slug)
  {
    assert (ms + [m])[..|ms|] == ms;
  }

  lemma PositionsUpdated(pos: map<string, int>, ms: seq<Mount>, i: int, mode: string)
    requires Positions(pos, ms) && 0 <= i < |ms|
    ensures Positions(pos, ms[i := Mount(ms[i].slug, mode)])
  {
    var next := ms[i := Mount(ms[i].slug, mode)];
    forall slug
      ensures LastIndex(next, slug) == LastIndex(ms, slug)
    {
      SameSlugs(ms, next, slug);
    }
  }

  lemma {:induction false} SameSlugs(a: seq<Mount>, b: seq<Mount>, slug: string)
    requires |a| == |b| && forall i :: 0 <= i < |a| ==> a[i].slug == b[i].slug
    ensures LastIndex(a, slug) == LastIndex(b, slug)
  {
    if a != [] { SameSlugs(a[..|a| - 1], b[..|b| - 1], slug); }
  }

  method MergeMounts(a: seq<Mount>, b: seq<Mount>) returns (result: seq<Mount>)
    ensures result == UnionMounts(a, b) && Slugs(result) == Extended(Slugs(a), Slugs(b))
    ensures forall slug :: LastMode(result, slug) == if LastMode(b, slug).Some? then LastMode(b, slug) else LastMode(a, slug)
  {
    MountsUnite(a, b);
    hide Slugs, Extended, LastMode;
    hide LastIndex;
    var pos: map<string, int> := map[];
    assert Positions(pos, a[..0]) by { NoPositions(); }
    for i := 0 to |a|
      invariant Positions(pos, a[..i])
    {
      assert a[..i + 1] == a[..i] + [a[i]];
      forall slug
        ensures LastIndex(a[..i] + [a[i]], slug) == if slug == a[i].slug then i else LastIndex(a[..i], slug)
      {
        PositionOfLast(a[..i], a[i], slug);
      }
      pos := pos[a[i].slug := i];
    }
    assert a[..|a|] == a && b[0..] == b;
    result := a;
    for j := 0 to |b|
      invariant Positions(pos, result)
      invariant UnionMounts(result, b[j..]) == UnionMounts(a, b)
    {
      var m := b[j];
      assert b[j..][1..] == b[j + 1..];
      if m.slug in pos {
        PositionsUpdated(pos, result, pos[m.slug], m.mode);
        assert LastIndex(result, m.slug) == pos[m.slug];
        assert Mount(result[pos[m.slug]].slug, m.mode) == m;
        result := result[pos[m.slug] := Mount(result[pos[m.slug]].slug, m.mode)];
      } else {
        assert LastIndex(result, m.slug) == -1;
        forall slug
          ensures LastIndex(result + [m], slug) == if slug == m.slug then |result| else LastIndex(result, slug)
        {
          PositionOfLast(result, m, slug);
        }
        pos := pos[m.slug := |result|];
        result := result + [m];
      }
    }
  }

  lemma NoPositions()
    ensures Positions(map[], [])
  {}

  class Base {
    var declarations: seq<Decl>
    var statements: seq<Stmt>

    ghost function Value(): Program
      reads this
    {
      Program(declarations, statements)
    }

    constructor (p: Program)
      ensures Value() == p
    {
      declarations := p.declarations;
      statements := p.statements;
    }

    /** Rewrites the base in place; the slice is left as it is. */
    method MergeSlice(slice: Program)
      modifies this
      ensures Value() == MergePrograms(old(Value()), slice)
      ensures statements == old(statements) + slice.statements
    {
      hide IndexAll, ApplyAll, Flatten;
      var idx := new IndexedDecls();
      idx.IndexDeclarations(declarations);
      idx.ApplySlice(slice.declarations);
      declarations := idx.FlattenDeclarations();
      statements := statements + slice.statements;
    }
  }
}
