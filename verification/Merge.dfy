/** Layering AgentFiles: the merge as the program runs it, and the override map it stands for. */
module Merge {
  import opened Text
  import opened Ast

  // ---------------------------------------------------------------- keys

  /** What identifies a declaration; the name is empty where there is only one of a kind. */
  datatype Key = Key(typ: string, name: string)

  function TargetName(t: RemoveTarget): string {
    match t
    case NoTarget => ""
    case RemoveEnv => "ENV"
    case RemoveSkills => "SKILLS"
    case RemoveConfig => "CONFIG"
    case RemoveArg => "arg"
    case RemoveFile => "file"
  }

  const SKILLS_KEY := Key("SKILLS", "")
  const KNOWLEDGE_KEY := Key("KNOWLEDGE", "")

  function KeyOf(d: Decl): Key {
    match d
    case AgentDecl(_) => Key("AGENT", "")
    case ExecutableDecl(_) => Key("EXECUTABLE", "")
    case ConfigDecl(name, _, _, _) => Key("CONFIG", name)
    case EnvDecl(name, _, _, _, _, _) => Key("ENV", name)
    case RepoDecl(_) => Key("REPO", "")
    case BranchDecl(_) => Key("BRANCH", "")
    case GitCredentialDecl(_) => Key("GIT_CREDENTIAL", "")
    case McpDecl(_, _) => Key("MCP", "")
    case SkillsDecl(_) => SKILLS_KEY
    case KnowledgeDecl(_) => KNOWLEDGE_KEY
    case SetupDecl(_, _) => Key("SETUP", "")
    case ModeDecl(_) => Key("MODE", "")
    case ModeArgsDecl(mode, _) => Key("MODE_ARGS", mode)
    case UseEnvBundleDecl(name) => Key("USE_ENV_BUNDLE", name)
    case UseConfigBundleDecl(name) => Key("USE_CONFIG_BUNDLE", name)
    case PromptDecl(_) => Key("PROMPT", "")
    case PromptPositionDecl(_) => Key("PROMPT_POSITION", "")
    case CapabilityDecl(axis, _) => Key("CAPABILITY", axis)
    case RemoveDecl(target, name) => Key("REMOVE", TargetName(target) + "." + name)
  }

  /** The key that a REMOVE deletes. */
  function Removed(d: Decl): Key
    requires d.RemoveDecl?
  {
    Key(TargetName(d.target), d.name)
  }

  predicate Removes(d: Decl, k: Key) { d.RemoveDecl? && Removed(d) == k }

  lemma RemoveIsNoTarget(d: Decl, e: Decl)
    requires d.RemoveDecl? && e.RemoveDecl?
    ensures KeyOf(d) != Removed(e)
  {}

  // ---------------------------------------------------------------- unions

  /** The members of b that are not in a, in order. */
  function Without(b: seq<string>, a: seq<string>): seq<string> {
    if b == [] then [] else (if b[0] in a then [] else [b[0]]) + Without(b[1..], a)
  }

  function UnionStrings(a: seq<string>, b: seq<string>): seq<string> { a + Without(b, a) }

  /** The last position of a slug, or -1. */
  function LastIndex(ms: seq<Mount>, slug: string): (i: int)
    ensures -1 <= i < |ms|
    ensures i >= 0 ==> ms[i].slug == slug
    ensures forall j :: i < j < |ms| ==> ms[j].slug != slug
  {
    if ms == [] then -1
    else if ms[|ms| - 1].slug == slug then |ms| - 1
    else LastIndex(ms[..|ms| - 1], slug)
  }

  function PutMount(ms: seq<Mount>, m: Mount): seq<Mount> {
    var i := LastIndex(ms, m.slug);
    if i >= 0 then ms[i := m] else ms + [m]
  }

  function UnionMounts(a: seq<Mount>, b: seq<Mount>): seq<Mount>
    decreases b
  {
    if b == [] then a else UnionMounts(PutMount(a, b[0]), b[1..])
  }

  // ---------------------------------------------------------------- the override map

  /** A declaration of a layer over the one it meets: lists union, an untyped CONFIG keeps type and options. */
  function Combine(was: Option<Decl>, d: Decl): Decl {
    if d.SkillsDecl? && was.Some? && was.value.SkillsDecl? then SkillsDecl(UnionStrings(was.value.slugs, d.slugs))
    else if d.KnowledgeDecl? && was.Some? && was.value.KnowledgeDecl? then
      KnowledgeDecl(UnionMounts(was.value.mounts, d.mounts))
    else if d.ConfigDecl? && d.typ == Untyped && was.Some? && was.value.ConfigDecl? then
      was.value.(default := d.default)
    else d
  }

  type DeclMap = map<Key, Decl>

  function Lookup(m: DeclMap, k: Key): Option<Decl> { if k in m then Some(m[k]) else None }

  /** One declaration of a layer, on the map. */
  function Override(m: DeclMap, d: Decl): DeclMap {
    if d.RemoveDecl? then (m - {Removed(d)})[KeyOf(d) := d]
    else m[KeyOf(d) := Combine(Lookup(m, KeyOf(d)), d)]
  }

  function OverrideAll(m: DeclMap, ds: seq<Decl>): DeclMap
    decreases ds
  {
    if ds == [] then m else OverrideAll(Override(m, ds[0]), ds[1..])
  }

  /** The map a list of declarations stands for by itself: the last one of a key counts. */
  function View(ds: seq<Decl>): DeclMap {
    if ds == [] then map[] else View(ds[..|ds| - 1])[KeyOf(ds[|ds| - 1]) := ds[|ds| - 1]]
  }

  // ---------------------------------------------------------------- the ordered index

  datatype Index = Index(order: seq<Key>, decls: DeclMap)

  function IndexOne(idx: Index, d: Decl): Index {
    Index(if KeyOf(d) in idx.decls then idx.order else idx.order + [KeyOf(d)], idx.decls[KeyOf(d) := d])
  }

  function IndexAll(idx: Index, ds: seq<Decl>): Index
    decreases ds
  {
    if ds == [] then idx else IndexAll(IndexOne(idx, ds[0]), ds[1..])
  }

  /** A REMOVE always adds its key to the order, and leaves the key it deletes where it was. */
  function ApplyOne(idx: Index, d: Decl): Index {
    Index(if !d.RemoveDecl? && KeyOf(d) in idx.decls then idx.order else idx.order + [KeyOf(d)], Override(idx.decls, d))
  }

  function ApplyAll(idx: Index, ds: seq<Decl>): Index
    decreases ds
  {
    if ds == [] then idx else ApplyAll(ApplyOne(idx, ds[0]), ds[1..])
  }

  function Flatten(order: seq<Key>, decls: DeclMap): seq<Decl> {
    if order == [] then []
    else (if order[0] in decls then [decls[order[0]]] else []) + Flatten(order[1..], decls)
  }

  function MergeDecls(base: seq<Decl>, slice: seq<Decl>): seq<Decl> {
    var idx := ApplyAll(IndexAll(Index([], map[]), base), slice);
    Flatten(idx.order, idx.decls)
  }

  function MergePrograms(base: Program, slice: Program): Program {
    Program(MergeDecls(base.declarations, slice.declarations), base.statements + slice.statements)
  }

  // ---------------------------------------------------------------- the merged list is the override map

  ghost predicate WellKeyed(m: DeclMap) { forall k | k in m :: KeyOf(m[k]) == k }

  ghost predicate Covers(idx: Index) { WellKeyed(idx.decls) && forall k | k in idx.decls :: k in idx.order }

  lemma CombineKeepsKey(was: Option<Decl>, d: Decl)
    requires was.Some? ==> KeyOf(was.value) == KeyOf(d)
    ensures KeyOf(Combine(was, d)) == KeyOf(d)
  {
    hide UnionStrings, UnionMounts;
  }

  lemma ApplyOneCovers(idx: Index, d: Decl)
    requires Covers(idx)
    ensures Covers(ApplyOne(idx, d))
  {
    CombineKeepsKey(Lookup(idx.decls, KeyOf(d)), d);
    hide Combine, KeyOf;
  }

  lemma {:induction false} ApplyAllCovers(idx: Index, ds: seq<Decl>)
    requires Covers(idx)
    ensures var r := ApplyAll(idx, ds); Covers(r) && r.decls == OverrideAll(idx.decls, ds)
    decreases ds
  {
    hide Override, Covers;
    if ds != [] {
      ApplyOneCovers(idx, ds[0]);
      ApplyAllCovers(ApplyOne(idx, ds[0]), ds[1..]);
    }
  }

  lemma {:induction false} IndexSnoc(idx: Index, ds: seq<Decl>, d: Decl)
    ensures IndexAll(idx, ds + [d]) == IndexOne(IndexAll(idx, ds), d)
    decreases ds
  {
    hide IndexOne;
    if ds == [] {
      assert (ds + [d])[1..] == [];
    } else {
      assert (ds + [d])[1..] == ds[1..] + [d];
      IndexSnoc(IndexOne(idx, ds[0]), ds[1..], d);
    }
  }

  lemma {:induction false} IndexIsView(ds: seq<Decl>)
    ensures var r := IndexAll(Index([], map[]), ds); Covers(r) && r.decls == View(ds)
  {
    hide KeyOf;
    if ds != [] {
      var init, last := ds[..|ds| - 1], ds[|ds| - 1];
      IndexIsView(init);
      IndexSnoc(Index([], map[]), init, last);
      assert ds == init + [last];
    }
  }

  lemma {:induction false} FlattenHolds(order: seq<Key>, decls: DeclMap)
    requires WellKeyed(decls)
    ensures forall d | d in Flatten(order, decls) :: KeyOf(d) in decls && decls[KeyOf(d)] == d
    ensures forall k | k in order && k in decls :: decls[k] in Flatten(order, decls)
  {
    hide KeyOf;
    if order != [] { FlattenHolds(order[1..], decls); }
  }

  /** A list whose copies of a key are all the map's own, and that misses no key, stands for the map. */
  lemma {:induction false} CopiesView(ds: seq<Decl>, m: DeclMap)
    requires forall d | d in ds :: KeyOf(d) in m && m[KeyOf(d)] == d
    ensures forall k :: k in View(ds) <==> exists d | d in ds :: KeyOf(d) == k
    ensures forall k | k in View(ds) :: k in m && View(ds)[k] == m[k]
  {
    hide KeyOf;
    if ds != [] {
      var init, last := ds[..|ds| - 1], ds[|ds| - 1];
      CopiesView(init, m);
      assert ds == init + [last];
      forall k
        ensures k in View(ds) <==> exists d | d in ds :: KeyOf(d) == k
      {
        if k == KeyOf(last) {
          assert last in ds;
        } else if k in View(init) {
          var d :| d in init && KeyOf(d) == k;
          assert d in ds;
        }
      }
    }
  }

  /**
   * Merging is overriding: whatever the base and the slice, all copies of a key in the merged list are the
   * one declaration that the override map holds for it, and every key of that map is in the list.
   */
  lemma MergeIsOverride(base: seq<Decl>, slice: seq<Decl>)
    ensures var m, merged := OverrideAll(View(base), slice), MergeDecls(base, slice);
      && (forall d | d in merged :: KeyOf(d) in m && m[KeyOf(d)] == d)
      && (forall k | k in m :: m[k] in merged)
      && View(merged) == m
  {
    hide KeyOf, Override, View;
    var idx := IndexAll(Index([], map[]), base);
    IndexIsView(base);
    ApplyAllCovers(idx, slice);
    var r := ApplyAll(idx, slice);
    FlattenHolds(r.order, r.decls);
    var merged := Flatten(r.order, r.decls);
    CopiesView(merged, r.decls);
    forall k | k in r.decls
      ensures k in View(merged)
    {
      assert r.decls[k] in merged && KeyOf(r.decls[k]) == k;
    }
  }

  // ---------------------------------------------------------------- one key at a time

  /** What one declaration does to the entry of a key. */
  function Act(o: Option<Decl>, d: Decl, k: Key): Option<Decl> {
    if Removes(d, k) then None else if KeyOf(d) == k then Some(Combine(o, d)) else o
  }

  function ActAll(o: Option<Decl>, ds: seq<Decl>, k: Key): Option<Decl>
    decreases ds
  {
    if ds == [] then o else ActAll(Act(o, ds[0], k), ds[1..], k)
  }

  lemma OverrideActs(m: DeclMap, d: Decl, k: Key)
    ensures Lookup(Override(m, d), k) == Act(Lookup(m, k), d, k)
  {
    if d.RemoveDecl? { RemoveIsNoTarget(d, d); }
    hide KeyOf, Removed, UnionStrings, UnionMounts;
  }

  lemma {:induction false} OverrideAllActs(m: DeclMap, ds: seq<Decl>, k: Key)
    ensures Lookup(OverrideAll(m, ds), k) == ActAll(Lookup(m, k), ds, k)
    decreases ds
  {
    hide Override, Act, Lookup;
    if ds != [] {
      OverrideActs(m, ds[0], k);
      OverrideAllActs(Override(m, ds[0]), ds[1..], k);
    }
  }

  lemma {:induction false} ActAllConcat(o: Option<Decl>, a: seq<Decl>, b: seq<Decl>, k: Key)
    ensures ActAll(o, a + b, k) == ActAll(ActAll(o, a, k), b, k)
    decreases a
  {
    hide Act;
    if a == [] {
      assert a + b == b;
    } else {
      assert (a + b)[1..] == a[1..] + b;
      ActAllConcat(Act(o, a[0], k), a[1..], b, k);
    }
  }

  function ActEntry(o: Option<Decl>, x: Key, m: DeclMap, k: Key): Option<Decl> {
    if x in m then Act(o, m[x], k) else o
  }

  /** What a flattened index does to the entry of a key. */
  function RunOrder(o: Option<Decl>, order: seq<Key>, m: DeclMap, k: Key): Option<Decl> {
    if order == [] then o else ActEntry(RunOrder(o, order[..|order| - 1], m, k), order[|order| - 1], m, k)
  }

  lemma {:induction false} FlattenSnoc(order: seq<Key>, x: Key, m: DeclMap)
    ensures Flatten(order + [x], m) == Flatten(order, m) + if x in m then [m[x]] else []
  {
    var last := if x in m then [m[x]] else [];
    if order == [] {
      assert (order + [x])[1..] == [];
      assert last + [] == [] + last;
    } else {
      var first := if order[0] in m then [m[order[0]]] else [];
      assert (order + [x])[1..] == order[1..] + [x];
      FlattenSnoc(order[1..], x, m);
      ConcatAssociates(first, Flatten(order[1..], m), last);
    }
  }

  lemma {:induction false} RunIsFlattened(o: Option<Decl>, order: seq<Key>, m: DeclMap, k: Key)
    ensures RunOrder(o, order, m, k) == ActAll(o, Flatten(order, m), k)
  {
    hide Act;
    if order != [] {
      var init, last := order[..|order| - 1], order[|order| - 1];
      assert order == init + [last];
      RunIsFlattened(o, init, m, k);
      FlattenSnoc(init, last, m);
      ActAllConcat(o, Flatten(init, m), if last in m then [m[last]] else [], k);
    }
  }

  lemma RunSnoc(o: Option<Decl>, order: seq<Key>, x: Key, m: DeclMap, k: Key)
    ensures RunOrder(o, order + [x], m, k) == ActEntry(RunOrder(o, order, m, k), x, m, k)
  {
    assert (order + [x])[..|order|] == order;
  }

  /** Two maps that treat a key alike. */
  ghost predicate SameFor(order: seq<Key>, m: DeclMap, n: DeclMap, k: Key) {
    forall x, o | x in order :: ActEntry(o, x, m, k) == ActEntry(o, x, n, k)
  }

  lemma {:induction false} RunSame(o: Option<Decl>, order: seq<Key>, m: DeclMap, n: DeclMap, k: Key)
    requires SameFor(order, m, n, k)
    ensures RunOrder(o, order, m, k) == RunOrder(o, order, n, k)
  {
    hide ActEntry;
    if order != [] {
      assert order[|order| - 1] in order;
      RunSame(o, order[..|order| - 1], m, n, k);
    }
  }
}
