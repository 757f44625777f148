/** What a merge makes of every key: the unions, what replaces what, what a REMOVE hits, and the order of the result. */
module MergeLaws {
  import opened Text
  import opened Ast
  import opened Merge
  import opened MergeCompose

  // ---------------------------------------------------------------- the unions

  /** Positions of b, in order. */
  ghost predicate Increasing(pos: seq<nat>, n: nat) {
    (forall i :: 0 <= i < |pos| ==> pos[i] < n) && (forall i, j :: 0 <= i < j < |pos| ==> pos[i] < pos[j])
  }

  /** r is a and then exactly the members of b that are not in a, in their order. */
  ghost predicate IsUnion(a: seq<string>, b: seq<string>, r: seq<string>) {
    && a <= r && (forall x :: x in r <==> x in a || x in b)
    && exists pos: seq<nat> ::
         && Increasing(pos, |b|) && |r| == |a| + |pos|
         && (forall i :: 0 <= i < |pos| ==> r[|a| + i] == b[pos[i]])
         && (forall j :: 0 <= j < |b| ==> (b[j] !in a <==> j in pos))
  }

  lemma {:induction false} WithoutAt(b: seq<string>, a: seq<string>) returns (pos: seq<nat>)
    ensures Increasing(pos, |b|) && |Without(b, a)| == |pos|
    ensures forall i :: 0 <= i < |pos| ==> Without(b, a)[i] == b[pos[i]]
    ensures forall j :: 0 <= j < |b| ==> (b[j] !in a <==> j in pos)
  {
    pos := [];
    for n := 0 to |b|
      invariant Increasing(pos, n) && |Without(b[..n], a)| == |pos|
      invariant forall i :: 0 <= i < |pos| ==> Without(b[..n], a)[i] == b[pos[i]]
      invariant forall j :: 0 <= j < n ==> (b[j] !in a <==> j in pos)
    {
      assert b[..n + 1] == b[..n] + [b[n]];
      WithoutOneMore(b[..n], b[n], a);
      if b[n] !in a { pos := pos + [n]; }
    }
    assert b[..|b|] == b;
  }

  lemma {:induction false} WithoutOneMore(b: seq<string>, x: string, a: seq<string>)
    ensures Without(b + [x], a) == Without(b, a) + if x in a then [] else [x]
  {
    if b == [] {
      assert (b + [x])[1..] == [];
    } else {
      assert (b + [x])[1..] == b[1..] + [x];
      WithoutOneMore(b[1..], x, a);
    }
  }

  /** The union of two slug lists keeps the first and adds what is new in the second, in order. */
  lemma UnionIsExact(a: seq<string>, b: seq<string>)
    ensures IsUnion(a, b, UnionStrings(a, b))
  {
    var r, added := UnionStrings(a, b), Without(b, a);
    var pos := WithoutAt(b, a);
    hide Without;
    forall x
      ensures x in r <==> x in a || x in b
    {
      if x in r && x !in a {
        var i :| 0 <= i < |added| && added[i] == x;
        assert b[pos[i]] == x;
      }
      if x in b && x !in a {
        var j :| 0 <= j < |b| && b[j] == x;
        var i :| 0 <= i < |pos| && pos[i] == j;
        assert added[i] == x;
      }
    }
    assert forall i :: 0 <= i < |pos| ==> r[|a| + i] == b[pos[i]];
  }

  /** The mode that the last mount of a slug has. */
  function LastMode(ms: seq<Mount>, slug: string): Option<string> {
    if ms == [] then None
    else if ms[|ms| - 1].slug == slug then Some(ms[|ms| - 1].mode)
    else LastMode(ms[..|ms| - 1], slug)
  }

  function Slugs(ms: seq<Mount>): seq<string> { seq(|ms|, i requires 0 <= i < |ms| => ms[i].slug) }

  /** The slugs with each one of `more` added that is not there yet. */
  function Extended(slugs: seq<string>, more: seq<string>): seq<string>
    decreases more
  {
    if more == [] then slugs else Extended(if more[0] in slugs then slugs else slugs + [more[0]], more[1..])
  }

  lemma {:induction false} ModeIsAtLast(ms: seq<Mount>, slug: string)
    ensures LastMode(ms, slug) == if LastIndex(ms, slug) >= 0 then Some(ms[LastIndex(ms, slug)].mode) else None
  {
    if ms != [] && ms[|ms| - 1].slug != slug { ModeIsAtLast(ms[..|ms| - 1], slug); }
  }

  lemma PutMode(ms: seq<Mount>, m: Mount, slug: string)
    ensures LastMode(PutMount(ms, m), slug) == if slug == m.slug then Some(m.mode) else LastMode(ms, slug)
  {
    ModeIsAtLast(ms, slug);
    ModeIsAtLast(PutMount(ms, m), slug);
    PutMountAt(ms, m, slug);
    hide LastMode, LastIndex;
  }

  lemma {:induction false} ModeOfFront(m: Mount, ms: seq<Mount>, slug: string)
    ensures LastMode([m] + ms, slug) ==
      if LastMode(ms, slug).Some? then LastMode(ms, slug) else if m.slug == slug then Some(m.mode) else None
  {
    var all := [m] + ms;
    if ms == [] {
      assert all[..|all| - 1] == [];
    } else {
      assert all[..|all| - 1] == [m] + ms[..|ms| - 1] && all[|all| - 1] == ms[|ms| - 1];
      ModeOfFront(m, ms[..|ms| - 1], slug);
    }
  }

  /** In a union of mounts every slug has the mode that the second list gives it last, or else the one it had. */
  lemma {:induction false} UnionHasModes(a: seq<Mount>, b: seq<Mount>, slug: string)
    ensures LastMode(UnionMounts(a, b), slug) == if LastMode(b, slug).Some? then LastMode(b, slug) else LastMode(a, slug)
    decreases b
  {
    if b != [] {
      UnionHasModes(PutMount(a, b[0]), b[1..], slug);
      PutMode(a, b[0], slug);
      assert [b[0]] + b[1..] == b;
      ModeOfFront(b[0], b[1..], slug);
      hide PutMount, LastMode;
    }
  }

  lemma PutSlugs(ms: seq<Mount>, m: Mount)
    ensures Slugs(PutMount(ms, m)) == if m.slug in Slugs(ms) then Slugs(ms) else Slugs(ms) + [m.slug]
    ensures forall i :: 0 <= i < |ms| ==> PutMount(ms, m)[i] == if i == LastIndex(ms, m.slug) then m else ms[i]
  {
    if LastIndex(ms, m.slug) >= 0 { assert Slugs(ms)[LastIndex(ms, m.slug)] == m.slug; }
    hide LastIndex;
  }

  /** And its slugs are those of the first list where they were, with the new ones of the second behind them, once each. */
  lemma {:induction false} UnionHasSlugs(a: seq<Mount>, b: seq<Mount>)
    ensures Slugs(UnionMounts(a, b)) == Extended(Slugs(a), Slugs(b))
    decreases b
  {
    if b != [] {
      PutSlugs(a, b[0]);
      UnionHasSlugs(PutMount(a, b[0]), b[1..]);
      assert Slugs(b)[1..] == Slugs(b[1..]) && Slugs(b)[0] == b[0].slug;
      hide PutMount, Slugs;
    }
  }

  lemma MountsUnite(a: seq<Mount>, b: seq<Mount>)
    ensures Slugs(UnionMounts(a, b)) == Extended(Slugs(a), Slugs(b))
    ensures forall slug ::
      LastMode(UnionMounts(a, b), slug) == if LastMode(b, slug).Some? then LastMode(b, slug) else LastMode(a, slug)
  {
    UnionHasSlugs(a, b);
    forall slug
      ensures LastMode(UnionMounts(a, b), slug) == if LastMode(b, slug).Some? then LastMode(b, slug) else LastMode(a, slug)
    {
      UnionHasModes(a, b, slug);
    }
  }

  /** An earlier mount of a slug that is listed twice is never touched. */
  lemma {:induction false} UnionKeepsEarlier(a: seq<Mount>, b: seq<Mount>, i: nat)
    requires i < |a| && i != LastIndex(a, a[i].slug)
    ensures i < |UnionMounts(a, b)| && UnionMounts(a, b)[i] == a[i]
    decreases b
  {
    if b != [] {
      PutSlugs(a, b[0]);
      PutMountAt(a, b[0], a[i].slug);
      assert |PutMount(a, b[0])| >= |a|;
      hide LastIndex;
      UnionKeepsEarlier(PutMount(a, b[0]), b[1..], i);
    }
  }

  // ---------------------------------------------------------------- keys

  /** The kinds of declaration that share nothing with one another. */
  function KindOf(d: Decl): nat {
    match d
    case AgentDecl(_) => 0
    case ExecutableDecl(_) => 1
    case ConfigDecl(_, _, _, _) => 2
    case EnvDecl(_, _, _, _, _, _) => 3
    case RepoDecl(_) => 4
    case BranchDecl(_) => 5
    case GitCredentialDecl(_) => 6
    case McpDecl(_, _) => 7
    case SkillsDecl(_) => 8
    case SetupDecl(_, _) => 9
    case RemoveDecl(_, _) => 10
    case ModeDecl(_) => 11
    case ModeArgsDecl(_, _) => 12
    case UseEnvBundleDecl(_) => 13
    case UseConfigBundleDecl(_) => 14
    case PromptDecl(_) => 15
    case PromptPositionDecl(_) => 16
    case CapabilityDecl(_, _) => 17
    case KnowledgeDecl(_) => 18
  }

  /** What tells two declarations of a kind apart; most kinds occur once. */
  function NameOf(d: Decl): string {
    match d
    case ConfigDecl(name, _, _, _) => name
    case EnvDecl(name, _, _, _, _, _) => name
    case ModeArgsDecl(mode, _) => mode
    case UseEnvBundleDecl(name) => name
    case UseConfigBundleDecl(name) => name
    case CapabilityDecl(axis, _) => axis
    case _ => ""
  }

  const TYPES: seq<string> := [
    "AGENT", "EXECUTABLE", "CONFIG", "ENV", "REPO", "BRANCH", "GIT_CREDENTIAL", "MCP", "SKILLS", "SETUP", "REMOVE", "MODE",
    "MODE_ARGS", "USE_ENV_BUNDLE", "USE_CONFIG_BUNDLE", "PROMPT", "PROMPT_POSITION", "CAPABILITY", "KNOWLEDGE"
  ]

  lemma KeyType(d: Decl)
    ensures KeyOf(d).typ == TYPES[KindOf(d)] && (!d.RemoveDecl? ==> KeyOf(d).name == NameOf(d))
  {}

  lemma TypesDiffer(i: nat, j: nat)
    requires i < |TYPES| && j < |TYPES| && TYPES[i] == TYPES[j]
    ensures i == j
  {
    assert TYPES[i][0] == TYPES[j][0];
  }

  /** Two declarations meet under one key exactly when they are of one kind and one name; REMOVEs when they are the same. */
  lemma KeysMeetExactly(d: Decl, e: Decl)
    ensures KeyOf(d) == KeyOf(e) <==>
      if d.RemoveDecl? && e.RemoveDecl? then d == e else KindOf(d) == KindOf(e) && NameOf(d) == NameOf(e)
  {
    KeyType(d);
    KeyType(e);
    if KeyOf(d) == KeyOf(e) { TypesDiffer(KindOf(d), KindOf(e)); }
    if d.RemoveDecl? && e.RemoveDecl? && KeyOf(d) == KeyOf(e) { RemoveKeysDiffer(d, e); }
    hide KeyOf, TYPES;
  }

  /** A REMOVE deletes the ENV or the CONFIG of its name, or, without a name, the SKILLS; nothing else has a REMOVE. */
  predicate Hits(d: Decl, e: Decl) {
    d.RemoveDecl? &&
    match d.target
    case RemoveEnv => e.EnvDecl? && e.name == d.name
    case RemoveConfig => e.ConfigDecl? && e.name == d.name
    case RemoveSkills => e.SkillsDecl? && d.name == ""
    case _ => false
  }

  lemma RemoveHitsExactly(d: Decl, e: Decl)
    ensures Removes(d, KeyOf(e)) <==> Hits(d, e)
  {
    KeyType(e);
    if d.RemoveDecl? {
      TargetType(d.target);
      match d.target
      case RemoveEnv => if TYPES[KindOf(e)] == "ENV" { TypesDiffer(KindOf(e), 3); }
      case RemoveConfig => if TYPES[KindOf(e)] == "CONFIG" { TypesDiffer(KindOf(e), 2); }
      case RemoveSkills => if TYPES[KindOf(e)] == "SKILLS" { TypesDiffer(KindOf(e), 8); }
      case _ => NoSuchType(KindOf(e), TargetName(d.target));
    }
    hide KeyOf, TYPES;
  }

  lemma TargetType(t: RemoveTarget)
    ensures t == RemoveEnv ==> TargetName(t) == TYPES[3]
    ensures t == RemoveConfig ==> TargetName(t) == TYPES[2]
    ensures t == RemoveSkills ==> TargetName(t) == TYPES[8]
    ensures t in {NoTarget, RemoveArg, RemoveFile} ==> TargetName(t) in {"", "arg", "file"}
    ensures TYPES[2] == "CONFIG" && TYPES[3] == "ENV" && TYPES[8] == "SKILLS"
  {}

  lemma NoSuchType(i: nat, s: string)
    requires i < |TYPES| && s in {"", "arg", "file"}
    ensures TYPES[i] != s
  {
    assert 'A' <= TYPES[i][0] <= 'Z';
  }

  // ---------------------------------------------------------------- one declaration more

  /** What a declaration of a layer makes of what the merge holds for its key so far. */
  ghost predicate Overrides(was: Option<Decl>, d: Decl, now: Decl) {
    if was.Some? && was.value.SkillsDecl? && d.SkillsDecl? then now.SkillsDecl? && IsUnion(was.value.slugs, d.slugs, now.slugs)
    else if was.Some? && was.value.KnowledgeDecl? && d.KnowledgeDecl? then
      && now.KnowledgeDecl? && Slugs(now.mounts) == Extended(Slugs(was.value.mounts), Slugs(d.mounts))
      && forall slug :: LastMode(now.mounts, slug) ==
           if LastMode(d.mounts, slug).Some? then LastMode(d.mounts, slug) else LastMode(was.value.mounts, slug)
    else if was.Some? && was.value.ConfigDecl? && d.ConfigDecl? && d.typ == Untyped then
      now == ConfigDecl(was.value.name, was.value.typ, was.value.options, d.default)
    else now == d
  }

  lemma CombineOverrides(was: Option<Decl>, d: Decl)
    ensures Overrides(was, d, Combine(was, d))
  {
    if was.Some? && was.value.SkillsDecl? && d.SkillsDecl? { UnionIsExact(was.value.slugs, d.slugs); }
    if was.Some? && was.value.KnowledgeDecl? && d.KnowledgeDecl? {
      MountsUnite(was.value.mounts, d.mounts);
    }
    hide UnionStrings, UnionMounts, IsUnion, LastMode, Slugs, Extended;
  }

  /** What the merged list holds for the key of e, e being any declaration of it. */
  ghost function Merged(base: seq<Decl>, layer: seq<Decl>, e: Decl): Option<Decl> {
    Lookup(View(MergeDecls(base, layer)), KeyOf(e))
  }

  /** What a REMOVE hits is gone; a declaration of the key overrides what was there; everything else stays as it was. */
  lemma MergeOneMore(base: seq<Decl>, layer: seq<Decl>, d: Decl, e: Decl)
    ensures if Hits(d, e) then Merged(base, layer + [d], e) == None
      else if KeyOf(d) == KeyOf(e) then
        Merged(base, layer + [d], e).Some? && Overrides(Merged(base, layer, e), d, Merged(base, layer + [d], e).value)
      else Merged(base, layer + [d], e) == Merged(base, layer, e)
  {
    MergeIsOverride(base, layer);
    MergeIsOverride(base, layer + [d]);
    RemoveHitsExactly(d, e);
    hide KeyOf, View, MergeDecls, OverrideAll, Removed;
    OverrideAllActs(View(base), layer, KeyOf(e));
    OverrideAllActs(View(base), layer + [d], KeyOf(e));
    ActAllConcat(Lookup(View(base), KeyOf(e)), layer, [d], KeyOf(e));
    JustThis(Merged(base, layer, e), d, KeyOf(e));
    CombineOverrides(Merged(base, layer, e), d);
    hide Combine, Overrides, ActAll, Hits;
  }

  lemma JustThis(o: Option<Decl>, d: Decl, k: Key)
    ensures ActAll(o, [d], k) == Act(o, d, k)
  {
    hide Act;
    assert [d][1..] == [];
  }

  /** Merged with nothing, the last declaration of a key counts. */
  lemma MergeNothing(base: seq<Decl>, i: nat)
    requires i < |base| && forall j :: i < j < |base| ==> KeyOf(base[j]) != KeyOf(base[i])
    ensures Merged(base, [], base[i]) == Some(base[i])
  {
    MergeIsOverride(base, []);
    hide KeyOf, MergeDecls;
    ViewIsLast(base, i);
    hide View;
  }

  lemma {:induction false} ViewIsLast(ds: seq<Decl>, i: nat)
    requires i < |ds| && forall j :: i < j < |ds| ==> KeyOf(ds[j]) != KeyOf(ds[i])
    ensures Lookup(View(ds), KeyOf(ds[i])) == Some(ds[i])
  {
    hide KeyOf;
    if i < |ds| - 1 { ViewIsLast(ds[..|ds| - 1], i); }
  }

  lemma {:induction false} ViewOfAbsent(ds: seq<Decl>, k: Key)
    requires forall d | d in ds :: KeyOf(d) != k
    ensures Lookup(View(ds), k) == None
  {
    hide KeyOf;
    if ds != [] { ViewOfAbsent(ds[..|ds| - 1], k); }
  }

  /** And a key that is not declared is not there. */
  lemma MergeOfAbsent(base: seq<Decl>, e: Decl)
    requires forall d | d in base :: KeyOf(d) != KeyOf(e)
    ensures Merged(base, [], e) == None
  {
    MergeIsOverride(base, []);
    hide KeyOf, MergeDecls;
    ViewOfAbsent(base, KeyOf(e));
    hide View;
  }

  // ---------------------------------------------------------------- the skills of a stack

  /** The slugs of the last SKILLS of a list. */
  function LastSkills(ds: seq<Decl>): Option<seq<string>> {
    if ds == [] then None
    else if ds[|ds| - 1].SkillsDecl? then Some(ds[|ds| - 1].slugs)
    else LastSkills(ds[..|ds| - 1])
  }

  ghost predicate ListsSkill(ds: seq<Decl>, x: string) { exists d | d in ds :: d.SkillsDecl? && x in d.slugs }

  lemma {:induction false} BaseSkills(ds: seq<Decl>)
    ensures Lookup(View(ds), SKILLS_KEY) == if LastSkills(ds).Some? then Some(SkillsDecl(LastSkills(ds).value)) else None
  {
    if ds != [] {
      BaseSkills(ds[..|ds| - 1]);
      KeysMeetExactly(ds[|ds| - 1], SkillsDecl([]));
      hide KeyOf;
    }
  }

  /** Exactly the skills of the base's last SKILLS and of all those of the layer, the base's first. */
  ghost predicate HasSkills(base: seq<Decl>, layer: seq<Decl>, r: Option<Decl>) {
    && (r.Some? <==> LastSkills(base).Some? || exists d | d in layer :: d.SkillsDecl?)
    && (r.Some? ==> r.value.SkillsDecl?)
    && (r.Some? && LastSkills(base).Some? ==> LastSkills(base).value <= r.value.slugs)
    && (r.Some? ==> forall x ::
          x in r.value.slugs <==> (LastSkills(base).Some? && x in LastSkills(base).value) || ListsSkill(layer, x))
  }

  /** A layer that does not remove the SKILLS adds to them: the result has exactly the skills of the base and of the layer. */
  lemma {:induction false} SkillsAccumulate(base: seq<Decl>, layer: seq<Decl>)
    requires forall d | d in layer :: !Hits(d, SkillsDecl([]))
    ensures HasSkills(base, layer, Lookup(View(MergeDecls(base, layer)), SKILLS_KEY))
  {
    hide MergeDecls, View, LastSkills, Hits;
    if layer == [] {
      MergeIsOverride(base, []);
      BaseSkills(base);
    } else {
      hide HasSkills, Overrides;
      var init, last := layer[..|layer| - 1], layer[|layer| - 1];
      assert layer == init + [last];
      SkillsAccumulate(base, init);
      MergeOneMore(base, init, last, SkillsDecl([]));
      KeysMeetExactly(last, SkillsDecl([]));
      OneMoreSkills(base, init, last, Merged(base, init, SkillsDecl([])), Merged(base, layer, SkillsDecl([])));
    }
  }

  lemma OneMoreSkills(base: seq<Decl>, layer: seq<Decl>, d: Decl, was: Option<Decl>, now: Option<Decl>)
    requires HasSkills(base, layer, was)
    requires if d.SkillsDecl? then now.Some? && Overrides(was, d, now.value) else now == was
    ensures HasSkills(base, layer + [d], now)
  {
    hide LastSkills, Hits, Slugs, LastMode, Extended;
    OneMoreLists(layer, d);
  }

  lemma OneMoreLists(ds: seq<Decl>, d: Decl)
    ensures forall x :: ListsSkill(ds + [d], x) <==> ListsSkill(ds, x) || (d.SkillsDecl? && x in d.slugs)
  {
    forall x
      ensures ListsSkill(ds + [d], x) <==> ListsSkill(ds, x) || (d.SkillsDecl? && x in d.slugs)
    {
      if d.SkillsDecl? && x in d.slugs { assert d in ds + [d]; }
    }
  }

  // ---------------------------------------------------------------- the order of the result

  function KeysIn(ds: seq<Decl>): seq<Key> { seq(|ds|, i requires 0 <= i < |ds| => KeyOf(ds[i])) }

  /** Every key once, where it came first. */
  function FirstKeys(ds: seq<Decl>): seq<Key> {
    if ds == [] then []
    else
      var keys := FirstKeys(ds[..|ds| - 1]);
      if KeyOf(ds[|ds| - 1]) in keys then keys else keys + [KeyOf(ds[|ds| - 1])]
  }

  ghost predicate OrderIsWhole(idx: Index) {
    WellKeyed(idx.decls) && forall k :: k in idx.decls <==> k in idx.order
  }

  lemma FirstKeysSnoc(ds: seq<Decl>, d: Decl)
    ensures FirstKeys(ds + [d]) == if KeyOf(d) in FirstKeys(ds) then FirstKeys(ds) else FirstKeys(ds) + [KeyOf(d)]
    ensures FirstKeys([]) == []
  {
    assert (ds + [d])[..|ds|] == ds;
    hide KeyOf;
  }

  lemma IndexOneOrder(idx: Index, d: Decl)
    requires OrderIsWhole(idx)
    ensures OrderIsWhole(IndexOne(idx, d))
    ensures IndexOne(idx, d).order == if KeyOf(d) in idx.order then idx.order else idx.order + [KeyOf(d)]
  {
    hide KeyOf;
  }

  lemma {:induction false} IndexOrder(ds: seq<Decl>)
    ensures IndexAll(EMPTY, ds).order == FirstKeys(ds) && OrderIsWhole(IndexAll(EMPTY, ds))
  {
    hide KeyOf, IndexOne, FirstKeys;
    FirstKeysSnoc([], AgentDecl(""));
    if ds != [] {
      hide IndexAll, OrderIsWhole;
      var init, last := ds[..|ds| - 1], ds[|ds| - 1];
      IndexOrder(init);
      IndexSnoc(EMPTY, init, last);
      assert ds == init + [last];
      FirstKeysSnoc(init, last);
      IndexOneOrder(IndexAll(EMPTY, init), last);
    }
  }

  lemma OneMoreOrder(idx: Index, d: Decl)
    requires OrderIsWhole(idx) && !d.RemoveDecl?
    ensures OrderIsWhole(ApplyOne(idx, d))
    ensures ApplyOne(idx, d).order == if KeyOf(d) in idx.order then idx.order else idx.order + [KeyOf(d)]
  {
    CombineKeepsKey(Lookup(idx.decls, KeyOf(d)), d);
    hide Combine, KeyOf;
  }

  lemma {:induction false} LayerOrder(base: seq<Decl>, layer: seq<Decl>)
    requires forall d | d in layer :: !d.RemoveDecl?
    ensures var idx := ApplyAll(IndexAll(EMPTY, base), layer); idx.order == FirstKeys(base + layer) && OrderIsWhole(idx)
  {
    hide KeyOf, ApplyOne, IndexAll, OrderIsWhole, FirstKeys;
    if layer == [] {
      IndexOrder(base);
      assert base + layer == base;
    } else {
      hide ApplyAll;
      var init, last := layer[..|layer| - 1], layer[|layer| - 1];
      LayerOrder(base, init);
      assert layer == init + [last] && base + layer == base + init + [last];
      ApplySnoc(IndexAll(EMPTY, base), init, last);
      FirstKeysSnoc(base + init, last);
      OneMoreOrder(ApplyAll(IndexAll(EMPTY, base), init), last);
    }
  }

  lemma {:induction false} FlattenKeys(order: seq<Key>, m: DeclMap)
    requires WellKeyed(m) && forall k | k in order :: k in m
    ensures KeysIn(Flatten(order, m)) == order
  {
    hide KeyOf;
    if order != [] {
      FlattenKeys(order[1..], m);
      assert Flatten(order, m) == [m[order[0]]] + Flatten(order[1..], m);
      assert KeysIn(Flatten(order, m)) == [order[0]] + KeysIn(Flatten(order[1..], m));
    }
  }

  /** Without a REMOVE the merged list has every key once: the base's in their order, then what the layer adds in its order. */
  lemma MergeKeepsOrder(base: seq<Decl>, layer: seq<Decl>)
    requires forall d | d in layer :: !d.RemoveDecl?
    ensures KeysIn(MergeDecls(base, layer)) == FirstKeys(base + layer)
  {
    LayerOrder(base, layer);
    var idx := ApplyAll(IndexAll(EMPTY, base), layer);
    FlattenKeys(idx.order, idx.decls);
    hide KeyOf, ApplyAll, IndexAll, Flatten, FirstKeys;
  }

  /** A REMOVE goes to the end, and what it deletes leaves its places. */
  lemma RemoveGoesLast(base: seq<Decl>, layer: seq<Decl>, r: Decl)
    requires r.RemoveDecl?
    ensures var was, now := MergeDecls(base, layer), MergeDecls(base, layer + [r]);
      now == Kept(was, r) + [r]
  {
    var idx := ApplyAll(IndexAll(EMPTY, base), layer);
    ApplySnoc(IndexAll(EMPTY, base), layer, r);
    IndexIsView(base);
    ApplyAllCovers(IndexAll(EMPTY, base), layer);
    LayerStays(base, layer);
    assert KeyOf(r).typ == "REMOVE";
    hide ApplyAll, IndexAll, KeyOf, Removed;
    var m := (idx.decls - {Removed(r)})[KeyOf(r) := r];
    FlattenSnoc(idx.order, KeyOf(r), m);
    RemovingOrder(idx.order, idx.decls, r);
    hide Flatten, Kept;
  }

  /** The declarations that a REMOVE does not delete. */
  function Kept(ds: seq<Decl>, r: Decl): seq<Decl> {
    if ds == [] then [] else (if Removes(r, KeyOf(ds[0])) then [] else [ds[0]]) + Kept(ds[1..], r)
  }

  lemma {:induction false} RemovingOrder(order: seq<Key>, m: DeclMap, r: Decl)
    requires WellKeyed(m) && r.RemoveDecl? && (KeyOf(r) in order ==> KeyOf(r) in m)
    ensures Flatten(order, (m - {Removed(r)})[KeyOf(r) := r]) == Kept(Flatten(order, m), r)
  {
    RemoveIsNoTarget(r, r);
    if KeyOf(r) in m { SameRemoveKey(r, m[KeyOf(r)]); }
    hide KeyOf, Removed;
    if order != [] {
      RemovingOrder(order[1..], m, r);
      KeptConcat(if order[0] in m then [m[order[0]]] else [], Flatten(order[1..], m), r);
    }
  }

  lemma SameRemoveKey(r: Decl, e: Decl)
    requires r.RemoveDecl? && KeyOf(e) == KeyOf(r)
    ensures e == r
  {
    RemoveKeysDiffer(r, e);
  }

  lemma KeptConcat(a: seq<Decl>, b: seq<Decl>, r: Decl)
    requires |a| <= 1
    ensures Kept(a + b, r) == Kept(a, r) + Kept(b, r)
    ensures a != [] ==> Kept(a, r) == if Removes(r, KeyOf(a[0])) then [] else a
  {
    hide KeyOf, Removed;
    if a == [] {
      assert a + b == b;
    } else {
      assert (a + b)[1..] == b && a[1..] == [];
    }
  }

  /** A REMOVE that was merged is never deleted again. */
  ghost predicate RemovesStay(idx: Index) { forall x | x in idx.order && x.typ == "REMOVE" :: x in idx.decls }

  lemma OneMoreStays(idx: Index, d: Decl)
    requires RemovesStay(idx)
    ensures RemovesStay(ApplyOne(idx, d))
  {
    if d.RemoveDecl? { assert Removed(d).typ != "REMOVE"; }
    hide Combine, KeyOf, Removed;
  }

  lemma {:induction false} LayerStays(base: seq<Decl>, layer: seq<Decl>)
    ensures RemovesStay(ApplyAll(IndexAll(EMPTY, base), layer))
  {
    hide KeyOf, ApplyOne, IndexAll, FirstKeys;
    if layer == [] {
      IndexOrder(base);
    } else {
      hide RemovesStay, ApplyAll;
      var init, last := layer[..|layer| - 1], layer[|layer| - 1];
      LayerStays(base, init);
      assert layer == init + [last];
      ApplySnoc(IndexAll(EMPTY, base), init, last);
      OneMoreStays(ApplyAll(IndexAll(EMPTY, base), init), last);
    }
  }
}
