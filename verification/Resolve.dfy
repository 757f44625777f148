/** Config values: what every CONFIG ends up with after a layer is merged in and values are resolved. */
module Resolve {
  import opened Text
  import opened Ast
  import opened Merge

  type Values = map<string, Value>

  predicate Declares(d: Decl, name: string) { d.ConfigDecl? && d.name == name }

  function ConfigNames(ds: seq<Decl>): (names: set<string>)
    ensures forall n :: n in names <==> exists d | d in ds :: Declares(d, n)
  {
    set d | d in ds && d.ConfigDecl? :: d.name
  }

  function InferType(v: Value): ConfigType {
    match v
    case BoolValue(_) => Boolean
    case IntValue(_) => ConfigType.Number
    case FloatValue(_) => ConfigType.Number
    case _ => Str
  }

  /** The type that a CONFIG added for a value must have: a truth value is boolean, any number a number, all else a string. */
  predicate TypeFits(t: ConfigType, v: Value) {
    && (t == Boolean <==> v.BoolValue?) && (t == ConfigType.Number <==> v.IntValue? || v.FloatValue?)
    && (t == Str <==> v.StrValue? || v.NoValue?)
  }

  lemma InferFits(v: Value)
    ensures TypeFits(InferType(v), v)
  {}

  /** The value a CONFIG gets: system override, then what the layer left, then preference, then what is there. */
  function Resolved(d: Decl, layer: set<string>, prefs: Values, system: Values): Decl {
    if !d.ConfigDecl? then d
    else if d.name in system then d.(default := system[d.name])
    else if d.name in layer then d
    else if d.name in prefs then d.(default := prefs[d.name])
    else d
  }

  function ResolveAll(ds: seq<Decl>, layer: set<string>, prefs: Values, system: Values): (r: seq<Decl>)
    ensures |r| == |ds| && forall i :: 0 <= i < |ds| ==> r[i] == Resolved(ds[i], layer, prefs, system)
  {
    seq(|ds|, i requires 0 <= i < |ds| => Resolved(ds[i], layer, prefs, system))
  }

  /** The declarations that are added for system overrides nobody declares, in any order and each once. */
  ghost predicate AddsMissing(extra: seq<Decl>, ds: seq<Decl>, system: Values) {
    && (forall d | d in extra ::
          d.ConfigDecl? && d.name in system && d.name !in ConfigNames(ds)
          && TypeFits(d.typ, system[d.name]) && d.options == [] && d.default == system[d.name])
    && (forall n | n in system && n !in ConfigNames(ds) :: exists d | d in extra :: Declares(d, n))
    && (forall i, j :: 0 <= i < j < |extra| ==> extra[i] != extra[j])
  }

  ghost predicate IsResolved(ds: seq<Decl>, r: seq<Decl>, layer: set<string>, prefs: Values, system: Values) {
    |ds| <= |r| && r[..|ds|] == ResolveAll(ds, layer, prefs, system) && AddsMissing(r[|ds|..], ds, system)
  }

  class Resolver {
    var declarations: seq<Decl>

    constructor (ds: seq<Decl>)
      ensures declarations == ds
    {
      declarations := ds;
    }

    /** The declarations are changed in place; new ones go to the end. */
    method ResolveConfigValues(layer: set<string>, prefs: Values, system: Values)
      modifies this
      ensures IsResolved(old(declarations), declarations, layer, prefs, system)
    {
      hide InferType;
      ghost var was := declarations;
      var seen: set<string> := {};
      for i := 0 to |declarations|
        invariant |declarations| == |was|
        invariant seen == ConfigNames(was[..i])
        invariant forall k :: 0 <= k < i ==> declarations[k] == Resolved(was[k], layer, prefs, system)
        invariant forall k :: i <= k < |was| ==> declarations[k] == was[k]
      {
        NamesSnoc(was, i);
        var d := declarations[i];
        if !d.ConfigDecl? { continue; }
        seen := seen + {d.name};
        if d.name in system {
          declarations := declarations[i := d.(default := system[d.name])];
          continue;
        }
        if d.name in layer { continue; }
        if d.name in prefs { declarations := declarations[i := d.(default := prefs[d.name])]; }
      }
      assert was[..|was|] == was;
      assert declarations == ResolveAll(was, layer, prefs, system);
      AppendMissing(seen, system);
    }

    method AppendMissing(seen: set<string>, system: Values)
      modifies this
      ensures |old(declarations)| <= |declarations| && declarations[..|old(declarations)|] == old(declarations)
      ensures forall ds | ConfigNames(ds) == seen :: AddsMissing(declarations[|old(declarations)|..], ds, system)
    {
      hide InferType, ConfigNames, TypeFits;
      var todo := system.Keys;
      ghost var extra := [];
      ghost var was := declarations;
      assert was == was + [];
      while todo != {}
        invariant todo <= system.Keys && declarations == was + extra
        invariant forall d | d in extra ::
          (&& d.ConfigDecl? && d.name in system && d.name !in todo && d.name !in seen
           && TypeFits(d.typ, system[d.name]) && d.options == [] && d.default == system[d.name])
        invariant forall n | n in system && n !in todo && n !in seen :: exists d | d in extra :: Declares(d, n)
        invariant forall i, j :: 0 <= i < j < |extra| ==> extra[i] != extra[j]
        decreases todo
      {
        var name :| name in todo;
        todo := todo - {name};
        if name !in seen {
          var d := ConfigDecl(name, InferType(system[name]), [], system[name]);
          InferFits(system[name]);
          GrowsBy(extra, d, system, todo, seen);
          declarations := declarations + [d];
          extra := extra + [d];
        }
      }
    }
  }

  lemma GrowsBy(extra: seq<Decl>, d: Decl, system: Values, todo: set<string>, seen: set<string>)
    requires d.ConfigDecl?
    requires forall n | n in system && n != d.name && n !in todo && n !in seen :: exists e | e in extra :: Declares(e, n)
    ensures forall n | n in system && n !in todo && n !in seen :: exists e | e in extra + [d] :: Declares(e, n)
  {
    forall n | n in system && n !in todo && n !in seen
      ensures exists e | e in extra + [d] :: Declares(e, n)
    {
      if n == d.name {
        assert d in extra + [d];
      } else {
        var e :| e in extra && Declares(e, n);
        assert e in extra + [d];
      }
    }
  }

  lemma NamesSnoc(ds: seq<Decl>, i: nat)
    requires i < |ds|
    ensures ConfigNames(ds[..i + 1]) == ConfigNames(ds[..i]) + if ds[i].ConfigDecl? then {ds[i].name} else {}
  {
    assert ds[..i + 1] == ds[..i] + [ds[i]];
    NamesConcat(ds[..i], [ds[i]]);
  }

  lemma {:induction false} NamesConcat(a: seq<Decl>, b: seq<Decl>)
    ensures ConfigNames(a + b) == ConfigNames(a) + ConfigNames(b)
  {
    forall n
      ensures n in ConfigNames(a + b) <==> n in ConfigNames(a) || n in ConfigNames(b)
    {
      if n in ConfigNames(a) {
        var d :| d in a && Declares(d, n);
        assert d in a + b;
      }
      if n in ConfigNames(b) {
        var d :| d in b && Declares(d, n);
        assert d in a + b;
      }
    }
  }

  // ---------------------------------------------------------------- priority

  /** The last CONFIG of a name in a list. */
  function LastConfig(ds: seq<Decl>, name: string): (r: Option<Decl>)
    ensures r.Some? ==> r.value in ds && Declares(r.value, name)
    ensures r.None? ==> forall d | d in ds :: !Declares(d, name)
  {
    if ds == [] then None
    else if Declares(ds[|ds| - 1], name) then Some(ds[|ds| - 1])
    else LastConfig(ds[..|ds| - 1], name)
  }

  function ConfigKey(name: string): Key { Key("CONFIG", name) }

  lemma KeyOfConfig(d: Decl, name: string)
    ensures KeyOf(d) == ConfigKey(name) <==> Declares(d, name)
  {}

  lemma {:induction false} ViewOfConfig(ds: seq<Decl>, name: string)
    ensures Lookup(View(ds), ConfigKey(name)) == LastConfig(ds, name)
  {
    hide KeyOf;
    if ds != [] {
      ViewOfConfig(ds[..|ds| - 1], name);
      KeyOfConfig(ds[|ds| - 1], name);
    }
  }

  /** After a layer a CONFIG has the default of the layer's last declaration of it, if there is one. */
  lemma {:induction false} LayerDefault(o: Option<Decl>, ds: seq<Decl>, name: string)
    requires o.Some? ==> Declares(o.value, name)
    ensures var r, last := ActAll(o, ds, ConfigKey(name)), LastConfig(ds, name);
      r.Some? ==>
        && Declares(r.value, name)
        && (last.Some? ==> r.value.default == last.value.default)
        && (last.None? ==> o.Some? && r.value.default == o.value.default)
  {
    if ds != [] {
      var init, last := ds[..|ds| - 1], ds[|ds| - 1];
      assert ds == init + [last];
      LayerDefault(o, init, name);
      ActAllConcat(o, init, [last], ConfigKey(name));
      KeyOfConfig(last, name);
      ActOnce(ActAll(o, init, ConfigKey(name)), last, ConfigKey(name));
      hide KeyOf, UnionStrings, UnionMounts, Removed;
    }
  }

  lemma ActOnce(o: Option<Decl>, d: Decl, k: Key)
    ensures ActAll(o, [d], k) == Act(o, d, k)
  {
    hide Act;
    assert [d][1..] == [];
  }

  /** A layer that gives a CONFIG no type and does not remove it leaves type and options alone. */
  lemma {:induction false} LayerType(o: Option<Decl>, ds: seq<Decl>, name: string)
    requires o.Some? && Declares(o.value, name)
    requires forall d | d in ds :: (Declares(d, name) ==> d.typ == Untyped) && !Removes(d, ConfigKey(name))
    ensures var r := ActAll(o, ds, ConfigKey(name));
      r.Some? && Declares(r.value, name) && r.value.typ == o.value.typ && r.value.options == o.value.options
  {
    if ds != [] {
      var init, last := ds[..|ds| - 1], ds[|ds| - 1];
      assert ds == init + [last];
      LayerType(o, init, name);
      ActAllConcat(o, init, [last], ConfigKey(name));
      KeyOfConfig(last, name);
      ActOnce(ActAll(o, init, ConfigKey(name)), last, ConfigKey(name));
      hide KeyOf, UnionStrings, UnionMounts, Removed;
    }
  }

  /** The first that is defined: system override, layer value, preference, base default. */
  function FirstDefined(name: string, base: seq<Decl>, layer: seq<Decl>, prefs: Values, system: Values): Option<Value> {
    if name in system then Some(system[name])
    else if LastConfig(layer, name).Some? then Some(LastConfig(layer, name).value.default)
    else if name in prefs then Some(prefs[name])
    else if LastConfig(base, name).Some? then Some(LastConfig(base, name).value.default)
    else None
  }

  lemma MergedConfig(base: seq<Decl>, layer: seq<Decl>, d: Decl, name: string)
    requires d in MergeDecls(base, layer) && Declares(d, name)
    ensures ActAll(LastConfig(base, name), layer, ConfigKey(name)) == Some(d)
  {
    hide MergeDecls, View, OverrideAll, ActAll, LastConfig;
    MergeIsOverride(base, layer);
    KeyOfConfig(d, name);
    OverrideAllActs(View(base), layer, ConfigKey(name));
    ViewOfConfig(base, name);
  }

  lemma NamesAreLast(ds: seq<Decl>, name: string)
    ensures name in ConfigNames(ds) <==> LastConfig(ds, name).Some?
  {}

  /**
   * Priority: merged and resolved with the layer's own names, every CONFIG has the first value defined among
   * system override, layer, preference and base default, and every system override is declared.
   */
  lemma PriorityHolds(base: seq<Decl>, layer: seq<Decl>, prefs: Values, system: Values, r: seq<Decl>)
    requires IsResolved(MergeDecls(base, layer), r, ConfigNames(layer), prefs, system)
    ensures forall d | d in r && d.ConfigDecl? :: FirstDefined(d.name, base, layer, prefs, system) == Some(d.default)
    ensures forall n | n in system :: exists d | d in r :: Declares(d, n)
    ensures var merged := MergeDecls(base, layer);
      && |merged| <= |r| && (forall i :: 0 <= i < |merged| ==> SameButDefault(merged[i], r[i]))
      && (forall i :: |merged| <= i < |r| ==>
            && r[i].ConfigDecl? && r[i].name in system && (forall d | d in merged :: !Declares(d, r[i].name))
            && TypeFits(r[i].typ, system[r[i].name]) && r[i].options == [])
      && (forall i, j :: |merged| <= i < j < |r| ==> r[i].name != r[j].name)
  {
    var merged := MergeDecls(base, layer);
    hide MergeDecls, ConfigNames, LastConfig, TypeFits;
    forall i | 0 <= i < |r| && r[i].ConfigDecl?
      ensures FirstDefined(r[i].name, base, layer, prefs, system) == Some(r[i].default)
    {
      if i < |merged| {
        MergedDefault(base, layer, prefs, system, merged[i]);
        assert r[i] == r[..|merged|][i];
      } else {
        assert r[i] == r[|merged|..][i - |merged|];
        assert r[i] in r[|merged|..];
      }
    }
    ResolvedShape(merged, r, ConfigNames(layer), prefs, system);
    forall n | n in system
      ensures exists d | d in r :: Declares(d, n)
    {
      OverrideIsDeclared(merged, r, ConfigNames(layer), prefs, system, n);
    }
  }

  /** A declaration that is not a CONFIG is kept, and a CONFIG but for its default. */
  predicate SameButDefault(d: Decl, e: Decl) {
    if d.ConfigDecl? then e.ConfigDecl? && e.name == d.name && e.typ == d.typ && e.options == d.options else e == d
  }

  lemma ResolvedShape(ds: seq<Decl>, r: seq<Decl>, layer: set<string>, prefs: Values, system: Values)
    requires IsResolved(ds, r, layer, prefs, system)
    ensures |ds| <= |r| && forall i :: 0 <= i < |ds| ==> SameButDefault(ds[i], r[i])
    ensures forall i :: |ds| <= i < |r| ==>
      && r[i].ConfigDecl? && r[i].name in system && (forall d | d in ds :: !Declares(d, r[i].name))
      && TypeFits(r[i].typ, system[r[i].name]) && r[i].options == []
    ensures forall i, j :: |ds| <= i < j < |r| ==> r[i].name != r[j].name
  {
    forall i | 0 <= i < |ds|
      ensures SameButDefault(ds[i], r[i])
    {
      assert r[i] == r[..|ds|][i];
    }
    var extra := r[|ds|..];
    forall i | |ds| <= i < |r|
      ensures r[i] == extra[i - |ds|] && r[i] in extra
    {}
    hide TypeFits;
    forall i, j | |ds| <= i < j < |r|
      ensures r[i].name != r[j].name
    {
      assert extra[i - |ds|] != extra[j - |ds|];
      SameTypeFits(r[i], r[j], system);
    }
  }

  lemma SameTypeFits(d: Decl, e: Decl, system: Values)
    requires d.ConfigDecl? && e.ConfigDecl? && d != e && d.options == e.options && d.name in system && e.name in system
    requires TypeFits(d.typ, system[d.name]) && TypeFits(e.typ, system[e.name])
    requires d.default == system[d.name] && e.default == system[e.name]
    ensures d.name != e.name
  {}

  lemma MergedDefault(base: seq<Decl>, layer: seq<Decl>, prefs: Values, system: Values, d: Decl)
    requires d in MergeDecls(base, layer)
    ensures var e := Resolved(d, ConfigNames(layer), prefs, system);
      e.ConfigDecl? ==> FirstDefined(e.name, base, layer, prefs, system) == Some(e.default)
  {
    hide MergeDecls, ConfigNames, LastConfig, ActAll;
    if d.ConfigDecl? {
      MergedConfig(base, layer, d, d.name);
      LayerDefault(LastConfig(base, d.name), layer, d.name);
      NamesAreLast(layer, d.name);
    }
  }

  lemma OverrideIsDeclared(ds: seq<Decl>, r: seq<Decl>, layer: set<string>, prefs: Values, system: Values, n: string)
    requires IsResolved(ds, r, layer, prefs, system) && n in system
    ensures exists d | d in r :: Declares(d, n)
  {
    if n in ConfigNames(ds) {
      KeptIsDeclared(ds, r, layer, prefs, system, n);
    } else {
      hide ConfigNames, TypeFits;
      var d :| d in r[|ds|..] && Declares(d, n);
      assert d in r;
    }
  }

  lemma KeptIsDeclared(ds: seq<Decl>, r: seq<Decl>, layer: set<string>, prefs: Values, system: Values, n: string)
    requires |ds| <= |r| && r[..|ds|] == ResolveAll(ds, layer, prefs, system) && n in ConfigNames(ds)
    ensures exists d | d in r :: Declares(d, n)
  {
    var i :| 0 <= i < |ds| && Declares(ds[i], n);
    hide ConfigNames, TypeFits;
    assert r[..|ds|][i] == r[i] && r[i] in r;
    assert Declares(r[i], n);
  }

  /** A base CONFIG that the layer neither types nor removes is still there after the merge, with its type. */
  lemma ConfigStays(base: seq<Decl>, layer: seq<Decl>, name: string)
    requires LastConfig(base, name).Some?
    requires forall e | e in layer :: (Declares(e, name) ==> e.typ == Untyped) && !Removes(e, ConfigKey(name))
    ensures name in ConfigNames(MergeDecls(base, layer))
    ensures forall d | d in MergeDecls(base, layer) && Declares(d, name) ::
      d.typ == LastConfig(base, name).value.typ && d.options == LastConfig(base, name).value.options
  {
    hide MergeDecls, LastConfig, ActAll, View, OverrideAll;
    MergeIsOverride(base, layer);
    LayerType(LastConfig(base, name), layer, name);
    OverrideAllActs(View(base), layer, ConfigKey(name));
    ViewOfConfig(base, name);
    forall d | d in MergeDecls(base, layer) && Declares(d, name)
      ensures ActAll(LastConfig(base, name), layer, ConfigKey(name)) == Some(d)
    {
      MergedConfig(base, layer, d, name);
    }
  }

  /** A layer that neither types nor removes a CONFIG of the base leaves its type and options, resolved or not. */
  lemma TypeIsKept(base: seq<Decl>, layer: seq<Decl>, prefs: Values, system: Values, r: seq<Decl>, d: Decl)
    requires IsResolved(MergeDecls(base, layer), r, ConfigNames(layer), prefs, system)
    requires d in r && d.ConfigDecl? && LastConfig(base, d.name).Some?
    requires forall e | e in layer :: (Declares(e, d.name) ==> e.typ == Untyped) && !Removes(e, ConfigKey(d.name))
    ensures d.typ == LastConfig(base, d.name).value.typ && d.options == LastConfig(base, d.name).value.options
  {
    hide MergeDecls, LastConfig, ConfigNames, Removes, TypeFits;
    ConfigStays(base, layer, d.name);
    var merged := MergeDecls(base, layer);
    ResolvedFrom(merged, r, ConfigNames(layer), prefs, system, d);
  }

  lemma ResolvedFrom(ds: seq<Decl>, r: seq<Decl>, layer: set<string>, prefs: Values, system: Values, d: Decl)
    requires IsResolved(ds, r, layer, prefs, system) && d in r && d.ConfigDecl? && d.name in ConfigNames(ds)
    ensures exists e | e in ds :: Declares(e, d.name) && d == Resolved(e, layer, prefs, system)
  {
    hide ConfigNames, TypeFits;
    assert d !in r[|ds|..];
    assert r == r[..|ds|] + r[|ds|..];
    var i :| 0 <= i < |ds| && r[..|ds|][i] == d;
    assert ds[i] in ds && Declares(ds[i], d.name);
  }
}
