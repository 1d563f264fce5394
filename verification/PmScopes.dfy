/** What flattening makes of a program, said of the program itself: every definition once, under its mangled
    name, and every call going where the nearest enclosing definition of its name is. */
module PmScopes {
  import opened Options
  import opened PmFlatten

  // ----- definitions and call sites -----

  /** A definition with those around it, the outermost first; it is the last itself. */
  type Chain = seq<Fn>

  /** Every definition, outermost first, in the order they are written. */
  function Chains(f: Fn, above: Chain): seq<Chain>
    decreases f
  {
    [above + [f]] + ChainsAll(f.nested, |f.nested|, above + [f])
  }

  function ChainsAll(fs: seq<Fn>, n: nat, above: Chain): seq<Chain>
    requires n <= |fs|
    decreases fs, n
  {
    if n == 0 then [] else ChainsAll(fs, n - 1, above) + Chains(fs[n - 1], above)
  }

  /** A definition's mangled name: its namespace path, and the names down to it. */
  function NameOf(chain: Chain): string
    requires chain != []
    decreases |chain|
  {
    if |chain| == 1 then FullName(chain[0].ns, chain[0].name) else NameOf(chain[..|chain| - 1]) + "." + chain[|chain| - 1].name
  }

  datatype Site = Site(chain: Chain, name: string)

  function SitesOf(chain: Chain): seq<Site>
    requires chain != []
  {
    var calls := chain[|chain| - 1].calls;
    seq(|calls|, (k: nat) requires k < |calls| => Site(chain, calls[k]))
  }

  /** The calls of the first n definitions, as they are written. */
  function Sites(chains: seq<Chain>, n: nat): seq<Site>
    requires n <= |chains| && forall k | 0 <= k < |chains| :: chains[k] != []
  {
    if n == 0 then [] else Sites(chains, n - 1) + SitesOf(chains[n - 1])
  }

  /** The calls of the first n emitted functions. */
  function CallsIn(out: seq<Flat>, n: nat): seq<string>
    requires n <= |out|
  {
    if n == 0 then [] else CallsIn(out, n - 1) + out[n - 1].calls
  }

  // ----- what a name means -----

  ghost predicate Child(f: Fn, name: string)
  {
    exists k :: 0 <= k < |f.nested| && f.nested[k].name == name
  }

  /** Definition j of the chain is the innermost with a child of that name. */
  ghost predicate InnermostChild(chain: Chain, j: nat, name: string)
  {
    j < |chain| && Child(chain[j], name) && forall i | j < i < |chain| :: !Child(chain[i], name)
  }

  ghost predicate DefinedAt(fs: seq<Fn>, level: seq<string>, name: string)
  {
    exists k :: 0 <= k < |fs| && fs[k].ns == level && fs[k].name == name
  }

  /** The first import that binds a name at a level. */
  ghost predicate ImportedAt(imports: seq<Import>, level: seq<string>, name: string, i: nat)
  {
    && i < |imports| && imports[i].ns == level && imports[i].binding == name
    && forall k | 0 <= k < i :: !(imports[k].ns == level && imports[k].binding == name)
  }

  ghost predicate LevelHas(fs: seq<Fn>, imports: seq<Import>, level: seq<string>, name: string)
  {
    DefinedAt(fs, level, name) || exists i :: ImportedAt(imports, level, name, i)
  }

  /** The innermost namespace level that has the name. */
  ghost predicate InnermostLevel(fs: seq<Fn>, imports: seq<Import>, ns: seq<string>, k: nat, name: string)
  {
    k <= |ns| && LevelHas(fs, imports, ns[..k], name) && forall j: nat | k < j <= |ns| :: !LevelHas(fs, imports, ns[..j], name)
  }

  ghost predicate FullyNamed(fs: seq<Fn>, name: string)
  {
    exists k :: 0 <= k < |fs| && FullName(fs[k].ns, fs[k].name) == name
  }

  /** A qualified name is a full name of the program or leaves it; a bare one is the innermost enclosing
      definition's child, else what the innermost namespace level has, a definition before an import. */
  ghost predicate Means(fs: seq<Fn>, imports: seq<Import>, site: Site, r: Resolution)
    requires site.chain != []
  {
    var ns, name := site.chain[0].ns, site.name;
    if Qualified(name) then r == if FullyNamed(fs, name) then Local(name) else QualifiedExternal(name)
    else if exists j :: InnermostChild(site.chain, j, name) then
      exists j: nat :: InnermostChild(site.chain, j, name) && r == Local(NameOf(site.chain[..j + 1]) + "." + name)
    else if exists k :: InnermostLevel(fs, imports, ns, k, name) then
      exists k: nat :: InnermostLevel(fs, imports, ns, k, name)
        && if DefinedAt(fs, ns[..k], name) then r == Local(FullName(ns[..k], name))
           else r.Imported? && ImportedAt(imports, ns[..k], name, r.index)
    else r == Unresolved(name)
  }

  /** The name a call carries on: the definition's, the import's path, or the one written. */
  predicate Carries(imports: seq<Import>, site: Site, r: Resolution, call: string)
  {
    match r
    case Local(m) => call == m
    case Imported(i) => i < |imports| && call == imports[i].path
    case QualifiedExternal(_) => call == site.name
    case Unresolved(_) => call == site.name
  }

  /** An emitted function is a definition: its name, and exported exactly when it is outermost and says so. */
  predicate Emits(chain: Chain, f: Flat)
    requires chain != []
  {
    && f.name == NameOf(chain) && f.exported == (|chain| == 1 && chain[0].exported) && f.local == !f.exported
    && |f.calls| == |chain[|chain| - 1].calls|
  }

  // ----- the scopes of a chain -----

  /** The child scopes around a definition. */
  function ScopesOf(chain: Chain): seq<Scope>
  {
    seq(|chain|, (j: nat) requires j < |chain| => ChildMap(NameOf(chain[..j + 1]), chain[j].nested, |chain[j].nested|))
  }

  lemma {:induction false} ChildMapIs(full: string, nested: seq<Fn>, n: nat, name: string)
    requires n <= |nested|
    ensures name in ChildMap(full, nested, n) <==> exists k :: 0 <= k < n && nested[k].name == name
    ensures name in ChildMap(full, nested, n) ==> ChildMap(full, nested, n)[name] == full + "." + name
  {
    if n > 0 {
      ChildMapIs(full, nested, n - 1, name);
    }
  }

  lemma InnerScopes(above: Chain, f: Fn)
    ensures Inner(NameOf(above + [f]), f, ScopesOf(above)) == ScopesOf(above + [f])
  {
    hide ChildMap, NameOf;
    var chain := above + [f];
    assert chain[..|chain|] == chain;
    forall j: nat | j < |above| ensures ScopesOf(above)[j] == ScopesOf(chain)[j] {
      assert above[..j + 1] == chain[..j + 1];
    }
  }

  lemma ChildName(above: Chain, f: Fn)
    requires above != []
    ensures NameOf(above + [f]) == NameOf(above) + "." + f.name
  {
    var chain := above + [f];
    assert chain[..|chain| - 1] == above;
  }

  // ----- the tables -----

  lemma {:induction false} DefsAre(fs: seq<Fn>, n: nat, level: seq<string>, name: string)
    requires n <= |fs|
    ensures var d := DefsOf(fs, n);
            && (level in d && name in d[level] <==> exists k :: 0 <= k < n && fs[k].ns == level && fs[k].name == name)
            && (level in d && name in d[level] ==> d[level][name] == FullName(level, name))
  {
    hide FullName;
    if n > 0 {
      DefsAre(fs, n - 1, level, name);
    }
  }

  lemma {:induction false} BindingsAre(imports: seq<Import>, n: nat, level: seq<string>, name: string)
    requires n <= |imports|
    ensures var d := BindingsOf(imports, n);
            && (level in d && name in d[level] ==>
                  d[level][name].0 < n && ImportedAt(imports, level, name, d[level][name].0)
                  && d[level][name].1 == imports[d[level][name].0].path)
            && (!(level in d && name in d[level]) ==>
                  forall k | 0 <= k < n :: !(imports[k].ns == level && imports[k].binding == name))
  {
    if n > 0 {
      BindingsAre(imports, n - 1, level, name);
    }
  }

  lemma {:induction false} FullNamesAre(fs: seq<Fn>, n: nat, name: string)
    requires n <= |fs|
    ensures name in FullNames(fs, n) <==> exists k :: 0 <= k < n && FullName(fs[k].ns, fs[k].name) == name
  {
    hide FullName;
    if n > 0 {
      FullNamesAre(fs, n - 1, name);
    }
  }

  lemma LevelIs(fs: seq<Fn>, imports: seq<Import>, ns: seq<string>, k: nat, name: string)
    requires k <= |ns|
    ensures var t := TablesOf(fs, imports);
            && (DefAt(t, ns[..k], name).Some? <==> DefinedAt(fs, ns[..k], name))
            && (DefAt(t, ns[..k], name).Some? ==> DefAt(t, ns[..k], name).value == FullName(ns[..k], name))
            && (BindingAt(t, ns[..k], name).Some? ==> ImportedAt(imports, ns[..k], name, BindingAt(t, ns[..k], name).value.0))
            && (KnownAt(t, ns, k, name) <==> LevelHas(fs, imports, ns[..k], name))
  {
    hide DefsOf, BindingsOf, FullName;
    DefsAre(fs, |fs|, ns[..k], name);
    BindingsAre(imports, |imports|, ns[..k], name);
  }

  /** Resolution finds what a name means. */
  lemma ResolveMeans(fs: seq<Fn>, imports: seq<Import>, chain: Chain, name: string)
    requires chain != []
    ensures Means(fs, imports, Site(chain, name), Resolve(TablesOf(fs, imports), ScopesOf(chain), chain[0].ns, name))
  {
    hide FullName, Qualified, ChildMap, NameOf, DefsOf, BindingsOf, FullNames, InScopes, InLevels, DefAt, BindingAt, KnownAt,
      LevelHas, DefinedAt, ImportedAt, Child;
    var t, scopes, ns := TablesOf(fs, imports), ScopesOf(chain), chain[0].ns;
    if Qualified(name) {
      FullNamesAre(fs, |fs|, name);
    } else {
      BareCallInnermost(t, scopes, ns, name);
      forall j: nat | j < |chain| ensures name in scopes[j] <==> Child(chain[j], name) {
        ScopeIs(chain, j, name);
      }
      forall k: nat | k <= |ns| ensures KnownAt(t, ns, k, name) <==> LevelHas(fs, imports, ns[..k], name) {
        LevelIs(fs, imports, ns, k, name);
      }
      if j: nat :| InnermostChild(chain, j, name) {
        ScopeIs(chain, j, name);
        assert InnermostScope(scopes, j, name);
      } else if k: nat :| InnermostLevel(fs, imports, ns, k, name) {
        LevelIs(fs, imports, ns, k, name);
        NoChildren(chain, |chain|, name);
        assert InnermostUpTo(t, ns, |ns|, k, name);
        AtLevelIs(t, ns, k, name);
      } else {
        NoChildren(chain, |chain|, name);
        NoLevels(fs, imports, ns, |ns|, name);
        UnresolvedIs(t, scopes, ns, name);
      }
    }
  }

  lemma ScopeIs(chain: Chain, j: nat, name: string)
    requires j < |chain|
    ensures name in ScopesOf(chain)[j] <==> Child(chain[j], name)
    ensures name in ScopesOf(chain)[j] ==> ScopesOf(chain)[j][name] == NameOf(chain[..j + 1]) + "." + name
  {
    hide ChildMap, NameOf;
    ChildMapIs(NameOf(chain[..j + 1]), chain[j].nested, |chain[j].nested|, name);
  }

  lemma {:induction false} NoChildren(chain: Chain, n: nat, name: string)
    requires n <= |chain| && forall i | n <= i < |chain| :: !Child(chain[i], name)
    requires !exists j :: InnermostChild(chain, j, name)
    ensures forall i | 0 <= i < |chain| :: !Child(chain[i], name)
  {
    hide Child;
    if n > 0 {
      assert !InnermostChild(chain, n - 1, name);
      NoChildren(chain, n - 1, name);
    }
  }

  lemma {:induction false} NoLevels(fs: seq<Fn>, imports: seq<Import>, ns: seq<string>, n: nat, name: string)
    requires n <= |ns| && forall k | n < k <= |ns| :: !LevelHas(fs, imports, ns[..k], name)
    requires !exists k :: InnermostLevel(fs, imports, ns, k, name)
    ensures forall k: nat | k <= |ns| :: !LevelHas(fs, imports, ns[..k], name)
  {
    hide LevelHas;
    assert !InnermostLevel(fs, imports, ns, n, name);
    if n > 0 {
      NoLevels(fs, imports, ns, n - 1, name);
    }
  }

  lemma AtLevelIs(t: Tables, ns: seq<string>, k: nat, name: string)
    requires k <= |ns| && KnownAt(t, ns, k, name)
    ensures AtLevel(t, ns, k, name) == if DefAt(t, ns[..k], name).Some? then Local(DefAt(t, ns[..k], name).value)
                                       else Imported(BindingAt(t, ns[..k], name).value.0)
    ensures DefAt(t, ns[..k], name).None? ==> BindingAt(t, ns[..k], name).Some?
  {
    hide DefAt, BindingAt;
  }

  lemma {:induction false} LevelsKeepName(t: Tables, ns: seq<string>, k: nat, name: string)
    requires k <= |ns|
    ensures InLevels(t, ns, k, name).Unresolved? ==> InLevels(t, ns, k, name).name == name
  {
    hide DefAt, BindingAt;
    if k > 0 {
      LevelsKeepName(t, ns, k - 1, name);
    }
  }

  lemma UnresolvedIs(t: Tables, scopes: seq<Scope>, ns: seq<string>, name: string)
    requires Resolve(t, scopes, ns, name).Unresolved?
    ensures Resolve(t, scopes, ns, name) == Unresolved(name)
  {
    hide InScopes, InLevels, Qualified;
    LevelsKeepName(t, ns, |ns|, name);
  }

  /** The call goes by the name of what it means. */
  lemma RewrittenCarries(fs: seq<Fn>, imports: seq<Import>, site: Site, r: Resolution)
    requires site.chain != [] && Means(fs, imports, site, r)
    ensures Carries(imports, site, r, Rewritten(imports, r, site.name))
  {
    hide FullName, Qualified, NameOf, LevelHas, DefinedAt, Child, FullyNamed;
  }

  // ----- what is emitted -----

  /** The chains of one top-level definition: each begins with it. */
  ghost predicate From(chains: seq<Chain>, first: Fn)
  {
    forall k | 0 <= k < |chains| :: chains[k] != [] && chains[k][0] == first
  }

  function Last(chain: Chain): Fn
    requires chain != []
  {
    chain[|chain| - 1]
  }

  /** Emitted functions are these definitions, each call resolved in the scopes around it. */
  ghost predicate EmittedAs(chains: seq<Chain>, out: seq<Flat>, imports: seq<Import>, t: Tables)
  {
    |out| == |chains| && forall k | 0 <= k < |chains| :: chains[k] != [] && EmittedOne(chains[k], out[k], imports, t)
  }

  ghost predicate EmittedOne(chain: Chain, f: Flat, imports: seq<Import>, t: Tables)
    requires chain != []
  {
    Emits(chain, f) && f.calls == RewriteCalls(imports, t, ScopesOf(chain), chain[0].ns, Last(chain).calls)
  }

  lemma {:induction false} ChainsFrom(f: Fn, above: Chain)
    ensures From(Chains(f, above), (above + [f])[0])
    decreases f
  {
    ChainsAllFrom(f.nested, |f.nested|, above + [f]);
  }

  lemma {:induction false} ChainsAllFrom(fs: seq<Fn>, n: nat, above: Chain)
    requires n <= |fs| && above != []
    ensures From(ChainsAll(fs, n, above), above[0])
    decreases fs, n
  {
    hide Chains;
    if n > 0 {
      ChainsAllFrom(fs, n - 1, above);
      ChainsFrom(fs[n - 1], above);
    }
  }

  lemma {:induction false} TreeEmitted(f: Fn, above: Chain, imports: seq<Import>, t: Tables)
    ensures var chain := above + [f];
            EmittedAs(Chains(f, above), Emitted(f, NameOf(chain), above == [], chain[0].ns, ScopesOf(above), imports, t),
                      imports, t)
    decreases f
  {
    hide NameOf, ScopesOf, Rewritten, Resolve, Inner, Emits;
    var chain := above + [f];
    InnerScopes(above, f);
    TreesEmitted(f.nested, |f.nested|, chain, imports, t);
    HeadEmits(f, above, RewriteCalls(imports, t, ScopesOf(chain), chain[0].ns, f.calls));
  }

  lemma HeadEmits(f: Fn, above: Chain, calls: seq<string>)
    requires |calls| == |f.calls|
    ensures Emits(above + [f], Flat(NameOf(above + [f]), !(above == []) || !f.exported, f.exported && above == [], calls))
  {
    hide NameOf;
  }

  lemma {:induction false} TreesEmitted(fs: seq<Fn>, n: nat, above: Chain, imports: seq<Import>, t: Tables)
    requires n <= |fs| && above != []
    ensures EmittedAs(ChainsAll(fs, n, above), EmittedAll(fs, n, NameOf(above), above[0].ns, ScopesOf(above), imports, t),
                      imports, t)
    decreases fs, n
  {
    hide NameOf, ScopesOf, Chains, Emitted, EmittedOne;
    if n > 0 {
      TreesEmitted(fs, n - 1, above, imports, t);
      TreeEmitted(fs[n - 1], above, imports, t);
      ChildName(above, fs[n - 1]);
    }
  }

  /** Resolutions of these definitions' calls, in order. */
  function ResolvedIn(chains: seq<Chain>, n: nat, t: Tables): seq<Resolution>
    requires n <= |chains| && forall k | 0 <= k < |chains| :: chains[k] != []
  {
    if n == 0 then []
    else ResolvedIn(chains, n - 1, t) + ResolveCalls(t, ScopesOf(chains[n - 1]), chains[n - 1][0].ns, Last(chains[n - 1]).calls)
  }

  lemma {:induction false} ResolvedPrefix(a: seq<Chain>, b: seq<Chain>, n: nat, t: Tables)
    requires n <= |a| && (forall k | 0 <= k < |a| :: a[k] != []) && (forall k | 0 <= k < |b| :: b[k] != [])
    ensures ResolvedIn(a + b, n, t) == ResolvedIn(a, n, t)
  {
    hide ScopesOf, ResolveCalls;
    if n > 0 {
      ResolvedPrefix(a, b, n - 1, t);
    }
  }

  lemma {:induction false} ResolvedJoin(a: seq<Chain>, b: seq<Chain>, n: nat, t: Tables)
    requires n <= |b| && (forall k | 0 <= k < |a| :: a[k] != []) && (forall k | 0 <= k < |b| :: b[k] != [])
    ensures ResolvedIn(a + b, |a| + n, t) == ResolvedIn(a, |a|, t) + ResolvedIn(b, n, t)
  {
    hide ScopesOf, ResolveCalls;
    if n == 0 {
      ResolvedPrefix(a, b, |a|, t);
    } else {
      ResolvedJoin(a, b, n - 1, t);
      assert (a + b)[|a| + n - 1] == b[n - 1];
    }
  }

  lemma ResolvedOne(chain: Chain, t: Tables)
    requires chain != []
    ensures ResolvedIn([chain], 1, t) == ResolveCalls(t, ScopesOf(chain), chain[0].ns, Last(chain).calls)
  {
    hide ScopesOf, ResolveCalls;
    assert [chain][0] == chain;
    assert ResolvedIn([chain], 0, t) == [];
  }

  lemma {:induction false} TreeResolved(f: Fn, above: Chain, t: Tables)
    ensures var chain, chains := above + [f], Chains(f, above);
            && (forall k | 0 <= k < |chains| :: chains[k] != [])
            && Resolutions(f, NameOf(chain), chain[0].ns, ScopesOf(above), t) == ResolvedIn(chains, |chains|, t)
    decreases f
  {
    hide NameOf, ScopesOf, ResolveCalls, Inner, ResolvedIn;
    var chain := above + [f];
    InnerScopes(above, f);
    TreesResolved(f.nested, |f.nested|, chain, t);
    var below := ChainsAll(f.nested, |f.nested|, chain);
    ResolvedJoin([chain], below, |below|, t);
    ResolvedOne(chain, t);
  }

  lemma {:induction false} TreesResolved(fs: seq<Fn>, n: nat, above: Chain, t: Tables)
    requires n <= |fs| && above != []
    ensures var chains := ChainsAll(fs, n, above);
            && (forall k | 0 <= k < |chains| :: chains[k] != [])
            && ResolutionsAll(fs, n, NameOf(above), above[0].ns, ScopesOf(above), t) == ResolvedIn(chains, |chains|, t)
    decreases fs, n
  {
    hide NameOf, ScopesOf, Chains, Resolutions, ResolvedIn;
    if n > 0 {
      TreesResolved(fs, n - 1, above, t);
      TreeResolved(fs[n - 1], above, t);
      ChildName(above, fs[n - 1]);
      ResolvedJoin(ChainsAll(fs, n - 1, above), Chains(fs[n - 1], above), |Chains(fs[n - 1], above)|, t);
    } else {
      NoneResolved(t);
    }
  }

  lemma NoneResolved(t: Tables)
    ensures ResolvedIn([], 0, t) == []
  {
  }

  /** Every definition of a program. */
  function ProgramChains(fs: seq<Fn>, n: nat): (chains: seq<Chain>)
    requires n <= |fs|
  {
    if n == 0 then [] else ProgramChains(fs, n - 1) + Chains(fs[n - 1], [])
  }

  lemma {:induction false} ProgramEmitted(fs: seq<Fn>, n: nat, imports: seq<Import>, t: Tables)
    requires n <= |fs|
    ensures var chains := ProgramChains(fs, n);
            && EmittedAs(chains, Program(fs, n, imports, t), imports, t)
            && AllResolutions(fs, n, t) == ResolvedIn(chains, |chains|, t)
  {
    hide NameOf, Chains, Emitted, Resolutions, ResolvedIn, EmittedOne, FullName;
    if n > 0 {
      var f := fs[n - 1];
      ProgramEmitted(fs, n - 1, imports, t);
      TopName(f);
      assert [] + [f] == [f] && ScopesOf([]) == [];
      TreeEmitted(f, [], imports, t);
      TreeResolved(f, [], t);
      ResolvedJoin(ProgramChains(fs, n - 1), Chains(f, []), |Chains(f, [])|, t);
    } else {
      NoneResolved(t);
    }
  }

  lemma TopName(f: Fn)
    ensures NameOf([f]) == FullName(f.ns, f.name)
  {
    hide FullName;
  }

  // ----- the theorem -----

  /** One to one: every call site, what it means, and the name it carries on. */
  ghost predicate CallsFollow(fs: seq<Fn>, imports: seq<Import>, sites: seq<Site>, rs: seq<Resolution>, calls: seq<string>)
  {
    && |sites| == |rs| == |calls|
    && forall k | 0 <= k < |sites| ::
         sites[k].chain != [] && Means(fs, imports, sites[k], rs[k]) && Carries(imports, sites[k], rs[k], calls[k])
  }

  lemma {:induction false} FollowsEach(fs: seq<Fn>, imports: seq<Import>, chains: seq<Chain>, out: seq<Flat>, n: nat)
    requires EmittedAs(chains, out, imports, TablesOf(fs, imports)) && n <= |chains|
    ensures CallsFollow(fs, imports, Sites(chains, n), ResolvedIn(chains, n, TablesOf(fs, imports)), CallsIn(out, n))
  {
    hide Means, Carries, ScopesOf, Rewritten, Resolve, Emits, TablesOf;
    var t := TablesOf(fs, imports);
    if n > 0 {
      FollowsEach(fs, imports, chains, out, n - 1);
      var chain := chains[n - 1];
      var calls := Last(chain).calls;
      assert EmittedOne(chain, out[n - 1], imports, t);
      forall k | 0 <= k < |calls|
        ensures var site, r := Site(chain, calls[k]), Resolve(t, ScopesOf(chain), chain[0].ns, calls[k]);
                Means(fs, imports, site, r) && Carries(imports, site, r, Rewritten(imports, r, calls[k]))
      {
        ResolveMeans(fs, imports, chain, calls[k]);
        RewrittenCarries(fs, imports, Site(chain, calls[k]), Resolve(t, ScopesOf(chain), chain[0].ns, calls[k]));
      }
    }
  }

  /** Flattening emits every definition once, in order, under its mangled name; its calls, the program's call
      sites and the resolutions correspond one to one, each resolution being what the name means at its site
      and each call carrying that on. */
  lemma FlattenMeans(fs: seq<Fn>, imports: seq<Import>)
    ensures var t, chains := TablesOf(fs, imports), ProgramChains(fs, |fs|);
            var out, rs := Program(fs, |fs|, imports, t), AllResolutions(fs, |fs|, t);
            && |out| == |chains| && (forall k | 0 <= k < |chains| :: chains[k] != [] && Emits(chains[k], out[k]))
            && CallsFollow(fs, imports, Sites(chains, |chains|), rs, CallsIn(out, |out|))
  {
    hide Emits, ScopesOf, RewriteCalls, Means, Carries, Program, AllResolutions, Sites, CallsIn, ResolvedIn, ProgramChains,
      TablesOf, CallsFollow;
    var t, chains := TablesOf(fs, imports), ProgramChains(fs, |fs|);
    ProgramEmitted(fs, |fs|, imports, t);
    forall k | 0 <= k < |chains| ensures chains[k] != [] && Emits(chains[k], Program(fs, |fs|, imports, t)[k]) {
      assert EmittedOne(chains[k], Program(fs, |fs|, imports, t)[k], imports, t);
    }
    FollowsEach(fs, imports, chains, Program(fs, |fs|, imports, t), |chains|);
  }
}
