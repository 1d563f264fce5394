/** Flattening a PM-1 program: mangled names, calls resolved innermost scope outward, and the
    functions nobody can reach. */
module PmFlatten {
  import opened Options
  import opened Graphs

  /** A definition with the calls of its own body, in order, and its nested definitions. */
  datatype Fn = Fn(name: string, ns: seq<string>, exported: bool, calls: seq<string>, nested: seq<Fn>)

  datatype Import = Import(ns: seq<string>, binding: string, path: string)

  datatype Flat = Flat(name: string, local: bool, exported: bool, calls: seq<string>)

  /** What a call site means. */
  datatype Resolution =
    | Local(mangled: string)
    | Imported(index: nat)
    | QualifiedExternal(path: string)
    | Unresolved(name: string)

  // ----- names -----

  function Join(parts: seq<string>, n: nat): string
    requires 0 < n <= |parts|
  {
    if n == 1 then parts[0] else Join(parts, n - 1) + "::" + parts[n - 1]
  }

  function FullName(ns: seq<string>, name: string): string
  {
    Join(ns + [name], |ns| + 1)
  }

  predicate Qualified(name: string)
  {
    exists i :: 0 <= i < |name| - 1 && IsColons(name, i)
  }

  predicate IsColons(name: string, i: nat)
    requires i < |name| - 1
  {
    name[i] == ':' && name[i + 1] == ':'
  }

  // ----- scopes -----

  type Scope = map<string, string>

  /** Definitions and import bindings by namespace path, and the full names a qualified call can hit. */
  datatype Tables = Tables(
    defs: map<seq<string>, Scope>, bindings: map<seq<string>, map<string, (nat, string)>>, full: set<string>)

  /** A function's own children as its body sees them. */
  function ChildMap(full: string, nested: seq<Fn>, n: nat): Scope
    requires n <= |nested|
  {
    if n == 0 then map[]
    else ChildMap(full, nested, n - 1)[nested[n - 1].name := full + "." + nested[n - 1].name]
  }

  /** The innermost of the first n nested scopes that knows the name. */
  function InScopes(scopes: seq<Scope>, n: nat, name: string): Option<string>
    requires n <= |scopes|
  {
    if n == 0 then None
    else if name in scopes[n - 1] then Some(scopes[n - 1][name])
    else InScopes(scopes, n - 1, name)
  }

  function DefAt(t: Tables, prefix: seq<string>, name: string): Option<string>
  {
    if prefix in t.defs && name in t.defs[prefix] then Some(t.defs[prefix][name]) else None
  }

  function BindingAt(t: Tables, prefix: seq<string>, name: string): Option<(nat, string)>
  {
    if prefix in t.bindings && name in t.bindings[prefix] then Some(t.bindings[prefix][name]) else None
  }

  /** From the namespace level of length k outward: a level's definitions, then its imports. */
  function InLevels(t: Tables, ns: seq<string>, k: nat, name: string): Resolution
    requires k <= |ns|
  {
    if DefAt(t, ns[..k], name).Some? then Local(DefAt(t, ns[..k], name).value)
    else if BindingAt(t, ns[..k], name).Some? then Imported(BindingAt(t, ns[..k], name).value.0)
    else if k == 0 then Unresolved(name)
    else InLevels(t, ns, k - 1, name)
  }

  function Resolve(t: Tables, scopes: seq<Scope>, ns: seq<string>, name: string): Resolution
  {
    if Qualified(name) then if name in t.full then Local(name) else QualifiedExternal(name)
    else
      match InScopes(scopes, |scopes|, name)
      case Some(m) => Local(m)
      case None => InLevels(t, ns, |ns|, name)
  }

  /** The name a resolved call carries on. */
  function Rewritten(imports: seq<Import>, r: Resolution, name: string): string
  {
    match r
    case Local(m) => m
    case Imported(i) => if i < |imports| then imports[i].path else name
    case _ => name
  }

  function ResolveCalls(t: Tables, scopes: seq<Scope>, ns: seq<string>, calls: seq<string>): seq<Resolution>
  {
    seq(|calls|, (k: nat) requires k < |calls| => Resolve(t, scopes, ns, calls[k]))
  }

  function RewriteCalls(imports: seq<Import>, t: Tables, scopes: seq<Scope>, ns: seq<string>, calls: seq<string>): seq<string>
  {
    seq(|calls|, (k: nat) requires k < |calls| => Rewritten(imports, Resolve(t, scopes, ns, calls[k]), calls[k]))
  }

  // ----- flattening -----

  function Inner(full: string, f: Fn, scopes: seq<Scope>): seq<Scope>
  {
    scopes + [ChildMap(full, f.nested, |f.nested|)]
  }

  /** A definition and everything nested in it, outermost first. */
  function Emitted(f: Fn, full: string, top: bool, ns: seq<string>, scopes: seq<Scope>, imports: seq<Import>,
                   t: Tables): seq<Flat>
    decreases f
  {
    var inner := Inner(full, f, scopes);
    [Flat(full, !top || !f.exported, f.exported && top, RewriteCalls(imports, t, inner, ns, f.calls))]
    + EmittedAll(f.nested, |f.nested|, full, ns, inner, imports, t)
  }

  function EmittedAll(fs: seq<Fn>, n: nat, full: string, ns: seq<string>, scopes: seq<Scope>, imports: seq<Import>,
                      t: Tables): seq<Flat>
    requires n <= |fs|
    decreases fs, n
  {
    if n == 0 then []
    else EmittedAll(fs, n - 1, full, ns, scopes, imports, t)
         + Emitted(fs[n - 1], full + "." + fs[n - 1].name, false, ns, scopes, imports, t)
  }

  /** What the calls of a definition and of everything nested in it mean, in order. */
  function Resolutions(f: Fn, full: string, ns: seq<string>, scopes: seq<Scope>, t: Tables): seq<Resolution>
    decreases f
  {
    var inner := Inner(full, f, scopes);
    ResolveCalls(t, inner, ns, f.calls) + ResolutionsAll(f.nested, |f.nested|, full, ns, inner, t)
  }

  function ResolutionsAll(fs: seq<Fn>, n: nat, full: string, ns: seq<string>, scopes: seq<Scope>, t: Tables): seq<Resolution>
    requires n <= |fs|
    decreases fs, n
  {
    if n == 0 then []
    else ResolutionsAll(fs, n - 1, full, ns, scopes, t)
         + Resolutions(fs[n - 1], full + "." + fs[n - 1].name, ns, scopes, t)
  }

  function Program(fs: seq<Fn>, n: nat, imports: seq<Import>, t: Tables): seq<Flat>
    requires n <= |fs|
  {
    if n == 0 then []
    else Program(fs, n - 1, imports, t)
         + Emitted(fs[n - 1], FullName(fs[n - 1].ns, fs[n - 1].name), true, fs[n - 1].ns, [], imports, t)
  }

  function AllResolutions(fs: seq<Fn>, n: nat, t: Tables): seq<Resolution>
    requires n <= |fs|
  {
    if n == 0 then []
    else AllResolutions(fs, n - 1, t)
         + Resolutions(fs[n - 1], FullName(fs[n - 1].ns, fs[n - 1].name), fs[n - 1].ns, [], t)
  }

  // ----- the tables -----

  function DefsOf(fs: seq<Fn>, n: nat): map<seq<string>, Scope>
    requires n <= |fs|
  {
    if n == 0 then map[]
    else
      var before := DefsOf(fs, n - 1);
      var f := fs[n - 1];
      before[f.ns := (if f.ns in before then before[f.ns] else map[])[f.name := FullName(f.ns, f.name)]]
  }

  /** An exactly repeated import keeps its first slot. */
  function BindingsOf(imports: seq<Import>, n: nat): map<seq<string>, map<string, (nat, string)>>
    requires n <= |imports|
  {
    if n == 0 then map[]
    else
      var before := BindingsOf(imports, n - 1);
      var i := imports[n - 1];
      var level := if i.ns in before then before[i.ns] else map[];
      before[i.ns := if i.binding in level then level else level[i.binding := (n - 1, i.path)]]
  }

  function FullNames(fs: seq<Fn>, n: nat): set<string>
    requires n <= |fs|
  {
    if n == 0 then {} else FullNames(fs, n - 1) + {FullName(fs[n - 1].ns, fs[n - 1].name)}
  }

  function TablesOf(fs: seq<Fn>, imports: seq<Import>): Tables
  {
    Tables(DefsOf(fs, |fs|), BindingsOf(imports, |imports|), FullNames(fs, |fs|))
  }

  // ----- mangled names are apart -----

  predicate Plain(name: string)
  {
    forall k | 0 <= k < |name| :: name[k] != ':' && name[k] != '.'
  }

  predicate Identifiers(names: seq<string>)
  {
    forall k | 0 <= k < |names| :: Plain(names[k])
  }

  /** Two strings split at their last separator. */
  lemma LastDot(x: string, p: string, y: string, q: string)
    requires Plain(p) && Plain(q) && x + "." + p == y + "." + q
    ensures x == y && p == q
  {
    var s := x + "." + p;
    assert s[|x|] == '.' && s[|y|] == '.';
    assert forall k | 0 <= k < |p| :: s[|x| + 1 + k] == p[k];
    assert forall k | 0 <= k < |q| :: s[|y| + 1 + k] == q[k];
    DotsMeet(s, |x|, |y|);
    assert s[..|x|] == x && s[..|y|] == y && s[|x| + 1..] == p && s[|y| + 1..] == q;
  }

  lemma DotsMeet(s: string, i: nat, k: nat)
    requires i < |s| && k < |s| && s[i] == '.' && s[k] == '.'
    requires forall j | i < j < |s| :: s[j] != '.'
    requires forall j | k < j < |s| :: s[j] != '.'
    ensures i == k
  {
  }

  lemma LastColons(x: string, p: string, y: string, q: string)
    requires Plain(p) && Plain(q) && x + "::" + p == y + "::" + q
    ensures x == y && p == q
  {
    var s := x + "::" + p;
    assert s[|x| + 1] == ':' && s[|y| + 1] == ':';
    assert forall k | 0 <= k < |p| :: s[|x| + 2 + k] == p[k];
    assert forall k | 0 <= k < |q| :: s[|y| + 2 + k] == q[k];
    ColonsMeet(s, |x| + 1, |y| + 1);
    assert s[..|x|] == x && s[..|y|] == y && s[|x| + 2..] == p && s[|y| + 2..] == q;
  }

  lemma ColonsMeet(s: string, i: nat, k: nat)
    requires i < |s| && k < |s| && s[i] == ':' && s[k] == ':'
    requires forall j | i < j < |s| :: s[j] != ':'
    requires forall j | k < j < |s| :: s[j] != ':'
    ensures i == k
  {
  }

  lemma {:induction false} JoinHasNoDot(parts: seq<string>, n: nat)
    requires 0 < n <= |parts| && Identifiers(parts)
    ensures forall k | 0 <= k < |Join(parts, n)| :: Join(parts, n)[k] != '.'
    ensures n > 1 ==> exists k :: 0 <= k < |Join(parts, n)| && Join(parts, n)[k] == ':'
  {
    if n > 1 {
      JoinHasNoDot(parts, n - 1);
      assert Join(parts, n)[|Join(parts, n - 1)|] == ':';
    }
  }

  lemma {:induction false} JoinInjective(a: seq<string>, n: nat, b: seq<string>, m: nat)
    requires 0 < n <= |a| && 0 < m <= |b| && Identifiers(a) && Identifiers(b)
    requires Join(a, n) == Join(b, m)
    ensures a[..n] == b[..m]
  {
    hide Plain;
    if n > 1 && m > 1 {
      LastColons(Join(a, n - 1), a[n - 1], Join(b, m - 1), b[m - 1]);
      JoinInjective(a, n - 1, b, m - 1);
      assert a[..n] == a[..n - 1] + [a[n - 1]] && b[..m] == b[..m - 1] + [b[m - 1]];
    } else {
      JoinSameKind(a, n, b, m);
    }
  }

  lemma JoinSameKind(a: seq<string>, n: nat, b: seq<string>, m: nat)
    requires 0 < n <= |a| && 0 < m <= |b| && Identifiers(a) && Identifiers(b)
    requires Join(a, n) == Join(b, m) && (n == 1 || m == 1)
    ensures n == m == 1
  {
    hide Join;
    JoinOne(a);
    JoinOne(b);
    JoinHasNoDot(a, n);
    JoinHasNoDot(b, m);
  }

  lemma JoinOne(parts: seq<string>)
    requires parts != []
    ensures Join(parts, 1) == parts[0]
  {
  }

  lemma FullNameInjective(ns1: seq<string>, n1: string, ns2: seq<string>, n2: string)
    requires Identifiers(ns1 + [n1]) && Identifiers(ns2 + [n2]) && FullName(ns1, n1) == FullName(ns2, n2)
    ensures ns1 == ns2 && n1 == n2
  {
    hide Join;
    var a, b := ns1 + [n1], ns2 + [n2];
    JoinInjective(a, |ns1| + 1, b, |ns2| + 1);
    assert a[..|ns1| + 1] == a && b[..|ns2| + 1] == b;
    assert a[..|a| - 1] == ns1 && b[..|b| - 1] == ns2 && a[|a| - 1] == n1 && b[|b| - 1] == n2;
  }

  /** The nesting part of a mangled name. */
  function Dots(path: seq<string>, n: nat): string
    requires n <= |path|
  {
    if n == 0 then "" else Dots(path, n - 1) + "." + path[n - 1]
  }

  function Mangled(root: string, path: seq<string>): string
  {
    root + Dots(path, |path|)
  }

  predicate Undotted(s: string)
  {
    forall k | 0 <= k < |s| :: s[k] != '.'
  }

  lemma DotsStep(root: string, path: seq<string>, n: nat)
    requires 0 < n <= |path|
    ensures root + Dots(path, n) == (root + Dots(path, n - 1)) + "." + path[n - 1]
    ensures !Undotted(root + Dots(path, n))
  {
    hide Dots;
    DotsIs(path, n);
    var s := root + Dots(path, n);
    assert s == (root + Dots(path, n - 1)) + "." + path[n - 1];
    assert s[|root + Dots(path, n - 1)|] == '.';
  }

  lemma DotsIs(path: seq<string>, n: nat)
    requires 0 < n <= |path|
    ensures Dots(path, n) == Dots(path, n - 1) + "." + path[n - 1]
  {
  }

  lemma {:induction false} MangledInjective(r1: string, p1: seq<string>, n: nat, r2: string, p2: seq<string>, m: nat)
    requires Undotted(r1) && Undotted(r2) && Identifiers(p1) && Identifiers(p2) && n <= |p1| && m <= |p2|
    requires r1 + Dots(p1, n) == r2 + Dots(p2, m)
    ensures r1 == r2 && p1[..n] == p2[..m]
  {
    hide Undotted, Plain, Dots;
    NoDots(r1, p1);
    NoDots(r2, p2);
    if n > 0 {
      DotsStep(r1, p1, n);
    }
    if m > 0 {
      DotsStep(r2, p2, m);
    }
    if n > 0 && m > 0 {
      LastDot(r1 + Dots(p1, n - 1), p1[n - 1], r2 + Dots(p2, m - 1), p2[m - 1]);
      MangledInjective(r1, p1, n - 1, r2, p2, m - 1);
      assert p1[..n] == p1[..n - 1] + [p1[n - 1]] && p2[..m] == p2[..m - 1] + [p2[m - 1]];
    }
  }

  lemma NoDots(root: string, path: seq<string>)
    ensures root + Dots(path, 0) == root
  {
  }

  /** Every definition's nesting path, in emitted order. */
  function Paths(f: Fn, path: seq<string>): seq<seq<string>>
    decreases f
  {
    [path] + PathsAll(f.nested, |f.nested|, path)
  }

  function PathsAll(fs: seq<Fn>, n: nat, path: seq<string>): seq<seq<string>>
    requires n <= |fs|
    decreases fs, n
  {
    if n == 0 then [] else PathsAll(fs, n - 1, path) + Paths(fs[n - 1], path + [fs[n - 1].name])
  }

  /** Identifiers throughout, and no two children of one function with one name. */
  predicate WellNamed(f: Fn)
    decreases f
  {
    && Plain(f.name)
    && (forall i, k | 0 <= i < k < |f.nested| :: f.nested[i].name != f.nested[k].name)
    && forall k | 0 <= k < |f.nested| :: WellNamed(f.nested[k])
  }

  lemma {:induction false} EmittedNames(f: Fn, root: string, path: seq<string>, top: bool, ns: seq<string>, scopes: seq<Scope>,
                                        imports: seq<Import>, t: Tables)
    ensures var out := Emitted(f, Mangled(root, path), top, ns, scopes, imports, t);
            |out| == |Paths(f, path)| && forall k | 0 <= k < |out| :: out[k].name == Mangled(root, Paths(f, path)[k])
    decreases f
  {
    hide Mangled, RewriteCalls, Inner;
    EmittedAllNames(f.nested, |f.nested|, root, path, ns, Inner(Mangled(root, path), f, scopes), imports, t);
  }

  lemma {:induction false} EmittedAllNames(fs: seq<Fn>, n: nat, root: string, path: seq<string>, ns: seq<string>,
                                           scopes: seq<Scope>, imports: seq<Import>, t: Tables)
    requires n <= |fs|
    ensures var out := EmittedAll(fs, n, Mangled(root, path), ns, scopes, imports, t);
            |out| == |PathsAll(fs, n, path)|
              && forall k | 0 <= k < |out| :: out[k].name == Mangled(root, PathsAll(fs, n, path)[k])
    decreases fs, n
  {
    hide Mangled, Emitted, Paths;
    if n > 0 {
      EmittedAllNames(fs, n - 1, root, path, ns, scopes, imports, t);
      MangledNest(root, path, fs[n - 1].name);
      EmittedNames(fs[n - 1], root, path + [fs[n - 1].name], false, ns, scopes, imports, t);
    }
  }

  lemma MangledNest(root: string, path: seq<string>, name: string)
    ensures Mangled(root, path) + "." + name == Mangled(root, path + [name])
  {
    hide Dots;
    var longer := path + [name];
    DotsIs(longer, |longer|);
    DotsPrefix(path, [name], |path|);
  }

  lemma {:induction false} DotsPrefix(a: seq<string>, b: seq<string>, n: nat)
    requires n <= |a|
    ensures Dots(a + b, n) == Dots(a, n)
  {
    if n > 0 {
      DotsPrefix(a, b, n - 1);
    }
  }

  /** Paths of a definition extend its own; below it they also extend a child's. */
  lemma {:induction false} PathsExtend(f: Fn, path: seq<string>)
    requires WellNamed(f) && Identifiers(path)
    ensures forall k | 0 <= k < |Paths(f, path)| :: path <= Paths(f, path)[k] && Identifiers(Paths(f, path)[k])
    decreases f
  {
    hide Plain;
    PathsAllExtend(f.nested, |f.nested|, path);
  }

  lemma {:induction false} PathsAllExtend(fs: seq<Fn>, n: nat, path: seq<string>)
    requires n <= |fs| && Identifiers(path) && forall k | 0 <= k < |fs| :: WellNamed(fs[k])
    ensures forall k | 0 <= k < |PathsAll(fs, n, path)| ::
              path < PathsAll(fs, n, path)[k] && Identifiers(PathsAll(fs, n, path)[k])
              && exists c :: 0 <= c < n && PathsAll(fs, n, path)[k][|path|] == fs[c].name
    decreases fs, n
  {
    hide Plain, Paths;
    if n > 0 {
      PathsAllExtend(fs, n - 1, path);
      NamePlain(fs[n - 1]);
      var longer := path + [fs[n - 1].name];
      PathsExtend(fs[n - 1], longer);
      var added := Paths(fs[n - 1], longer);
      forall k | 0 <= k < |added| ensures path < added[k] && added[k][|path|] == fs[n - 1].name {
        assert longer <= added[k] && longer[|path|] == fs[n - 1].name;
      }
    }
  }

  lemma NamePlain(f: Fn)
    requires WellNamed(f)
    ensures Plain(f.name)
  {
  }

  ghost predicate Apart<T>(xs: seq<T>)
  {
    forall i, k | 0 <= i < k < |xs| :: xs[i] != xs[k]
  }

  lemma {:induction false} PathsApart(f: Fn, path: seq<string>)
    requires WellNamed(f) && Identifiers(path)
    ensures Apart(Paths(f, path))
    decreases f
  {
    hide Plain;
    PathsAllApart(f.nested, |f.nested|, path);
    PathsAllExtend(f.nested, |f.nested|, path);
  }

  lemma {:induction false} PathsAllApart(fs: seq<Fn>, n: nat, path: seq<string>)
    requires n <= |fs| && Identifiers(path) && forall k | 0 <= k < |fs| :: WellNamed(fs[k])
    requires forall i, k | 0 <= i < k < |fs| :: fs[i].name != fs[k].name
    ensures Apart(PathsAll(fs, n, path))
    decreases fs, n
  {
    hide Plain, Paths, WellNamed;
    if n > 0 {
      var longer := path + [fs[n - 1].name];
      NamePlain(fs[n - 1]);
      PathsAllApart(fs, n - 1, path);
      PathsAllExtend(fs, n - 1, path);
      PathsApart(fs[n - 1], longer);
      PathsExtend(fs[n - 1], longer);
      var a, b := PathsAll(fs, n - 1, path), Paths(fs[n - 1], longer);
      forall i, k | 0 <= i < |a| && 0 <= k < |b| ensures a[i] != b[k] {
        assert longer <= b[k] && longer[|path|] == fs[n - 1].name;
      }
    }
  }

  function NamesOf(out: seq<Flat>): seq<string>
  {
    seq(|out|, (k: nat) requires k < |out| => out[k].name)
  }

  /** What the parser guarantees: identifiers, and one name a scope. */
  ghost predicate Prepared(fs: seq<Fn>)
  {
    && (forall k | 0 <= k < |fs| :: WellNamed(fs[k]) && Identifiers(fs[k].ns))
    && forall i, k | 0 <= i < k < |fs| :: fs[i].ns != fs[k].ns || fs[i].name != fs[k].name
  }

  function Root(f: Fn): string
  {
    FullName(f.ns, f.name)
  }

  lemma RootPlain(f: Fn)
    requires WellNamed(f) && Identifiers(f.ns)
    ensures Undotted(Root(f)) && Identifiers(f.ns + [f.name])
  {
    hide Join;
    NamePlain(f);
    JoinHasNoDot(f.ns + [f.name], |f.ns| + 1);
  }

  /** The names a top-level function and its nested ones are emitted under. */
  lemma TreeNames(f: Fn, imports: seq<Import>, t: Tables)
    requires WellNamed(f) && Identifiers(f.ns)
    ensures var names := NamesOf(Emitted(f, Root(f), true, f.ns, [], imports, t));
            && Apart(names)
            && forall k | 0 <= k < |names| :: exists path :: Identifiers(path) && names[k] == Mangled(Root(f), path)
  {
    hide Plain, Paths, Mangled, Emitted, Dots, Root, WellNamed, Undotted;
    var out := Emitted(f, Root(f), true, f.ns, [], imports, t);
    RootPlain(f);
    MangledRoot(Root(f));
    EmittedNames(f, Root(f), [], true, f.ns, [], imports, t);
    PathsApart(f, []);
    PathsExtend(f, []);
    var paths := Paths(f, []);
    forall i, k | 0 <= i < k < |out| ensures out[i].name != out[k].name {
      if out[i].name == out[k].name {
        MangledSame(Root(f), paths[i], Root(f), paths[k]);
      }
    }
  }

  lemma MangledRoot(root: string)
    ensures Mangled(root, []) == root
  {
  }

  lemma MangledSame(r1: string, p1: seq<string>, r2: string, p2: seq<string>)
    requires Undotted(r1) && Undotted(r2) && Identifiers(p1) && Identifiers(p2) && Mangled(r1, p1) == Mangled(r2, p2)
    ensures r1 == r2 && p1 == p2
  {
    hide Dots, Undotted;
    MangledInjective(r1, p1, |p1|, r2, p2, |p2|);
    assert p1[..|p1|] == p1 && p2[..|p2|] == p2;
  }

  /** No two emitted functions have one name. */
  lemma {:induction false} MangledApart(fs: seq<Fn>, n: nat, imports: seq<Import>, t: Tables)
    requires n <= |fs| && Prepared(fs)
    ensures var names := NamesOf(Program(fs, n, imports, t));
            && Apart(names)
            && forall k | 0 <= k < |names| ::
                 exists c, path :: 0 <= c < n && Identifiers(path) && names[k] == Mangled(Root(fs[c]), path)
  {
    hide Plain, Mangled, Emitted, Dots, Root, WellNamed, Undotted, Identifiers;
    if n > 0 {
      MangledApart(fs, n - 1, imports, t);
      TreeNames(fs[n - 1], imports, t);
      RootIs(fs[n - 1]);
      var a := NamesOf(Program(fs, n - 1, imports, t));
      var b := NamesOf(Emitted(fs[n - 1], Root(fs[n - 1]), true, fs[n - 1].ns, [], imports, t));
      NamesJoin(Program(fs, n - 1, imports, t), Emitted(fs[n - 1], Root(fs[n - 1]), true, fs[n - 1].ns, [], imports, t));
      forall i, k | 0 <= i < |a| && 0 <= k < |b| ensures a[i] != b[k] {
        var c, p :| 0 <= c < n - 1 && Identifiers(p) && a[i] == Mangled(Root(fs[c]), p);
        var q :| Identifiers(q) && b[k] == Mangled(Root(fs[n - 1]), q);
        if a[i] == b[k] {
          RootPlain(fs[c]);
          RootPlain(fs[n - 1]);
          MangledSame(Root(fs[c]), p, Root(fs[n - 1]), q);
          RootsApart(fs[c], fs[n - 1]);
        }
      }
    }
  }

  lemma RootIs(f: Fn)
    ensures Root(f) == FullName(f.ns, f.name)
  {
  }

  lemma NamesJoin(a: seq<Flat>, b: seq<Flat>)
    ensures NamesOf(a + b) == NamesOf(a) + NamesOf(b)
  {
  }

  lemma RootsApart(f: Fn, g: Fn)
    requires Identifiers(f.ns + [f.name]) && Identifiers(g.ns + [g.name]) && Root(f) == Root(g)
    ensures f.ns == g.ns && f.name == g.name
  {
    FullNameInjective(f.ns, f.name, g.ns, g.name);
  }

  // ----- every local target is emitted -----

  function NameSet(out: seq<Flat>): set<string>
  {
    set x | x in out :: x.name
  }

  lemma NameSetJoin(a: seq<Flat>, b: seq<Flat>)
    ensures NameSet(a + b) == NameSet(a) + NameSet(b)
  {
    forall n | n in NameSet(a) + NameSet(b) ensures n in NameSet(a + b) {
      if n in NameSet(a) {
        var x :| x in a && x.name == n;
        assert x in a + b;
      } else {
        var x :| x in b && x.name == n;
        assert x in a + b;
      }
    }
  }

  lemma {:induction false} EmitsChild(fs: seq<Fn>, n: nat, c: nat, full: string, ns: seq<string>, scopes: seq<Scope>,
                                      imports: seq<Import>, t: Tables)
    requires c < n <= |fs|
    ensures NameSet(Emitted(fs[c], full + "." + fs[c].name, false, ns, scopes, imports, t))
         <= NameSet(EmittedAll(fs, n, full, ns, scopes, imports, t))
    decreases n
  {
    hide Emitted, NameSet;
    NameSetJoin(EmittedAll(fs, n - 1, full, ns, scopes, imports, t),
                Emitted(fs[n - 1], full + "." + fs[n - 1].name, false, ns, scopes, imports, t));
    if c < n - 1 {
      EmitsChild(fs, n - 1, c, full, ns, scopes, imports, t);
    }
  }

  lemma EmitsSelf(f: Fn, full: string, top: bool, ns: seq<string>, scopes: seq<Scope>, imports: seq<Import>, t: Tables)
    ensures full in NameSet(Emitted(f, full, top, ns, scopes, imports, t))
    ensures NameSet(EmittedAll(f.nested, |f.nested|, full, ns, Inner(full, f, scopes), imports, t))
         <= NameSet(Emitted(f, full, top, ns, scopes, imports, t))
  {
    hide EmittedAll, RewriteCalls, Inner;
    var out := Emitted(f, full, top, ns, scopes, imports, t);
    assert out[0].name == full && out[0] in out;
  }

  /** Every name a scope maps to is one of some names. */
  ghost predicate Within(scope: Scope, names: set<string>)
  {
    forall n | n in scope :: scope[n] in names
  }

  lemma {:induction false} ChildMapWithin(full: string, nested: seq<Fn>, n: nat, names: set<string>)
    requires n <= |nested| && forall k | 0 <= k < n :: full + "." + nested[k].name in names
    ensures Within(ChildMap(full, nested, n), names)
  {
    if n > 0 {
      ChildMapWithin(full, nested, n - 1, names);
    }
  }

  lemma {:induction false} InScopesWithin(scopes: seq<Scope>, n: nat, name: string, names: set<string>)
    requires n <= |scopes| && forall k | 0 <= k < |scopes| :: Within(scopes[k], names)
    ensures InScopes(scopes, n, name).Some? ==> InScopes(scopes, n, name).value in names
  {
    if n > 0 && name !in scopes[n - 1] {
      InScopesWithin(scopes, n - 1, name, names);
    }
  }

  ghost predicate TablesWithin(t: Tables, names: set<string>)
  {
    t.full <= names && forall ns | ns in t.defs :: Within(t.defs[ns], names)
  }

  lemma {:induction false} InLevelsWithin(t: Tables, ns: seq<string>, k: nat, name: string, names: set<string>)
    requires k <= |ns| && TablesWithin(t, names)
    ensures InLevels(t, ns, k, name).Local? ==> InLevels(t, ns, k, name).mangled in names
  {
    if k > 0 {
      InLevelsWithin(t, ns, k - 1, name, names);
    }
  }

  ghost predicate LocalsIn(rs: seq<Resolution>, names: set<string>)
  {
    forall k | 0 <= k < |rs| && rs[k].Local? :: rs[k].mangled in names
  }

  lemma CallsLocal(t: Tables, scopes: seq<Scope>, ns: seq<string>, calls: seq<string>, names: set<string>)
    requires TablesWithin(t, names) && forall k | 0 <= k < |scopes| :: Within(scopes[k], names)
    ensures LocalsIn(ResolveCalls(t, scopes, ns, calls), names)
  {
    hide InScopes, InLevels, Qualified;
    forall k | 0 <= k < |calls| && Resolve(t, scopes, ns, calls[k]).Local?
      ensures Resolve(t, scopes, ns, calls[k]).mangled in names
    {
      InScopesWithin(scopes, |scopes|, calls[k], names);
      InLevelsWithin(t, ns, |ns|, calls[k], names);
    }
  }

  lemma {:induction false} SubtreeLocal(f: Fn, full: string, top: bool, ns: seq<string>, scopes: seq<Scope>,
                                        imports: seq<Import>, t: Tables, names: set<string>)
    requires TablesWithin(t, names) && forall k | 0 <= k < |scopes| :: Within(scopes[k], names)
    requires NameSet(Emitted(f, full, top, ns, scopes, imports, t)) <= names
    ensures LocalsIn(Resolutions(f, full, ns, scopes, t), names)
    decreases f
  {
    hide ChildMap, Emitted, EmittedAll, ResolveCalls, NameSet;
    EmitsSelf(f, full, top, ns, scopes, imports, t);
    var inner := Inner(full, f, scopes);
    forall k | 0 <= k < |f.nested| ensures full + "." + f.nested[k].name in names {
      EmitsChild(f.nested, |f.nested|, k, full, ns, inner, imports, t);
      EmitsSelf(f.nested[k], full + "." + f.nested[k].name, false, ns, inner, imports, t);
    }
    ChildMapWithin(full, f.nested, |f.nested|, names);
    CallsLocal(t, inner, ns, f.calls, names);
    SubtreesLocal(f.nested, |f.nested|, full, ns, inner, imports, t, names);
  }

  lemma {:induction false} SubtreesLocal(fs: seq<Fn>, n: nat, full: string, ns: seq<string>, scopes: seq<Scope>,
                                         imports: seq<Import>, t: Tables, names: set<string>)
    requires n <= |fs| && TablesWithin(t, names) && forall k | 0 <= k < |scopes| :: Within(scopes[k], names)
    requires NameSet(EmittedAll(fs, n, full, ns, scopes, imports, t)) <= names
    ensures LocalsIn(ResolutionsAll(fs, n, full, ns, scopes, t), names)
    decreases fs, n
  {
    hide Emitted, NameSet, Resolutions, Within;
    if n > 0 {
      NameSetJoin(EmittedAll(fs, n - 1, full, ns, scopes, imports, t),
                  Emitted(fs[n - 1], full + "." + fs[n - 1].name, false, ns, scopes, imports, t));
      SubtreesLocal(fs, n - 1, full, ns, scopes, imports, t, names);
      SubtreeLocal(fs[n - 1], full + "." + fs[n - 1].name, false, ns, scopes, imports, t, names);
    }
  }

  lemma {:induction false} TreeIn(fs: seq<Fn>, n: nat, c: nat, imports: seq<Import>, t: Tables)
    requires c < n <= |fs|
    ensures NameSet(Emitted(fs[c], FullName(fs[c].ns, fs[c].name), true, fs[c].ns, [], imports, t))
         <= NameSet(Program(fs, n, imports, t))
    ensures FullName(fs[c].ns, fs[c].name) in NameSet(Program(fs, n, imports, t))
    decreases n
  {
    hide Emitted, NameSet, FullName;
    NameSetJoin(Program(fs, n - 1, imports, t),
                Emitted(fs[n - 1], FullName(fs[n - 1].ns, fs[n - 1].name), true, fs[n - 1].ns, [], imports, t));
    EmitsSelf(fs[c], FullName(fs[c].ns, fs[c].name), true, fs[c].ns, [], imports, t);
    if c < n - 1 {
      TreeIn(fs, n - 1, c, imports, t);
    }
  }

  lemma {:induction false} DefsWithin(fs: seq<Fn>, n: nat, names: set<string>)
    requires n <= |fs| && forall c | 0 <= c < |fs| :: FullName(fs[c].ns, fs[c].name) in names
    ensures forall ns | ns in DefsOf(fs, n) :: Within(DefsOf(fs, n)[ns], names)
    ensures FullNames(fs, n) <= names
  {
    hide FullName;
    if n > 0 {
      DefsWithin(fs, n - 1, names);
    }
  }

  lemma {:induction false} ProgramLocal(fs: seq<Fn>, n: nat, imports: seq<Import>, t: Tables, names: set<string>)
    requires n <= |fs| && TablesWithin(t, names) && NameSet(Program(fs, n, imports, t)) <= names
    ensures LocalsIn(AllResolutions(fs, n, t), names)
  {
    hide Emitted, NameSet, Resolutions, FullName, TablesWithin;
    if n > 0 {
      NameSetJoin(Program(fs, n - 1, imports, t),
                  Emitted(fs[n - 1], FullName(fs[n - 1].ns, fs[n - 1].name), true, fs[n - 1].ns, [], imports, t));
      ProgramLocal(fs, n - 1, imports, t, names);
      SubtreeLocal(fs[n - 1], FullName(fs[n - 1].ns, fs[n - 1].name), true, fs[n - 1].ns, [], imports, t, names);
    }
  }

  /** Every call recorded as local names an emitted function. */
  lemma LocalsEmitted(fs: seq<Fn>, imports: seq<Import>)
    ensures var t := TablesOf(fs, imports);
            LocalsIn(AllResolutions(fs, |fs|, t), NameSet(Program(fs, |fs|, imports, t)))
  {
    hide NameSet, FullName, DefsOf, FullNames, BindingsOf, LocalsIn, Program, AllResolutions;
    var t := TablesOf(fs, imports);
    var names := NameSet(Program(fs, |fs|, imports, t));
    forall c | 0 <= c < |fs| ensures FullName(fs[c].ns, fs[c].name) in names {
      TreeIn(fs, |fs|, c, imports, t);
    }
    DefsWithin(fs, |fs|, names);
    ProgramLocal(fs, |fs|, imports, t, names);
  }

  // ----- innermost first -----

  /** Level k of a namespace path knows the name. */
  predicate KnownAt(t: Tables, ns: seq<string>, k: nat, name: string)
    requires k <= |ns|
  {
    DefAt(t, ns[..k], name).Some? || BindingAt(t, ns[..k], name).Some?
  }

  lemma {:induction false} ScopesInnermost(scopes: seq<Scope>, n: nat, name: string)
    requires n <= |scopes|
    ensures InScopes(scopes, n, name).None? ==> forall i | 0 <= i < n :: name !in scopes[i]
    ensures InScopes(scopes, n, name).Some? ==> exists i ::
              0 <= i < n && name in scopes[i] && InScopes(scopes, n, name).value == scopes[i][name]
              && forall m | i < m < n :: name !in scopes[m]
  {
    if n > 0 && name !in scopes[n - 1] {
      ScopesInnermost(scopes, n - 1, name);
    }
  }

  lemma {:induction false} LevelsInnermost(t: Tables, ns: seq<string>, k: nat, name: string)
    requires k <= |ns|
    ensures InLevels(t, ns, k, name).Unresolved? <==> forall m: nat | m <= k :: !KnownAt(t, ns, m, name)
    ensures forall m: nat | InnermostUpTo(t, ns, k, m, name) :: InLevels(t, ns, k, name) == AtLevel(t, ns, m, name)
  {
    hide KnownAt, AtLevel, InLevels;
    OneLevel(t, ns, k, name);
    if !KnownAt(t, ns, k, name) && k > 0 {
      LevelsInnermost(t, ns, k - 1, name);
    }
  }

  /** Level m is the innermost of the levels up to k that know the name. */
  ghost predicate InnermostUpTo(t: Tables, ns: seq<string>, k: nat, m: nat, name: string)
    requires k <= |ns|
  {
    m <= k && KnownAt(t, ns, m, name) && forall j: nat | m < j <= k :: !KnownAt(t, ns, j, name)
  }

  lemma OneLevel(t: Tables, ns: seq<string>, k: nat, name: string)
    requires k <= |ns|
    ensures KnownAt(t, ns, k, name) ==>
              InLevels(t, ns, k, name) == AtLevel(t, ns, k, name) && !AtLevel(t, ns, k, name).Unresolved?
    ensures !KnownAt(t, ns, k, name) && k > 0 ==> InLevels(t, ns, k, name) == InLevels(t, ns, k - 1, name)
    ensures !KnownAt(t, ns, k, name) && k == 0 ==> InLevels(t, ns, k, name).Unresolved?
  {
    hide DefAt, BindingAt;
  }

  /** What level k of a namespace path makes of a name it knows. */
  function AtLevel(t: Tables, ns: seq<string>, k: nat, name: string): Resolution
    requires k <= |ns| && KnownAt(t, ns, k, name)
  {
    if DefAt(t, ns[..k], name).Some? then Local(DefAt(t, ns[..k], name).value)
    else Imported(BindingAt(t, ns[..k], name).value.0)
  }

  ghost predicate InnermostScope(scopes: seq<Scope>, i: nat, name: string)
  {
    i < |scopes| && name in scopes[i] && forall m | i < m < |scopes| :: name !in scopes[m]
  }

  /** A bare call takes the innermost nested definition that has its name, else the innermost
      namespace level that has it, where a definition outranks an import; it stays unresolved
      exactly when no scope has it. */
  lemma BareCallInnermost(t: Tables, scopes: seq<Scope>, ns: seq<string>, name: string)
    requires !Qualified(name)
    ensures forall i: nat | InnermostScope(scopes, i, name) :: Resolve(t, scopes, ns, name) == Local(scopes[i][name])
    ensures forall k: nat | InnermostUpTo(t, ns, |ns|, k, name) && forall i | 0 <= i < |scopes| :: name !in scopes[i] ::
              Resolve(t, scopes, ns, name) == AtLevel(t, ns, k, name)
    ensures Resolve(t, scopes, ns, name).Unresolved? <==>
              (forall i | 0 <= i < |scopes| :: name !in scopes[i]) && forall k: nat | k <= |ns| :: !KnownAt(t, ns, k, name)
  {
    hide InScopes, InLevels, DefAt, BindingAt, Qualified;
    ScopesInnermost(scopes, |scopes|, name);
    LevelsInnermost(t, ns, |ns|, name);
    forall i: nat | InnermostScope(scopes, i, name) ensures InScopes(scopes, |scopes|, name) == Some(scopes[i][name]) {
      var m :| 0 <= m < |scopes| && name in scopes[m] && InScopes(scopes, |scopes|, name).value == scopes[m][name]
               && forall j | m < j < |scopes| :: name !in scopes[j];
      assert m == i;
    }
  }

  // ----- the pass -----

  function UsedImports(rs: seq<Resolution>): set<nat>
  {
    set r | r in rs && r.Imported? :: r.index
  }

  function Undeclared(rs: seq<Resolution>): set<string>
  {
    set r | r in rs && r.Unresolved? :: r.name
  }

  lemma RecordsJoin(a: seq<Resolution>, r: Resolution)
    ensures UsedImports(a + [r]) == UsedImports(a) + (if r.Imported? then {r.index} else {})
    ensures Undeclared(a + [r]) == Undeclared(a) + (if r.Unresolved? then {r.name} else {})
  {
    assert forall x :: x in a + [r] <==> x in a || x == r;
    forall i: nat | i in UsedImports(a) ensures i in UsedImports(a + [r]) {
      var x :| x in a && x.Imported? && x.index == i;
      assert x in a + [r];
    }
    forall n | n in Undeclared(a) ensures n in Undeclared(a + [r]) {
      var x :| x in a && x.Unresolved? && x.name == n;
      assert x in a + [r];
    }
    assert r in a + [r];
  }

  /** The pass's running state. */
  class Context {
    const tables: Tables
    const imports: seq<Import>
    var importsUsed: set<nat>
    var warned: set<string>
    var warnings: seq<string>
    var resolutions: seq<Resolution>

    /** Imports marked used and names warned about are those of the recorded calls; one warning a
        name. */
    ghost predicate Valid()
      reads this
    {
      && importsUsed == UsedImports(resolutions) && warned == Undeclared(resolutions)
      && Apart(warnings) && forall n :: n in warnings <==> n in warned
    }

    constructor (tables: Tables, imports: seq<Import>)
      ensures this.tables == tables && this.imports == imports
      ensures Valid() && resolutions == []
    {
      this.tables, this.imports := tables, imports;
      importsUsed, warned, warnings, resolutions := {}, {}, [], [];
    }

    method Record(r: Resolution)
      requires Valid()
      modifies this
      ensures Valid() && resolutions == old(resolutions) + [r]
    {
      RecordsJoin(resolutions, r);
      resolutions := resolutions + [r];
      if r.Imported? {
        importsUsed := importsUsed + {r.index};
      }
      if r.Unresolved? && r.name !in warned {
        warned := warned + {r.name};
        warnings := warnings + [r.name];
      }
    }

    /** Resolves one call and returns the name it carries on. */
    method ResolveCall(scopes: seq<Scope>, ns: seq<string>, name: string) returns (rewritten: string)
      requires Valid()
      modifies this
      ensures Valid() && resolutions == old(resolutions) + [Resolve(tables, scopes, ns, name)]
      ensures rewritten == Rewritten(imports, Resolve(tables, scopes, ns, name), name)
    {
      hide InScopes, InLevels, DefAt, BindingAt, Qualified, UsedImports, Undeclared, Apart;
      ghost var r := Resolve(tables, scopes, ns, name);
      var qualified := IsQualified(name);
      if qualified {
        Record(if name in tables.full then Local(name) else QualifiedExternal(name));
        return name;
      }
      var i := |scopes|;
      while i > 0
        invariant 0 <= i <= |scopes| && InScopes(scopes, |scopes|, name) == InScopes(scopes, i, name)
        invariant Valid() && resolutions == old(resolutions)
      {
        InScopesStep(scopes, i, name);
        if name in scopes[i - 1] {
          Record(Local(scopes[i - 1][name]));
          return scopes[i - 1][name];
        }
        i := i - 1;
      }
      NoScopes(scopes, name);
      var k := |ns|;
      while true
        invariant 0 <= k <= |ns| && InLevels(tables, ns, |ns|, name) == InLevels(tables, ns, k, name)
        invariant Valid() && resolutions == old(resolutions)
        decreases k
      {
        InLevelsStep(tables, ns, k, name);
        var def := DefAt(tables, ns[..k], name);
        if def.Some? {
          Record(Local(def.value));
          return def.value;
        }
        var binding := BindingAt(tables, ns[..k], name);
        if binding.Some? {
          Record(Imported(binding.value.0));
          return Rewritten(imports, Imported(binding.value.0), name);
        }
        if k == 0 {
          Record(Unresolved(name));
          return name;
        }
        k := k - 1;
      }
    }

    /** Appends a definition and everything nested in it. */
    method Emit(f: Fn, full: string, top: bool, ns: seq<string>, scopes: seq<Scope>, out: seq<Flat>) returns (out': seq<Flat>)
      requires Valid()
      modifies this
      ensures Valid() && resolutions == old(resolutions) + Resolutions(f, full, ns, scopes, tables)
      ensures out' == out + Emitted(f, full, top, ns, scopes, imports, tables)
      decreases f
    {
      hide Resolve, Rewritten, UsedImports, Undeclared, Apart, ChildMap;
      var inner := Inner(full, f, scopes);
      var calls: seq<string> := [];
      for k := 0 to |f.calls|
        invariant Valid() && resolutions == old(resolutions) + ResolveCalls(tables, inner, ns, f.calls)[..k]
        invariant calls == RewriteCalls(imports, tables, inner, ns, f.calls)[..k]
      {
        var name := ResolveCall(inner, ns, f.calls[k]);
        calls := calls + [name];
      }
      assert ResolveCalls(tables, inner, ns, f.calls)[..|f.calls|] == ResolveCalls(tables, inner, ns, f.calls);
      assert calls == RewriteCalls(imports, tables, inner, ns, f.calls);
      ghost var own := resolutions;
      out' := out + [Flat(full, !top || !f.exported, f.exported && top, calls)];
      ghost var head := out';
      for k := 0 to |f.nested|
        invariant Valid() && resolutions == own + ResolutionsAll(f.nested, k, full, ns, inner, tables)
        invariant out' == head + EmittedAll(f.nested, k, full, ns, inner, imports, tables)
      {
        out' := Emit(f.nested[k], full + "." + f.nested[k].name, false, ns, inner, out');
      }
    }
  }

  lemma InScopesStep(scopes: seq<Scope>, i: nat, name: string)
    requires 0 < i <= |scopes|
    ensures InScopes(scopes, i, name) == if name in scopes[i - 1] then Some(scopes[i - 1][name])
              else InScopes(scopes, i - 1, name)
  {
  }

  lemma NoScopes(scopes: seq<Scope>, name: string)
    ensures InScopes(scopes, 0, name) == None
  {
  }

  lemma InLevelsStep(t: Tables, ns: seq<string>, k: nat, name: string)
    requires k <= |ns|
    ensures InLevels(t, ns, k, name) ==
            if DefAt(t, ns[..k], name).Some? then Local(DefAt(t, ns[..k], name).value)
            else if BindingAt(t, ns[..k], name).Some? then Imported(BindingAt(t, ns[..k], name).value.0)
            else if k == 0 then Unresolved(name)
            else InLevels(t, ns, k - 1, name)
  {
  }

  method IsQualified(name: string) returns (yes: bool)
    ensures yes <==> Qualified(name)
  {
    var i := 0;
    while i + 1 < |name|
      invariant forall k | 0 <= k < i && k < |name| - 1 :: !IsColons(name, k)
    {
      if IsColons(name, i) {
        return true;
      }
      i := i + 1;
    }
    yes := false;
  }

  // ----- reachability -----

  /** The emitted functions that a function calls. */
  function Callees(out: seq<Flat>, n: nat, name: string): seq<string>
    requires n <= |out|
  {
    if n == 0 then []
    else Callees(out, n - 1, name)
         + (if out[n - 1].name == name then Defined(out, out[n - 1].calls, |out[n - 1].calls|) else [])
  }

  /** The calls that stay inside the program. */
  function Defined(out: seq<Flat>, calls: seq<string>, n: nat): seq<string>
    requires n <= |calls|
  {
    if n == 0 then []
    else Defined(out, calls, n - 1) + (if calls[n - 1] in NameSet(out) then [calls[n - 1]] else [])
  }

  function CallGraph(out: seq<Flat>): string -> seq<string>
  {
    (name: string) => Callees(out, |out|, name)
  }

  function Exports(out: seq<Flat>, n: nat): seq<string>
    requires n <= |out|
  {
    if n == 0 then [] else Exports(out, n - 1) + (if out[n - 1].exported then [out[n - 1].name] else [])
  }

  lemma {:induction false} DefinedWithin(out: seq<Flat>, calls: seq<string>, n: nat)
    requires n <= |calls|
    ensures forall c | c in Defined(out, calls, n) :: c in NameSet(out)
  {
    hide NameSet;
    if n > 0 {
      DefinedWithin(out, calls, n - 1);
    }
  }

  lemma {:induction false} CalleesWithin(out: seq<Flat>, n: nat, name: string)
    requires n <= |out|
    ensures forall c | c in Callees(out, n, name) :: c in NameSet(out)
  {
    hide NameSet, Defined;
    if n > 0 {
      CalleesWithin(out, n - 1, name);
      DefinedWithin(out, out[n - 1].calls, |out[n - 1].calls|);
    }
  }

  lemma {:induction false} ExportsWithin(out: seq<Flat>, n: nat)
    requires n <= |out|
    ensures forall c | c in Exports(out, n) :: c in NameSet(out)
  {
    if n > 0 {
      ExportsWithin(out, n - 1);
      assert out[n - 1] in out;
    }
  }

  /** The worklist marks exactly the functions that calls lead to from an export. */
  method Reach(out: seq<Flat>) returns (reached: set<string>)
    ensures forall name :: name in reached <==> Reachable(CallGraph(out), Exports(out, |out|), name)
  {
    hide Callees, NameSet, Exports, Reachable;
    var names := NameSet(out);
    var roots := Exports(out, |out|);
    var succ := CallGraph(out);
    reached := {};
    var queue := roots;
    ExportsWithin(out, |out|);
    forall r | r in roots ensures Reachable(succ, roots, r) {
      RootReachable(succ, roots, r);
    }
    while queue != []
      invariant reached <= names && forall q | q in queue :: q in names
      invariant forall q | q in queue || q in reached :: Reachable(succ, roots, q)
      invariant forall r | r in roots :: r in reached || r in queue
      invariant forall u, w | u in reached && w in succ(u) :: w in reached || w in queue
      decreases names - reached, |queue|
    {
      var name := queue[0];
      ghost var before := queue;
      queue := queue[1..];
      assert forall q | q in before :: q == name || q in queue;
      if name !in reached {
        reached := reached + {name};
        CalleesWithin(out, |out|, name);
        forall w | w in succ(name) ensures Reachable(succ, roots, w) {
          StepReachable(succ, roots, name, w);
        }
        queue := queue + Callees(out, |out|, name);
      }
    }
    forall name | Reachable(succ, roots, name) ensures name in reached {
      ReachableInClosed(succ, roots, reached, name);
    }
  }

  // ----- the whole pass -----

  method BuildTables(fs: seq<Fn>, imports: seq<Import>) returns (t: Tables)
    ensures t == TablesOf(fs, imports)
  {
    hide FullName;
    var defs: map<seq<string>, Scope>, full: set<string> := map[], {};
    for k := 0 to |fs|
      invariant defs == DefsOf(fs, k) && full == FullNames(fs, k)
    {
      var f := fs[k];
      var level := if f.ns in defs then defs[f.ns] else map[];
      defs := defs[f.ns := level[f.name := FullName(f.ns, f.name)]];
      full := full + {FullName(f.ns, f.name)};
    }
    var bindings: map<seq<string>, map<string, (nat, string)>> := map[];
    for k := 0 to |imports|
      invariant bindings == BindingsOf(imports, k)
    {
      var i := imports[k];
      var level := if i.ns in bindings then bindings[i.ns] else map[];
      if i.binding !in level {
        level := level[i.binding := (k, i.path)];
      }
      bindings := bindings[i.ns := level];
    }
    t := Tables(defs, bindings, full);
  }

  /** Flattens a program: no two functions share a name, every local call names one of them, an
      import is unused exactly when no call resolved to it, and a function is unused exactly when
      no chain of calls leads to it from an export. */
  method Flatten(fs: seq<Fn>, imports: seq<Import>)
    returns (out: seq<Flat>, resolutions: seq<Resolution>, unusedImports: seq<nat>, unusedFunctions: seq<string>)
    requires Prepared(fs)
    ensures out == Program(fs, |fs|, imports, TablesOf(fs, imports))
    ensures resolutions == AllResolutions(fs, |fs|, TablesOf(fs, imports))
    ensures Apart(NamesOf(out)) && LocalsIn(resolutions, NameSet(out))
    ensures forall i: nat :: i in unusedImports <==> i < |imports| && Imported(i) !in resolutions
    ensures forall name :: name in unusedFunctions <==>
              name in NameSet(out) && !Reachable(CallGraph(out), Exports(out, |out|), name)
  {
    hide Emitted, Resolutions, FullName, Reachable, CallGraph, LocalsIn, DefsOf, BindingsOf, FullNames, Apart, Prepared,
      UsedImports;
    var t := BuildTables(fs, imports);
    var ctx := new Context(t, imports);
    out := [];
    for k := 0 to |fs|
      invariant ctx.Valid() && ctx.resolutions == AllResolutions(fs, k, t)
      invariant out == Program(fs, k, imports, t)
    {
      out := ctx.Emit(fs[k], FullName(fs[k].ns, fs[k].name), true, fs[k].ns, [], out);
    }
    resolutions := ctx.resolutions;
    MangledApart(fs, |fs|, imports, t);
    LocalsEmitted(fs, imports);
    unusedImports := [];
    UsedExactly(resolutions);
    for i := 0 to |imports|
      invariant forall j: nat :: j in unusedImports <==> j < i && Imported(j) !in resolutions
    {
      if i !in ctx.importsUsed {
        unusedImports := unusedImports + [i];
      }
    }
    var reached := Reach(out);
    unusedFunctions := [];
    for k := 0 to |out|
      invariant forall name :: name in unusedFunctions <==>
                  name !in reached && exists j :: 0 <= j < k && out[j].name == name
    {
      if out[k].name !in reached {
        unusedFunctions := unusedFunctions + [out[k].name];
      }
    }
    NameSetByIndex(out);
  }

  lemma UsedExactly(rs: seq<Resolution>)
    ensures forall i: nat :: i in UsedImports(rs) <==> Imported(i) in rs
  {
    forall i: nat | Imported(i) in rs ensures i in UsedImports(rs) {
    }
  }

  lemma NameSetByIndex(out: seq<Flat>)
    ensures forall name :: name in NameSet(out) <==> exists j :: 0 <= j < |out| && out[j].name == name
  {
    forall j | 0 <= j < |out| ensures out[j].name in NameSet(out) {
      assert out[j] in out;
    }
  }
}
