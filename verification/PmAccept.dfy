/** The parser accepts exactly the spellings of legal programs: what it reads is one, and it reads every one. */
module PmAccept {
  import opened Options
  import opened PmLanguage
  import opened PmBodies
  import G = PmGrammar
  import Green = PmGreen
  import T = PmTree

  // ----- imports -----

  lemma AliasSound(ts: Tokens, p: G.P) returns (alias: Option<string>)
    requires p.pos <= |ts| && G.Alias(ts, p).Good?
    ensures Read(ts, p, G.Alias(ts, p).p, SpellAlias(alias))
  {
    hide T.Grew, T.Leaves;
    if G.Peek(ts, p) == G.Ident("as") {
      var q := G.Bump(ts, p);
      BumpReads(ts, p);
      BumpReads(ts, q);
      alias := Some(G.Peek(ts, q).name);
      ReadMore(ts, p, q, G.Alias(ts, p).p, [G.Ident("as")], [ts[q.pos]]);
    } else {
      alias := None;
      ReadNothing(ts, p);
    }
  }

  function SpellAlias(alias: Option<string>): Tokens
  {
    if alias.Some? then [G.Ident("as"), G.Ident(alias.value)] else []
  }

  lemma AliasComplete(ts: Tokens, p: G.P, alias: Option<string>)
    requires At(ts, p.pos, SpellAlias(alias)) && (alias.None? ==> !G.KindAt(ts, p.pos).Ident?)
    ensures p.pos <= |ts| && G.Alias(ts, p).Good? && Took(ts, p, G.Alias(ts, p).p, SpellAlias(alias))
  {
    if alias.Some? {
      AtFirst(ts, p.pos, SpellAlias(alias));
      AtFirst(ts, p.pos + 1, SpellAlias(alias)[1..]);
    }
  }

  lemma ImportSound(ts: Tokens, p: G.P) returns (i: Import)
    requires p.pos <= |ts| && G.Import(ts, p).Good?
    ensures LegalPath(i.path) && Took(ts, p, G.Import(ts, p).p, SpellImport(i))
    ensures T.Wrote(ts, p, G.Import(ts, p).p, [T.Branch(Green.UsePath, T.Leaves(SpellImport(i)))])
  {
    hide T.Grew, T.Leaves, G.PathTail, G.Alias, SpellTail;
    var name := G.Peek(ts, p).name;
    var start := G.FlushStart(p, Green.UsePath);
    var q := G.Bump(ts, start);
    BumpReads(ts, start);
    var rest := TailSound(ts, q);
    var r := G.PathTail(ts, q).p;
    var alias := AliasSound(ts, r);
    i := PmLanguage.Import([name] + rest, alias);
    assert i.path[1..] == rest;
    ReadMore(ts, start, q, r, [G.Ident(name)], SpellTail(rest));
    PathNonempty(i.path);
    LeavesNonempty(SpellImport(i));
    ReadMore(ts, start, r, G.Alias(ts, r).p, SpellPath(i.path), SpellAlias(alias));
    T.NodeBuilt(ts, p, Green.UsePath, G.Alias(ts, r).p, T.Leaves(SpellImport(i)));
  }

  lemma ImportComplete(ts: Tokens, p: G.P, i: Import)
    requires LegalPath(i.path) && At(ts, p.pos, SpellImport(i))
    requires var k := G.KindAt(ts, p.pos + |SpellImport(i)|); k.Comma? || k.Semi?
    ensures p.pos <= |ts| && G.Import(ts, p).Good? && Took(ts, p, G.Import(ts, p).p, SpellImport(i))
    ensures G.Peek(ts, p).Ident?
  {
    hide G.PathTail, G.Alias, SpellTail;
    var tail := SpellTail(i.path[1..]);
    AtJoin(ts, p.pos, SpellPath(i.path), SpellAlias(i.alias));
    AtMore(ts, p.pos, G.Ident(i.path[0]), tail);
    var start := G.FlushStart(p, Green.UsePath);
    var q := G.Bump(ts, start);
    BumpTakes(ts, start);
    AliasFirst(ts, p.pos + |SpellPath(i.path)|, i.alias);
    TailComplete(ts, q, i.path[1..]);
    var r := G.PathTail(ts, q).p;
    AliasComplete(ts, r, i.alias);
    TookMore(ts, start, q, r, [G.Ident(i.path[0])], tail);
    TookMore(ts, start, r, G.Alias(ts, r).p, SpellPath(i.path), SpellAlias(i.alias));
  }

  /** No path goes on into an alias, and without one a comma or a semicolon follows. */
  lemma AliasFirst(ts: Tokens, i: nat, alias: Option<string>)
    requires At(ts, i, SpellAlias(alias))
    requires var k := G.KindAt(ts, i + |SpellAlias(alias)|); k.Comma? || k.Semi?
    ensures !G.KindAt(ts, i).ColonColon? && (alias.None? ==> !G.KindAt(ts, i).Ident?)
  {
    if alias.Some? {
      AtFirst(ts, i, SpellAlias(alias));
    }
  }

  lemma LegalImportsFirst(i: Import, rest: seq<Import>)
    ensures rest == [] ==> (LegalImports([i] + rest) <==> LegalPath(i.path))
    ensures rest != [] ==> (LegalImports([i] + rest) <==> LegalPath(i.path) && LegalImports(rest))
  {
    hide LegalPath;
    var all := [i] + rest;
    assert all[0] == i && forall k | 0 <= k < |rest| :: all[k + 1] == rest[k];
    if LegalImports(all) {
      forall k | 0 <= k < |rest| ensures LegalPath(rest[k].path) {
        assert LegalPath(all[k + 1].path);
      }
    }
  }

  lemma {:induction false} ImportsSound(ts: Tokens, p: G.P) returns (imports: seq<Import>)
    requires p.pos <= |ts| && G.Imports(ts, p).Good?
    ensures LegalImports(imports) && Took(ts, p, G.Imports(ts, p).p, SpellImports(imports))
    ensures T.Wrote(ts, p, G.Imports(ts, p).p, T.ImportParts(imports))
    decreases |ts| - p.pos
  {
    hide T.Grew, T.Leaves, G.Import, LegalImports, SpellImport, LegalPath;
    var i := ImportSound(ts, p);
    var q := G.Import(ts, p).p;
    BumpTakes(ts, q);
    var r := G.Bump(ts, q);
    T.BumpWrites(ts, q);
    var path := [T.Branch(Green.UsePath, T.Leaves(SpellImport(i)))];
    if G.Peek(ts, q).Comma? {
      var rest := ImportsSound(ts, r);
      imports := [i] + rest;
      assert imports[1..] == rest;
      ImportsNonempty(rest);
      LegalImportsFirst(i, rest);
      T.WroteMore(ts, q, r, G.Imports(ts, p).p, [T.Leaf(G.Comma)], T.ImportParts(rest));
      T.WroteMore(ts, p, q, G.Imports(ts, p).p, path, [T.Leaf(G.Comma)] + T.ImportParts(rest));
      TookMore(ts, q, r, G.Imports(ts, p).p, [G.Comma], SpellImports(rest));
      TookMore(ts, p, q, G.Imports(ts, p).p, SpellImport(i), [G.Comma] + SpellImports(rest));
    } else {
      imports := [i];
      LegalImportsFirst(i, []);
      assert [i] + [] == imports;
      T.WroteMore(ts, p, q, r, path, [T.Leaf(G.Semi)]);
      TookMore(ts, p, q, r, SpellImport(i), [G.Semi]);
    }
  }

  lemma ImportsNonempty(imports: seq<Import>)
    requires LegalImports(imports)
    ensures imports != []
  {
  }

  lemma {:induction false} ImportsComplete(ts: Tokens, p: G.P, imports: seq<Import>)
    requires LegalImports(imports) && At(ts, p.pos, SpellImports(imports))
    ensures p.pos <= |ts| && G.Imports(ts, p).Good? && Took(ts, p, G.Imports(ts, p).p, SpellImports(imports))
    ensures G.Peek(ts, p).Ident?
    decreases |imports|
  {
    hide G.Import, LegalImports, SpellImport, LegalPath;
    ImportsNonempty(imports);
    var i, rest := imports[0], imports[1..];
    assert imports == [i] + rest;
    LegalImportsFirst(i, rest);
    if rest == [] {
      AtJoin(ts, p.pos, SpellImport(i), [G.Semi]);
      AtOne(ts, p.pos + |SpellImport(i)|, G.Semi);
      ImportComplete(ts, p, i);
      BumpTakes(ts, G.Import(ts, p).p);
      TookMore(ts, p, G.Import(ts, p).p, G.Imports(ts, p).p, SpellImport(i), [G.Semi]);
    } else {
      AtJoin(ts, p.pos, SpellImport(i), [G.Comma] + SpellImports(rest));
      AtMore(ts, p.pos + |SpellImport(i)|, G.Comma, SpellImports(rest));
      ImportComplete(ts, p, i);
      var q := G.Import(ts, p).p;
      BumpTakes(ts, q);
      ImportsComplete(ts, G.Bump(ts, q), rest);
      TookMore(ts, q, G.Bump(ts, q), G.Imports(ts, p).p, [G.Comma], SpellImports(rest));
      TookMore(ts, p, q, G.Imports(ts, p).p, SpellImport(i), [G.Comma] + SpellImports(rest));
    }
  }

  // ----- levels -----

  function PathOf(d: Declared): seq<string>
  {
    d.0 + [d.1]
  }

  /** No function has a namespace's name. */
  predicate Clear(fns: set<Declared>, spaces: set<seq<string>>)
  {
    forall d | d in fns :: PathOf(d) !in spaces
  }

  predicate ClearP(p: G.P)
  {
    Clear(p.declared, p.namespaces)
  }

  /** What items declare, added. */
  function Declaring(p: G.P, items: seq<Top>, ns: seq<string>): G.P
  {
    p.(declared := p.declared + Elems(FunctionsOf(items, ns)), namespaces := p.namespaces + Elems(NamespacesOf(items, ns)))
  }

  /** The walk went over items of a level: their functions are new and joined, their namespaces joined. */
  predicate TookTops(ts: Tokens, p: G.P, q: G.P, items: seq<Top>, ns: seq<string>)
  {
    && At(ts, p.pos, SpellTops(items)) && q.pos == p.pos + |SpellTops(items)| && Same(Declaring(p, items, ns), q)
    && LegalTops(items, ns) && Fresh(FunctionsOf(items, ns), p.declared)
  }

  lemma OneTop(item: Top, ns: seq<string>)
    ensures SpellTops([item]) == SpellTop(item) && (LegalTops([item], ns) <==> LegalTop(item, ns))
    ensures FunctionsOf([item], ns) == FunctionsIn(item, ns) && NamespacesOf([item], ns) == NamespacesIn(item, ns)
  {
    assert [item][1..] == [];
  }

  lemma TopsMore(item: Top, rest: seq<Top>, ns: seq<string>)
    ensures SpellTops([item] + rest) == SpellTops([item]) + SpellTops(rest)
    ensures LegalTops([item] + rest, ns) <==> LegalTops([item], ns) && LegalTops(rest, ns)
    ensures FunctionsOf([item] + rest, ns) == FunctionsOf([item], ns) + FunctionsOf(rest, ns)
    ensures NamespacesOf([item] + rest, ns) == NamespacesOf([item], ns) + NamespacesOf(rest, ns)
  {
    hide SpellTop, LegalTop, FunctionsIn, NamespacesIn;
    assert ([item] + rest)[1..] == rest;
    OneTop(item, ns);
  }

  lemma TookMoreTops(ts: Tokens, p: G.P, q: G.P, r: G.P, item: Top, rest: seq<Top>, ns: seq<string>)
    requires TookTops(ts, p, q, [item], ns) && TookTops(ts, q, r, rest, ns)
    ensures TookTops(ts, p, r, [item] + rest, ns)
  {
    hide SpellTops, LegalTops, FunctionsOf, NamespacesOf, Fresh;
    TopsMore(item, rest, ns);
    AtJoin(ts, p.pos, SpellTops([item]), SpellTops(rest));
    FreshJoin(FunctionsOf([item], ns), FunctionsOf(rest, ns), p.declared);
    ElemsJoin(FunctionsOf([item], ns), FunctionsOf(rest, ns));
    ElemsJoin(NamespacesOf([item], ns), NamespacesOf(rest, ns));
    assert Same(Declaring(Declaring(p, [item], ns), rest, ns), r);
    assert p.declared + Elems(FunctionsOf([item], ns)) + Elems(FunctionsOf(rest, ns))
        == p.declared + Elems(FunctionsOf([item] + rest, ns));
    assert p.namespaces + Elems(NamespacesOf([item], ns)) + Elems(NamespacesOf(rest, ns))
        == p.namespaces + Elems(NamespacesOf([item] + rest, ns));
  }

  lemma NoTops(ts: Tokens, p: G.P, ns: seq<string>)
    requires p.pos <= |ts|
    ensures TookTops(ts, p, p, [], ns)
  {
    assert p.declared + {} == p.declared && p.namespaces + {} == p.namespaces;
  }

  /** A use, a namespace's frame or a function, added. */
  lemma UseTook(ts: Tokens, p: G.P, q: G.P, imports: seq<Import>, ns: seq<string>)
    requires LegalImports(imports) && Took(ts, p, q, [G.Ident("use")] + SpellImports(imports))
    ensures TookTops(ts, p, q, [Use(imports)], ns)
  {
    hide SpellImports, LegalImports;
    OneTop(Use(imports), ns);
    assert p.declared + {} == p.declared && p.namespaces + {} == p.namespaces;
  }

  lemma SpaceTook(ts: Tokens, p: G.P, inner: G.P, last: G.P, q: G.P, name: string, items: seq<Top>, ns: seq<string>)
    requires Definable(name) && At(ts, p.pos, T.SpaceTokens(name)) && inner.pos == p.pos + 3
    requires Same(p.(namespaces := p.namespaces + {ns + [name]}), inner) && TookTops(ts, inner, last, items, ns + [name])
    requires Took(ts, last, q, [G.RBrace])
    ensures TookTops(ts, p, q, [Namespace(name, items)], ns)
  {
    hide SpellTops, LegalTops, FunctionsOf, NamespacesOf, Fresh;
    var item := Namespace(name, items);
    OneTop(item, ns);
    AtJoin(ts, p.pos, T.SpaceTokens(name), SpellTops(items));
    AtJoin(ts, p.pos, T.SpaceTokens(name) + SpellTops(items), [G.RBrace]);
    assert SpellTop(item) == T.SpaceTokens(name) + SpellTops(items) + [G.RBrace];
    ElemsJoin([ns + [name]], NamespacesOf(items, ns + [name]));
    OneFresh(ns + [name], {});
    assert p.namespaces + {ns + [name]} + Elems(NamespacesOf(items, ns + [name]))
      == p.namespaces + Elems(NamespacesIn(item, ns));
  }

  lemma FunctionTook(ts: Tokens, p: G.P, d: G.P, h: G.P, f: G.P, q: G.P, docs: seq<Doc>, isVolatile: bool, exported: bool,
                     fn: Fn, ns: seq<string>)
    requires Took(ts, p, d, SpellDocs(docs)) && LegalDocs(docs) && Took(ts, d, h, T.ModifierTokens(isVolatile, exported))
    requires LegalFn(fn) && Took(ts, h, f, SpellFn(fn)) && (isVolatile ==> ns == [] && fn.name == "main")
    requires (ns, fn.name) !in p.declared && Same(f.(declared := f.declared + {(ns, fn.name)}), q) && q.pos == f.pos
    ensures TookTops(ts, p, q, [Function(docs, isVolatile, exported, fn)], ns)
  {
    hide SpellDocs, LegalDocs, LegalFn, SpellFn, T.ModifierTokens;
    var item := Function(docs, isVolatile, exported, fn);
    OneTop(item, ns);
    TookMore(ts, d, h, f, T.ModifierTokens(isVolatile, exported), SpellFn(fn));
    TookMore(ts, p, d, f, SpellDocs(docs), T.ModifierTokens(isVolatile, exported) + SpellFn(fn));
    SpellFunction(docs, isVolatile, exported, fn);
    OneFresh((ns, fn.name), p.declared);
    assert p.namespaces + {} == p.namespaces;
  }

  lemma SpellFunction(docs: seq<Doc>, isVolatile: bool, exported: bool, fn: Fn)
    ensures SpellTop(Function(docs, isVolatile, exported, fn))
              == SpellDocs(docs) + (T.ModifierTokens(isVolatile, exported) + SpellFn(fn))
  {
    hide SpellDocs, SpellFn;
  }

  lemma ModifiersSound(ts: Tokens, p: G.P) returns (isVolatile: bool, exported: bool, h: G.P)
    requires p.pos <= |ts|
    ensures isVolatile == G.IsModifier(ts, p)
    ensures var q := if isVolatile then G.Bump(ts, p) else p; h == (if G.IsExport(ts, q) then G.Bump(ts, q) else q)
    ensures Read(ts, p, h, T.ModifierTokens(isVolatile, exported))
  {
    hide T.Grew, T.Leaves;
    isVolatile := G.IsModifier(ts, p);
    var q := if isVolatile then G.Bump(ts, p) else p;
    exported := G.IsExport(ts, q);
    h := if exported then G.Bump(ts, q) else q;
    ReadNothing(ts, p);
    ReadNothing(ts, q);
    if isVolatile {
      BumpReads(ts, p);
    }
    if exported {
      BumpReads(ts, q);
    }
    ReadMore(ts, p, q, h, if isVolatile then [G.Ident("volatile")] else [], if exported then [G.Ident("export")] else []);
  }

  lemma DeclarationSound(ts: Tokens, p: G.P, d: G.P, docs: seq<Doc>, ns: seq<string>, at: nat) returns (item: Top)
    requires d.pos <= |ts| && G.Declaration(ts, d, ns, at).Good? && ClearP(p)
    requires Took(ts, p, d, SpellDocs(docs)) && LegalDocs(docs) && T.AtSeam(p, at) && T.Wrote(ts, p, d, T.DocParts(docs))
    ensures G.Declaration(ts, d, ns, at).value.Continue?
    ensures TookTops(ts, p, G.Declaration(ts, d, ns, at).p, [item], ns) && ClearP(G.Declaration(ts, d, ns, at).p)
    ensures T.Wrote(ts, p, G.Declaration(ts, d, ns, at).p, [T.TopNode(item)])
  {
    hide T.Grew, T.Closed, T.Leaves, T.DocParts, T.FnParts, T.AtSeam, G.FunctionBody, SpellFn, LegalFn, SpellDocs, LegalDocs,
      TookTops, T.ModifierTokens;
    var isVolatile, exported, h := ModifiersSound(ts, d);
    var start := G.StartNodeAt(h, at, Green.Function);
    var fn := FunctionSound(ts, start);
    item := Function(docs, isVolatile, exported, fn);
    T.WroteMore(ts, p, d, h, T.DocParts(docs), T.Leaves(T.ModifierTokens(isVolatile, exported)));
    T.NodeAtWrites(ts, p, at, h, Green.Function, G.FunctionBody(ts, start).p,
                   T.DocParts(docs) + T.Leaves(T.ModifierTokens(isVolatile, exported)),
                   T.FnParts(fn));
    FunctionTook(ts, p, d, h, G.FunctionBody(ts, start).p, G.Declaration(ts, d, ns, at).p, docs, isVolatile, exported, fn, ns);
    PathIs(ns, fn.name);
  }

  lemma PathIs(ns: seq<string>, name: string)
    ensures forall d: Declared :: PathOf(d) == ns + [name] ==> d == (ns, name)
  {
    forall d: Declared | PathOf(d) == ns + [name] ensures d == (ns, name) {
      assert PathOf(d)[..|d.0|] == d.0 && (ns + [name])[..|ns|] == ns;
      assert PathOf(d)[|d.0|] == d.1 && (ns + [name])[|ns|] == name;
    }
  }

  // ----- levels: what is read is legal -----

  lemma {:induction false} TopsSound(ts: Tokens, p: G.P, ns: seq<string>, block: bool) returns (items: seq<Top>, last: G.P)
    requires p.pos <= |ts| && G.TopItems(ts, p, ns, block).Good? && ClearP(p)
    ensures TookTops(ts, p, last, items, ns) && Ended(ts, last, G.TopItems(ts, p, ns, block).p, block)
    ensures ClearP(G.TopItems(ts, p, ns, block).p)
    ensures T.Wrote(ts, p, last, T.TopParts(items)) && EndWritten(ts, last, G.TopItems(ts, p, ns, block).p, block)
    decreases |ts| - p.pos, 8
  {
    hide T.Grew, T.TopNode, T.AtSeam, EndWritten, G.TopItem, TookTops, Ended;
    var s := G.Seam(p);
    var at := |s.sink.children|;
    T.SeamIs(ts, p);
    var item := TopSound(ts, s, ns, block, at);
    var q := G.TopItem(ts, s, ns, block, at).p;
    if item.None? {
      items, last := [], p;
      T.WroteNothing(ts, p);
      SeamEnds(ts, p, q, block);
      NoTops(ts, p, ns);
      EndedThere(ts, s, p, q, block);
    } else {
      var rest;
      rest, last := TopsSound(ts, q, ns, block);
      items := [item.value] + rest;
      T.SeamWrites(ts, p, q, [T.TopNode(item.value)]);
      T.WroteMore(ts, p, q, last, [T.TopNode(item.value)], T.TopParts(rest));
      SameTops(ts, s, p, q, [item.value], ns);
      TookMoreTops(ts, p, q, last, item.value, rest, ns);
    }
  }

  /** A level's end: the closing brace of a block, else the end of the file. */
  predicate Ended(ts: Tokens, p: G.P, q: G.P, block: bool)
  {
    if block then Took(ts, p, q, [G.RBrace]) else G.Peek(ts, p).Eof? && q.pos == p.pos && Same(p, q)
  }

  /** The brace is written, or else the trivia before the end. */
  predicate EndWritten(ts: Tokens, p: G.P, q: G.P, block: bool)
  {
    if block then T.Wrote(ts, p, q, [T.Leaf(G.RBrace)]) else q.sink == Green.Flush(p.sink, p.pos)
  }

  lemma SeamEnds(ts: Tokens, p: G.P, q: G.P, block: bool)
    requires EndWritten(ts, G.Seam(p), q, block)
    ensures EndWritten(ts, p, q, block)
  {
    hide T.Grew;
    if block {
      T.SeamWrites(ts, p, q, [T.Leaf(G.RBrace)]);
    }
  }

  lemma EndedThere(ts: Tokens, s: G.P, p: G.P, q: G.P, block: bool)
    requires Ended(ts, s, q, block) && Same(s, p) && s.pos == p.pos
    ensures Ended(ts, p, q, block)
  {
  }

  lemma SameTops(ts: Tokens, s: G.P, p: G.P, q: G.P, items: seq<Top>, ns: seq<string>)
    requires TookTops(ts, s, q, items, ns) && Same(s, p) && s.pos == p.pos
    ensures TookTops(ts, p, q, items, ns)
  {
    hide SpellTops, LegalTops, FunctionsOf, NamespacesOf, Fresh;
  }

  lemma {:induction false} TopSound(ts: Tokens, p: G.P, ns: seq<string>, block: bool, at: nat) returns (item: Option<Top>)
    requires p.pos <= |ts| && G.TopItem(ts, p, ns, block, at).Good? && ClearP(p) && p == G.Seam(p) && T.AtSeam(p, at)
    ensures item.None? <==> G.TopItem(ts, p, ns, block, at).value.Done?
    ensures item.None? ==> Ended(ts, p, G.TopItem(ts, p, ns, block, at).p, block)
    ensures item.Some? ==> TookTops(ts, p, G.TopItem(ts, p, ns, block, at).p, [item.value], ns)
    ensures ClearP(G.TopItem(ts, p, ns, block, at).p)
    ensures item.None? ==> EndWritten(ts, p, G.TopItem(ts, p, ns, block, at).p, block)
    ensures item.Some? ==> T.Wrote(ts, p, G.TopItem(ts, p, ns, block, at).p, [T.TopNode(item.value)])
    decreases |ts| - p.pos, 7
  {
    hide T.Grew, T.TopNode, T.AtSeam, T.DocParts, EndWritten, G.DocRunNode, G.Declaration, G.Imports, G.NamespaceBlock,
      TookTops, SpellDocs, LegalDocs, Ended;
    if G.IsDoc(G.Peek(ts, p)) {
      var docs := DocRunSound(ts, p);
      var q := G.DocRunNode(ts, p).p;
      var f := DeclarationSound(ts, p, q, docs, ns, at);
      item := Some(f);
    } else {
      item := BareTopSound(ts, p, ns, block, at);
    }
  }

  lemma {:induction false} BareTopSound(ts: Tokens, p: G.P, ns: seq<string>, block: bool, at: nat) returns (item: Option<Top>)
    requires p.pos <= |ts| && G.Plain(ts, p, ns, block, at).Good? && ClearP(p) && p == G.Seam(p) && T.AtSeam(p, at)
             && !G.IsDoc(G.Peek(ts, p))
    ensures item.None? <==> G.Plain(ts, p, ns, block, at).value.Done?
    ensures item.None? ==> Ended(ts, p, G.Plain(ts, p, ns, block, at).p, block)
    ensures item.Some? ==> TookTops(ts, p, G.Plain(ts, p, ns, block, at).p, [item.value], ns)
    ensures ClearP(G.Plain(ts, p, ns, block, at).p)
    ensures item.None? ==> EndWritten(ts, p, G.Plain(ts, p, ns, block, at).p, block)
    ensures item.Some? ==> T.Wrote(ts, p, G.Plain(ts, p, ns, block, at).p, [T.TopNode(item.value)])
    decreases |ts| - p.pos, 6
  {
    hide T.Grew, T.AtSeam, T.ImportParts, G.Declaration, G.Imports, G.NamespaceBlock, TookTops, SpellDocs, LegalDocs,
      SpellImports;
    var k := G.Peek(ts, p);
    if k.Eof? {
      item := None;
    } else if block && k.RBrace? {
      item := None;
      BumpTakes(ts, p);
      T.BumpWrites(ts, p);
    } else if G.IsUse(ts, p) {
      var start := G.FlushStart(p, Green.UseDecl);
      var q := G.Bump(ts, start);
      BumpTakes(ts, start);
      var imports := ImportsSound(ts, q);
      item := Some(Use(imports));
      T.BumpWrites(ts, start);
      T.WroteMore(ts, start, q, G.Imports(ts, q).p, [T.Leaf(G.Ident("use"))], T.ImportParts(imports));
      T.NodeBuilt(ts, p, Green.UseDecl, G.Imports(ts, q).p, [T.Leaf(G.Ident("use"))] + T.ImportParts(imports));
      TookMore(ts, start, q, G.Imports(ts, q).p, [G.Ident("use")], SpellImports(imports));
      UseTook(ts, p, G.Plain(ts, p, ns, block, at).p, imports, ns);
    } else if G.IsNamespace(ts, p) {
      var space := NamespaceSound(ts, p, ns);
      item := Some(space);
    } else {
      LegalDocsFrom([]);
      NoDocs(false, false);
      DocsFirst([]);
      TookNothing(ts, p);
      T.WroteNothing(ts, p);
      var f := DeclarationSound(ts, p, p, [], ns, at);
      item := Some(f);
    }
  }

  lemma SpaceTokens(ts: Tokens, i: nat, name: string)
    ensures At(ts, i, T.SpaceTokens(name)) <==>
            i + 3 <= |ts| && ts[i] == G.Ident("namespace") && ts[i + 1] == G.Ident(name) && ts[i + 2] == G.LBrace
  {
    if i + 3 <= |ts| {
      assert ts[i..i + 3] == [ts[i], ts[i + 1], ts[i + 2]];
    }
  }

  lemma SpaceWrites(ts: Tokens, p: G.P, name: string)
    requires p.pos <= |ts| && G.IsNamespace(ts, p) && ts[p.pos + 1].name == name
    ensures var q := G.Bump(ts, G.FlushStart(p, Green.Namespace));
            Read(ts, G.FlushStart(p, Green.Namespace), G.Bump(ts, G.Bump(ts, q)), T.SpaceTokens(name))
  {
    hide T.Grew, T.Leaves;
    var frame := G.FlushStart(p, Green.Namespace);
    var q := G.Bump(ts, frame);
    var r := G.Bump(ts, q);
    BumpReads(ts, frame);
    BumpReads(ts, q);
    BumpReads(ts, r);
    ReadMore(ts, frame, q, r, [G.Ident("namespace")], [G.Ident(name)]);
    ReadMore(ts, frame, r, G.Bump(ts, r), [G.Ident("namespace")] + [G.Ident(name)], [G.LBrace]);
    assert [G.Ident("namespace")] + [G.Ident(name)] + [G.LBrace] == T.SpaceTokens(name);
  }

  lemma {:induction false} NamespaceSound(ts: Tokens, p: G.P, ns: seq<string>) returns (item: Top)
    requires p.pos <= |ts| && G.IsNamespace(ts, p) && G.NamespaceBlock(ts, p, ns).Good? && ClearP(p)
    ensures G.NamespaceBlock(ts, p, ns).value.Continue?
    ensures TookTops(ts, p, G.NamespaceBlock(ts, p, ns).p, [item], ns) && ClearP(G.NamespaceBlock(ts, p, ns).p)
    ensures T.Wrote(ts, p, G.NamespaceBlock(ts, p, ns).p, [T.TopNode(item)])
    decreases |ts| - p.pos, 5
  {
    hide T.Grew, T.Leaves, T.TopParts, G.TopItems, TookTops;
    var name := ts[p.pos + 1].name;
    var q := G.Bump(ts, G.FlushStart(p, Green.Namespace));
    var inner := G.Bump(ts, G.Bump(ts, q));
    var child := ns + [name];
    var start := inner.(namespaces := inner.namespaces + {child});
    PathIs(ns, name);
    var items, last := TopsSound(ts, start, child, true);
    item := Namespace(name, items);
    SpaceWrites(ts, p, name);
    var frame := G.FlushStart(p, Green.Namespace);
    var end := G.TopItems(ts, start, child, true).p;
    T.WroteMore(ts, frame, start, last, T.Leaves(T.SpaceTokens(name)), T.TopParts(items));
    T.WroteMore(ts, frame, last, end, T.Leaves(T.SpaceTokens(name)) + T.TopParts(items), [T.Leaf(G.RBrace)]);
    T.NodeBuilt(ts, p, Green.Namespace, end, T.Leaves(T.SpaceTokens(name)) + T.TopParts(items) + [T.Leaf(G.RBrace)]);
    SpaceTokens(ts, p.pos, name);
    SpaceTook(ts, p, start, last, G.NamespaceBlock(ts, p, ns).p, name, items, ns);
  }

  // ----- levels: what is legal is read -----

  /** No other item of a level begins like a function. */
  lemma StartsFunction(ts: Tokens, d: G.P, block: bool, name: string)
    requires d.pos + 1 < |ts| && ts[d.pos] == G.Ident(name) && Usable(name)
    requires ts[d.pos + 1].LParen? || (ts[d.pos + 1].Ident? && (name == "volatile" || name == "export"))
    ensures G.IsFunctionStart(ts, d, block) && !G.IsDoc(G.Peek(ts, d))
    ensures G.IsModifier(ts, d) <==> name == "volatile" && !ts[d.pos + 1].LParen?
    ensures G.IsExport(ts, d) <==> name == "export" && !ts[d.pos + 1].LParen?
  {
  }

  lemma ExportComplete(ts: Tokens, q: G.P, exported: bool, fn: Fn, block: bool) returns (h: G.P)
    requires At(ts, q.pos, T.ModifierTokens(false, exported) + SpellFn(fn)) && LegalFn(fn)
    ensures q.pos + 1 < |ts| && ts[q.pos].Ident? && G.IsFunctionStart(ts, q, block) && !G.IsModifier(ts, q)
            && !G.IsDoc(G.Peek(ts, q))
    ensures h == (if G.IsExport(ts, q) then G.Bump(ts, q) else q)
    ensures Took(ts, q, h, T.ModifierTokens(false, exported)) && At(ts, h.pos, SpellFn(fn))
  {
    hide LegalFn, SpellFn, G.IsFunctionStart, G.IsModifier, G.IsExport;
    var e := if exported then [G.Ident("export")] else [];
    assert T.ModifierTokens(false, exported) == e;
    AtJoin(ts, q.pos, e, SpellFn(fn));
    FunctionFirst(ts, q.pos + |e|, fn);
    if exported {
      AtOne(ts, q.pos, G.Ident("export"));
      StartsFunction(ts, q, block, "export");
      BumpTakes(ts, q);
      h := G.Bump(ts, q);
    } else {
      StartsFunction(ts, q, block, fn.name);
      TookNothing(ts, q);
      h := q;
    }
  }

  /** A function's first tokens: its modifiers, its name and an opening parenthesis. */
  lemma ModifiersComplete(ts: Tokens, d: G.P, isVolatile: bool, exported: bool, fn: Fn, block: bool) returns (h: G.P)
    requires At(ts, d.pos, T.ModifierTokens(isVolatile, exported) + SpellFn(fn)) && LegalFn(fn)
    ensures d.pos <= |ts| && G.IsFunctionStart(ts, d, block) && isVolatile == G.IsModifier(ts, d)
    ensures var q := if isVolatile then G.Bump(ts, d) else d; h == (if G.IsExport(ts, q) then G.Bump(ts, q) else q)
    ensures Took(ts, d, h, T.ModifierTokens(isVolatile, exported)) && At(ts, h.pos, SpellFn(fn)) && !G.IsDoc(G.Peek(ts, d))
  {
    hide LegalFn, SpellFn, G.IsFunctionStart, G.IsModifier, G.IsExport;
    if isVolatile {
      var v, m := [G.Ident("volatile")], T.ModifierTokens(false, exported);
      assert T.ModifierTokens(isVolatile, exported) + SpellFn(fn) == v + (m + SpellFn(fn))
        && T.ModifierTokens(isVolatile, exported) == v + m;
      AtMore(ts, d.pos, G.Ident("volatile"), m + SpellFn(fn));
      BumpTakes(ts, d);
      var q := G.Bump(ts, d);
      h := ExportComplete(ts, q, exported, fn, block);
      StartsFunction(ts, d, block, "volatile");
      TookMore(ts, d, q, h, v, m);
    } else {
      h := ExportComplete(ts, d, exported, fn, block);
    }
  }

  lemma DeclarationComplete(ts: Tokens, p: G.P, d: G.P, docs: seq<Doc>, isVolatile: bool, exported: bool, fn: Fn,
                            ns: seq<string>, at: nat)
    requires Took(ts, p, d, SpellDocs(docs)) && LegalDocs(docs)
    requires At(ts, d.pos, T.ModifierTokens(isVolatile, exported) + SpellFn(fn)) && LegalFn(fn)
             && (isVolatile ==> ns == [] && fn.name == "main")
    requires (ns, fn.name) !in p.declared && ns + [fn.name] !in p.namespaces
    ensures d.pos <= |ts| && G.Declaration(ts, d, ns, at).Good? && G.Declaration(ts, d, ns, at).value.Continue?
    ensures TookTops(ts, p, G.Declaration(ts, d, ns, at).p, [Function(docs, isVolatile, exported, fn)], ns)
  {
    hide G.FunctionBody, SpellFn, LegalFn, SpellDocs, LegalDocs, TookTops, T.ModifierTokens;
    var h := ModifiersComplete(ts, d, isVolatile, exported, fn, false);
    var start := G.StartNodeAt(h, at, Green.Function);
    FunctionComplete(ts, start, fn);
    FunctionTook(ts, p, d, h, G.FunctionBody(ts, start).p, G.Declaration(ts, d, ns, at).p, docs, isVolatile, exported, fn, ns);
  }

  lemma ClearPart(p: G.P, item: Top, rest: seq<Top>, ns: seq<string>)
    requires ClearP(Declaring(p, [item] + rest, ns))
    ensures ClearP(Declaring(p, [item], ns)) && ClearP(Declaring(Declaring(p, [item], ns), rest, ns))
  {
    hide FunctionsOf, NamespacesOf;
    TopsMore(item, rest, ns);
    ElemsJoin(FunctionsOf([item], ns), FunctionsOf(rest, ns));
    ElemsJoin(NamespacesOf([item], ns), NamespacesOf(rest, ns));
  }

  lemma FreshTops(p: G.P, item: Top, rest: seq<Top>, ns: seq<string>)
    requires Fresh(FunctionsOf([item] + rest, ns), p.declared)
    ensures Fresh(FunctionsOf([item], ns), p.declared) && Fresh(FunctionsOf(rest, ns), Declaring(p, [item], ns).declared)
  {
    hide FunctionsOf, NamespacesOf, Fresh;
    TopsMore(item, rest, ns);
    FreshJoin(FunctionsOf([item], ns), FunctionsOf(rest, ns), p.declared);
  }

  /** What ends a level. */
  predicate EndsLevel(k: G.TokenKind, block: bool)
  {
    if block then k.RBrace? else k.Eof?
  }

  lemma {:induction false} TopsComplete(ts: Tokens, p: G.P, ns: seq<string>, block: bool, items: seq<Top>) returns (last: G.P)
    requires At(ts, p.pos, SpellTops(items)) && LegalTops(items, ns) && Fresh(FunctionsOf(items, ns), p.declared)
    requires ClearP(Declaring(p, items, ns)) && EndsLevel(G.KindAt(ts, p.pos + |SpellTops(items)|), block)
    ensures p.pos <= |ts| && G.TopItems(ts, p, ns, block).Good?
    ensures TookTops(ts, p, last, items, ns) && Ended(ts, last, G.TopItems(ts, p, ns, block).p, block)
    decreases items, 0
  {
    hide G.TopItem, TookTops, Ended, FunctionsOf, NamespacesOf, Fresh, SpellTops, LegalTops;
    var s := G.Seam(p);
    var at := |s.sink.children|;
    if items == [] {
      last := p;
      NoTops(ts, p, ns);
      TookTopsAt(ts, p, p, [], ns);
      LevelEnds(ts, s, ns, block, at);
      EndedThere(ts, s, p, G.TopItem(ts, s, ns, block, at).p, block);
    } else {
      var item, rest := items[0], items[1..];
      assert items == [item] + rest;
      TopsMore(item, rest, ns);
      OneTop(item, ns);
      AtJoin(ts, p.pos, SpellTops([item]), SpellTops(rest));
      ClearPart(p, item, rest, ns);
      FreshTops(p, item, rest, ns);
      TopComplete(ts, s, ns, block, at, item);
      var q := G.TopItem(ts, s, ns, block, at).p;
      SameTops(ts, s, p, q, [item], ns);
      TookTopsAt(ts, p, q, [item], ns);
      last := TopsComplete(ts, q, ns, block, rest);
      TookMoreTops(ts, p, q, last, item, rest, ns);
    }
  }

  lemma TookTopsAt(ts: Tokens, p: G.P, q: G.P, items: seq<Top>, ns: seq<string>)
    requires TookTops(ts, p, q, items, ns)
    ensures q.pos == p.pos + |SpellTops(items)| && Same(Declaring(p, items, ns), q) && p.pos <= |ts|
  {
    hide SpellTops, LegalTops, FunctionsOf, NamespacesOf, Fresh;
  }

  lemma LevelEnds(ts: Tokens, p: G.P, ns: seq<string>, block: bool, at: nat)
    requires p.pos <= |ts| && EndsLevel(G.KindAt(ts, p.pos), block)
    ensures G.TopItem(ts, p, ns, block, at).Good? && G.TopItem(ts, p, ns, block, at).value.Done?
    ensures Ended(ts, p, G.TopItem(ts, p, ns, block, at).p, block)
  {
    hide G.Declaration, G.Imports, G.NamespaceBlock;
    if block {
      BumpTakes(ts, p);
    }
  }

  lemma {:induction false} TopComplete(ts: Tokens, p: G.P, ns: seq<string>, block: bool, at: nat, item: Top)
    requires At(ts, p.pos, SpellTop(item)) && LegalTop(item, ns) && Fresh(FunctionsOf([item], ns), p.declared)
    requires ClearP(Declaring(p, [item], ns))
    ensures p.pos <= |ts| && G.TopItem(ts, p, ns, block, at).Good? && G.TopItem(ts, p, ns, block, at).value.Continue?
    ensures TookTops(ts, p, G.TopItem(ts, p, ns, block, at).p, [item], ns)
    decreases item, 1
  {
    hide G.DocRunNode, G.Declaration, G.Imports, G.NamespaceBlock, TookTops, SpellDocs, LegalDocs, SpellImports, LegalImports,
      SpellFn, LegalFn, SpellTops, LegalTops, NamespacesOf, Fresh;
    OneTop(item, ns);
    match item
    case Use(imports) =>
      AtMore(ts, p.pos, G.Ident("use"), SpellImports(imports));
      var start := G.FlushStart(p, Green.UseDecl);
      var q := G.Bump(ts, start);
      BumpTakes(ts, start);
      ImportsComplete(ts, q, imports);
      TookMore(ts, start, q, G.Imports(ts, q).p, [G.Ident("use")], SpellImports(imports));
      UseTook(ts, p, G.Plain(ts, p, ns, block, at).p, imports, ns);
    case Namespace(name, items) =>
      NamespaceComplete(ts, p, ns, name, items);
      SpaceStarts(ts, p.pos, name, items);
    case Function(docs, isVolatile, exported, fn) =>
      FunctionItem(ts, p, ns, block, at, docs, isVolatile, exported, fn);
  }

  lemma SpaceStarts(ts: Tokens, i: nat, name: string, items: seq<Top>)
    requires At(ts, i, SpellTop(Namespace(name, items)))
    ensures At(ts, i, T.SpaceTokens(name)) && At(ts, i + 3, SpellTops(items)) && At(ts, i + 3 + |SpellTops(items)|, [G.RBrace])
    ensures i + 3 <= |ts| && ts[i] == G.Ident("namespace") && ts[i + 1] == G.Ident(name) && ts[i + 2] == G.LBrace
  {
    hide SpellTops;
    AtJoin(ts, i, T.SpaceTokens(name) + SpellTops(items), [G.RBrace]);
    AtJoin(ts, i, T.SpaceTokens(name), SpellTops(items));
    SpaceTokens(ts, i, name);
  }

  lemma {:induction false} NamespaceComplete(ts: Tokens, p: G.P, ns: seq<string>, name: string, items: seq<Top>)
    requires At(ts, p.pos, SpellTop(Namespace(name, items))) && LegalTop(Namespace(name, items), ns)
    requires Fresh(FunctionsOf([Namespace(name, items)], ns), p.declared) && ClearP(Declaring(p, [Namespace(name, items)], ns))
    ensures p.pos <= |ts| && G.IsNamespace(ts, p) && G.NamespaceBlock(ts, p, ns).Good?
            && G.NamespaceBlock(ts, p, ns).value.Continue?
    ensures TookTops(ts, p, G.NamespaceBlock(ts, p, ns).p, [Namespace(name, items)], ns)
    decreases items, 1
  {
    hide G.TopItems, TookTops, SpellTops, LegalTops, Fresh;
    SpaceStarts(ts, p.pos, name, items);
    OneTop(Namespace(name, items), ns);
    var child := ns + [name];
    var inner := G.Bump(ts, G.Bump(ts, G.Bump(ts, G.FlushStart(p, Green.Namespace))));
    var start := inner.(namespaces := inner.namespaces + {child});
    SpaceDeclares(p, start, ns, name, items);
    AtOne(ts, p.pos + 3 + |SpellTops(items)|, G.RBrace);
    var last := TopsComplete(ts, start, child, true, items);
    SpaceTook(ts, p, start, last, G.NamespaceBlock(ts, p, ns).p, name, items, ns);
  }

  lemma SpaceDeclares(p: G.P, start: G.P, ns: seq<string>, name: string, items: seq<Top>)
    requires ClearP(Declaring(p, [Namespace(name, items)], ns)) && Same(p.(namespaces := p.namespaces + {ns + [name]}), start)
    ensures ClearP(Declaring(start, items, ns + [name])) && (ns, name) !in p.declared
  {
    hide FunctionsOf, NamespacesOf;
    var item := Namespace(name, items);
    OneTop(item, ns);
    ElemsJoin([ns + [name]], NamespacesOf(items, ns + [name]));
    OneFresh(ns + [name], {});
    assert FunctionsIn(item, ns) == FunctionsOf(items, ns + [name]);
    assert NamespacesIn(item, ns) == [ns + [name]] + NamespacesOf(items, ns + [name]);
    assert ns + [name] in Declaring(p, [item], ns).namespaces;
    assert PathOf((ns, name)) == ns + [name];
  }

  lemma FunctionItem(ts: Tokens, p: G.P, ns: seq<string>, block: bool, at: nat, docs: seq<Doc>, isVolatile: bool,
                     exported: bool, fn: Fn)
    requires var item := Function(docs, isVolatile, exported, fn);
             && At(ts, p.pos, SpellTop(item)) && LegalTop(item, ns) && Fresh(FunctionsOf([item], ns), p.declared)
             && ClearP(Declaring(p, [item], ns))
    ensures p.pos <= |ts| && G.TopItem(ts, p, ns, block, at).Good? && G.TopItem(ts, p, ns, block, at).value.Continue?
    ensures TookTops(ts, p, G.TopItem(ts, p, ns, block, at).p, [Function(docs, isVolatile, exported, fn)], ns)
  {
    hide G.DocRunNode, G.Declaration, G.Imports, G.NamespaceBlock, TookTops, SpellDocs, LegalDocs, SpellFn, LegalFn,
      T.ModifierTokens, Fresh;
    var item := Function(docs, isVolatile, exported, fn);
    OneTop(item, ns);
    OneFresh((ns, fn.name), p.declared);
    SpellFunction(docs, isVolatile, exported, fn);
    AtJoin(ts, p.pos, SpellDocs(docs), T.ModifierTokens(isVolatile, exported) + SpellFn(fn));
    FunctionClear(p, docs, isVolatile, exported, fn, ns);
    DocsFirst(docs);
    if docs == [] {
      TookNothing(ts, p);
      var h := ModifiersComplete(ts, p, isVolatile, exported, fn, block);
      DeclarationComplete(ts, p, p, [], isVolatile, exported, fn, ns, at);
    } else {
      AtFirst(ts, p.pos, SpellDocs(docs));
      var first := p.(pos := p.pos + |SpellDocs(docs)|);
      var h := ModifiersComplete(ts, first, isVolatile, exported, fn, block);
      DocRunComplete(ts, p, docs);
      var d := G.DocRunNode(ts, p).p;
      h := ModifiersComplete(ts, d, isVolatile, exported, fn, block);
      DeclarationComplete(ts, p, d, docs, isVolatile, exported, fn, ns, at);
    }
  }

  lemma FunctionClear(p: G.P, docs: seq<Doc>, isVolatile: bool, exported: bool, fn: Fn, ns: seq<string>)
    requires ClearP(Declaring(p, [Function(docs, isVolatile, exported, fn)], ns))
    ensures ns + [fn.name] !in p.namespaces
  {
    hide LegalFn;
    var item := Function(docs, isVolatile, exported, fn);
    OneTop(item, ns);
    assert (ns, fn.name) in FunctionsOf([item], ns);
    assert (ns, fn.name) in Declaring(p, [item], ns).declared;
    assert PathOf((ns, fn.name)) == ns + [fn.name];
  }

  // ----- the theorem -----

  lemma ClearIs(fns: seq<Declared>, spaces: seq<seq<string>>)
    ensures Clear(Elems(fns), Elems(spaces)) <==>
            forall i, k | 0 <= i < |fns| && 0 <= k < |spaces| :: fns[i].0 + [fns[i].1] != spaces[k]
  {
    if Clear(Elems(fns), Elems(spaces)) {
      forall i, k | 0 <= i < |fns| && 0 <= k < |spaces| ensures fns[i].0 + [fns[i].1] != spaces[k] {
        assert fns[i] in Elems(fns) && spaces[k] in Elems(spaces);
        assert PathOf(fns[i]) == fns[i].0 + [fns[i].1];
      }
    }
  }

  /** No item is spelled with the end of the file. */
  predicate NoEnd(s: Tokens)
  {
    forall k | 0 <= k < |s| :: !s[k].Eof?
  }

  lemma EndJoin(a: Tokens, b: Tokens)
    requires NoEnd(a) && NoEnd(b)
    ensures NoEnd(a + b)
  {
  }

  lemma {:induction false} TailEnd(names: seq<string>)
    ensures NoEnd(SpellTail(names))
  {
    if names != [] {
      TailEnd(names[1..]);
    }
  }

  lemma CommandEnd(c: Command)
    ensures NoEnd(SpellCommand(c))
  {
    hide SpellTail;
    if c.Call? && c.path != [] {
      TailEnd(c.path[1..]);
    }
  }

  lemma {:induction false} RestEnd(commands: seq<Command>)
    ensures NoEnd(SpellRest(commands)) && NoEnd(SpellGroup(commands))
  {
    hide SpellCommand;
    if commands != [] {
      CommandEnd(commands[0]);
      RestEnd(commands[1..]);
    }
  }

  lemma {:induction false} LabelsEnd(labels: seq<Label>)
    ensures NoEnd(SpellLabels(labels))
  {
    if labels != [] {
      LabelsEnd(labels[1..]);
    }
  }

  lemma {:induction false} DocsEnd(docs: seq<Doc>)
    ensures NoEnd(SpellDocs(docs))
  {
    if docs != [] {
      DocsEnd(docs[1..]);
    }
  }

  lemma {:induction false} FunctionEnd(fn: Fn)
    ensures NoEnd(SpellFn(fn))
    decreases fn
  {
    hide SpellBody;
    BodyEnd(fn.body);
  }

  lemma {:induction false} BodyEnd(items: seq<Item>)
    ensures NoEnd(SpellBody(items))
    decreases items
  {
    hide SpellItem;
    if items != [] {
      ItemEnd(items[0]);
      BodyEnd(items[1..]);
    }
  }

  lemma {:induction false} ItemEnd(item: Item)
    ensures NoEnd(SpellItem(item))
    decreases item
  {
    hide SpellDocs, SpellFn, SpellLabels, SpellGroup;
    match item
    case Nested(docs, fn) =>
      DocsEnd(docs);
      FunctionEnd(fn);
    case Do(labels, commands) =>
      LabelsEnd(labels);
      RestEnd(commands);
  }

  lemma {:induction false} ImportsEnd(imports: seq<Import>)
    ensures NoEnd(SpellImports(imports))
  {
    hide SpellTail;
    if imports != [] {
      if imports[0].path != [] {
        TailEnd(imports[0].path[1..]);
      }
      ImportsEnd(imports[1..]);
    }
  }

  lemma {:induction false} TopEnd(item: Top)
    ensures NoEnd(SpellTop(item))
    decreases item
  {
    hide SpellImports, SpellTops, SpellDocs, SpellFn;
    match item
    case Use(imports) => ImportsEnd(imports);
    case Namespace(_, items) => AllEnd(items);
    case Function(docs, _, _, fn) =>
      DocsEnd(docs);
      FunctionEnd(fn);
  }

  lemma {:induction false} AllEnd(items: seq<Top>)
    ensures NoEnd(SpellTops(items))
    decreases items
  {
    hide SpellTop;
    if items != [] {
      TopEnd(items[0]);
      AllEnd(items[1..]);
    }
  }

  lemma TopsEnd(ts: Tokens, items: seq<Top>)
    requires G.Lexed(ts) && At(ts, 0, SpellTops(items))
    ensures |SpellTops(items)| < |ts|
  {
    AllEnd(items);
    var s := SpellTops(items);
    assert forall k | 0 <= k < |s| :: ts[k] == ts[0..0 + |s|][k] == s[k];
  }

  /** What is accepted is the spelling of a legal program. */
  lemma WalkSound(ts: Tokens) returns (items: seq<Top>)
    requires G.Lexed(ts) && G.Walk(ts).Good?
    ensures Legal(items) && ts == Spell(items)
    ensures var tree := G.TreeOf(G.Walk(ts).p); |tree| == 1 && T.ShapeOf(ts, tree[0]) == T.FileShape(items)
  {
    hide T.Grew, T.TopParts, T.ShapeOf, G.TopItems, SpellTops, LegalTops, FunctionsOf, NamespacesOf;
    var last;
    items, last := TopsSound(ts, G.File0(), [], false);
    T.RootIs(ts, last, items);
    SinkIs(last, G.Walk(ts).p);
    FromStart(items, last);
    TopsEnd(ts, items);
    assert last.pos == |ts| - 1;
    assert ts == ts[..|ts| - 1] + [ts[|ts| - 1]];
  }

  lemma SinkIs(last: G.P, q: G.P)
    requires q.sink == Green.Flush(last.sink, last.pos) && q.pos == last.pos
    ensures G.TreeOf(q) == G.TreeOf(last.(sink := Green.Flush(last.sink, last.pos)))
  {
  }

  lemma FromStart(items: seq<Top>, last: G.P)
    requires Same(Declaring(G.File0(), items, []), last) && LegalTops(items, []) && Fresh(FunctionsOf(items, []), {})
             && ClearP(last)
    ensures Legal(items)
  {
    hide FunctionsOf, NamespacesOf, LegalTops;
    ClearIs(FunctionsOf(items, []), NamespacesOf(items, []));
  }

  /** The spelling of every legal program is accepted. */
  lemma WalkComplete(items: seq<Top>)
    requires Legal(items)
    ensures G.Walk(Spell(items)).Good?
  {
    hide G.TopItems, SpellTops, LegalTops, FunctionsOf, NamespacesOf, TookTops;
    var ts := Spell(items);
    AtJoin(ts, 0, SpellTops(items), [G.Eof]);
    assert ts[0..0 + |ts|] == ts;
    AtOne(ts, |SpellTops(items)|, G.Eof);
    AsDeclared(items);
    var last := TopsComplete(ts, G.File0(), [], false, items);
  }

  lemma AsDeclared(items: seq<Top>)
    requires Legal(items)
    ensures Fresh(FunctionsOf(items, []), G.File0().declared) && ClearP(Declaring(G.File0(), items, []))
  {
    hide FunctionsOf, NamespacesOf, LegalTops;
    ClearIs(FunctionsOf(items, []), NamespacesOf(items, []));
  }

  /** The parser accepts a token list if and only if it is how some legal program is spelled: every group of
      commands, label, doc run, import, modifier and name as the language has them, and nothing else. */
  lemma AcceptsExactlyLegal(ts: Tokens)
    requires G.Lexed(ts)
    ensures G.Walk(ts).Good? <==> exists items :: Legal(items) && ts == Spell(items)
  {
    hide G.Walk, Legal, Spell;
    if G.Walk(ts).Good? {
      var items := WalkSound(ts);
    }
    if items :| Legal(items) && ts == Spell(items) {
      WalkComplete(items);
    }
  }

  /** The tree is that of a program these tokens spell: its nodes are the program's, each around its own tokens,
      with the trivia outside the nodes that begin behind it. */
  ghost predicate ProgramTree(ts: Tokens, tree: Green.Tree)
  {
    exists items :: Legal(items) && ts == Spell(items) && T.ShapeOf(ts, tree) == T.FileShape(items)
  }

  /** What is accepted has such a tree. */
  lemma AcceptedTree(ts: Tokens)
    requires G.Lexed(ts) && G.Walk(ts).Good?
    ensures var tree := G.TreeOf(G.Walk(ts).p); |tree| == 1 && ProgramTree(ts, tree[0])
  {
    hide G.Walk, Legal, Spell, T.ShapeOf, T.FileShape;
    var items := WalkSound(ts);
  }
}
