/** What a `.pmc` syntax error says of the token it points at. */
module PmBlame {
  import opened Options
  import opened PmLanguage
  import G = PmGrammar
  import Green = PmGreen

  predicate Named(ts: Tokens, i: nat, name: string)
  {
    G.KindAt(ts, i) == G.Ident(name)
  }

  predicate Behind(ts: Tokens, i: nat, k: G.TokenKind)
  {
    i > 0 && G.KindAt(ts, i - 1) == k
  }

  /** The token an error points at is what the error speaks of. */
  ghost predicate Blames(ts: Tokens, e: G.SyntaxError)
  {
    match e.kind
    case Expected(_, found) => G.KindAt(ts, e.at) == found
    case DocLineOrder => G.KindAt(ts, e.at).DocLine? && e.at > 0 && G.KindAt(ts, e.at - 1).AttentionLine?
    case DuplicateAttribute => G.KindAt(ts, e.at).AttentionLine? && HasAttribute(G.KindAt(ts, e.at).text, "deprecated")
    case UnknownAttribute(name) =>
      G.KindAt(ts, e.at).AttentionLine? && HasAttribute(G.KindAt(ts, e.at).text, name) && name != "deprecated"
    case DanglingDocRun => G.KindAt(ts, e.at).DocLine? || G.KindAt(ts, e.at).AttentionLine?
    case KeywordNeedsName(word) => Named(ts, e.at, word) && G.KindAt(ts, e.at + 1).LBrace?
    case TopLevelStatement(found) =>
      G.KindAt(ts, e.at) == found && (found.At? || (found.Ident? && found.name in KEYWORDS))
    case ReservedName(name, what) => Named(ts, e.at, name) && !Definable(name) && (what == "path segment" ==> !Usable(name))
    case SingleColonInPath => G.KindAt(ts, e.at).Colon?
    case DuplicateName(name, _) => Named(ts, e.at, name)
    case VolatileNotOnMain(_) => Named(ts, e.at, "volatile")
    case NestedExport => Named(ts, e.at, "export")
    case DuplicateLabel(v) => G.KindAt(ts, e.at).Number? && G.KindAt(ts, e.at).value == v
    case DanglingLabel(_) => G.KindAt(ts, e.at).RBrace?
    case BuiltinCalled(name) => Named(ts, e.at, name) && !Usable(name) && Behind(ts, e.at, G.At)
    case GroupPosition(what) =>
      if what == "goto cannot appear in a comma group" then G.KindAt(ts, e.at).Comma? || Named(ts, e.at, "goto")
      else G.KindAt(ts, e.at).Comma?
    case GotoReturn => G.KindAt(ts, e.at).Bang? && Behind(ts, e.at, G.Ident("goto"))
    case EmptyBuiltinParens(name) => G.KindAt(ts, e.at).LParen? && G.KindAt(ts, e.at + 1).RParen? && Behind(ts, e.at, G.Ident(name))
    case KeywordInBody(word) => Named(ts, e.at, word) && (word == "use" || word == "namespace")
    case UnknownCommand(name) => Named(ts, e.at, name) && Usable(name)
  }

  /** A production that fails blames a token rightly. */
  ghost predicate Right<T>(ts: Tokens, r: G.Res<T>)
  {
    r.Bad? ==> Blames(ts, r.error)
  }

  lemma ExpectBlames(ts: Tokens, p: G.P, kind: G.TokenKind, what: string)
    requires p.pos <= |ts| && !kind.Eof?
    ensures Right(ts, G.Expect(ts, p, kind, what))
  {
  }

  lemma {:induction false} DocLinesBlame(ts: Tokens, p: G.P, attention: bool, deprecated: bool)
    requires p.pos <= |ts| && (attention ==> p.pos > 0 && G.KindAt(ts, p.pos - 1).AttentionLine?)
    ensures Right(ts, G.DocLines(ts, p, attention, deprecated))
    decreases |ts| - p.pos
  {
    hide G.ParseAttr, HasAttribute;
    match G.Peek(ts, p)
    case DocLine =>
      if !attention {
        DocLinesBlame(ts, G.Bump(ts, p), attention, deprecated);
      }
    case AttentionLine(text) =>
      AttrBlames(text);
      DocLinesBlame(ts, G.Bump(ts, p), true, deprecated);
      DocLinesBlame(ts, G.Bump(ts, p), true, true);
    case _ =>
  }

  lemma AttrBlames(text: string)
    ensures G.ParseAttr(text).Some? ==> HasAttribute(text, G.ParseAttr(text).value)
  {
    hide G.ParseAttr, HasAttribute;
    if G.ParseAttr(text).Some? {
      AttributeIs(text, G.ParseAttr(text).value);
    }
  }

  lemma DocRunBlames(ts: Tokens, p: G.P)
    requires p.pos <= |ts|
    ensures Right(ts, G.DocRunNode(ts, p))
  {
    hide G.DocLines, Blames;
    DocLinesBlame(ts, G.FlushStart(p, Green.DocRun), false, false);
  }

  lemma {:induction false} PathTailBlames(ts: Tokens, p: G.P)
    requires p.pos <= |ts|
    ensures Right(ts, G.PathTail(ts, p))
    decreases |ts| - p.pos
  {
    if G.Peek(ts, p).ColonColon? {
      var q := G.Bump(ts, p);
      if G.Peek(ts, q).Ident? && G.Peek(ts, q).name !in G.RESERVED {
        PathTailBlames(ts, G.Bump(ts, q));
      }
    }
  }

  lemma AliasBlames(ts: Tokens, p: G.P)
    requires p.pos <= |ts|
    ensures Right(ts, G.Alias(ts, p))
  {
  }

  lemma ImportBlames(ts: Tokens, p: G.P)
    requires p.pos <= |ts|
    ensures Right(ts, G.Import(ts, p))
  {
    hide G.PathTail, G.Alias;
    var q := G.Bump(ts, G.FlushStart(p, Green.UsePath));
    PathTailBlames(ts, q);
    AliasBlames(ts, G.PathTail(ts, q).p);
  }

  lemma {:induction false} ImportsBlame(ts: Tokens, p: G.P)
    requires p.pos <= |ts|
    ensures Right(ts, G.Imports(ts, p))
    decreases |ts| - p.pos
  {
    hide G.Import;
    ImportBlames(ts, p);
    var r := G.Import(ts, p);
    if r.Good? && G.Peek(ts, r.p).Comma? {
      ImportsBlame(ts, G.Bump(ts, r.p));
    }
  }

  // ----- statements -----

  lemma CallBlames(ts: Tokens, p: G.P)
    requires 0 < p.pos <= |ts| && G.KindAt(ts, p.pos - 1).At?
    ensures Right(ts, G.CallItem(ts, p))
  {
    hide G.PathTail, G.Expect, G.Successor;
    var q := G.Bump(ts, p);
    PathTailBlames(ts, q);
    var r := G.PathTail(ts, q).p;
    ExpectBlames(ts, r, G.LParen, "`(` (user calls are written `@name()`)");
    var open := G.Expect(ts, r, G.LParen, "`(` (user calls are written `@name()`)").p;
    ExpectBlames(ts, G.Successor(ts, open).1, G.RParen, "`)`");
  }

  lemma CheckBlames(ts: Tokens, p: G.P)
    requires p.pos <= |ts|
    ensures Right(ts, G.CheckArms(ts, p))
  {
  }

  lemma BuiltinBlames(ts: Tokens, p: G.P, word: string)
    requires 0 < p.pos <= |ts| && Named(ts, p.pos - 1, word)
    ensures Right(ts, G.BuiltinTail(ts, p, word))
  {
  }

  lemma OneBlames(ts: Tokens, p: G.P, inGroup: bool)
    requires p.pos <= |ts|
    ensures Right(ts, G.OneItem(ts, p, inGroup))
  {
    hide G.CallItem, G.CheckArms, G.BuiltinTail;
    var q := G.Bump(ts, p);
    if G.Peek(ts, p).At? {
      CallBlames(ts, q);
    } else if G.Peek(ts, p).Ident? {
      CheckBlames(ts, q);
      BuiltinBlames(ts, q, G.Peek(ts, p).name);
    }
  }

  lemma CommaBlamed(ts: Tokens, i: nat, what: string)
    requires G.KindAt(ts, i).Comma?
    ensures Blames(ts, G.SyntaxError(i, G.GroupPosition(what)))
  {
  }

  lemma PositionBlames(ts: Tokens, p: G.P, last: G.Shape)
    requires p.pos <= |ts| && G.Peek(ts, p).Comma? && G.GroupRule(last).Some?
    ensures Right(ts, G.GroupTail(ts, p, last))
  {
    hide G.OneItem, G.GroupRule, Blames;
    CommaBlamed(ts, p.pos, G.GroupRule(last).value);
  }

  lemma {:induction false} GroupBlames(ts: Tokens, p: G.P, last: G.Shape)
    requires p.pos <= |ts|
    ensures Right(ts, G.GroupTail(ts, p, last))
    decreases |ts| - p.pos
  {
    hide G.OneItem, G.Expect, Blames, G.GroupRule;
    if !G.Peek(ts, p).Comma? {
      ExpectBlames(ts, p, G.Semi, "`;`");
    } else if G.GroupRule(last).Some? {
      PositionBlames(ts, p, last);
    } else {
      var item := G.FlushStart(G.Bump(ts, p), Green.Item);
      OneBlames(ts, item, true);
      var r := G.OneItem(ts, item, true);
      if r.Good? {
        GroupBlames(ts, G.FinishNode(r.p), r.value);
      }
    }
  }

  lemma StatementBlames(ts: Tokens, p: G.P)
    requires p.pos <= |ts|
    ensures Right(ts, G.StatementBody(ts, p))
  {
    hide G.OneItem, G.GroupTail, Blames;
    var item := G.FlushStart(p, Green.Item);
    OneBlames(ts, item, false);
    var r := G.OneItem(ts, item, false);
    if r.Good? {
      GroupBlames(ts, G.FinishNode(r.p), r.value);
    }
  }

  lemma {:induction false} LabelsBlame(ts: Tokens, p: G.P, first: Option<nat>)
    requires p.pos <= |ts|
    ensures Right(ts, G.Labels(ts, p, first))
    decreases |ts| - p.pos
  {
    hide G.Expect;
    if G.Peek(ts, p).Number? {
      var n := G.Peek(ts, p).value;
      var start := G.Bump(ts, G.FlushStart(p, Green.Label));
      ExpectBlames(ts, start, G.Colon, "`:` after a label number");
      var colon := G.Expect(ts, start, G.Colon, "`:` after a label number");
      if colon.Good? {
        var q := G.FinishNode(colon.p);
        LabelsBlame(ts, q.(scope := q.scope.(labels := q.scope.labels + {n})), if first.Some? then first else Some(n));
      }
    }
  }

  // ----- functions and levels -----

  lemma HeaderBlames(ts: Tokens, p: G.P)
    requires p.pos <= |ts|
    ensures Right(ts, G.Header(ts, p))
    ensures G.Header(ts, p).Good? ==> Named(ts, G.Header(ts, p).value.at, G.Header(ts, p).value.name)
  {
  }

  lemma {:induction false} FunctionBlames(ts: Tokens, p: G.P)
    requires p.pos <= |ts|
    ensures Right(ts, G.FunctionBody(ts, p))
    ensures G.FunctionBody(ts, p).Good? ==> Named(ts, G.FunctionBody(ts, p).value.at, G.FunctionBody(ts, p).value.name)
    decreases |ts| - p.pos, 1
  {
    hide G.Header, G.BodyItems, Blames;
    HeaderBlames(ts, p);
    if G.Header(ts, p).Good? {
      BodyBlames(ts, G.Header(ts, p).p.(scope := G.NO_SCOPE));
    }
  }

  lemma {:induction false} BodyBlames(ts: Tokens, p: G.P)
    requires p.pos <= |ts|
    ensures Right(ts, G.BodyItems(ts, p))
    decreases |ts| - p.pos, 4
  {
    hide G.BodyItem, Blames;
    var s := G.Seam(p);
    ItemBlames(ts, s, |s.sink.children|);
    var r := G.BodyItem(ts, s, |s.sink.children|);
    if r.Good? && r.value.Continue? {
      BodyBlames(ts, r.p);
    }
  }

  lemma {:induction false} ItemBlames(ts: Tokens, p: G.P, at: nat)
    requires p.pos <= |ts|
    ensures Right(ts, G.BodyItem(ts, p, at))
    decreases |ts| - p.pos, 3
  {
    hide G.DocRunNode, G.Undocumented;
    if G.IsDoc(G.Peek(ts, p)) {
      DocRunBlames(ts, p);
      if G.DocRunNode(ts, p).Good? {
        UndocumentedBlames(ts, G.DocRunNode(ts, p).p, at);
      }
    } else {
      UndocumentedBlames(ts, p, at);
    }
  }

  lemma {:induction false} UndocumentedBlames(ts: Tokens, p: G.P, at: nat)
    requires p.pos <= |ts|
    ensures Right(ts, G.Undocumented(ts, p, at))
    decreases |ts| - p.pos, 2
  {
    hide G.FunctionBody, G.Labels, G.StatementBody;
    if G.IsNestedStart(ts, p) {
      FunctionBlames(ts, G.StartNodeAt(p, at, Green.Function));
    } else {
      LabelsBlame(ts, p, None);
      var labels := G.Labels(ts, p, None);
      if labels.Good? {
        StatementBlames(ts, G.StartNodeAt(labels.p, at, Green.Statement));
      }
    }
  }

  lemma {:induction false} TopsBlame(ts: Tokens, p: G.P, ns: seq<string>, block: bool)
    requires p.pos <= |ts|
    ensures Right(ts, G.TopItems(ts, p, ns, block))
    decreases |ts| - p.pos, 8
  {
    hide G.TopItem, Blames;
    var s := G.Seam(p);
    TopBlames(ts, s, ns, block, |s.sink.children|);
    var r := G.TopItem(ts, s, ns, block, |s.sink.children|);
    if r.Good? && r.value.Continue? {
      TopsBlame(ts, r.p, ns, block);
    }
  }

  lemma {:induction false} TopBlames(ts: Tokens, p: G.P, ns: seq<string>, block: bool, at: nat)
    requires p.pos <= |ts|
    ensures Right(ts, G.TopItem(ts, p, ns, block, at))
    decreases |ts| - p.pos, 7
  {
    hide G.DocRunNode, G.Plain;
    if G.IsDoc(G.Peek(ts, p)) {
      DocRunBlames(ts, p);
      if G.DocRunNode(ts, p).Good? {
        PlainBlames(ts, G.DocRunNode(ts, p).p, ns, block, at);
      }
    } else {
      PlainBlames(ts, p, ns, block, at);
    }
  }

  lemma {:induction false} PlainBlames(ts: Tokens, p: G.P, ns: seq<string>, block: bool, at: nat)
    requires p.pos <= |ts|
    ensures Right(ts, G.Plain(ts, p, ns, block, at))
    decreases |ts| - p.pos, 6
  {
    hide G.Imports, G.NamespaceBlock, G.Declaration;
    if G.IsUse(ts, p) {
      ImportsBlame(ts, G.Bump(ts, G.FlushStart(p, Green.UseDecl)));
    }
    if G.IsNamespace(ts, p) {
      NamespaceBlames(ts, p, ns);
    }
    DeclarationBlames(ts, p, ns, at);
  }

  lemma {:induction false} NamespaceBlames(ts: Tokens, p: G.P, ns: seq<string>)
    requires p.pos <= |ts| && G.IsNamespace(ts, p)
    ensures Right(ts, G.NamespaceBlock(ts, p, ns))
    decreases |ts| - p.pos, 5
  {
    hide G.TopItems;
    var name := G.KindAt(ts, p.pos + 1).name;
    var q := G.Bump(ts, G.FlushStart(p, Green.Namespace));
    var inner := G.Bump(ts, G.Bump(ts, q));
    TopsBlame(ts, inner.(namespaces := inner.namespaces + {ns + [name]}), ns + [name], true);
  }

  lemma {:induction false} DeclarationBlames(ts: Tokens, p: G.P, ns: seq<string>, at: nat)
    requires p.pos <= |ts|
    ensures Right(ts, G.Declaration(ts, p, ns, at))
    decreases |ts| - p.pos, 5
  {
    hide G.FunctionBody;
    var q := if G.IsModifier(ts, p) then G.Bump(ts, p) else p;
    var h := if G.IsExport(ts, q) then G.Bump(ts, q) else q;
    FunctionBlames(ts, G.StartNodeAt(h, at, Green.Function));
  }

  /** The error that stops the parser points at a token that is what the error speaks of. */
  lemma WalkBlames(ts: Tokens)
    ensures G.Walk(ts).Bad? ==> Blames(ts, G.Walk(ts).error)
  {
    hide G.TopItems, Blames;
    TopsBlame(ts, G.File0(), [], false);
  }
}
