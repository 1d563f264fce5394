/** Function bodies: what the grammar reads is the spelling of a legal body, and it reads every one. */
module PmBodies {
  import opened Options
  import opened PmLanguage
  import G = PmGrammar
  import S = PmSyntax
  import Green = PmGreen
  import T = PmTree

  // ----- places in the token list -----

  predicate At(ts: Tokens, i: nat, s: Tokens)
  {
    i + |s| <= |ts| && ts[i..i + |s|] == s
  }

  lemma AtJoin(ts: Tokens, i: nat, a: Tokens, b: Tokens)
    ensures At(ts, i, a + b) <==> At(ts, i, a) && At(ts, i + |a|, b)
  {
    if At(ts, i, a + b) {
      assert ts[i..i + |a|] == ts[i..i + |a + b|][..|a|] == a;
      assert ts[i + |a|..i + |a| + |b|] == ts[i..i + |a + b|][|a|..] == b;
    }
    if At(ts, i, a) && At(ts, i + |a|, b) {
      assert ts[i..i + |a + b|] == ts[i..i + |a|] + ts[i + |a|..i + |a| + |b|];
    }
  }

  lemma AtOne(ts: Tokens, i: nat, k: G.TokenKind)
    ensures At(ts, i, [k]) <==> i < |ts| && ts[i] == k
  {
    if i < |ts| {
      assert ts[i..i + 1] == [ts[i]];
    }
  }

  lemma AtFirst(ts: Tokens, i: nat, s: Tokens)
    requires At(ts, i, s) && s != []
    ensures i < |ts| && G.KindAt(ts, i) == s[0] && At(ts, i + 1, s[1..])
  {
    assert s == [s[0]] + s[1..];
    AtJoin(ts, i, [s[0]], s[1..]);
    AtOne(ts, i, s[0]);
  }

  lemma AtMore(ts: Tokens, i: nat, k: G.TokenKind, s: Tokens)
    ensures At(ts, i, [k] + s) <==> i < |ts| && ts[i] == k && At(ts, i + 1, s)
  {
    AtJoin(ts, i, [k], s);
    AtOne(ts, i, k);
  }

  /** Everything but position and tree is as it was. */
  predicate Same(p: G.P, q: G.P)
  {
    q.namespaces == p.namespaces && q.declared == p.declared && q.scope == p.scope
  }

  /** The walk went over these tokens, and changed nothing else. */
  predicate Took(ts: Tokens, p: G.P, q: G.P, s: Tokens)
  {
    At(ts, p.pos, s) && q.pos == p.pos + |s| && Same(p, q)
  }

  /** It went over these tokens, none of which opens a node. */
  predicate Read(ts: Tokens, p: G.P, q: G.P, s: Tokens)
  {
    Took(ts, p, q, s) && T.Wrote(ts, p, q, T.Leaves(s))
  }

  lemma ReadNothing(ts: Tokens, p: G.P)
    requires p.pos <= |ts|
    ensures Read(ts, p, p, [])
  {
    hide T.Grew;
    TookNothing(ts, p);
    T.WroteNothing(ts, p);
    assert T.Leaves([]) == [];
  }

  lemma ReadMore(ts: Tokens, p: G.P, q: G.P, r: G.P, a: Tokens, b: Tokens)
    requires Read(ts, p, q, a) && Read(ts, q, r, b)
    ensures Read(ts, p, r, a + b)
  {
    hide T.Grew, T.Leaves;
    TookMore(ts, p, q, r, a, b);
    T.WroteMore(ts, p, q, r, T.Leaves(a), T.Leaves(b));
    T.LeavesMore(a, b);
  }

  lemma BumpReads(ts: Tokens, p: G.P)
    requires p.pos < |ts| && !ts[p.pos].Eof?
    ensures Read(ts, p, G.Bump(ts, p), [ts[p.pos]])
  {
    hide T.Grew;
    BumpTakes(ts, p);
    T.BumpWrites(ts, p);
    assert T.Leaves([ts[p.pos]]) == [T.Leaf(ts[p.pos])];
  }

  lemma ExpectReads(ts: Tokens, p: G.P, kind: G.TokenKind, what: string)
    requires p.pos <= |ts| && !kind.Eof?
    ensures G.Expect(ts, p, kind, what).Good? <==> At(ts, p.pos, [kind])
    ensures G.Expect(ts, p, kind, what).Good? ==> Read(ts, p, G.Expect(ts, p, kind, what).p, [kind])
  {
    hide T.Grew, T.Leaves;
    ExpectTakes(ts, p, kind, what);
    if p.pos < |ts| && ts[p.pos] == kind {
      BumpReads(ts, p);
    }
  }

  lemma TookNothing(ts: Tokens, p: G.P)
    requires p.pos <= |ts|
    ensures Took(ts, p, p, [])
  {
  }

  lemma TookMore(ts: Tokens, p: G.P, q: G.P, r: G.P, a: Tokens, b: Tokens)
    requires Took(ts, p, q, a) && Took(ts, q, r, b)
    ensures Took(ts, p, r, a + b)
  {
    AtJoin(ts, p.pos, a, b);
  }

  lemma BumpTakes(ts: Tokens, p: G.P)
    requires p.pos < |ts| && !ts[p.pos].Eof?
    ensures Took(ts, p, G.Bump(ts, p), [ts[p.pos]])
  {
    AtOne(ts, p.pos, ts[p.pos]);
  }

  lemma ExpectTakes(ts: Tokens, p: G.P, kind: G.TokenKind, what: string)
    requires p.pos <= |ts| && !kind.Eof?
    ensures G.Expect(ts, p, kind, what).Good? <==> At(ts, p.pos, [kind])
    ensures G.Expect(ts, p, kind, what).Good? ==> Took(ts, p, G.Expect(ts, p, kind, what).p, [kind])
  {
    AtOne(ts, p.pos, kind);
    if p.pos < |ts| && ts[p.pos] == kind {
      BumpTakes(ts, p);
    }
  }

  lemma ExpectHere(ts: Tokens, p: G.P, kind: G.TokenKind, what: string)
    requires p.pos < |ts| && ts[p.pos] == kind && !kind.Eof?
    ensures var r := G.Expect(ts, p, kind, what); r.Good? && r.p.pos == p.pos + 1 && Same(p, r.p)
  {
  }

  lemma ExpectFound(ts: Tokens, p: G.P, kind: G.TokenKind, what: string)
    requires p.pos <= |ts| && !kind.Eof? && G.Expect(ts, p, kind, what).Good?
    ensures p.pos < |ts| && ts[p.pos] == kind && G.Expect(ts, p, kind, what).p.pos == p.pos + 1
    ensures Same(p, G.Expect(ts, p, kind, what).p)
  {
  }

  // ----- destinations and paths -----

  predicate IsDest(k: G.TokenKind)
  {
    k.Number? || k.Bang?
  }

  function DestOf(k: G.TokenKind): Dest
  {
    if k.Number? then To(Label(k.value, k.written)) else Back
  }

  lemma DestSpelled(k: G.TokenKind, d: Dest)
    ensures IsDest(k) ==> SpellDest(DestOf(k)) == k
    ensures IsDest(SpellDest(d)) && DestOf(SpellDest(d)) == d
  {
  }

  lemma SuccessorSound(ts: Tokens, p: G.P) returns (succ: Option<Dest>)
    requires p.pos <= |ts|
    ensures Read(ts, p, G.Successor(ts, p).1, SpellSucc(succ)) && G.Successor(ts, p).0 == succ.Some?
  {
    hide T.Grew, T.Leaves;
    if IsDest(G.Peek(ts, p)) {
      succ := Some(DestOf(G.Peek(ts, p)));
      BumpReads(ts, p);
    } else {
      succ := None;
      ReadNothing(ts, p);
    }
  }

  lemma SuccessorComplete(ts: Tokens, p: G.P, succ: Option<Dest>)
    requires At(ts, p.pos, SpellSucc(succ)) && !IsDest(G.KindAt(ts, p.pos + |SpellSucc(succ)|))
    ensures p.pos <= |ts| && Took(ts, p, G.Successor(ts, p).1, SpellSucc(succ)) && G.Successor(ts, p).0 == succ.Some?
  {
    if succ.Some? {
      AtOne(ts, p.pos, SpellDest(succ.value));
      DestSpelled(G.Bang, succ.value);
      BumpTakes(ts, p);
    }
  }

  lemma {:induction false} TailSound(ts: Tokens, p: G.P) returns (names: seq<string>)
    requires p.pos <= |ts| && G.PathTail(ts, p).Good?
    ensures Read(ts, p, G.PathTail(ts, p).p, SpellTail(names)) && forall k | 0 <= k < |names| :: Usable(names[k])
    decreases |ts| - p.pos
  {
    hide T.Grew, T.Leaves;
    names := [];
    if G.Peek(ts, p).ColonColon? {
      var q := G.Bump(ts, p);
      var name := G.Peek(ts, q).name;
      BumpReads(ts, p);
      BumpReads(ts, q);
      var r := G.Bump(ts, q);
      var rest := TailSound(ts, r);
      names := [name] + rest;
      ReadMore(ts, p, q, r, [G.ColonColon], [G.Ident(name)]);
      ReadMore(ts, p, r, G.PathTail(ts, p).p, [G.ColonColon] + [G.Ident(name)], SpellTail(rest));
      assert [G.ColonColon] + [G.Ident(name)] == [G.ColonColon, G.Ident(name)];
    } else {
      ReadNothing(ts, p);
    }
  }

  lemma {:induction false} TailComplete(ts: Tokens, p: G.P, names: seq<string>)
    requires At(ts, p.pos, SpellTail(names)) && !G.KindAt(ts, p.pos + |SpellTail(names)|).ColonColon?
    requires forall k | 0 <= k < |names| :: Usable(names[k])
    ensures p.pos <= |ts| && G.PathTail(ts, p).Good? && Took(ts, p, G.PathTail(ts, p).p, SpellTail(names))
    decreases |names|
  {
    if names != [] {
      var head := [G.ColonColon, G.Ident(names[0])];
      AtJoin(ts, p.pos, head, SpellTail(names[1..]));
      AtFirst(ts, p.pos, head);
      AtFirst(ts, p.pos + 1, head[1..]);
      var q := G.Bump(ts, p);
      var r := G.Bump(ts, q);
      TailComplete(ts, r, names[1..]);
    }
  }

  // ----- commands -----

  function ShapeOf(c: Command): G.Shape
  {
    match c
    case Tape(_, succ) => if succ.Some? then G.SuccessorShape else G.BareShape
    case Debugger => G.BareShape
    case Halt => G.HaltShape
    case Goto(_) => G.GotoShape
    case Check(_, _) => G.CheckShape
    case Call(_, succ) => if succ.Some? then G.SuccessorShape else G.BareShape
  }

  /** A command may stand before a comma exactly when it is bare. */
  lemma BareShapes(c: Command)
    ensures G.GroupRule(ShapeOf(c)).None? <==> Bare(c)
  {
  }

  /** A call's parentheses. */
  function Parens(succ: Option<Dest>): Tokens
  {
    [G.LParen] + SpellSucc(succ) + [G.RParen]
  }

  lemma ParensSound(ts: Tokens, p: G.P, what: string) returns (succ: Option<Dest>)
    requires p.pos <= |ts| && G.Expect(ts, p, G.LParen, what).Good?
    requires G.Expect(ts, G.Successor(ts, G.Expect(ts, p, G.LParen, what).p).1, G.RParen, "`)`").Good?
    ensures var given := G.Successor(ts, G.Expect(ts, p, G.LParen, what).p);
            given.0 == succ.Some? && Read(ts, p, G.Expect(ts, given.1, G.RParen, "`)`").p, Parens(succ))
  {
    hide T.Grew, T.Leaves, G.Expect, G.Successor, SpellSucc;
    var open := G.Expect(ts, p, G.LParen, what).p;
    ExpectReads(ts, p, G.LParen, what);
    succ := SuccessorSound(ts, open);
    var given := G.Successor(ts, open).1;
    ExpectReads(ts, given, G.RParen, "`)`");
    ReadMore(ts, p, open, given, [G.LParen], SpellSucc(succ));
    ReadMore(ts, p, given, G.Expect(ts, given, G.RParen, "`)`").p, [G.LParen] + SpellSucc(succ), [G.RParen]);
  }

  lemma ParensComplete(ts: Tokens, p: G.P, what: string, succ: Option<Dest>)
    requires At(ts, p.pos, Parens(succ))
    ensures p.pos <= |ts| && G.Expect(ts, p, G.LParen, what).Good?
    ensures var given := G.Successor(ts, G.Expect(ts, p, G.LParen, what).p);
            && given.0 == succ.Some? && G.Expect(ts, given.1, G.RParen, "`)`").Good?
            && Took(ts, p, G.Expect(ts, given.1, G.RParen, "`)`").p, Parens(succ))
  {
    hide G.Expect, G.Successor, SpellSucc;
    AtJoin(ts, p.pos, [G.LParen] + SpellSucc(succ), [G.RParen]);
    AtJoin(ts, p.pos, [G.LParen], SpellSucc(succ));
    ExpectTakes(ts, p, G.LParen, what);
    var open := G.Expect(ts, p, G.LParen, what).p;
    AtOne(ts, p.pos + 1 + |SpellSucc(succ)|, G.RParen);
    SuccessorComplete(ts, open, succ);
    var given := G.Successor(ts, open).1;
    ExpectTakes(ts, given, G.RParen, "`)`");
    TookMore(ts, p, open, given, [G.LParen], SpellSucc(succ));
    TookMore(ts, p, given, G.Expect(ts, given, G.RParen, "`)`").p, [G.LParen] + SpellSucc(succ), [G.RParen]);
  }

  lemma CallSound(ts: Tokens, p: G.P) returns (path: seq<string>, succ: Option<Dest>)
    requires p.pos <= |ts| && G.CallItem(ts, p).Good?
    ensures LegalPath(path) && G.CallItem(ts, p).value == ShapeOf(Call(path, succ))
    ensures Read(ts, p, G.CallItem(ts, p).p, SpellPath(path) + Parens(succ))
  {
    hide T.Grew, T.Leaves, G.Expect, G.Successor, G.PathTail, SpellTail, Parens;
    var name := G.Peek(ts, p).name;
    var q := G.Bump(ts, p);
    BumpReads(ts, p);
    var rest := TailSound(ts, q);
    path := [name] + rest;
    assert path[1..] == rest;
    var r := G.PathTail(ts, q).p;
    ReadMore(ts, p, q, r, [G.Ident(name)], SpellTail(rest));
    succ := ParensSound(ts, r, "`(` (user calls are written `@name()`)");
    ReadMore(ts, p, r, G.CallItem(ts, p).p, SpellPath(path), Parens(succ));
  }

  lemma CallComplete(ts: Tokens, p: G.P, path: seq<string>, succ: Option<Dest>)
    requires LegalPath(path) && At(ts, p.pos, SpellPath(path) + Parens(succ))
    ensures p.pos <= |ts| && G.CallItem(ts, p).Good? && G.CallItem(ts, p).value == ShapeOf(Call(path, succ))
    ensures Took(ts, p, G.CallItem(ts, p).p, SpellPath(path) + Parens(succ))
  {
    hide G.Expect, G.Successor, G.PathTail, SpellTail, SpellSucc, At;
    var tail := SpellTail(path[1..]);
    AtJoin(ts, p.pos, SpellPath(path), Parens(succ));
    AtMore(ts, p.pos, G.Ident(path[0]), tail);
    var q := G.Bump(ts, p);
    BumpTakes(ts, p);
    AtFirst(ts, p.pos + |SpellPath(path)|, Parens(succ));
    TailComplete(ts, q, path[1..]);
    var r := G.PathTail(ts, q).p;
    TookMore(ts, p, q, r, [G.Ident(path[0])], tail);
    ParensComplete(ts, r, "`(` (user calls are written `@name()`)", succ);
    TookMore(ts, p, r, G.CallItem(ts, p).p, SpellPath(path), Parens(succ));
  }

  function CheckTail(a: Dest, b: Dest): Tokens
  {
    [G.LParen, SpellDest(a), G.Comma, SpellDest(b), G.RParen]
  }

  lemma ArmFound(ts: Tokens, p: G.P)
    requires p.pos <= |ts|
    ensures G.Arm(ts, p).Good? <==> IsDest(G.Peek(ts, p))
    ensures G.Arm(ts, p).Good? ==> p.pos < |ts| && ts[p.pos] == SpellDest(DestOf(ts[p.pos])) && G.Arm(ts, p).p.pos == p.pos + 1
    ensures G.Arm(ts, p).Good? ==> Same(p, G.Arm(ts, p).p)
  {
    if IsDest(G.Peek(ts, p)) {
      DestSpelled(ts[p.pos], Back);
    }
  }

  lemma ArmWrites(ts: Tokens, p: G.P)
    requires p.pos <= |ts| && G.Arm(ts, G.FlushStart(p, Green.CheckArm)).Good?
    ensures T.Wrote(ts, p, G.FinishNode(G.Arm(ts, G.FlushStart(p, Green.CheckArm)).p), [T.ArmNode(DestOf(G.Peek(ts, p)))])
  {
    hide T.Grew;
    var start := G.FlushStart(p, Green.CheckArm);
    T.BumpWrites(ts, start);
    DestSpelled(ts[p.pos], Back);
    T.NodeBuilt(ts, p, Green.CheckArm, G.Arm(ts, start).p, [T.Leaf(ts[p.pos])]);
  }

  lemma TokenWritten(ts: Tokens, p: G.P, kind: G.TokenKind, what: string)
    requires p.pos <= |ts| && !kind.Eof? && G.Expect(ts, p, kind, what).Good?
    ensures T.Wrote(ts, p, G.Expect(ts, p, kind, what).p, [T.Leaf(kind)])
  {
    hide T.Grew;
    T.BumpWrites(ts, p);
  }

  lemma ArmsWrite(ts: Tokens, p: G.P, marked: G.P, blank: G.P, a: Dest, b: Dest)
    requires p.pos <= |ts| && marked.pos <= |ts| && blank.pos <= |ts| && G.Expect(ts, p, G.LParen, "`(` after `check`").Good?
    requires T.Wrote(ts, G.Expect(ts, p, G.LParen, "`(` after `check`").p, marked, [T.ArmNode(a)])
    requires G.Expect(ts, marked, G.Comma, "`,` between check arms").Good?
    requires T.Wrote(ts, G.Expect(ts, marked, G.Comma, "`,` between check arms").p, blank, [T.ArmNode(b)])
    requires G.Expect(ts, blank, G.RParen, "`)`").Good?
    ensures T.Wrote(ts, p, G.Expect(ts, blank, G.RParen, "`)`").p, T.ArmParts(a, b))
  {
    hide T.Grew, G.Expect, T.ArmNode;
    var open, comma := G.Expect(ts, p, G.LParen, "`(` after `check`").p,
                                G.Expect(ts, marked, G.Comma, "`,` between check arms").p;
    var close := G.Expect(ts, blank, G.RParen, "`)`").p;
    TokenWritten(ts, p, G.LParen, "`(` after `check`");
    TokenWritten(ts, marked, G.Comma, "`,` between check arms");
    TokenWritten(ts, blank, G.RParen, "`)`");
    var one := [T.Leaf(G.LParen)];
    T.WroteMore(ts, p, open, marked, one, [T.ArmNode(a)]);
    T.WroteMore(ts, p, marked, comma, one + [T.ArmNode(a)], [T.Leaf(G.Comma)]);
    T.WroteMore(ts, p, comma, blank, one + [T.ArmNode(a)] + [T.Leaf(G.Comma)], [T.ArmNode(b)]);
    T.WroteMore(ts, p, blank, close, one + [T.ArmNode(a)] + [T.Leaf(G.Comma)] + [T.ArmNode(b)], [T.Leaf(G.RParen)]);
  }

  lemma CheckSound(ts: Tokens, p: G.P) returns (a: Dest, b: Dest)
    requires p.pos <= |ts| && G.CheckArms(ts, p).Good?
    ensures G.CheckArms(ts, p).value.CheckShape? && Took(ts, p, G.CheckArms(ts, p).p, CheckTail(a, b))
    ensures T.Wrote(ts, p, G.CheckArms(ts, p).p, T.ArmParts(a, b))
  {
    hide T.Grew, T.Leaves, G.Expect, G.Arm, At, SpellDest, IsDest;
    ExpectFound(ts, p, G.LParen, "`(` after `check`");
    var open := G.FlushStart(G.Expect(ts, p, G.LParen, "`(` after `check`").p, Green.CheckArm);
    ArmFound(ts, open);
    ArmWrites(ts, G.Expect(ts, p, G.LParen, "`(` after `check`").p);
    a := DestOf(G.Peek(ts, open));
    var marked := G.FinishNode(G.Arm(ts, open).p);
    ExpectFound(ts, marked, G.Comma, "`,` between check arms");
    var comma := G.FlushStart(G.Expect(ts, marked, G.Comma, "`,` between check arms").p, Green.CheckArm);
    ArmFound(ts, comma);
    ArmWrites(ts, G.Expect(ts, marked, G.Comma, "`,` between check arms").p);
    b := DestOf(G.Peek(ts, comma));
    var blank := G.FinishNode(G.Arm(ts, comma).p);
    ExpectFound(ts, blank, G.RParen, "`)`");
    ArmsWrite(ts, p, marked, blank, a, b);
    FiveTokens(ts, p.pos, G.LParen, SpellDest(a), G.Comma, SpellDest(b), G.RParen);
  }

  lemma FiveTokens(ts: Tokens, i: nat, a: G.TokenKind, b: G.TokenKind, c: G.TokenKind, d: G.TokenKind, e: G.TokenKind)
    ensures At(ts, i, [a, b, c, d, e]) <==>
            i + 5 <= |ts| && ts[i] == a && ts[i + 1] == b && ts[i + 2] == c && ts[i + 3] == d && ts[i + 4] == e
  {
    if i + 5 <= |ts| {
      assert ts[i..i + 5] == [ts[i], ts[i + 1], ts[i + 2], ts[i + 3], ts[i + 4]];
    }
  }

  lemma CheckComplete(ts: Tokens, p: G.P, a: Dest, b: Dest)
    requires At(ts, p.pos, CheckTail(a, b))
    ensures p.pos <= |ts| && G.CheckArms(ts, p).Good? && G.CheckArms(ts, p).value.CheckShape?
    ensures Took(ts, p, G.CheckArms(ts, p).p, CheckTail(a, b))
  {
    hide G.Expect, G.Arm, At, SpellDest, IsDest;
    FiveTokens(ts, p.pos, G.LParen, SpellDest(a), G.Comma, SpellDest(b), G.RParen);
    DestSpelled(G.Bang, a);
    DestSpelled(G.Bang, b);
    ExpectHere(ts, p, G.LParen, "`(` after `check`");
    var open := G.FlushStart(G.Expect(ts, p, G.LParen, "`(` after `check`").p, Green.CheckArm);
    ArmFound(ts, open);
    var marked := G.FinishNode(G.Arm(ts, open).p);
    ExpectHere(ts, marked, G.Comma, "`,` between check arms");
    var comma := G.FlushStart(G.Expect(ts, marked, G.Comma, "`,` between check arms").p, Green.CheckArm);
    ArmFound(ts, comma);
    var blank := G.FinishNode(G.Arm(ts, comma).p);
    ExpectHere(ts, blank, G.RParen, "`)`");
  }

  /** A builtin's successor, if it has one. */
  function BuiltinParens(succ: Option<Dest>): Tokens
  {
    if succ.None? then [] else Parens(succ)
  }

  lemma BuiltinSound(ts: Tokens, p: G.P, word: string) returns (succ: Option<Dest>)
    requires p.pos <= |ts| && G.BuiltinTail(ts, p, word).Good?
    ensures Read(ts, p, G.BuiltinTail(ts, p, word).p, BuiltinParens(succ))
    ensures G.BuiltinTail(ts, p, word).value == if succ.Some? then G.SuccessorShape else G.BareShape
  {
    hide T.Grew, T.Leaves, G.Expect, Parens;
    if G.Peek(ts, p).LParen? {
      var open := G.Bump(ts, p);
      AtOne(ts, p.pos, G.LParen);
      ExpectReads(ts, p, G.LParen, "");
      OpenIs(ts, p);
      succ := ParensSound(ts, p, "");
      var given := G.Successor(ts, open);
      ExpectReads(ts, given.1, G.RParen, "`)`");
      if succ.None? {
        AtOne(ts, given.1.pos, G.RParen);
      }
    } else {
      succ := None;
      ReadNothing(ts, p);
    }
  }

  lemma OpenIs(ts: Tokens, p: G.P)
    requires p.pos < |ts| && ts[p.pos].LParen?
    ensures G.Expect(ts, p, G.LParen, "") == G.Good(G.Unit, G.Bump(ts, p))
  {
  }

  lemma BuiltinComplete(ts: Tokens, p: G.P, word: string, succ: Option<Dest>)
    requires At(ts, p.pos, BuiltinParens(succ)) && (succ.None? ==> !G.KindAt(ts, p.pos).LParen?)
    ensures p.pos <= |ts| && G.BuiltinTail(ts, p, word).Good? && Took(ts, p, G.BuiltinTail(ts, p, word).p, BuiltinParens(succ))
    ensures G.BuiltinTail(ts, p, word).value == if succ.Some? then G.SuccessorShape else G.BareShape
  {
    hide G.Expect, SpellDest;
    if succ.Some? {
      AtFirst(ts, p.pos, Parens(succ));
      OpenIs(ts, p);
      ParensComplete(ts, p, "", succ);
      AtFirst(ts, p.pos + 1, Parens(succ)[1..]);
      DestSpelled(G.Bang, succ.value);
    }
  }

  lemma SpellTape(word: string, succ: Option<Dest>)
    ensures SpellCommand(Tape(word, succ)) == [G.Ident(word)] + BuiltinParens(succ)
  {
  }

  lemma SpellCall(path: seq<string>, succ: Option<Dest>)
    requires path != []
    ensures SpellCommand(Call(path, succ)) == [G.At] + (SpellPath(path) + Parens(succ))
  {
  }

  lemma SpellCheck(a: Dest, b: Dest)
    ensures SpellCommand(Check(a, b)) == [G.Ident("check")] + CheckTail(a, b)
  {
  }

  lemma OneSound(ts: Tokens, p: G.P, inGroup: bool) returns (c: Command)
    requires p.pos <= |ts| && G.OneItem(ts, p, inGroup).Good?
    ensures LegalCommand(c) && G.OneItem(ts, p, inGroup).value == ShapeOf(c) && (inGroup ==> !c.Goto?)
    ensures Took(ts, p, G.OneItem(ts, p, inGroup).p, SpellCommand(c))
    ensures T.Wrote(ts, p, G.OneItem(ts, p, inGroup).p, T.CommandParts(c))
  {
    hide T.Grew, T.Leaves, T.ArmParts, G.CallItem, G.CheckArms, G.BuiltinTail, SpellPath, LegalPath;
    var q, r := G.Bump(ts, p), G.OneItem(ts, p, inGroup).p;
    BumpReads(ts, p);
    match G.Peek(ts, p)
    case At =>
      var path, succ := CallSound(ts, q);
      PathNonempty(path);
      c := Call(path, succ);
      SpellCall(path, succ);
      ReadMore(ts, p, q, r, [G.At], SpellPath(path) + Parens(succ));
    case Ident(word) =>
      if word == "goto" {
        c := Goto(Label(G.Peek(ts, q).value, G.Peek(ts, q).written));
        BumpReads(ts, q);
        ReadMore(ts, p, q, r, [G.Ident(word)], [ts[q.pos]]);
      } else if word == "check" {
        var a, b := CheckSound(ts, q);
        c := Check(a, b);
        SpellCheck(a, b);
        TookMore(ts, p, q, r, [G.Ident(word)], CheckTail(a, b));
        T.BumpWrites(ts, p);
        T.WroteMore(ts, p, q, r, [T.Leaf(G.Ident(word))], T.ArmParts(a, b));
      } else if word == "halt" {
        c := Halt;
      } else if word == "debugger" {
        c := Debugger;
      } else {
        var succ := BuiltinSound(ts, q, word);
        c := Tape(word, succ);
        SpellTape(word, succ);
        ReadMore(ts, p, q, r, [G.Ident(word)], BuiltinParens(succ));
      }
  }

  lemma PathNonempty(path: seq<string>)
    requires LegalPath(path)
    ensures path != []
  {
  }

  lemma CallRead(ts: Tokens, p: G.P, inGroup: bool, path: seq<string>, succ: Option<Dest>)
    requires LegalPath(path) && At(ts, p.pos, SpellCommand(Call(path, succ)))
    ensures p.pos <= |ts| && G.OneItem(ts, p, inGroup).Good? && G.OneItem(ts, p, inGroup).value == ShapeOf(Call(path, succ))
    ensures Took(ts, p, G.OneItem(ts, p, inGroup).p, SpellCommand(Call(path, succ)))
  {
    hide G.CallItem, SpellPath, LegalPath, Parens, SpellCommand, At, ShapeOf;
    PathNonempty(path);
    SpellCall(path, succ);
    AtMore(ts, p.pos, G.At, SpellPath(path) + Parens(succ));
    BumpTakes(ts, p);
    CallComplete(ts, G.Bump(ts, p), path, succ);
    TookMore(ts, p, G.Bump(ts, p), G.OneItem(ts, p, inGroup).p, [G.At], SpellPath(path) + Parens(succ));
  }

  lemma CheckRead(ts: Tokens, p: G.P, inGroup: bool, a: Dest, b: Dest)
    requires At(ts, p.pos, SpellCommand(Check(a, b)))
    ensures p.pos <= |ts| && G.OneItem(ts, p, inGroup).Good? && G.OneItem(ts, p, inGroup).value == ShapeOf(Check(a, b))
    ensures Took(ts, p, G.OneItem(ts, p, inGroup).p, SpellCommand(Check(a, b)))
  {
    hide G.CheckArms, CheckTail, SpellCommand, At;
    SpellCheck(a, b);
    AtMore(ts, p.pos, G.Ident("check"), CheckTail(a, b));
    BumpTakes(ts, p);
    CheckComplete(ts, G.Bump(ts, p), a, b);
    TookMore(ts, p, G.Bump(ts, p), G.OneItem(ts, p, inGroup).p, [G.Ident("check")], CheckTail(a, b));
  }

  lemma TapeRead(ts: Tokens, p: G.P, inGroup: bool, word: string, succ: Option<Dest>)
    requires LegalCommand(Tape(word, succ)) && At(ts, p.pos, SpellCommand(Tape(word, succ)))
    requires !G.KindAt(ts, p.pos + |SpellCommand(Tape(word, succ))|).LParen?
    ensures p.pos <= |ts| && G.OneItem(ts, p, inGroup).Good? && G.OneItem(ts, p, inGroup).value == ShapeOf(Tape(word, succ))
    ensures Took(ts, p, G.OneItem(ts, p, inGroup).p, SpellCommand(Tape(word, succ)))
  {
    hide G.BuiltinTail, BuiltinParens, SpellCommand, At;
    SpellTape(word, succ);
    AtMore(ts, p.pos, G.Ident(word), BuiltinParens(succ));
    BumpTakes(ts, p);
    BuiltinEnd(ts, p.pos, word, succ);
    BuiltinComplete(ts, G.Bump(ts, p), word, succ);
    TookMore(ts, p, G.Bump(ts, p), G.OneItem(ts, p, inGroup).p, [G.Ident(word)], BuiltinParens(succ));
  }

  lemma GotoIs(ts: Tokens, p: G.P)
    requires p.pos < |ts| && ts[p.pos] == G.Ident("goto")
    ensures G.OneItem(ts, p, false) == G.GotoTarget(ts, G.Bump(ts, p))
  {
  }

  lemma GotoRead(ts: Tokens, p: G.P, l: Label)
    requires At(ts, p.pos, SpellCommand(Goto(l)))
    ensures p.pos <= |ts| && G.OneItem(ts, p, false).Good? && G.OneItem(ts, p, false).value == ShapeOf(Goto(l))
    ensures Took(ts, p, G.OneItem(ts, p, false).p, SpellCommand(Goto(l)))
  {
    hide At, G.OneItem;
    assert SpellCommand(Goto(l)) == [G.Ident("goto")] + [SpellLabel(l)];
    AtMore(ts, p.pos, G.Ident("goto"), [SpellLabel(l)]);
    AtOne(ts, p.pos + 1, SpellLabel(l));
    GotoIs(ts, p);
    BumpTakes(ts, p);
    BumpTakes(ts, G.Bump(ts, p));
    TookMore(ts, p, G.Bump(ts, p), G.OneItem(ts, p, false).p, [G.Ident("goto")], [SpellLabel(l)]);
  }

  lemma WordRead(ts: Tokens, p: G.P, inGroup: bool, c: Command)
    requires (c.Halt? || c.Debugger?) && At(ts, p.pos, SpellCommand(c))
    ensures p.pos <= |ts| && G.OneItem(ts, p, inGroup).Good? && G.OneItem(ts, p, inGroup).value == ShapeOf(c)
    ensures Took(ts, p, G.OneItem(ts, p, inGroup).p, SpellCommand(c))
  {
    AtOne(ts, p.pos, SpellCommand(c)[0]);
    BumpTakes(ts, p);
  }

  /** A command in its place is read; what follows it is no parenthesis. */
  lemma OneComplete(ts: Tokens, p: G.P, inGroup: bool, c: Command)
    requires LegalCommand(c) && At(ts, p.pos, SpellCommand(c)) && (inGroup ==> !c.Goto?)
    requires !G.KindAt(ts, p.pos + |SpellCommand(c)|).LParen?
    ensures p.pos <= |ts| && G.OneItem(ts, p, inGroup).Good? && G.OneItem(ts, p, inGroup).value == ShapeOf(c)
    ensures Took(ts, p, G.OneItem(ts, p, inGroup).p, SpellCommand(c))
  {
    hide G.OneItem, SpellCommand, LegalPath, At, ShapeOf, Took;
    match c
    case Call(path, succ) => CallRead(ts, p, inGroup, path, succ);
    case Check(a, b) => CheckRead(ts, p, inGroup, a, b);
    case Tape(word, succ) => TapeRead(ts, p, inGroup, word, succ);
    case Goto(l) => GotoRead(ts, p, l);
    case _ => WordRead(ts, p, inGroup, c);
  }

  lemma BuiltinEnd(ts: Tokens, i: nat, word: string, succ: Option<Dest>)
    requires !G.KindAt(ts, i + |SpellCommand(Tape(word, succ))|).LParen?
    ensures succ.None? ==> !G.KindAt(ts, i + 1).LParen?
  {
  }

  // ----- groups -----

  /** Commands after the first of a group whose first one is bare, if there are any. */
  predicate LegalRest(rest: seq<Command>)
  {
    && (forall k | 0 <= k < |rest| :: LegalCommand(rest[k]) && !rest[k].Goto?)
    && forall k | 0 <= k < |rest| - 1 :: Bare(rest[k])
  }

  lemma LegalMore(c: Command, rest: seq<Command>)
    requires LegalCommand(c) && !c.Goto? && LegalRest(rest) && (rest != [] ==> Bare(c))
    ensures LegalRest([c] + rest)
  {
    hide LegalCommand, Bare;
  }

  lemma LegalFirst(commands: seq<Command>)
    requires commands != []
    ensures LegalGroup(commands) <==>
            && LegalCommand(commands[0]) && LegalRest(commands[1..])
                 && (|commands| > 1 ==> Bare(commands[0]) && !commands[0].Goto?)
  {
    hide LegalCommand, Bare;
    var c, rest := commands[0], commands[1..];
    assert forall k | 0 <= k < |rest| :: rest[k] == commands[k + 1];
    if LegalCommand(c) && LegalRest(rest) && (|commands| > 1 ==> Bare(c) && !c.Goto?) {
      forall k | 0 <= k < |commands| - 1 ensures Bare(commands[k]) {
        if k > 0 {
          assert Bare(rest[k - 1]);
        }
      }
      forall k | 0 <= k < |commands| ensures LegalCommand(commands[k]) && (commands[k].Goto? ==> |commands| == 1) {
        if k > 0 {
          assert LegalCommand(rest[k - 1]) && !rest[k - 1].Goto?;
        }
      }
    }
    if LegalGroup(commands) {
      forall k | 0 <= k < |rest| ensures LegalCommand(rest[k]) && !rest[k].Goto? {
        assert LegalCommand(commands[k + 1]);
      }
      forall k | 0 <= k < |rest| - 1 ensures Bare(rest[k]) {
        assert Bare(commands[k + 1]);
      }
    }
  }

  lemma CommandWrites(ts: Tokens, q: G.P, inGroup: bool, c: Command)
    requires q.pos <= |ts| && G.OneItem(ts, G.FlushStart(q, Green.Item), inGroup).Good?
    requires T.Wrote(ts, G.FlushStart(q, Green.Item), G.OneItem(ts, G.FlushStart(q, Green.Item), inGroup).p, T.CommandParts(c))
    ensures T.Wrote(ts, q, G.FinishNode(G.OneItem(ts, G.FlushStart(q, Green.Item), inGroup).p), [T.CommandNode(c)])
  {
    hide T.Grew, G.OneItem;
    T.NodeBuilt(ts, q, Green.Item, G.OneItem(ts, G.FlushStart(q, Green.Item), inGroup).p, T.CommandParts(c));
  }

  lemma {:induction false} RestSound(ts: Tokens, p: G.P, last: Command) returns (rest: seq<Command>)
    requires p.pos <= |ts| && G.GroupTail(ts, p, ShapeOf(last)).Good?
    ensures Took(ts, p, G.GroupTail(ts, p, ShapeOf(last)).p, SpellRest(rest)) && LegalRest(rest) && (rest != [] ==> Bare(last))
    ensures T.Wrote(ts, p, G.GroupTail(ts, p, ShapeOf(last)).p, T.RestParts(rest))
    decreases |ts| - p.pos
  {
    hide T.Grew, T.CommandNode, T.CommandParts, G.OneItem, LegalRest, SpellCommand, ShapeOf, G.GroupRule, Bare, LegalCommand,
      G.Expect;
    if !G.Peek(ts, p).Comma? {
      rest := [];
      ExpectTakes(ts, p, G.Semi, "`;`");
      TokenWritten(ts, p, G.Semi, "`;`");
      NoRest();
    } else {
      BareShapes(last);
      var q := G.Bump(ts, p);
      BumpTakes(ts, p);
      var item := G.FlushStart(q, Green.Item);
      var c := OneSound(ts, item, true);
      var r := G.FinishNode(G.OneItem(ts, item, true).p);
      var more := RestSound(ts, r, c);
      rest := [c] + more;
      LegalMore(c, more);
      assert rest[1..] == more;
      T.BumpWrites(ts, p);
      CommandWrites(ts, q, true, c);
      T.WroteMore(ts, p, q, r, [T.Leaf(G.Comma)], [T.CommandNode(c)]);
      T.WroteMore(ts, p, r, G.GroupTail(ts, p, ShapeOf(last)).p, [T.Leaf(G.Comma)] + [T.CommandNode(c)], T.RestParts(more));
      assert Took(ts, q, r, SpellCommand(c));
      TookMore(ts, p, q, r, [G.Comma], SpellCommand(c));
      TookMore(ts, p, r, G.GroupTail(ts, p, ShapeOf(last)).p, [G.Comma] + SpellCommand(c), SpellRest(more));
    }
  }

  lemma NoRest()
    ensures LegalRest([]) && SpellRest([]) == [G.Semi] && T.RestParts([]) == [T.Leaf(G.Semi)]
  {
  }

  /** What follows a command in a group is a comma or the semicolon. */
  lemma RestFirst(rest: seq<Command>)
    ensures SpellRest(rest) != [] && SpellRest(rest)[0] == if rest == [] then G.Semi else G.Comma
  {
  }

  /** One more command of a group. */
  lemma RestStep(ts: Tokens, p: G.P, last: Command, c: Command)
    requires p.pos < |ts| && ts[p.pos].Comma? && Bare(last) && LegalCommand(c) && !c.Goto?
    requires At(ts, p.pos + 1, SpellCommand(c)) && !G.KindAt(ts, p.pos + 1 + |SpellCommand(c)|).LParen?
    ensures var r := G.FinishNode(G.OneItem(ts, G.FlushStart(G.Bump(ts, p), Green.Item), true).p);
            && Took(ts, p, r, [G.Comma] + SpellCommand(c)) && r.pos <= |ts|
            && G.GroupTail(ts, p, ShapeOf(last)) == G.GroupTail(ts, r, ShapeOf(c))
  {
    hide G.OneItem, SpellCommand, ShapeOf, G.GroupRule, Bare, LegalCommand, At;
    BareShapes(last);
    var q := G.Bump(ts, p);
    BumpTakes(ts, p);
    var item := G.FlushStart(q, Green.Item);
    OneComplete(ts, item, true, c);
    var r := G.FinishNode(G.OneItem(ts, item, true).p);
    assert Took(ts, q, r, SpellCommand(c));
    TookMore(ts, p, q, r, [G.Comma], SpellCommand(c));
  }

  lemma RestMore(c: Command, more: seq<Command>)
    ensures SpellRest([c] + more) == ([G.Comma] + SpellCommand(c)) + SpellRest(more)
    ensures LegalRest([c] + more) ==> LegalCommand(c) && !c.Goto? && LegalRest(more) && (more != [] ==> Bare(c))
  {
    hide SpellCommand, Bare, LegalCommand;
    var rest := [c] + more;
    assert rest[1..] == more;
    if LegalRest(rest) {
      assert rest[0] == c && forall k | 0 <= k < |more| :: rest[k + 1] == more[k];
      forall k | 0 <= k < |more| ensures LegalCommand(more[k]) && !more[k].Goto? {
        assert LegalCommand(rest[k + 1]) && !rest[k + 1].Goto?;
      }
      forall k | 0 <= k < |more| - 1 ensures Bare(more[k]) {
        assert Bare(rest[k + 1]);
      }
    }
  }

  lemma {:induction false} RestComplete(ts: Tokens, p: G.P, last: Command, rest: seq<Command>)
    requires At(ts, p.pos, SpellRest(rest)) && LegalRest(rest) && (rest != [] ==> Bare(last))
    ensures p.pos <= |ts| && G.GroupTail(ts, p, ShapeOf(last)).Good?
    ensures Took(ts, p, G.GroupTail(ts, p, ShapeOf(last)).p, SpellRest(rest))
    decreases |rest|
  {
    hide G.OneItem, SpellCommand, ShapeOf, G.GroupRule, Bare, LegalCommand, LegalRest, G.Expect, At, SpellRest, G.GroupTail,
      Took;
    RestFirst(rest);
    AtFirst(ts, p.pos, SpellRest(rest));
    if rest == [] {
      NoRest();
      GroupEnds(ts, p, ShapeOf(last));
    } else {
      var c, more := rest[0], rest[1..];
      assert rest == [c] + more;
      RestMore(c, more);
      AtJoin(ts, p.pos, [G.Comma] + SpellCommand(c), SpellRest(more));
      AtJoin(ts, p.pos, [G.Comma], SpellCommand(c));
      RestFirst(more);
      AtFirst(ts, p.pos + 1 + |SpellCommand(c)|, SpellRest(more));
      RestStep(ts, p, last, c);
      var r := G.FinishNode(G.OneItem(ts, G.FlushStart(G.Bump(ts, p), Green.Item), true).p);
      TookAt(ts, p, r, [G.Comma] + SpellCommand(c));
      RestComplete(ts, r, c, more);
      TookMore(ts, p, r, G.GroupTail(ts, r, ShapeOf(c)).p, [G.Comma] + SpellCommand(c), SpellRest(more));
    }
  }

  lemma TookAt(ts: Tokens, p: G.P, q: G.P, s: Tokens)
    requires Took(ts, p, q, s)
    ensures q.pos == p.pos + |s| && Same(p, q) && q.pos <= |ts|
  {
  }

  lemma GroupEnds(ts: Tokens, p: G.P, last: G.Shape)
    requires p.pos < |ts| && ts[p.pos].Semi?
    ensures G.GroupTail(ts, p, last).Good? && Took(ts, p, G.GroupTail(ts, p, last).p, [G.Semi])
  {
    ExpectTakes(ts, p, G.Semi, "`;`");
    AtOne(ts, p.pos, G.Semi);
  }

  lemma GroupSound(ts: Tokens, p: G.P) returns (commands: seq<Command>)
    requires p.pos <= |ts| && G.StatementBody(ts, p).Good?
    ensures LegalGroup(commands) && Took(ts, p, G.StatementBody(ts, p).p, SpellGroup(commands))
    ensures commands != [] && T.Wrote(ts, p, G.StatementBody(ts, p).p, T.GroupParts(commands))
  {
    hide T.Grew, T.CommandNode, T.CommandParts, T.RestParts, G.OneItem, G.GroupTail, LegalGroup, LegalRest, SpellCommand,
      SpellRest, ShapeOf, Bare, LegalCommand;
    var item := G.FlushStart(p, Green.Item);
    var c := OneSound(ts, item, false);
    var r := G.FinishNode(G.OneItem(ts, item, false).p);
    var rest := RestSound(ts, r, c);
    commands := [c] + rest;
    assert commands[1..] == rest;
    LegalFirst(commands);
    GotoNotBare(c);
    CommandWrites(ts, p, false, c);
    T.WroteMore(ts, p, r, G.StatementBody(ts, p).p, [T.CommandNode(c)], T.RestParts(rest));
    assert Took(ts, p, r, SpellCommand(c));
    TookMore(ts, p, r, G.StatementBody(ts, p).p, SpellCommand(c), SpellRest(rest));
  }

  lemma GotoNotBare(c: Command)
    ensures Bare(c) ==> !c.Goto?
  {
  }

  lemma GroupComplete(ts: Tokens, p: G.P, commands: seq<Command>)
    requires LegalGroup(commands) && At(ts, p.pos, SpellGroup(commands))
    ensures p.pos <= |ts| && G.StatementBody(ts, p).Good? && Took(ts, p, G.StatementBody(ts, p).p, SpellGroup(commands))
  {
    hide G.OneItem, G.GroupTail, LegalRest, SpellCommand, SpellRest, ShapeOf, Bare, LegalCommand;
    LegalFirst(commands);
    var c, rest := commands[0], commands[1..];
    AtJoin(ts, p.pos, SpellCommand(c), SpellRest(rest));
    RestFirst(rest);
    AtFirst(ts, p.pos + |SpellCommand(c)|, SpellRest(rest));
    var item := G.FlushStart(p, Green.Item);
    OneComplete(ts, item, false, c);
    var r := G.FinishNode(G.OneItem(ts, item, false).p);
    RestComplete(ts, r, c, rest);
    TookMore(ts, p, r, G.StatementBody(ts, p).p, SpellCommand(c), SpellRest(rest));
  }

  // ----- labels -----

  function Elems<T>(xs: seq<T>): set<T>
  {
    set x | x in xs
  }

  lemma ElemsJoin<T>(a: seq<T>, b: seq<T>)
    ensures Elems(a + b) == Elems(a) + Elems(b)
  {
    assert forall x :: x in a + b <==> x in a || x in b;
  }

  /** New ones, all different. */
  predicate Fresh<T(==)>(xs: seq<T>, old_: set<T>)
  {
    Distinct(xs) && forall x | x in xs :: x !in old_
  }

  lemma FreshJoin<T>(a: seq<T>, b: seq<T>, old_: set<T>)
    ensures Fresh(a + b, old_) <==> Fresh(a, old_) && Fresh(b, old_ + Elems(a))
  {
    var c := a + b;
    if Fresh(c, old_) {
      forall i, k | 0 <= i < k < |a| ensures a[i] != a[k] {
        assert c[i] != c[k];
      }
      forall i, k | 0 <= i < k < |b| ensures b[i] != b[k] {
        assert c[|a| + i] != c[|a| + k];
      }
      forall x | x in a ensures x !in old_ {
        assert x in c;
      }
      forall i, k | 0 <= i < |a| && 0 <= k < |b| ensures a[i] != b[k] {
        assert c[i] != c[|a| + k];
      }
      forall x | x in b ensures x !in old_ {
        assert x in c;
      }
    }
    if Fresh(a, old_) && Fresh(b, old_ + Elems(a)) {
      forall i, k | 0 <= i < k < |c| ensures c[i] != c[k] {
        if i < |a| && k >= |a| {
          assert c[i] in a && c[k] in b;
        }
      }
      forall x | x in c ensures x !in old_ {
        assert x in a || x in b;
      }
    }
  }

  function WithLabels(p: G.P, labels: set<nat>): G.P
  {
    p.(scope := p.scope.(labels := p.scope.labels + labels))
  }

  /** The walk went over labels: their values joined the scope's. */
  predicate TookLabels(ts: Tokens, p: G.P, q: G.P, labels: seq<Label>)
  {
    && At(ts, p.pos, SpellLabels(labels)) && q.pos == p.pos + |SpellLabels(labels)|
    && Same(WithLabels(p, Elems(Values(labels))), q)
  }

  lemma ValuesMore(l: Label, rest: seq<Label>)
    ensures Values([l] + rest) == [l.value] + Values(rest)
  {
  }

  lemma LabelTokens(ts: Tokens, i: nat, l: Label)
    ensures At(ts, i, [SpellLabel(l), G.Colon]) <==> i + 1 < |ts| && ts[i] == SpellLabel(l) && ts[i + 1] == G.Colon
  {
    if i + 2 <= |ts| {
      assert ts[i..i + 2] == [ts[i], ts[i + 1]];
    }
  }

  lemma LabelWrites(ts: Tokens, p: G.P, l: Label)
    requires p.pos < |ts| && ts[p.pos] == SpellLabel(l)
    requires var start := G.FlushStart(p, Green.Label); G.Expect(ts, G.Bump(ts, start), G.Colon,
                                                                 "`:` after a label number").Good?
    ensures var start := G.FlushStart(p, Green.Label);
            T.Wrote(ts, p, G.FinishNode(G.Expect(ts, G.Bump(ts, start), G.Colon, "`:` after a label number").p),
                    [T.LabelNode(l)])
  {
    hide T.Grew, T.Leaves;
    var start := G.FlushStart(p, Green.Label);
    var colon := G.Expect(ts, G.Bump(ts, start), G.Colon, "`:` after a label number").p;
    BumpReads(ts, start);
    ExpectReads(ts, G.Bump(ts, start), G.Colon, "`:` after a label number");
    ReadMore(ts, start, G.Bump(ts, start), colon, [SpellLabel(l)], [G.Colon]);
    assert [SpellLabel(l)] + [G.Colon] == [SpellLabel(l), G.Colon];
    LeavesNonempty([SpellLabel(l), G.Colon]);
    T.NodeBuilt(ts, p, Green.Label, colon, T.Leaves([SpellLabel(l), G.Colon]));
  }

  lemma LeavesNonempty(s: Tokens)
    requires s != []
    ensures T.Leaves(s) != []
  {
  }

  lemma {:induction false} LabelsSound(ts: Tokens, p: G.P, first: Option<nat>) returns (labels: seq<Label>)
    requires p.pos <= |ts| && G.Labels(ts, p, first).Good?
    ensures TookLabels(ts, p, G.Labels(ts, p, first).p, labels) && Fresh(Values(labels), p.scope.labels)
    ensures !G.Peek(ts, G.Labels(ts, p, first).p).Number?
            && (G.Labels(ts, p, first).value.Some? <==> first.Some? || labels != [])
    ensures T.Wrote(ts, p, G.Labels(ts, p, first).p, T.LabelParts(labels))
    decreases |ts| - p.pos
  {
    hide T.Grew, T.LabelNode, G.Expect, Fresh, Values;
    if !G.Peek(ts, p).Number? {
      labels := [];
      NoLabels(p);
      T.WroteNothing(ts, p);
    } else {
      var l := Label(G.Peek(ts, p).value, G.Peek(ts, p).written);
      var start := G.FlushStart(p, Green.Label);
      ExpectTakes(ts, G.Bump(ts, start), G.Colon, "`:` after a label number");
      AtOne(ts, p.pos + 1, G.Colon);
      LabelTokens(ts, p.pos, l);
      var q := WithLabels(G.FinishNode(G.Expect(ts, G.Bump(ts, start), G.Colon, "`:` after a label number").p), {l.value});
      var rest := LabelsSound(ts, q, if first.Some? then first else Some(l.value));
      LabelWrites(ts, p, l);
      T.WroteMore(ts, p, q, G.Labels(ts, p, first).p, [T.LabelNode(l)], T.LabelParts(rest));
      labels := [l] + rest;
      assert labels[1..] == rest;
      ValuesMore(l, rest);
      FreshJoin([l.value], Values(rest), p.scope.labels);
      OneFresh(l.value, p.scope.labels);
      ElemsJoin([l.value], Values(rest));
      AtJoin(ts, p.pos, [SpellLabel(l), G.Colon], SpellLabels(rest));
      assert p.scope.labels + {l.value} + Elems(Values(rest)) == p.scope.labels + Elems(Values(labels));
    }
  }

  lemma OneFresh<T>(x: T, old_: set<T>)
    ensures Fresh([x], old_) <==> x !in old_
    ensures Elems([x]) == {x}
  {
    assert forall y :: y in [x] <==> y == x;
  }

  lemma NoLabels(p: G.P)
    ensures Values([]) == [] && Fresh<nat>([], p.scope.labels) && Elems<nat>([]) == {} && WithLabels(p, {}) == p
  {
    assert p.scope.labels + {} == p.scope.labels;
  }

  /** One more label. */
  lemma LabelStep(ts: Tokens, p: G.P, first: Option<nat>, l: Label) returns (q: G.P)
    requires p.pos + 1 < |ts| && ts[p.pos] == SpellLabel(l) && ts[p.pos + 1] == G.Colon && l.value !in p.scope.labels
    ensures Same(WithLabels(p, {l.value}), q) && q.pos == p.pos + 2
    ensures G.Labels(ts, p, first) == G.Labels(ts, q, if first.Some? then first else Some(l.value))
  {
    hide G.Expect;
    var start := G.FlushStart(p, Green.Label);
    ExpectHere(ts, G.Bump(ts, start), G.Colon, "`:` after a label number");
    q := WithLabels(G.FinishNode(G.Expect(ts, G.Bump(ts, start), G.Colon, "`:` after a label number").p), {l.value});
  }

  lemma LabelsMore(ts: Tokens, p: G.P, q: G.P, r: G.P, l: Label, rest: seq<Label>)
    requires At(ts, p.pos, [SpellLabel(l), G.Colon]) && Same(WithLabels(p, {l.value}), q) && q.pos == p.pos + 2
    requires TookLabels(ts, q, r, rest)
    ensures TookLabels(ts, p, r, [l] + rest)
  {
    hide Values, At;
    assert ([l] + rest)[1..] == rest;
    AtJoin(ts, p.pos, [SpellLabel(l), G.Colon], SpellLabels(rest));
    ValuesMore(l, rest);
    OneFresh(l.value, {});
    ElemsJoin([l.value], Values(rest));
    assert p.scope.labels + {l.value} + Elems(Values(rest)) == p.scope.labels + Elems(Values([l] + rest));
  }

  lemma {:induction false} LabelsComplete(ts: Tokens, p: G.P, first: Option<nat>, labels: seq<Label>)
    requires At(ts, p.pos, SpellLabels(labels)) && Fresh(Values(labels), p.scope.labels)
    requires !G.KindAt(ts, p.pos + |SpellLabels(labels)|).Number?
    ensures p.pos <= |ts| && G.Labels(ts, p, first).Good? && TookLabels(ts, p, G.Labels(ts, p, first).p, labels)
    ensures G.Labels(ts, p, first).value.Some? <==> first.Some? || labels != []
    decreases |labels|
  {
    hide Fresh, Values, TookLabels, G.Labels;
    if labels == [] {
      NoLabelsRead(ts, p, first);
    } else {
      var l, rest := labels[0], labels[1..];
      assert labels == [l] + rest;
      AtJoin(ts, p.pos, [SpellLabel(l), G.Colon], SpellLabels(rest));
      LabelTokens(ts, p.pos, l);
      ValuesMore(l, rest);
      FreshJoin([l.value], Values(rest), p.scope.labels);
      OneFresh(l.value, p.scope.labels);
      var q := LabelStep(ts, p, first, l);
      LabelsComplete(ts, q, if first.Some? then first else Some(l.value), rest);
      LabelsMore(ts, p, q, G.Labels(ts, p, first).p, l, rest);
    }
  }

  lemma NoLabelsRead(ts: Tokens, p: G.P, first: Option<nat>)
    requires p.pos <= |ts| && !G.KindAt(ts, p.pos).Number?
    ensures G.Labels(ts, p, first) == G.Good(first, p) && TookLabels(ts, p, p, [])
  {
    NoLabels(p);
  }

  // ----- doc runs -----

  function DocOf(k: G.TokenKind): Doc
  {
    if k.AttentionLine? then Attention(k.text) else Line
  }

  /** Doc lines after some: `attention` says that an attention line came already, `deprecated` that the
      attribute did. */
  predicate LegalFrom(docs: seq<Doc>, attention: bool, deprecated: bool)
  {
    && LegalDocs(docs) && (attention ==> forall k | 0 <= k < |docs| :: docs[k].Attention?)
    && (deprecated ==> forall k | 0 <= k < |docs| :: !IsAttribute(docs[k]))
  }

  lemma DocMore(d: Doc, rest: seq<Doc>, attention: bool, deprecated: bool)
    ensures LegalFrom([d] + rest, attention, deprecated) <==>
            && (attention ==> d.Attention?)
            && (IsAttribute(d) ==> !deprecated && G.ParseAttr(d.text) == Some("deprecated"))
            && LegalFrom(rest, attention || d.Attention?, deprecated || IsAttribute(d))
  {
    hide G.ParseAttr, IsAttribute;
    var docs := [d] + rest;
    AttentionMore(d, rest, docs);
    AttributesMore(d, rest, docs);
    OnceMore(d, rest, docs);
  }

  lemma AttentionMore(d: Doc, rest: seq<Doc>, docs: seq<Doc>)
    requires docs == [d] + rest
    ensures (forall i, k | 0 <= i < k < |docs| && docs[i].Attention? :: docs[k].Attention?) <==>
            && (forall i, k | 0 <= i < k < |rest| && rest[i].Attention? :: rest[k].Attention?)
            && (d.Attention? ==> forall k | 0 <= k < |rest| :: rest[k].Attention?)
    ensures (forall k | 0 <= k < |docs| :: docs[k].Attention?) <==>
              d.Attention? && forall k | 0 <= k < |rest| :: rest[k].Attention?
  {
    assert docs[0] == d && forall k | 0 <= k < |rest| :: rest[k] == docs[k + 1];
  }

  lemma AttributesMore(d: Doc, rest: seq<Doc>, docs: seq<Doc>)
    requires docs == [d] + rest
    ensures (forall k | 0 <= k < |docs| && IsAttribute(docs[k]) :: G.ParseAttr(docs[k].text) == Some("deprecated")) <==>
            && (IsAttribute(d) ==> G.ParseAttr(d.text) == Some("deprecated"))
            && (forall k | 0 <= k < |rest| && IsAttribute(rest[k]) :: G.ParseAttr(rest[k].text) == Some("deprecated"))
    ensures (forall k | 0 <= k < |docs| :: !IsAttribute(docs[k])) <==>
              !IsAttribute(d) && forall k | 0 <= k < |rest| :: !IsAttribute(rest[k])
  {
    hide G.ParseAttr, IsAttribute;
    assert docs[0] == d && forall k | 0 <= k < |rest| :: rest[k] == docs[k + 1];
  }

  lemma OnceMore(d: Doc, rest: seq<Doc>, docs: seq<Doc>)
    requires docs == [d] + rest
    ensures (forall i, k | 0 <= i < k < |docs| :: !(IsAttribute(docs[i]) && IsAttribute(docs[k]))) <==>
            && (forall i, k | 0 <= i < k < |rest| :: !(IsAttribute(rest[i]) && IsAttribute(rest[k])))
            && (IsAttribute(d) ==> forall k | 0 <= k < |rest| :: !IsAttribute(rest[k]))
  {
    hide G.ParseAttr, IsAttribute;
    assert docs[0] == d && forall k | 0 <= k < |rest| :: rest[k] == docs[k + 1];
  }

  lemma {:induction false} DocsSound(ts: Tokens, p: G.P, attention: bool, deprecated: bool) returns (docs: seq<Doc>)
    requires p.pos <= |ts| && G.DocLines(ts, p, attention, deprecated).Good?
    ensures Read(ts, p, G.DocLines(ts, p, attention, deprecated).p, SpellDocs(docs)) && LegalFrom(docs, attention, deprecated)
    ensures !G.IsDoc(G.Peek(ts, G.DocLines(ts, p, attention, deprecated).p))
    ensures G.IsDoc(G.Peek(ts, p)) <==> docs != []
    decreases |ts| - p.pos
  {
    hide T.Grew, T.Leaves, G.ParseAttr, LegalFrom;
    if !G.IsDoc(G.Peek(ts, p)) {
      docs := [];
      NoDocs(attention, deprecated);
      ReadNothing(ts, p);
    } else {
      var d := DocOf(G.Peek(ts, p));
      var q := G.Bump(ts, p);
      BumpReads(ts, p);
      var rest := DocsSound(ts, q, attention || d.Attention?, deprecated || IsAttribute(d));
      docs := [d] + rest;
      assert docs[1..] == rest;
      DocMore(d, rest, attention, deprecated);
      ReadMore(ts, p, q, G.DocLines(ts, p, attention, deprecated).p, [SpellDoc(d)], SpellDocs(rest));
    }
  }

  lemma NoDocs(attention: bool, deprecated: bool)
    ensures LegalFrom([], attention, deprecated)
  {
  }

  lemma {:induction false} DocsComplete(ts: Tokens, p: G.P, attention: bool, deprecated: bool, docs: seq<Doc>)
    requires At(ts, p.pos, SpellDocs(docs)) && LegalFrom(docs, attention, deprecated)
    requires !G.IsDoc(G.KindAt(ts, p.pos + |SpellDocs(docs)|))
    ensures p.pos <= |ts| && G.DocLines(ts, p, attention, deprecated).Good?
    ensures Took(ts, p, G.DocLines(ts, p, attention, deprecated).p, SpellDocs(docs))
    decreases |docs|
  {
    hide G.ParseAttr, LegalFrom;
    if docs == [] {
    } else {
      var d, rest := docs[0], docs[1..];
      assert docs == [d] + rest;
      AtMore(ts, p.pos, SpellDoc(d), SpellDocs(rest));
      DocMore(d, rest, attention, deprecated);
      var q := G.Bump(ts, p);
      BumpTakes(ts, p);
      DocsComplete(ts, q, attention || d.Attention?, deprecated || IsAttribute(d), rest);
      TookMore(ts, p, q, G.DocLines(ts, p, attention, deprecated).p, [SpellDoc(d)], SpellDocs(rest));
    }
  }

  lemma LegalDocsFrom(docs: seq<Doc>)
    ensures LegalFrom(docs, false, false) <==> LegalDocs(docs)
  {
  }

  lemma DocRunSound(ts: Tokens, p: G.P) returns (docs: seq<Doc>)
    requires p.pos <= |ts| && G.IsDoc(G.Peek(ts, p)) && G.DocRunNode(ts, p).Good?
    ensures Took(ts, p, G.DocRunNode(ts, p).p, SpellDocs(docs)) && LegalDocs(docs) && docs != []
    ensures !G.IsDoc(G.Peek(ts, G.DocRunNode(ts, p).p))
    ensures T.Wrote(ts, p, G.DocRunNode(ts, p).p, T.DocParts(docs))
  {
    hide T.Grew, T.Leaves, G.DocLines, SpellDocs, LegalDocs;
    LegalDocsFrom([]);
    docs := DocsSound(ts, G.FlushStart(p, Green.DocRun), false, false);
    LegalDocsFrom(docs);
    DocsFirst(docs);
    LeavesNonempty(SpellDocs(docs));
    T.NodeBuilt(ts, p, Green.DocRun, G.DocLines(ts, G.FlushStart(p, Green.DocRun), false, false).p, T.Leaves(SpellDocs(docs)));
  }

  lemma DocRunComplete(ts: Tokens, p: G.P, docs: seq<Doc>)
    requires At(ts, p.pos, SpellDocs(docs)) && LegalDocs(docs) && !G.IsDoc(G.KindAt(ts, p.pos + |SpellDocs(docs)|))
    ensures p.pos <= |ts| && G.DocRunNode(ts, p).Good? && Took(ts, p, G.DocRunNode(ts, p).p, SpellDocs(docs))
  {
    hide G.DocLines, SpellDocs, LegalDocs;
    LegalDocsFrom(docs);
    DocsComplete(ts, G.FlushStart(p, Green.DocRun), false, false, docs);
  }

  /** A doc run begins with a doc token; without one the next token is the item's. */
  lemma DocsFirst(docs: seq<Doc>)
    ensures docs == [] ==> SpellDocs(docs) == []
    ensures docs != [] ==> SpellDocs(docs) != [] && G.IsDoc(SpellDocs(docs)[0])
  {
  }

  // ----- functions -----

  lemma HeadTokens(ts: Tokens, i: nat, name: string)
    ensures At(ts, i, SpellHead(name)) <==>
            i + 4 <= |ts| && ts[i] == G.Ident(name) && ts[i + 1] == G.LParen && ts[i + 2] == G.RParen && ts[i + 3] == G.LBrace
  {
    if i + 4 <= |ts| {
      assert ts[i..i + 4] == [ts[i], ts[i + 1], ts[i + 2], ts[i + 3]];
    }
  }

  lemma HeaderSound(ts: Tokens, p: G.P)
    requires p.pos <= |ts| && G.Header(ts, p).Good?
    ensures var name := G.Header(ts, p).value.name;
            Definable(name) && Read(ts, p, G.Header(ts, p).p, SpellHead(name))
  {
    hide T.Grew, T.Leaves, G.Expect, At;
    var q := G.Bump(ts, p);
    ExpectFound(ts, q, G.LParen, "`(` after the function name");
    var open := G.Expect(ts, q, G.LParen, "`(` after the function name").p;
    ExpectFound(ts, open, G.RParen, "`)` (functions take no parameters)");
    var close := G.Expect(ts, open, G.RParen, "`)` (functions take no parameters)").p;
    ExpectFound(ts, close, G.LBrace, "`{`");
    HeadTokens(ts, p.pos, G.Peek(ts, p).name);
    BumpReads(ts, p);
    ExpectReads(ts, q, G.LParen, "`(` after the function name");
    ExpectReads(ts, open, G.RParen, "`)` (functions take no parameters)");
    ExpectReads(ts, close, G.LBrace, "`{`");
    var name := G.Ident(G.Peek(ts, p).name);
    ReadMore(ts, p, q, open, [name], [G.LParen]);
    ReadMore(ts, p, open, close, [name] + [G.LParen], [G.RParen]);
    ReadMore(ts, p, close, G.Header(ts, p).p, [name] + [G.LParen] + [G.RParen], [G.LBrace]);
    assert [name] + [G.LParen] + [G.RParen] + [G.LBrace] == [name, G.LParen, G.RParen, G.LBrace];
  }

  lemma HeaderComplete(ts: Tokens, p: G.P, name: string)
    requires Definable(name) && At(ts, p.pos, SpellHead(name))
    ensures p.pos <= |ts| && G.Header(ts, p).Good? && G.Header(ts, p).value.name == name
    ensures Took(ts, p, G.Header(ts, p).p, SpellHead(name))
  {
    hide G.Expect, At;
    HeadTokens(ts, p.pos, name);
    var q := G.Bump(ts, p);
    ExpectHere(ts, q, G.LParen, "`(` after the function name");
    var open := G.Expect(ts, q, G.LParen, "`(` after the function name").p;
    ExpectHere(ts, open, G.RParen, "`)` (functions take no parameters)");
    var close := G.Expect(ts, open, G.RParen, "`)` (functions take no parameters)").p;
    ExpectHere(ts, close, G.LBrace, "`{`");
  }

  /** What an item adds to its body's scope. */
  function InScope(p: G.P, items: seq<Item>): G.P
  {
    p.(scope := G.Scope(p.scope.nested + Elems(NestedNames(items)), p.scope.labels + Elems(LabelsOf(items))))
  }

  /** The walk went over an item: what it declares is new, and joined the scope. */
  predicate TookItem(ts: Tokens, p: G.P, q: G.P, item: Item)
  {
    && At(ts, p.pos, SpellItem(item)) && q.pos == p.pos + |SpellItem(item)| && Same(InScope(p, [item]), q)
    && LegalItem(item) && FreshItems(p, [item])
  }

  predicate FreshItems(p: G.P, items: seq<Item>)
  {
    Fresh(LabelsOf(items), p.scope.labels) && Fresh(NestedNames(items), p.scope.nested)
  }

  predicate TookBody(ts: Tokens, p: G.P, q: G.P, items: seq<Item>)
  {
    && At(ts, p.pos, SpellBody(items)) && q.pos == p.pos + |SpellBody(items)|
    && q.namespaces == p.namespaces && q.declared == p.declared
    && LegalItems(items) && FreshItems(p, items)
  }

  lemma OneItemNames(item: Item)
    ensures LabelsOf([item]) == (if item.Do? then Values(item.labels) else [])
    ensures NestedNames([item]) == (if item.Nested? then [item.fn.name] else [])
  {
    assert [item][1..] == [];
  }

  lemma NamesMore(item: Item, rest: seq<Item>)
    ensures LabelsOf([item] + rest) == LabelsOf([item]) + LabelsOf(rest)
    ensures NestedNames([item] + rest) == NestedNames([item]) + NestedNames(rest)
  {
    assert ([item] + rest)[1..] == rest;
    OneItemNames(item);
  }

  lemma FreshMore(p: G.P, item: Item, rest: seq<Item>)
    ensures FreshItems(p, [item] + rest) <==> FreshItems(p, [item]) && FreshItems(InScope(p, [item]), rest)
  {
    hide LabelsOf, NestedNames, Fresh;
    NamesMore(item, rest);
    FreshJoin(LabelsOf([item]), LabelsOf(rest), p.scope.labels);
    FreshJoin(NestedNames([item]), NestedNames(rest), p.scope.nested);
  }

  lemma BodyMore(ts: Tokens, p: G.P, q: G.P, r: G.P, item: Item, rest: seq<Item>)
    requires TookItem(ts, p, q, item) && TookBody(ts, q, r, rest)
    ensures TookBody(ts, p, r, [item] + rest)
  {
    hide SpellItem, LabelsOf, NestedNames, LegalItem, Fresh;
    assert ([item] + rest)[1..] == rest;
    FreshMore(p, item, rest);
    AtJoin(ts, p.pos, SpellItem(item), SpellBody(rest));
  }

  // ----- what is read is legal -----

  lemma {:induction false} FunctionSound(ts: Tokens, p: G.P) returns (fn: Fn)
    requires p.pos <= |ts| && G.FunctionBody(ts, p).Good?
    ensures LegalFn(fn) && fn.name == G.FunctionBody(ts, p).value.name && Took(ts, p, G.FunctionBody(ts, p).p, SpellFn(fn))
    ensures T.WroteLast(ts, p, G.FunctionBody(ts, p).p, T.FnParts(fn))
    decreases |ts| - p.pos, 0
  {
    hide T.Grew, T.Closed, T.Leaves, T.BodyParts, G.Header, G.BodyItems, SpellBody, LegalItems, LabelsOf, NestedNames,
      SpellHead;
    HeaderSound(ts, p);
    var name := G.Header(ts, p).value.name;
    var inner := G.Header(ts, p).p.(scope := G.NO_SCOPE);
    var items := BodySound(ts, inner);
    fn := Fn(name, items);
    T.WroteLastMore(ts, p, inner, G.FunctionBody(ts, p).p, T.Leaves(SpellHead(name)), T.BodyParts(items));
    AtJoin(ts, p.pos, SpellHead(name), SpellBody(items));
  }

  lemma {:induction false} BodySound(ts: Tokens, p: G.P) returns (items: seq<Item>)
    requires p.pos <= |ts| && G.BodyItems(ts, p).Good?
    ensures TookBody(ts, p, G.BodyItems(ts, p).p, items)
    ensures T.WroteLast(ts, p, G.BodyItems(ts, p).p, T.BodyParts(items))
    decreases |ts| - p.pos, 4
  {
    hide T.Grew, T.Closed, T.BodyNode, T.AtSeam, G.BodyItem, TookBody, SpellItem, LegalItem, FreshItems, Fresh, LabelsOf,
      NestedNames;
    var s := G.Seam(p);
    var at := |s.sink.children|;
    T.SeamIs(ts, p);
    var item := ItemSound(ts, s, at);
    var q := G.BodyItem(ts, s, at).p;
    if item.None? {
      items := [];
      T.SeamCloses(ts, p, q, [T.Leaf(G.RBrace)]);
      EmptyBody(ts, p, q);
    } else {
      var rest := BodySound(ts, q);
      items := [item.value] + rest;
      T.SeamWrites(ts, p, q, [T.BodyNode(item.value)]);
      T.WroteLastMore(ts, p, q, G.BodyItems(ts, p).p, [T.BodyNode(item.value)], T.BodyParts(rest));
      SameItem(ts, s, p, q, item.value);
      BodyMore(ts, p, q, G.BodyItems(ts, p).p, item.value, rest);
    }
  }

  lemma EmptyBody(ts: Tokens, p: G.P, q: G.P)
    requires Took(ts, p, q, [G.RBrace])
    ensures TookBody(ts, p, q, [])
  {
  }

  lemma SameItem(ts: Tokens, s: G.P, p: G.P, q: G.P, item: Item)
    requires TookItem(ts, s, q, item) && Same(s, p) && s.pos == p.pos
    ensures TookItem(ts, p, q, item)
  {
    hide SpellItem, LegalItem, LabelsOf, NestedNames, Fresh;
  }

  lemma {:induction false} ItemSound(ts: Tokens, p: G.P, at: nat) returns (item: Option<Item>)
    requires p.pos <= |ts| && G.BodyItem(ts, p, at).Good? && T.AtSeam(p, at)
    ensures item.None? <==> G.BodyItem(ts, p, at).value.Done?
    ensures item.None? ==> Took(ts, p, G.BodyItem(ts, p, at).p, [G.RBrace])
    ensures item.Some? ==> TookItem(ts, p, G.BodyItem(ts, p, at).p, item.value)
    ensures item.None? ==> T.WroteLast(ts, p, G.BodyItem(ts, p, at).p, [T.Leaf(G.RBrace)])
    ensures item.Some? ==> T.Wrote(ts, p, G.BodyItem(ts, p, at).p, [T.BodyNode(item.value)])
    decreases |ts| - p.pos, 3
  {
    hide T.Grew, T.Closed, T.AtSeam, T.DocParts, T.FnParts, G.DocRunNode, G.Undocumented, TookItem, LegalDocs, SpellDocs,
      SpellFn, LegalFn;
    if G.IsDoc(G.Peek(ts, p)) {
      var docs := DocRunSound(ts, p);
      var q := G.DocRunNode(ts, p).p;
      var fn := NestedSound(ts, q, at);
      item := Some(Nested(docs, fn));
      T.NodeAtWrites(ts, p, at, q, Green.Function, G.Undocumented(ts, q, at).p, T.DocParts(docs), T.FnParts(fn));
      NestedTook(ts, p, q, G.Undocumented(ts, q, at).p, docs, fn);
    } else {
      item := PlainSound(ts, p, at);
    }
  }

  /** A nested function joins the scope under a new name. */
  predicate TookNested(ts: Tokens, p: G.P, q: G.P, fn: Fn)
  {
    && At(ts, p.pos, SpellFn(fn)) && q.pos == p.pos + |SpellFn(fn)| && LegalFn(fn) && fn.name !in p.scope.nested
    && Same(p.(scope := p.scope.(nested := p.scope.nested + {fn.name})), q)
  }

  lemma NestedTook(ts: Tokens, p: G.P, q: G.P, r: G.P, docs: seq<Doc>, fn: Fn)
    requires Took(ts, p, q, SpellDocs(docs)) && LegalDocs(docs) && TookNested(ts, q, r, fn)
    ensures TookItem(ts, p, r, Nested(docs, fn))
  {
    hide SpellDocs, SpellFn, LegalDocs, LegalFn;
    AtJoin(ts, p.pos, SpellDocs(docs), SpellFn(fn));
    OneItemNames(Nested(docs, fn));
    OneFresh(fn.name, p.scope.nested);
    NoneFresh(p.scope.labels);
    assert p.scope.labels + {} == p.scope.labels;
  }

  lemma NoneFresh(old_: set<nat>)
    ensures Fresh([], old_) && Elems<nat>([]) == {}
  {
  }

  lemma {:induction false} NestedSound(ts: Tokens, p: G.P, at: nat) returns (fn: Fn)
    requires p.pos <= |ts| && G.IsNestedStart(ts, p) && G.Undocumented(ts, p, at).Good?
    ensures G.Undocumented(ts, p, at).value.Continue? && TookNested(ts, p, G.Undocumented(ts, p, at).p, fn)
    ensures T.WroteLast(ts, G.StartNodeAt(p, at, Green.Function), G.Undocumented(ts, p, at).p, T.FnParts(fn))
    decreases |ts| - p.pos, 1
  {
    hide T.Closed, T.FnParts, G.FunctionBody, SpellFn, LegalFn;
    fn := FunctionSound(ts, G.StartNodeAt(p, at, Green.Function));
  }

  lemma {:induction false} PlainSound(ts: Tokens, p: G.P, at: nat) returns (item: Option<Item>)
    requires p.pos <= |ts| && !G.IsDoc(G.Peek(ts, p)) && G.Undocumented(ts, p, at).Good? && T.AtSeam(p, at)
    ensures item.None? <==> G.Undocumented(ts, p, at).value.Done?
    ensures item.None? ==> Took(ts, p, G.Undocumented(ts, p, at).p, [G.RBrace])
    ensures item.Some? ==> TookItem(ts, p, G.Undocumented(ts, p, at).p, item.value)
    ensures item.None? ==> T.WroteLast(ts, p, G.Undocumented(ts, p, at).p, [T.Leaf(G.RBrace)])
    ensures item.Some? ==> T.Wrote(ts, p, G.Undocumented(ts, p, at).p, [T.BodyNode(item.value)])
    decreases |ts| - p.pos, 2
  {
    hide T.Grew, T.Closed, T.AtSeam, T.FnParts, T.GroupParts, G.FunctionBody, G.Labels, G.StatementBody, TookItem, SpellDocs,
      SpellFn, LegalFn, SpellLabels, SpellGroup, LegalGroup, Fresh, Values;
    if G.IsNestedStart(ts, p) {
      var fn := NestedSound(ts, p, at);
      item := Some(Nested([], fn));
      NoDocs(false, false);
      LegalDocsFrom([]);
      DocsFirst([]);
      TookNothing(ts, p);
      T.WroteNothing(ts, p);
      T.NodeAtWrites(ts, p, at, p, Green.Function, G.Undocumented(ts, p, at).p, [], T.FnParts(fn));
      NestedTook(ts, p, p, G.Undocumented(ts, p, at).p, [], fn);
    } else {
      var labels := LabelsSound(ts, p, None);
      var q := G.Labels(ts, p, None).p;
      if G.Peek(ts, q).RBrace? {
        item := None;
        LabelsNone(ts, p, q);
        BumpTakes(ts, q);
        T.BumpWrites(ts, q);
        T.WroteMore(ts, p, q, G.Bump(ts, q), [], [T.Leaf(G.RBrace)]);
        assert [] + [T.Leaf(G.RBrace)] == [T.Leaf(G.RBrace)];
        T.FinishWrites(ts, p, G.Bump(ts, q), [T.Leaf(G.RBrace)]);
      } else {
        var s := G.StartNodeAt(q, at, Green.Statement);
        var commands := GroupSound(ts, s);
        item := Some(Do(labels, commands));
        StatementWrites(ts, p, at, q, labels, commands);
        DoTook(ts, p, q, G.Undocumented(ts, p, at).p, labels, commands);
      }
    }
  }

  lemma StatementWrites(ts: Tokens, p: G.P, at: nat, q: G.P, labels: seq<Label>, commands: seq<Command>)
    requires T.AtSeam(p, at) && q.pos <= |ts| && commands != [] && T.Wrote(ts, p, q, T.LabelParts(labels))
    requires G.StatementBody(ts, G.StartNodeAt(q, at, Green.Statement)).Good?
    requires var s := G.StartNodeAt(q, at, Green.Statement); T.Wrote(ts, s, G.StatementBody(ts, s).p, T.GroupParts(commands))
    ensures T.Wrote(ts, p, G.FinishNode(G.StatementBody(ts, G.StartNodeAt(q, at, Green.Statement)).p),
                    [T.BodyNode(Do(labels, commands))])
  {
    hide T.Grew, T.Closed, T.AtSeam, G.StatementBody, T.LabelParts;
    var s := G.StartNodeAt(q, at, Green.Statement);
    var r := G.StatementBody(ts, s).p;
    T.FinishWrites(ts, s, r, T.GroupParts(commands));
    T.NodeAtWrites(ts, p, at, q, Green.Statement, G.FinishNode(r), T.LabelParts(labels), T.GroupParts(commands));
  }

  lemma LabelsNone(ts: Tokens, p: G.P, q: G.P)
    requires TookLabels(ts, p, q, [])
    ensures q.pos == p.pos && Same(p, q)
  {
    NoLabels(p);
  }

  lemma DoScope(p: G.P, labels: seq<Label>, commands: seq<Command>)
    ensures InScope(p, [Do(labels, commands)]) == WithLabels(p, Elems(Values(labels)))
    ensures FreshItems(p, [Do(labels, commands)]) <==> Fresh(Values(labels), p.scope.labels)
  {
    hide LabelsOf, NestedNames, Values, Fresh;
    OneItemNames(Do(labels, commands));
    NoNames(p.scope.nested);
    assert p.scope.nested + {} == p.scope.nested;
  }

  lemma DoTook(ts: Tokens, p: G.P, q: G.P, r: G.P, labels: seq<Label>, commands: seq<Command>)
    requires TookLabels(ts, p, q, labels) && Fresh(Values(labels), p.scope.labels)
    requires Took(ts, q, r, SpellGroup(commands)) && LegalGroup(commands)
    ensures TookItem(ts, p, r, Do(labels, commands))
  {
    hide SpellLabels, SpellGroup, LegalGroup, Values, InScope, FreshItems, WithLabels, Fresh, Elems, At;
    AtJoin(ts, p.pos, SpellLabels(labels), SpellGroup(commands));
    DoScope(p, labels, commands);
  }

  lemma NoNames(old_: set<string>)
    ensures Fresh([], old_) && Elems<string>([]) == {}
  {
  }

  // ----- what is legal is read -----

  lemma {:induction false} FunctionComplete(ts: Tokens, p: G.P, fn: Fn)
    requires LegalFn(fn) && At(ts, p.pos, SpellFn(fn))
    ensures p.pos <= |ts| && G.FunctionBody(ts, p).Good? && G.FunctionBody(ts, p).value.name == fn.name
    ensures Took(ts, p, G.FunctionBody(ts, p).p, SpellFn(fn))
    decreases fn, 0
  {
    hide G.Header, G.BodyItems, SpellBody, LegalItems, LabelsOf, NestedNames, SpellHead;
    AtJoin(ts, p.pos, SpellHead(fn.name), SpellBody(fn.body));
    HeaderComplete(ts, p, fn.name);
    var inner := G.Header(ts, p).p.(scope := G.NO_SCOPE);
    BodyComplete(ts, inner, fn.body);
  }

  lemma {:induction false} BodyComplete(ts: Tokens, p: G.P, items: seq<Item>)
    requires At(ts, p.pos, SpellBody(items)) && LegalItems(items) && FreshItems(p, items)
    ensures p.pos <= |ts| && G.BodyItems(ts, p).Good? && TookBody(ts, p, G.BodyItems(ts, p).p, items)
    decreases items
  {
    hide G.BodyItem, TookBody, SpellItem, LegalItem, FreshItems, Fresh, LabelsOf, NestedNames;
    var s := G.Seam(p);
    var at := |s.sink.children|;
    if items == [] {
      AtOne(ts, p.pos, G.RBrace);
      EndComplete(ts, s, at);
      EmptyBody(ts, p, G.BodyItem(ts, s, at).p);
    } else {
      var item, rest := items[0], items[1..];
      assert items == [item] + rest;
      AtJoin(ts, p.pos, SpellItem(item), SpellBody(rest));
      FreshMore(p, item, rest);
      FreshThere(p, s, [item]);
      ItemComplete(ts, s, at, item);
      var q := G.BodyItem(ts, s, at).p;
      SameItem(ts, s, p, q, item);
      TookScope(ts, p, q, item);
      FreshThere(InScope(p, [item]), q, rest);
      BodyComplete(ts, q, rest);
      BodyMore(ts, p, q, G.BodyItems(ts, p).p, item, rest);
    }
  }

  lemma TookScope(ts: Tokens, p: G.P, q: G.P, item: Item)
    requires TookItem(ts, p, q, item)
    ensures Same(InScope(p, [item]), q) && q.pos == p.pos + |SpellItem(item)|
  {
  }

  lemma FreshThere(p: G.P, q: G.P, items: seq<Item>)
    requires FreshItems(p, items) && Same(p, q)
    ensures FreshItems(q, items)
  {
  }

  /** The closing brace ends a body. */
  lemma EndComplete(ts: Tokens, p: G.P, at: nat)
    requires p.pos < |ts| && ts[p.pos].RBrace?
    ensures G.BodyItem(ts, p, at).Good? && G.BodyItem(ts, p, at).value.Done? && Took(ts, p, G.BodyItem(ts, p, at).p, [G.RBrace])
  {
    hide G.FunctionBody, G.StatementBody;
    BumpTakes(ts, p);
  }

  /** How a command begins. */
  lemma CommandFirst(c: Command)
    requires LegalCommand(c)
    ensures SpellCommand(c) != []
    ensures var k := SpellCommand(c)[0]; k.At? || (k.Ident? && k.name in KEYWORDS)
  {
  }

  lemma {:induction false} ItemComplete(ts: Tokens, p: G.P, at: nat, item: Item)
    requires At(ts, p.pos, SpellItem(item)) && LegalItem(item) && FreshItems(p, [item])
    ensures p.pos <= |ts| && G.BodyItem(ts, p, at).Good? && G.BodyItem(ts, p, at).value.Continue?
    ensures TookItem(ts, p, G.BodyItem(ts, p, at).p, item)
    decreases item
  {
    hide G.DocRunNode, G.Undocumented, TookItem, LegalDocs, SpellDocs, SpellFn, LegalFn, SpellLabels, SpellGroup, LegalGroup,
      Fresh, Values;
    OneItemNames(item);
    match item
    case Nested(docs, fn) =>
      AtJoin(ts, p.pos, SpellDocs(docs), SpellFn(fn));
      DocsFirst(docs);
      FunctionFirst(ts, p.pos + |SpellDocs(docs)|, fn);
      if docs == [] {
        OneFresh(fn.name, p.scope.nested);
        NestedComplete(ts, p, at, fn);
        TookNothing(ts, p);
        NestedTook(ts, p, p, G.Undocumented(ts, p, at).p, [], fn);
      } else {
        AtFirst(ts, p.pos, SpellDocs(docs));
        DocRunComplete(ts, p, docs);
        var q := G.DocRunNode(ts, p).p;
        OneFresh(fn.name, p.scope.nested);
        NestedComplete(ts, q, at, fn);
        NestedTook(ts, p, q, G.Undocumented(ts, q, at).p, docs, fn);
      }
    case Do(labels, commands) => DoComplete(ts, p, at, labels, commands);
  }

  /** How a nested function begins: its name is no keyword and not `volatile`. */
  lemma FunctionFirst(ts: Tokens, i: nat, fn: Fn)
    requires At(ts, i, SpellFn(fn)) && LegalFn(fn)
    ensures At(ts, i, SpellHead(fn.name)) && Definable(fn.name)
    ensures i + 4 <= |ts| && ts[i] == G.Ident(fn.name) && ts[i + 1] == G.LParen && ts[i + 2] == G.RParen
            && ts[i + 3] == G.LBrace
  {
    hide SpellBody, LegalItems, LabelsOf, NestedNames;
    AtJoin(ts, i, SpellHead(fn.name), SpellBody(fn.body));
    HeadTokens(ts, i, fn.name);
  }

  lemma {:induction false} NestedComplete(ts: Tokens, p: G.P, at: nat, fn: Fn)
    requires LegalFn(fn) && At(ts, p.pos, SpellFn(fn)) && fn.name !in p.scope.nested
    ensures p.pos <= |ts| && G.IsNestedStart(ts, p) && G.Undocumented(ts, p, at).Good?
            && G.Undocumented(ts, p, at).value.Continue?
    ensures TookNested(ts, p, G.Undocumented(ts, p, at).p, fn) && !G.IsDoc(G.Peek(ts, p)) && !G.Peek(ts, p).Eof?
    decreases fn, 1
  {
    hide G.FunctionBody, SpellFn, LegalFn, G.Labels, G.StatementBody;
    FunctionFirst(ts, p.pos, fn);
    FunctionComplete(ts, G.StartNodeAt(p, at, Green.Function), fn);
  }

  lemma DoComplete(ts: Tokens, p: G.P, at: nat, labels: seq<Label>, commands: seq<Command>)
    requires At(ts, p.pos, SpellLabels(labels) + SpellGroup(commands)) && LegalGroup(commands)
             && Fresh(Values(labels), p.scope.labels)
    ensures p.pos <= |ts| && G.BodyItem(ts, p, at).Good? && G.BodyItem(ts, p, at).value.Continue?
    ensures TookItem(ts, p, G.BodyItem(ts, p, at).p, Do(labels, commands))
  {
    hide G.DocRunNode, G.FunctionBody, G.Labels, G.StatementBody, TookItem, SpellLabels, SpellGroup, LegalGroup, Fresh, Values;
    AtJoin(ts, p.pos, SpellLabels(labels), SpellGroup(commands));
    GroupFirst(ts, p.pos + |SpellLabels(labels)|, commands);
    DoFirst(ts, p.pos, labels);
    LabelsComplete(ts, p, None, labels);
    var q := G.Labels(ts, p, None).p;
    LabelsTook(ts, p, q, labels);
    GroupComplete(ts, G.StartNodeAt(q, at, Green.Statement), commands);
    DoTook(ts, p, q, G.Undocumented(ts, p, at).p, labels, commands);
  }

  lemma LabelsTook(ts: Tokens, p: G.P, q: G.P, labels: seq<Label>)
    requires TookLabels(ts, p, q, labels)
    ensures q.pos == p.pos + |SpellLabels(labels)|
  {
  }

  lemma GroupFirst(ts: Tokens, i: nat, commands: seq<Command>)
    requires At(ts, i, SpellGroup(commands)) && LegalGroup(commands)
    ensures i < |ts| && (ts[i].At? || (ts[i].Ident? && ts[i].name in KEYWORDS))
  {
    hide SpellRest, SpellCommand, LegalCommand;
    AtJoin(ts, i, SpellCommand(commands[0]), SpellRest(commands[1..]));
    CommandFirst(commands[0]);
    AtFirst(ts, i, SpellCommand(commands[0]));
  }

  /** A statement begins with a label or a command, never as a nested function does. */
  lemma DoFirst(ts: Tokens, i: nat, labels: seq<Label>)
    requires At(ts, i, SpellLabels(labels)) && i + |SpellLabels(labels)| < |ts|
    requires var k := ts[i + |SpellLabels(labels)|]; k.At? || (k.Ident? && k.name in KEYWORDS)
    ensures i < |ts| && (ts[i].Number? || ts[i].At? || (ts[i].Ident? && ts[i].name in KEYWORDS))
  {
    if labels != [] {
      AtFirst(ts, i, SpellLabels(labels));
    }
  }

  // ----- what the compiler is given -----

  function DestArm(d: Dest): S.CheckArm
  {
    match d
    case To(l) => S.ArmLabel(l.value)
    case Back => S.ArmReturn
  }

  function SuccOf(succ: Option<Dest>): S.Successor
  {
    match succ
    case None => S.FallThrough
    case Some(To(l)) => S.ToLabel(l.value)
    case Some(Back) => S.Return
  }

  function BuiltinOf(word: string): S.Builtin
  {
    if word == "left" then S.Left else if word == "right" then S.Right else if word == "mark" then S.Mark else S.Unmark
  }

  function Joined(path: seq<string>): string
  {
    if path == [] then "" else if |path| == 1 then path[0] else path[0] + "::" + Joined(path[1..])
  }

  /** A command as lowering takes it; `line` stands for where it is written. */
  function ItemOf(c: Command, line: nat): S.Item
  {
    match c
    case Tape(word, succ) => S.Item.Tape(BuiltinOf(word), SuccOf(succ), line)
    case Debugger => S.Item.Debugger(line)
    case Halt => S.Item.Halt(line)
    case Goto(l) => S.Item.Goto(l.value, line)
    case Check(a, b) => S.Item.Check(DestArm(a), DestArm(b), line)
    case Call(path, succ) => S.Item.Call(Joined(path), SuccOf(succ), line)
  }

  function ItemsOf(commands: seq<Command>, line: nat): seq<S.Item>
  {
    seq(|commands|, (k: nat) requires k < |commands| => ItemOf(commands[k], line))
  }

  /** A body's own statements. */
  function BodyOf(items: seq<Item>, line: nat): seq<S.Statement>
  {
    if items == [] then []
    else (if items[0].Do? then [S.Statement(Values(items[0].labels), ItemsOf(items[0].commands, line), line)]
          else []) + BodyOf(items[1..], line)
  }

  lemma GroupFormed(commands: seq<Command>, labels: seq<nat>, line: nat)
    requires LegalGroup(commands)
    ensures S.WellFormedStatement(S.Statement(labels, ItemsOf(commands, line), line))
  {
    hide LegalCommand;
    forall k | 0 <= k < |commands| - 1
      ensures S.HasEffect(ItemsOf(commands, line)[k]) && S.SuccessorOf(ItemsOf(commands, line)[k]) == S.FallThrough
    {
      assert Bare(commands[k]);
    }
  }

  /** Every label of a body's statements is one of the body's. */
  lemma {:induction false} LabelsIn(items: seq<Item>, line: nat)
    ensures forall i, a | 0 <= i < |BodyOf(items, line)| && 0 <= a < |BodyOf(items, line)[i].labels| ::
              BodyOf(items, line)[i].labels[a] in LabelsOf(items)
  {
    if items != [] {
      LabelsIn(items[1..], line);
    }
  }

  lemma {:induction false} BodyDistinct(items: seq<Item>, line: nat)
    requires Distinct(LabelsOf(items)) && LegalItems(items)
    ensures S.DistinctLabels(BodyOf(items, line))
    ensures forall i | 0 <= i < |BodyOf(items, line)| :: S.WellFormedStatement(BodyOf(items, line)[i])
  {
    hide LegalGroup, Values, ItemsOf, S.WellFormedStatement;
    if items != [] {
      var item, rest := items[0], items[1..];
      assert items == [item] + rest;
      NamesMore(item, rest);
      OneItemNames(item);
      FreshJoin(LabelsOf([item]), LabelsOf(rest), {});
      BodyDistinct(rest, line);
      LabelsIn(rest, line);
      if item.Do? {
        GroupFormed(item.commands, Values(item.labels), line);
        DistinctMore(S.Statement(Values(item.labels), ItemsOf(item.commands, line), line), BodyOf(rest, line));
      }
    }
  }

  lemma DistinctMore(st: S.Statement, rest: seq<S.Statement>)
    requires Distinct(st.labels) && S.DistinctLabels(rest)
    requires forall i, a | 0 <= i < |rest| && 0 <= a < |rest[i].labels| :: rest[i].labels[a] !in st.labels
    ensures S.DistinctLabels([st] + rest)
  {
    var body := [st] + rest;
    assert body[0] == st && forall i | 0 <= i < |rest| :: body[i + 1] == rest[i];
    forall i, a, k, b | 0 <= i < |body| && 0 <= a < |body[i].labels| && 0 <= k < |body| && 0 <= b < |body[k].labels|
                        && (i, a) != (k, b)
      ensures body[i].labels[a] != body[k].labels[b]
    {
      if i > 0 && k > 0 {
        assert (i - 1, a) != (k - 1, b);
        assert rest[i - 1].labels[a] != rest[k - 1].labels[b];
      } else if i > 0 {
        assert rest[i - 1].labels[a] !in st.labels;
      } else if k > 0 {
        assert rest[k - 1].labels[b] !in st.labels;
      }
    }
  }

  /** Every body of an accepted program is what lowering asks for: comma groups by the rules, no label
      declared twice. */
  lemma LegalIsParsed(fn: Fn, line: nat, local: bool)
    requires LegalFn(fn)
    ensures var f := S.Function(fn.name, line, BodyOf(fn.body, line), local);
            S.WellFormed(f) && S.DistinctLabels(f.body)
  {
    hide LabelsOf, NestedNames, LegalItems;
    BodyDistinct(fn.body, line);
  }
}
