/** The green tree of a program: which nodes there are, what each holds, and where the trivia goes. */
module PmTree {
  import opened Options
  import opened PmLanguage
  import G = PmGrammar
  import opened PmGreen

  /** A tree without places: tokens, the gaps before them, and nodes. */
  datatype Shape = Leaf(token: G.TokenKind) | Gap | Branch(kind: Kind, parts: seq<Shape>)

  function ShapeOf(ts: Tokens, t: Tree): Shape
    decreases t
  {
    match t
    case Token(pos) => Leaf(G.KindAt(ts, pos))
    case Trivia(_) => Gap
    case Node(kind, children) => Branch(kind, seq(|children|, (k: nat) requires k < |children| => ShapeOf(ts, children[k])))
  }

  function Shapes(ts: Tokens, children: seq<Tree>): seq<Shape>
  {
    seq(|children|, (k: nat) requires k < |children| => ShapeOf(ts, children[k]))
  }

  // ----- the nodes of a program -----

  /** A gap stands before every token, but outside the nodes that begin with the token. */
  function Tight(x: Shape): Shape
    decreases x, 1
  {
    if x.Branch? && x.parts != [] then Branch(x.kind, Spaced(x.parts)[1..]) else x
  }

  function Spaced(xs: seq<Shape>): (r: seq<Shape>)
    ensures xs != [] ==> r != []
    decreases xs, 0
  {
    if xs == [] then [] else [Gap, Tight(xs[0])] + Spaced(xs[1..])
  }

  function Leaves(s: Tokens): seq<Shape>
  {
    seq(|s|, (k: nat) requires k < |s| => Leaf(s[k]))
  }

  function ArmNode(d: Dest): Shape
  {
    Branch(CheckArm, [Leaf(SpellDest(d))])
  }

  /** A command: its tokens, and a node for each arm of a `check`. */
  function CommandParts(c: Command): seq<Shape>
  {
    if c.Check? then [Leaf(G.Ident("check"))] + ArmParts(c.marked, c.blank) else Leaves(SpellCommand(c))
  }

  function ArmParts(a: Dest, b: Dest): seq<Shape>
  {
    [Leaf(G.LParen)] + [ArmNode(a)] + [Leaf(G.Comma)] + [ArmNode(b)] + [Leaf(G.RParen)]
  }

  function CommandNode(c: Command): Shape
  {
    Branch(Kind.Item, CommandParts(c))
  }

  function RestParts(commands: seq<Command>): seq<Shape>
  {
    if commands == [] then [Leaf(G.Semi)] else [Leaf(G.Comma)] + [CommandNode(commands[0])] + RestParts(commands[1..])
  }

  function GroupParts(commands: seq<Command>): seq<Shape>
  {
    if commands == [] then [] else [CommandNode(commands[0])] + RestParts(commands[1..])
  }

  function LabelNode(l: PmLanguage.Label): Shape
  {
    Branch(Kind.Label, Leaves([SpellLabel(l), G.Colon]))
  }

  function LabelParts(labels: seq<PmLanguage.Label>): seq<Shape>
  {
    if labels == [] then [] else [LabelNode(labels[0])] + LabelParts(labels[1..])
  }

  /** A doc run is one node, inside the function it documents. */
  function DocParts(docs: seq<Doc>): seq<Shape>
  {
    if docs == [] then [] else [Branch(DocRun, Leaves(SpellDocs(docs)))]
  }

  function FnParts(fn: Fn): seq<Shape>
    decreases fn
  {
    Leaves(SpellHead(fn.name)) + BodyParts(fn.body)
  }

  function BodyParts(items: seq<PmLanguage.Item>): seq<Shape>
    decreases items
  {
    if items == [] then [Leaf(G.RBrace)] else [BodyNode(items[0])] + BodyParts(items[1..])
  }

  function BodyNode(item: PmLanguage.Item): Shape
    decreases item
  {
    match item
    case Nested(docs, fn) => Branch(Kind.Function, DocParts(docs) + FnParts(fn))
    case Do(labels, commands) => Branch(Statement, LabelParts(labels) + GroupParts(commands))
  }

  function ImportParts(imports: seq<Import>): seq<Shape>
  {
    if imports == [] then []
    else
      [Branch(UsePath, Leaves(SpellImport(imports[0])))]
      + (if |imports| == 1 then [Leaf(G.Semi)] else [Leaf(G.Comma)] + ImportParts(imports[1..]))
  }

  function ModifierTokens(isVolatile: bool, exported: bool): Tokens
  {
    (if isVolatile then [G.Ident("volatile")] else []) + (if exported then [G.Ident("export")] else [])
  }

  function SpaceTokens(name: string): Tokens
  {
    [G.Ident("namespace"), G.Ident(name), G.LBrace]
  }

  function TopNode(item: Top): Shape
    decreases item
  {
    match item
    case Use(imports) => Branch(UseDecl, [Leaf(G.Ident("use"))] + ImportParts(imports))
    case Namespace(name, items) => Branch(Kind.Namespace, Leaves(SpaceTokens(name)) + TopParts(items) + [Leaf(G.RBrace)])
    case Function(docs, isVolatile, exported, fn) =>
      Branch(Kind.Function, DocParts(docs) + Leaves(ModifierTokens(isVolatile, exported)) + FnParts(fn))
  }

  function TopParts(items: seq<Top>): seq<Shape>
    decreases items
  {
    if items == [] then [] else [TopNode(items[0])] + TopParts(items[1..])
  }

  /** The whole file; the last gap is what stands before the end. */
  function FileShape(items: seq<Top>): Shape
  {
    Branch(File, Spaced(TopParts(items)) + [Gap])
  }

  // ----- what a stretch of the walk builds -----

  /** The sink is between tokens: the next token's trivia is still to come, or is what came last. */
  predicate Settled(s: Sink, pos: nat)
  {
    s.flushed == pos || (s.flushed == pos + 1 && s.children != [] && s.children[|s.children| - 1].Trivia?)
  }

  /** What the sink holds before the next token's trivia. */
  function View(ts: Tokens, s: Sink, pos: nat): seq<Shape>
    requires Settled(s, pos)
  {
    Shapes(ts, if s.flushed == pos then s.children else s.children[..|s.children| - 1])
  }

  /** The sink grew by these parts and their gaps; the same nodes are open. */
  predicate Grew(ts: Tokens, s: Sink, i: nat, t: Sink, j: nat, xs: seq<Shape>)
  {
    Settled(s, i) ==>
      && Settled(t, j) && t.frames == s.frames && (if xs == [] then t == s && j == i else t.flushed == j)
      && View(ts, t, j) == View(ts, s, i) + Spaced(xs)
  }

  /** It grew by these parts, and then the innermost open node was closed over all it holds. */
  predicate Closed(ts: Tokens, s: Sink, i: nat, t: Sink, j: nat, xs: seq<Shape>)
  {
    Settled(s, i) && s.frames != [] && s.frames[|s.frames| - 1].first <= |View(ts, s, i)| + 1 ==>
      var f, all := s.frames[|s.frames| - 1], View(ts, s, i) + Spaced(xs);
      && xs != [] && f.first <= |all| && t.frames == s.frames[..|s.frames| - 1] && t.flushed == j
      && Shapes(ts, t.children) == all[..f.first] + [Branch(f.kind, all[f.first..])]
  }

  predicate Wrote(ts: Tokens, p: G.P, q: G.P, xs: seq<Shape>)
  {
    Grew(ts, p.sink, p.pos, q.sink, q.pos, xs)
  }

  predicate WroteLast(ts: Tokens, p: G.P, q: G.P, xs: seq<Shape>)
  {
    Closed(ts, p.sink, p.pos, q.sink, q.pos, xs)
  }

  lemma ShapesJoin(ts: Tokens, a: seq<Tree>, b: seq<Tree>)
    ensures Shapes(ts, a + b) == Shapes(ts, a) + Shapes(ts, b)
  {
  }

  lemma ShapesOne(ts: Tokens, t: Tree)
    ensures Shapes(ts, [t]) == [ShapeOf(ts, t)]
  {
  }

  lemma ShapesCut(ts: Tokens, a: seq<Tree>, k: nat)
    requires k <= |a|
    ensures Shapes(ts, a[..k]) == Shapes(ts, a)[..k] && Shapes(ts, a[k..]) == Shapes(ts, a)[k..]
  {
  }

  lemma {:induction false} SpacedJoin(a: seq<Shape>, b: seq<Shape>)
    ensures Spaced(a + b) == Spaced(a) + Spaced(b)
    decreases |a|
  {
    hide Tight;
    if a == [] {
      assert a + b == b;
    } else {
      assert (a + b)[0] == a[0] && (a + b)[1..] == a[1..] + b;
      SpacedJoin(a[1..], b);
    }
  }

  lemma SpacedOne(x: Shape)
    ensures Spaced([x]) == [Gap, Tight(x)]
  {
    hide Tight;
    assert [x][1..] == [];
  }

  lemma SpacedFirst(xs: seq<Shape>)
    requires xs != []
    ensures Spaced(xs) != [] && Spaced(xs)[0] == Gap
  {
  }

  // ----- the laws of growing -----

  lemma WroteNothing(ts: Tokens, p: G.P)
    ensures Wrote(ts, p, p, [])
  {
  }

  lemma WroteMore(ts: Tokens, p: G.P, q: G.P, r: G.P, a: seq<Shape>, b: seq<Shape>)
    requires Wrote(ts, p, q, a) && Wrote(ts, q, r, b)
    ensures Wrote(ts, p, r, a + b)
  {
    hide Spaced, View;
    SpacedJoin(a, b);
    assert a + b == [] ==> a == [] && b == [];
    assert b == [] ==> a + b == a;
    SpacedNone();
  }

  lemma SpacedNone()
    ensures Spaced([]) == []
  {
  }

  lemma WroteLastMore(ts: Tokens, p: G.P, q: G.P, r: G.P, a: seq<Shape>, b: seq<Shape>)
    requires Wrote(ts, p, q, a) && WroteLast(ts, q, r, b)
    ensures WroteLast(ts, p, r, a + b)
  {
    hide Spaced, View, Shapes;
    SpacedJoin(a, b);
    if Settled(p.sink, p.pos) {
      assert View(ts, p.sink, p.pos) + Spaced(a + b) == View(ts, q.sink, q.pos) + Spaced(b);
    }
  }

  lemma BumpWrites(ts: Tokens, p: G.P)
    requires p.pos < |ts| && !ts[p.pos].Eof?
    ensures Wrote(ts, p, G.Bump(ts, p), [Leaf(ts[p.pos])])
  {
    SpacedOne(Leaf(ts[p.pos]));
    if Settled(p.sink, p.pos) {
      FlushView(ts, p.sink, p.pos);
      var f := Flush(p.sink, p.pos);
      ShapesJoin(ts, f.children, [Token(p.pos)]);
      ShapesOne(ts, Token(p.pos));
    }
  }

  /** Flushing adds the gap, once. */
  lemma FlushView(ts: Tokens, s: Sink, pos: nat)
    requires Settled(s, pos)
    ensures var f := Flush(s, pos);
            && Settled(f, pos) && f.flushed == pos + 1 && f.frames == s.frames && View(ts, f, pos) == View(ts, s, pos)
            && Shapes(ts, f.children) == View(ts, s, pos) + [Gap]
  {
    ShapesJoin(ts, s.children, [Trivia(pos)]);
    ShapesOne(ts, Trivia(pos));
    if s.flushed == pos + 1 {
      var n := |s.children| - 1;
      assert s.children == s.children[..n] + [s.children[n]];
      ShapesJoin(ts, s.children[..n], [s.children[n]]);
      ShapesOne(ts, s.children[n]);
    } else {
      assert (s.children + [Trivia(pos)])[..|s.children|] == s.children;
    }
  }

  /** Closing the innermost node. */
  lemma FinishWrites(ts: Tokens, p: G.P, q: G.P, xs: seq<Shape>)
    requires Wrote(ts, p, q, xs) && xs != []
    ensures WroteLast(ts, p, G.FinishNode(q), xs)
  {
    hide Spaced, Shapes;
    SpacedFirst(xs);
    var s, t := p.sink, q.sink;
    if Settled(s, p.pos) && s.frames != [] && s.frames[|s.frames| - 1].first <= |View(ts, s, p.pos)| + 1 {
      var f := s.frames[|s.frames| - 1];
      ShapesSize(ts, t.children);
      ShapesCut(ts, t.children, f.first);
      ShapesJoin(ts, t.children[..f.first], [Node(f.kind, t.children[f.first..])]);
      ShapesOne(ts, Node(f.kind, t.children[f.first..]));
      NodeShape(ts, f.kind, t.children[f.first..]);
    }
  }

  lemma ShapesSize(ts: Tokens, a: seq<Tree>)
    ensures |Shapes(ts, a)| == |a|
  {
  }

  lemma NodeShape(ts: Tokens, kind: Kind, children: seq<Tree>)
    ensures ShapeOf(ts, Node(kind, children)) == Branch(kind, Shapes(ts, children))
  {
  }

  /** A node from here on. */
  lemma NodeWrites(ts: Tokens, p: G.P, kind: Kind, q: G.P, xs: seq<Shape>)
    requires WroteLast(ts, G.FlushStart(p, kind), q, xs)
    ensures Wrote(ts, p, q, [Branch(kind, xs)])
  {
    hide Shapes;
    if Settled(p.sink, p.pos) {
      FlushView(ts, p.sink, p.pos);
      var s := G.FlushStart(p, kind).sink;
      var view := View(ts, p.sink, p.pos);
      ShapesSize(ts, Flush(p.sink, p.pos).children);
      assert View(ts, s, p.pos) == view;
      assert |view| + 1 == s.frames[|s.frames| - 1].first;
      SpacedFirst(xs);
      var all := view + Spaced(xs);
      assert all[..|view| + 1] == view + [Gap] && all[|view| + 1..] == Spaced(xs)[1..];
      SpacedOne(Branch(kind, xs));
      assert view + [Gap] + [Tight(Branch(kind, xs))] == view + Spaced([Branch(kind, xs)]);
    }
  }

  /** A node from a seam on, where some of its parts were read before it was known. */
  lemma NodeAtWrites(ts: Tokens, p: G.P, at: nat, q: G.P, kind: Kind, r: G.P, a: seq<Shape>, b: seq<Shape>)
    requires AtSeam(p, at) && Wrote(ts, p, q, a) && WroteLast(ts, G.StartNodeAt(q, at, kind), r, b)
    ensures Wrote(ts, p, r, [Branch(kind, a + b)])
  {
    hide Shapes;
    if Settled(p.sink, p.pos) {
      var s := G.StartNodeAt(q, at, kind).sink;
      var view := View(ts, p.sink, p.pos);
      ShapesSize(ts, p.sink.children[..at - 1]);
      assert |view| + 1 == at && s.frames[|s.frames| - 1].first == at;
      assert Settled(s, q.pos) && View(ts, s, q.pos) == View(ts, q.sink, q.pos);
      SpacedJoin(a, b);
      assert View(ts, s, q.pos) + Spaced(b) == view + Spaced(a + b);
      SpacedFirst(a + b);
      var all := view + Spaced(a + b);
      assert all[..at] == view + [Gap] && all[at..] == Spaced(a + b)[1..];
      SpacedOne(Branch(kind, a + b));
      assert view + [Gap] + [Tight(Branch(kind, a + b))] == view + Spaced([Branch(kind, a + b)]);
    }
  }

  /** What is read behind a seam is read from before it. */
  lemma SeamWrites(ts: Tokens, p: G.P, q: G.P, xs: seq<Shape>)
    requires Wrote(ts, G.Seam(p), q, xs) && xs != []
    ensures Wrote(ts, p, q, xs)
  {
    hide Shapes, Spaced;
    if Settled(p.sink, p.pos) {
      FlushView(ts, p.sink, p.pos);
    }
  }

  lemma LeavesMore(a: Tokens, b: Tokens)
    ensures Leaves(a + b) == Leaves(a) + Leaves(b)
  {
  }

  /** A node that opens here and closes there. */
  lemma NodeBuilt(ts: Tokens, p: G.P, kind: Kind, q: G.P, xs: seq<Shape>)
    requires Wrote(ts, G.FlushStart(p, kind), q, xs) && xs != []
    ensures Wrote(ts, p, G.FinishNode(q), [Branch(kind, xs)])
  {
    hide Grew, Closed;
    FinishWrites(ts, G.FlushStart(p, kind), q, xs);
    NodeWrites(ts, p, kind, G.FinishNode(q), xs);
  }

  /** A checkpoint taken at a seam. */
  predicate AtSeam(p: G.P, at: nat)
  {
    Settled(p.sink, p.pos) ==> p.sink.flushed == p.pos + 1 && at == |p.sink.children|
  }

  lemma SeamIs(ts: Tokens, p: G.P)
    ensures AtSeam(G.Seam(p), |G.Seam(p).sink.children|)
  {
    if Settled(p.sink, p.pos) {
      FlushView(ts, p.sink, p.pos);
    }
  }

  lemma SeamCloses(ts: Tokens, p: G.P, q: G.P, xs: seq<Shape>)
    requires WroteLast(ts, G.Seam(p), q, xs)
    ensures WroteLast(ts, p, q, xs)
  {
    hide Shapes, Spaced;
    if Settled(p.sink, p.pos) {
      FlushView(ts, p.sink, p.pos);
    }
  }

  /** The finished tree of a walk over these items. */
  lemma RootIs(ts: Tokens, q: G.P, items: seq<Top>)
    requires Wrote(ts, G.File0(), q, TopParts(items))
    ensures var tree := G.TreeOf(q.(sink := Flush(q.sink, q.pos)));
            |tree| == 1 && ShapeOf(ts, tree[0]) == FileShape(items)
  {
    hide Shapes, Spaced, TopParts;
    var s := G.File0().sink;
    ShapesSize(ts, s.children);
    assert View(ts, s, 0) == [];
    FlushView(ts, q.sink, q.pos);
    var f := Flush(q.sink, q.pos);
    NodeShape(ts, File, f.children);
    assert f.children[..0] == [] && f.children[0..] == f.children;
  }
}
