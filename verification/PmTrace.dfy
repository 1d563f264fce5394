/** What a debugger relies on: the listing's functions in order with their visibility, and every generated
    line mapped to the source line it carries out. */
module PmTrace {
  import opened Options
  import opened LineEmitter
  import S = PmSyntax
  import I = PmIr
  import L = PmListing
  import G = PmCodegen
  import Emission = PmEmission

  // ----- what each item is in the listing -----

  /** The instruction of an item that does something. */
  function ActLine(item: S.Item): L.Line
  {
    match item
    case Tape(Left, _, _) => L.Lft
    case Tape(Right, _, _) => L.Rgt
    case Tape(Mark, _, _) => L.Wr(1)
    case Tape(Unmark, _, _) => L.Wr(0)
    case Call(name, _, _) => L.Call(name)
    case _ => L.Brk
  }

  predicate Shown(item: S.Item, strip: bool)
  {
    S.HasEffect(item) && !(item.Debugger? && strip)
  }

  /** The first n items' instructions, each on its own source line. */
  function Acts(items: seq<S.Item>, strip: bool, n: nat): seq<Generated<L.Line>>
    requires n <= |items|
  {
    if n == 0 then []
    else Acts(items, strip, n - 1) + (if Shown(items[n - 1], strip) then [Generated(ActLine(items[n - 1]), items[n - 1].line)]
                                      else [])
  }

  /** A function's lines but its labels, statement by statement: the items' instructions, then, where the
      statement ends a block, the transfer of control, on the statement's line. */
  function Traced(f: S.Function, strip: bool, n: nat): seq<Generated<L.Line>>
    requires I.HasItems(f.body) && n <= |f.body|
  {
    if n == 0 then []
    else
      var st := f.body[n - 1];
      Traced(f, strip, n - 1) + Acts(st.items, strip, |st.items|)
      + (if I.EndsBlock(f.body, n - 1) && I.BlockOf(f.body, n - 1) < |I.LoweredBlocks(f.body)|
         then From(G.TermLines(I.Lowered(f), I.BlockOf(f.body, n - 1)), st.line) else [])
  }

  /** The lines that are no labels. */
  function Unlabelled(lines: seq<Generated<L.Line>>, n: nat): seq<Generated<L.Line>>
    requires n <= |lines|
  {
    if n == 0 then [] else Unlabelled(lines, n - 1) + (if lines[n - 1].text.Label? then [] else [lines[n - 1]])
  }

  lemma {:induction false} UnlabelledPrefix(a: seq<Generated<L.Line>>, b: seq<Generated<L.Line>>, n: nat)
    requires n <= |a|
    ensures Unlabelled(a + b, n) == Unlabelled(a, n)
  {
    if n > 0 {
      UnlabelledPrefix(a, b, n - 1);
    }
  }

  lemma {:induction false} UnlabelledJoin(a: seq<Generated<L.Line>>, b: seq<Generated<L.Line>>, n: nat)
    requires n <= |b|
    ensures Unlabelled(a + b, |a| + n) == Unlabelled(a, |a|) + Unlabelled(b, n)
  {
    if n == 0 {
      UnlabelledPrefix(a, b, |a|);
    } else {
      UnlabelledJoin(a, b, n - 1);
      assert (a + b)[|a| + n - 1] == b[n - 1];
    }
  }

  lemma {:induction false} UnlabelledAll(lines: seq<Generated<L.Line>>, n: nat)
    requires n <= |lines| && forall k | 0 <= k < |lines| :: !lines[k].text.Label?
    ensures Unlabelled(lines, n) == lines[..n]
  {
    if n > 0 {
      UnlabelledAll(lines, n - 1);
      assert lines[..n] == lines[..n - 1] + [lines[n - 1]];
    }
  }

  lemma {:induction false} UnlabelledNone(lines: seq<Generated<L.Line>>, n: nat)
    requires n <= |lines| && forall k | 0 <= k < |lines| :: lines[k].text.Label?
    ensures Unlabelled(lines, n) == []
  {
    if n > 0 {
      UnlabelledNone(lines, n - 1);
    }
  }

  // ----- operations -----

  lemma {:induction false} OpsPrefix(a: seq<I.IrOp>, b: seq<I.IrOp>, strip: bool, n: nat)
    requires n <= |a|
    ensures G.OpLines(a + b, strip, n) == G.OpLines(a, strip, n)
  {
    if n > 0 {
      OpsPrefix(a, b, strip, n - 1);
    }
  }

  lemma {:induction false} OpsJoin(a: seq<I.IrOp>, b: seq<I.IrOp>, strip: bool, n: nat)
    requires n <= |b|
    ensures G.OpLines(a + b, strip, |a| + n) == G.OpLines(a, strip, |a|) + G.OpLines(b, strip, n)
  {
    if n == 0 {
      OpsPrefix(a, b, strip, |a|);
    } else {
      OpsJoin(a, b, strip, n - 1);
      assert (a + b)[|a| + n - 1] == b[n - 1];
    }
  }

  lemma ActIs(item: S.Item, strip: bool)
    ensures var op := I.OpOf(item);
            && (op.None? ==> !Shown(item, strip))
            && (op.Some? ==> G.OpLines([op.value], strip, 1) == if Shown(item, strip)
                then [Generated(ActLine(item), item.line)] else [])
    ensures Shown(item, strip) ==> !ActLine(item).Label?
  {
    hide G.OpLines;
    if I.OpOf(item).Some? {
      OneOp(I.OpOf(item).value, strip);
    }
  }

  lemma {:induction false} OpsAreActs(items: seq<S.Item>, strip: bool, n: nat)
    requires n <= |items|
    ensures G.OpLines(I.OpsAmong(items, n), strip, |I.OpsAmong(items, n)|) == Acts(items, strip, n)
  {
    hide G.OpLines, Shown, ActLine, I.OpOf;
    if n > 0 {
      OpsAreActs(items, strip, n - 1);
      ActIs(items[n - 1], strip);
      var before, op := I.OpsAmong(items, n - 1), I.OpOf(items[n - 1]);
      if op.Some? {
        OpsJoin(before, [op.value], strip, 1);
      }
    } else {
      NoOps(strip);
    }
  }

  lemma OneOp(op: I.IrOp, strip: bool)
    ensures G.OpLines([op], strip, 1) == if G.Kept(op, strip) then [Generated(G.OpLine(op), op.line)] else []
  {
    assert G.OpLines([op], strip, 0) == [];
  }

  // ----- blocks -----

  lemma {:induction false} OpsUnlabelled(ops: seq<I.IrOp>, strip: bool, n: nat)
    requires n <= |ops|
    ensures forall k | 0 <= k < |G.OpLines(ops, strip, n)| :: !G.OpLines(ops, strip, n)[k].text.Label?
  {
    if n > 0 {
      OpsUnlabelled(ops, strip, n - 1);
    }
  }

  /** A block's lines but its labels: its operations, then its transfer. */
  lemma BlockTraced(f: I.IrFunction, strip: bool, b: nat)
    requires b < |f.blocks|
    ensures var lines, ops := G.BlockLines(f, strip, b), f.blocks[b].ops;
            Unlabelled(lines, |lines|) == G.OpLines(ops, strip, |ops|) + From(G.TermLines(f, b), f.blocks[b].termLine)
  {
    hide G.OpLines, G.Referenced, G.NameOf, Unlabelled;
    var labels, ops := From(G.PrintedLabels(f, b), 0), G.OpLines(f.blocks[b].ops, strip, |f.blocks[b].ops|);
    var term := From(G.TermLines(f, b), f.blocks[b].termLine);
    OpsUnlabelled(f.blocks[b].ops, strip, |f.blocks[b].ops|);
    UnlabelledNone(labels, |labels|);
    UnlabelledAll(ops, |ops|);
    UnlabelledAll(term, |term|);
    UnlabelledJoin(labels, ops, |ops|);
    UnlabelledJoin(labels + ops, term, |term|);
    assert ops[..|ops|] == ops && term[..|term|] == term;
    assert [] + ops == ops;
  }

  /** What the open block holds before statement i. */
  function Open(body: seq<S.Statement>, i: nat): seq<I.IrOp>
    requires I.HasItems(body) && i <= |body|
  {
    if 0 < i < |body| && !I.StartsBlock(body, i) then I.OpsBefore(body, i) else []
  }

  lemma {:induction false} ClosedPrefix(body: seq<S.Statement>, i: nat, n: nat)
    requires I.HasItems(body) && i <= n <= |body|
    ensures I.ClosedBlocks(body, i) <= I.ClosedBlocks(body, n)
  {
    hide I.BlockEndingAt, I.EndsBlock;
    if i < n {
      ClosedPrefix(body, i, n - 1);
    }
  }

  lemma OpenIs(body: seq<S.Statement>, i: nat)
    requires I.HasItems(body) && i < |body|
    ensures Open(body, i) == I.OpsBefore(body, i)
    ensures Open(body, i + 1) == if I.EndsBlock(body, i) then [] else I.OpsBefore(body, i) + I.OpsOf(body[i].items)
  {
    hide I.OpsOf, I.Terminates;
  }

  lemma {:induction false} StatementsTraced(f: S.Function, strip: bool, i: nat)
    requires I.HasItems(f.body) && i <= |f.body|
    ensures |I.ClosedBlocks(f.body, i)| <= |I.LoweredBlocks(f.body)|
    ensures var closed, open := G.BodyLines(I.Lowered(f), strip, |I.ClosedBlocks(f.body, i)|), Open(f.body, i);
            Unlabelled(closed, |closed|) + G.OpLines(open, strip, |open|) == Traced(f, strip, i)
  {
    hide Open, G.OpLines, Unlabelled, G.BlockLines, G.TermLines, I.EndsBlock, I.BlockOf, I.OpsBefore, I.OpsOf, Acts,
      I.BlockEndingAt, I.StartsBlock;
    var body, ir := f.body, I.Lowered(f);
    ClosedPrefix(body, i, |body|);
    if i == 0 {
      NothingOpen(body, strip);
    } else {
      var st := body[i - 1];
      StatementsTraced(f, strip, i - 1);
      ClosedPrefix(body, i - 1, |body|);
      OpenIs(body, i - 1);
      var before, items := I.OpsBefore(body, i - 1), I.OpsOf(st.items);
      OpsJoin(before, items, strip, |items|);
      ItemsAre(st.items, strip);
      var c := |I.ClosedBlocks(body, i - 1)|;
      var done := G.BodyLines(ir, strip, c);
      if I.EndsBlock(body, i - 1) {
        BlockAt(f, i - 1);
        BlockTraced(ir, strip, c);
        var lines := G.BlockLines(ir, strip, c);
        UnlabelledJoin(done, lines, |lines|);
        NoOps(strip);
        assert |done + lines| == |done| + |lines|;
      }
    }
  }

  lemma NothingOpen(body: seq<S.Statement>, strip: bool)
    requires I.HasItems(body)
    ensures Open(body, 0) == [] && G.OpLines([], strip, 0) == [] && Unlabelled([], 0) == []
  {
  }

  lemma NoOps(strip: bool)
    ensures G.OpLines([], strip, 0) == []
  {
  }

  lemma ItemsAre(items: seq<S.Item>, strip: bool)
    ensures G.OpLines(I.OpsOf(items), strip, |I.OpsOf(items)|) == Acts(items, strip, |items|)
  {
    OpsAreActs(items, strip, |items|);
  }

  /** The block that statement i closes: its operations, and the statement's line on its transfer. */
  lemma BlockAt(f: S.Function, i: nat)
    requires I.HasItems(f.body) && i < |f.body| && I.EndsBlock(f.body, i)
    ensures var c, blocks := |I.ClosedBlocks(f.body, i)|, I.Lowered(f).blocks;
            && I.BlockOf(f.body, i) == c < |blocks| && |I.ClosedBlocks(f.body, i + 1)| == c + 1
            && blocks[c].ops == I.OpsBefore(f.body, i) + I.OpsOf(f.body[i].items) && blocks[c].termLine == f.body[i].line
  {
    hide I.TermOf, I.OpsOf, I.OpsBefore, I.StartsBlock;
    I.ClosedBlockAt(f.body, |f.body|, i);
    I.ClosedBlocksShape(f.body, i + 1);
  }

  /** What a function's lines are, besides labels: its `.func` line with its name and visibility, every item's
      instruction on the item's own line, every transfer on the line of its statement, all in source order,
      and at the end perhaps a return that no line of the source stands for. */
  lemma FunctionTraced(f: S.Function, strip: bool)
    requires I.HasItems(f.body)
    ensures var lines := G.FunctionLines(I.Lowered(f), strip);
            exists exit :: Unlabelled(lines, |lines|) == [Generated(L.Func(f.name, f.local), f.line)] +
              Traced(f, strip, |f.body|) + From(exit, 0)
                           && |exit| <= 1
  {
    hide G.OpLines, Unlabelled, G.BlockLines, I.ClosedBlocks, Open, Traced, I.UsesExit;
    var ir := I.Lowered(f);
    StatementsTraced(f, strip, |f.body|);
    var c := |I.ClosedBlocks(f.body, |f.body|)|;
    var head, closed := [Generated(L.Func(f.name, f.local), f.line)], G.BodyLines(ir, strip, c);
    AllClosed(f.body);
    NoOps(strip);
    HeadUnlabelled(head);
    var exit: seq<L.Line> := [];
    var body := G.BodyLines(ir, strip, |ir.blocks|);
    if |ir.blocks| == c + 1 {
      ExitIs(f);
      BlockTraced(ir, strip, c);
      exit := G.TermLines(ir, c);
      var lines := G.BlockLines(ir, strip, c);
      UnlabelledJoin(closed, lines, |lines|);
      assert body == closed + lines;
    }
    UnlabelledJoin(head, body, |body|);
    assert Unlabelled(body, |body|) == Traced(f, strip, |f.body|) + From(exit, 0);
    assert head + (Traced(f, strip, |f.body|) + From(exit, 0)) == head + Traced(f, strip, |f.body|) + From(exit, 0);
  }

  lemma HeadUnlabelled(head: seq<Generated<L.Line>>)
    requires |head| == 1 && !head[0].text.Label?
    ensures Unlabelled(head, 1) == head
  {
    assert Unlabelled(head, 0) == [];
  }

  lemma AllClosed(body: seq<S.Statement>)
    requires I.HasItems(body)
    ensures Open(body, |body|) == []
    ensures |I.ClosedBlocks(body, |body|)| <= |I.LoweredBlocks(body)| <= |I.ClosedBlocks(body, |body|)| + 1
    ensures body == [] ==> I.ClosedBlocks(body, |body|) == []
  {
    hide I.BlockEndingAt;
  }

  lemma ExitIs(f: S.Function)
    requires I.HasItems(f.body)
    requires var c := |I.ClosedBlocks(f.body, |f.body|)|; |I.Lowered(f).blocks| == c + 1
    ensures var c := |I.ClosedBlocks(f.body, |f.body|)|;
            && I.Lowered(f).blocks[c].ops == [] && I.Lowered(f).blocks[c].termLine == 0
            && |G.TermLines(I.Lowered(f), c)| == 1
  {
    hide I.BlockEndingAt;
  }

  // ----- what is left out -----

  /** A lookup that finds a block by its id finds the one that has it. */
  lemma NamedIs(blocks: seq<I.IrBlock>, k: nat)
    requires I.ValidBlocks(blocks) && k < |blocks|
    ensures G.NameOf(blocks, blocks[k].id) == G.BlockName(blocks[k])
  {
    I.IndexFound(blocks, 0, k);
  }

  /** No block ends with a jump to the block that follows it. */
  lemma NoJumpToNext(f: I.IrFunction, i: nat)
    requires I.ValidBlocks(f.blocks) && Emission.LabelsApart(f.blocks) && i + 1 < |f.blocks|
    ensures forall l | l in G.TermLines(f, i) && l.Jmp? :: l.target != G.BlockName(f.blocks[i + 1])
  {
    hide G.NameOf, G.BlockName, I.IndexOf, Emission.LabelsApart;
    assert f.blocks[i] in f.blocks;
    forall l | l in G.TermLines(f, i) && l.Jmp? ensures l.target != G.BlockName(f.blocks[i + 1]) {
      var to := JumpGoes(f, i, l);
      NamedIs(f.blocks, to);
      Emission.NamesApart(f.blocks, to, i + 1);
    }
  }

  /** A jump names a block other than the next. */
  lemma JumpGoes(f: I.IrFunction, i: nat, l: L.Line) returns (to: nat)
    requires I.ValidBlocks(f.blocks) && i + 1 < |f.blocks| && l in G.TermLines(f, i) && l.Jmp?
    ensures to < |f.blocks| && to != i + 1 && l.target == G.NameOf(f.blocks, f.blocks[to].id)
  {
    hide G.NameOf;
    var id := JumpNames(f, i, l);
    assert f.blocks[i] in f.blocks && I.TargetsExist(f.blocks, f.blocks[i]);
    to :| to < |f.blocks| && f.blocks[to].id == id;
  }

  lemma JumpNames(f: I.IrFunction, i: nat, l: L.Line) returns (id: nat)
    requires i < |f.blocks| && l in G.TermLines(f, i) && l.Jmp?
    ensures id in I.Targets(f.blocks[i].term) && !G.IsNext(f.blocks, i, id) && l.target == G.NameOf(f.blocks, id)
  {
    hide G.NameOf, G.IsNext;
    id := match f.blocks[i].term
      case FallThrough(t) => t
      case Goto(t) => t
      case Check(_, blank) => blank
      case _ => 0;
  }

  /** A statement opens a block exactly when it is the first, has a label, or follows one that transfers
      control. */
  lemma StartsExactly(body: seq<S.Statement>, i: nat)
    requires I.HasItems(body) && i < |body|
    ensures I.StartsBlock(body, i) <==>
            || i == 0 || body[i].labels != []
            || (var last := body[i - 1].items[|body[i - 1].items| - 1];
                last.Check? || last.Halt? || last.Goto? || (last.Tape? && last.succ != S.FallThrough)
                  || (last.Call? && last.succ != S.FallThrough))
  {
  }

  /** Some `check` of the body returns on one of its arms. */
  ghost predicate ReturnsOnCheck(body: seq<S.Statement>)
    requires I.HasItems(body)
  {
    exists i :: 0 <= i < |body| && var last := body[i].items[|body[i].items| - 1];
      last.Check? && (last.marked.ArmReturn? || last.blank.ArmReturn?)
  }

  lemma {:induction false} ExitExactly(body: seq<S.Statement>, n: nat)
    requires I.HasItems(body) && n <= |body|
    ensures I.UsesExit(body, n) <==>
            exists i :: 0 <= i < n && var last := body[i].items[|body[i].items| - 1];
              last.Check? && (last.marked.ArmReturn? || last.blank.ArmReturn?)
  {
    if n > 0 {
      ExitExactly(body, n - 1);
    }
  }

  /** One block beside those of the statements is shared by all of them, for a body that is empty or has a
      `check` that returns; there is none otherwise. */
  lemma ExitShared(body: seq<S.Statement>)
    requires I.HasItems(body)
    ensures |I.LoweredBlocks(body)| == |I.ClosedBlocks(body, |body|)| + (if body == [] || ReturnsOnCheck(body) then 1 else 0)
  {
    hide I.UsesExit, I.BlockEndingAt;
    ExitExactly(body, |body|);
  }
}
