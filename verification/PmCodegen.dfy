/** From control-flow graphs to the `.pma` listing: blocks in order, with no jump to the block
    that physically follows, and a line map back to the source. */
module PmCodegen {
  import I = PmIr
  import opened PmListing
  import opened LineEmitter

  function BlockName(b: I.IrBlock): Name
  {
    if b.labels == [] then BlockLabel(b.id) else SourceLabel(b.labels[0])
  }

  function NameOf(blocks: seq<I.IrBlock>, id: nat): Name
  {
    match I.IndexOf(blocks, id)
    case None => BlockLabel(id)
    case Some(k) => BlockName(blocks[k])
  }

  /** Whether control reaches block `id` by running off the end of the i-th block. */
  predicate IsNext(blocks: seq<I.IrBlock>, i: nat, id: nat)
  {
    i + 1 < |blocks| && blocks[i + 1].id == id
  }

  function ToBlock(blocks: seq<I.IrBlock>, i: nat, id: nat): seq<Line>
  {
    if IsNext(blocks, i, id) then [] else [Jmp(NameOf(blocks, id))]
  }

  /** The transfer of control that ends the i-th block. */
  function TermLines(f: I.IrFunction, i: nat): seq<Line>
    requires i < |f.blocks|
  {
    match f.blocks[i].term
    case FallThrough(to) => ToBlock(f.blocks, i, to)
    case Goto(to) => ToBlock(f.blocks, i, to)
    case Check(marked, blank) =>
      if IsNext(f.blocks, i, blank) then [Jm(NameOf(f.blocks, marked))]
      else if IsNext(f.blocks, i, marked) then [Jnm(NameOf(f.blocks, blank))]
      else [Jm(NameOf(f.blocks, marked)), Jmp(NameOf(f.blocks, blank))]
    case Return => [if f.name == "main" then Stp else Ret]
    case Halt => [Hlt]
    case TailCall(name) => [JmpFunction(name)]
  }

  function OpLine(op: I.IrOp): Line
  {
    match op
    case Lft(_) => Lft
    case Rgt(_) => Rgt
    case Wr(i, _) => Wr(i)
    case WrLft(i, _) => Wrl(i)
    case WrRgt(i, _) => Wrr(i)
    case Brk(_) => Brk
    case Call(name, _) => Call(name)
  }

  predicate Kept(op: I.IrOp, strip: bool)
  {
    op.Brk? ==> !strip
  }

  function OpLines(ops: seq<I.IrOp>, strip: bool, n: nat): seq<Generated<Line>>
    requires n <= |ops|
  {
    if n == 0 then []
    else if Kept(ops[n - 1], strip)
      then OpLines(ops, strip, n - 1) + [Generated(OpLine(ops[n - 1]), ops[n - 1].line)]
    else OpLines(ops, strip, n - 1)
  }

  /** Every source label names its block; a block without one is named by its id. */
  function LabelLines(b: I.IrBlock): seq<Line>
  {
    if b.labels == [] then [Label(BlockLabel(b.id))]
    else seq(|b.labels|, (k: nat) requires k < |b.labels| => Label(SourceLabel(b.labels[k])))
  }

  /** The blocks that the transfer after the i-th block has to name. */
  function NamedBy(blocks: seq<I.IrBlock>, i: nat): set<nat>
    requires i < |blocks|
  {
    match blocks[i].term
    case FallThrough(to) => if IsNext(blocks, i, to) then {} else {to}
    case Goto(to) => if IsNext(blocks, i, to) then {} else {to}
    case Check(marked, blank) =>
      if IsNext(blocks, i, blank) then {marked}
      else if IsNext(blocks, i, marked) then {blank}
      else {marked, blank}
    case _ => {}
  }

  function Referenced(blocks: seq<I.IrBlock>, n: nat): set<nat>
    requires n <= |blocks|
  {
    if n == 0 then {} else Referenced(blocks, n - 1) + NamedBy(blocks, n - 1)
  }

  function PrintedLabels(f: I.IrFunction, i: nat): seq<Line>
    requires i < |f.blocks|
  {
    if f.blocks[i].id in Referenced(f.blocks, |f.blocks|) then LabelLines(f.blocks[i]) else []
  }

  function BlockLines(f: I.IrFunction, strip: bool, i: nat): seq<Generated<Line>>
    requires i < |f.blocks|
  {
    var b := f.blocks[i];
    From(PrintedLabels(f, i), 0) + OpLines(b.ops, strip, |b.ops|) + From(TermLines(f, i), b.termLine)
  }

  function BodyLines(f: I.IrFunction, strip: bool, n: nat): seq<Generated<Line>>
    requires n <= |f.blocks|
  {
    if n == 0 then [] else BodyLines(f, strip, n - 1) + BlockLines(f, strip, n - 1)
  }

  function FunctionLines(f: I.IrFunction, strip: bool): seq<Generated<Line>>
  {
    [Generated(Func(f.name, f.local), f.line)] + BodyLines(f, strip, |f.blocks|)
  }

  function ProgramLines(ir: seq<I.IrFunction>, strip: bool, n: nat): seq<Generated<Line>>
    requires n <= |ir|
  {
    if n == 0 then [] else ProgramLines(ir, strip, n - 1) + FunctionLines(ir[n - 1], strip)
  }

  method PushOps(e: Emitter<Line>, ops: seq<I.IrOp>, strip: bool)
    requires e.Valid()
    modifies e
    ensures e.Valid() && e.emitted == old(e.emitted) + OpLines(ops, strip, |ops|)
  {
    hide LineMap;
    for k := 0 to |ops|
      invariant e.Valid() && e.emitted == old(e.emitted) + OpLines(ops, strip, k)
    {
      if Kept(ops[k], strip) {
        e.Push(OpLine(ops[k]), ops[k].line);
      }
    }
  }

  method PushBlock(e: Emitter<Line>, f: I.IrFunction, strip: bool, referenced: set<nat>, i: nat)
    requires i < |f.blocks| && referenced == Referenced(f.blocks, |f.blocks|)
    requires e.Valid()
    modifies e
    ensures e.Valid() && e.emitted == old(e.emitted) + BlockLines(f, strip, i)
  {
    hide LineMap, OpLines, TermLines, LabelLines, From;
    var b := f.blocks[i];
    if b.id in referenced {
      e.PushAll(LabelLines(b), 0);
    } else {
      e.PushAll([], 0);
    }
    PushOps(e, b.ops, strip);
    e.PushAll(TermLines(f, i), b.termLine);
  }

  method EmitFunction(e: Emitter<Line>, f: I.IrFunction, strip: bool)
    requires e.Valid()
    modifies e
    ensures e.Valid() && e.emitted == old(e.emitted) + FunctionLines(f, strip)
  {
    hide LineMap, BlockLines;
    var referenced := CollectReferenced(f.blocks);
    e.Push(Func(f.name, f.local), f.line);
    ghost var head := e.emitted;
    for i := 0 to |f.blocks|
      invariant e.Valid() && e.emitted == head + BodyLines(f, strip, i)
    {
      PushBlock(e, f, strip, referenced, i);
    }
  }

  /** Pass 1: which blocks need a label line. */
  method CollectReferenced(blocks: seq<I.IrBlock>) returns (referenced: set<nat>)
    ensures referenced == Referenced(blocks, |blocks|)
  {
    referenced := {};
    for i := 0 to |blocks|
      invariant referenced == Referenced(blocks, i)
    {
      match blocks[i].term
      case FallThrough(to) =>
        if !IsNext(blocks, i, to) { referenced := referenced + {to}; }
      case Goto(to) =>
        if !IsNext(blocks, i, to) { referenced := referenced + {to}; }
      case Check(marked, blank) =>
        if IsNext(blocks, i, blank) {
          referenced := referenced + {marked};
        } else if IsNext(blocks, i, marked) {
          referenced := referenced + {blank};
        } else {
          referenced := referenced + {marked};
          referenced := referenced + {blank};
        }
      case _ =>
    }
  }

  method EmitProgram(ir: seq<I.IrFunction>, strip: bool) returns (lines: seq<Line>, lineMap: seq<(nat, nat)>)
    ensures lines == Texts(ProgramLines(ir, strip, |ir|))
    ensures lineMap == LineMap(ProgramLines(ir, strip, |ir|), 0, |ProgramLines(ir, strip, |ir|)|)
  {
    var e := new Emitter<Line>();
    for i := 0 to |ir|
      invariant e.Valid() && e.emitted == ProgramLines(ir, strip, i)
    {
      EmitFunction(e, ir[i], strip);
    }
    lines, lineMap := e.lines, e.lineMap;
  }
}
