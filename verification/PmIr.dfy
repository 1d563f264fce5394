/** Lowering a `.pmc` function body to a control-flow graph of basic blocks. */
module PmIr {
  import opened Options
  import opened Simulation
  import opened PmMachine
  import Graphs
  import S = PmSyntax

  datatype IrOp =
    | Lft(line: nat)
    | Rgt(line: nat)
    | Wr(index: nat, line: nat)
    | WrLft(index: nat, line: nat)
    | WrRgt(index: nat, line: nat)
    | Brk(line: nat)
    | Call(name: string, line: nat)

  datatype IrTerm =
    | FallThrough(to: nat)
    | Goto(to: nat)
    | Check(marked: nat, blank: nat)
    | Return
    | Halt
    | TailCall(name: string)

  datatype IrBlock = IrBlock(
    id: nat, labels: seq<nat>, line: nat, ops: seq<IrOp>, term: IrTerm, termLine: nat)

  datatype IrFunction = IrFunction(name: string, line: nat, blocks: seq<IrBlock>, local: bool)

  datatype Result<T> = Ok(value: T) | UndefinedLabel(l: nat)

  // ----- what lowering produces -----

  /** Every statement has an item (the parser builds no empty statement). */
  ghost predicate HasItems(body: seq<S.Statement>)
  {
    forall i | 0 <= i < |body| :: body[i].items != []
  }

  function LastItem(st: S.Statement): S.Item
    requires st.items != []
  {
    st.items[|st.items| - 1]
  }

  /** Does this statement end its basic block? */
  predicate Terminates(st: S.Statement)
    requires st.items != []
  {
    match LastItem(st)
    case Check(_, _, _) => true
    case Halt(_) => true
    case Goto(_, _) => true
    case Tape(_, succ, _) => succ != S.FallThrough
    case Call(_, succ, _) => succ != S.FallThrough
    case Debugger(_) => false
  }

  predicate StartsBlock(body: seq<S.Statement>, i: nat)
    requires HasItems(body) && i < |body|
  {
    i == 0 || body[i].labels != [] || Terminates(body[i - 1])
  }

  predicate EndsBlock(body: seq<S.Statement>, i: nat)
    requires HasItems(body) && i < |body|
  {
    i + 1 == |body| || StartsBlock(body, i + 1)
  }

  /** The block a statement belongs to. */
  function BlockOf(body: seq<S.Statement>, i: nat): nat
    requires HasItems(body) && i < |body|
  {
    if i == 0 then 0
    else BlockOf(body, i - 1) + (if StartsBlock(body, i) then 1 else 0)
  }

  /** The statement that opens the block statement i belongs to. */
  function FirstOf(body: seq<S.Statement>, i: nat): (r: nat)
    requires HasItems(body) && i < |body|
    ensures r <= i && StartsBlock(body, r)
  {
    if StartsBlock(body, i) then i else FirstOf(body, i - 1)
  }

  function OpOf(item: S.Item): Option<IrOp>
  {
    match item
    case Tape(which, _, line) =>
      Some(match which case Left => Lft(line) case Right => Rgt(line)
                         case Mark => Wr(1, line) case Unmark => Wr(0, line))
    case Debugger(line) => Some(Brk(line))
    case Call(name, _, line) => Some(Call(name, line))
    case _ => None
  }

  function Push(ops: seq<IrOp>, item: S.Item): seq<IrOp>
  {
    match OpOf(item)
    case Some(op) => ops + [op]
    case None => ops
  }

  /** The operations of the first n items. */
  function OpsAmong(items: seq<S.Item>, n: nat): seq<IrOp>
    requires n <= |items|
  {
    if n == 0 then [] else Push(OpsAmong(items, n - 1), items[n - 1])
  }

  function OpsOf(items: seq<S.Item>): seq<IrOp>
  {
    OpsAmong(items, |items|)
  }

  /** The operations the block of statement i holds before that statement adds its own. */
  function OpsBefore(body: seq<S.Statement>, i: nat): seq<IrOp>
    requires HasItems(body) && i < |body|
  {
    if StartsBlock(body, i) then [] else OpsBefore(body, i - 1) + OpsOf(body[i - 1].items)
  }

  /** The id of the shared block that `!` arms of `check` jump to. */
  function ExitId(body: seq<S.Statement>): nat
    requires HasItems(body) && body != []
  {
    BlockOf(body, |body| - 1) + 1
  }

  function LabelBlock(body: seq<S.Statement>, l: nat): nat
    requires HasItems(body)
  {
    match S.LabelStatement(body, l)
    case Some(i) => BlockOf(body, i)
    case None => 0
  }

  function ArmBlock(body: seq<S.Statement>, arm: S.CheckArm): nat
    requires HasItems(body) && body != []
  {
    match arm
    case ArmLabel(l) => LabelBlock(body, l)
    case ArmReturn => ExitId(body)
  }

  /** The terminator of the block that statement i ends. */
  function TermOf(body: seq<S.Statement>, i: nat): IrTerm
    requires HasItems(body) && i < |body| && EndsBlock(body, i)
  {
    var item := LastItem(body[i]);
    match item
    case Goto(l, _) => Goto(LabelBlock(body, l))
    case Halt(_) => Halt
    case Check(marked, blank, _) => Check(ArmBlock(body, marked), ArmBlock(body, blank))
    case _ =>
      match S.SuccessorOf(item)
      case ToLabel(l) => Goto(LabelBlock(body, l))
      case Return => Return
      case FallThrough => if i + 1 == |body| then Return else FallThrough(BlockOf(body, i + 1))
  }

  /** The block of statement i once that statement has added its operations. */
  function Grown(body: seq<S.Statement>, i: nat): IrBlock
    requires HasItems(body) && i < |body|
  {
    var first := body[FirstOf(body, i)];
    IrBlock(BlockOf(body, i), first.labels, first.line,
            OpsBefore(body, i) + OpsOf(body[i].items), Return, 0)
  }

  function BlockEndingAt(body: seq<S.Statement>, i: nat): IrBlock
    requires HasItems(body) && i < |body| && EndsBlock(body, i)
  {
    Grown(body, i).(term := TermOf(body, i), termLine := body[i].line)
  }

  /** The blocks that the first i statements close. */
  function ClosedBlocks(body: seq<S.Statement>, i: nat): seq<IrBlock>
    requires HasItems(body) && i <= |body|
  {
    if i == 0 then []
    else ClosedBlocks(body, i - 1)
         + (if EndsBlock(body, i - 1) then [BlockEndingAt(body, i - 1)] else [])
  }

  predicate HasReturnArm(st: S.Statement)
    requires st.items != []
  {
    var item := LastItem(st);
    item.Check? && (item.marked.ArmReturn? || item.blank.ArmReturn?)
  }

  function UsesExit(body: seq<S.Statement>, i: nat): bool
    requires HasItems(body) && i <= |body|
  {
    i > 0 && (UsesExit(body, i - 1) || HasReturnArm(body[i - 1]))
  }

  function SyntheticReturn(id: nat): IrBlock
  {
    IrBlock(id, [], 0, [], Return, 0)
  }

  function LoweredBlocks(body: seq<S.Statement>): seq<IrBlock>
    requires HasItems(body)
  {
    if body == [] then [SyntheticReturn(0)]
    else ClosedBlocks(body, |body|)
         + (if UsesExit(body, |body|) then [SyntheticReturn(ExitId(body))] else [])
  }

  // ----- when lowering fails -----

  /** The label a control transfer may go to. */
  predicate RefersTo(item: S.Item, l: nat)
  {
    match item
    case Goto(t, _) => t == l
    case Check(marked, blank, _) => marked == S.ArmLabel(l) || blank == S.ArmLabel(l)
    case Tape(_, succ, _) => succ == S.ToLabel(l)
    case Call(_, succ, _) => succ == S.ToLabel(l)
    case _ => false
  }

  function Sooner(earlier: Option<nat>, later: Option<nat>): Option<nat>
  {
    if earlier.Some? then earlier else later
  }

  function MissingLabel(body: seq<S.Statement>, l: nat): Option<nat>
  {
    if S.LabelStatement(body, l).None? then Some(l) else None
  }

  function MissingArm(body: seq<S.Statement>, arm: S.CheckArm): Option<nat>
  {
    if arm.ArmLabel? then MissingLabel(body, arm.target) else None
  }

  function MissingSuccessor(body: seq<S.Statement>, succ: S.Successor): Option<nat>
  {
    if succ.ToLabel? then MissingLabel(body, succ.target) else None
  }

  /** The first label a statement's last item refers to that the body does not declare. */
  function MissingIn(body: seq<S.Statement>, st: S.Statement): Option<nat>
    requires st.items != []
  {
    match LastItem(st)
    case Goto(l, _) => MissingLabel(body, l)
    case Check(marked, blank, _) => Sooner(MissingArm(body, marked), MissingArm(body, blank))
    case Tape(_, succ, _) => MissingSuccessor(body, succ)
    case Call(_, succ, _) => MissingSuccessor(body, succ)
    case _ => None
  }

  /** The first reference of the first i statements that names no declared label. */
  function FirstUndefined(body: seq<S.Statement>, i: nat): Option<nat>
    requires HasItems(body) && i <= |body|
  {
    if i == 0 then None
    else Sooner(FirstUndefined(body, i - 1), MissingIn(body, body[i - 1]))
  }

  /** Every label an item of the statement refers to is declared in the body. */
  ghost predicate LabelsDeclared(body: seq<S.Statement>, st: S.Statement)
  {
    forall item, l | item in st.items && RefersTo(item, l) :: S.LabelStatement(body, l).Some?
  }

  /** Only the last item of a well-formed statement can refer to a label. */
  lemma MissingExactlyIfUndeclared(body: seq<S.Statement>, st: S.Statement)
    requires S.WellFormedStatement(st)
    ensures MissingIn(body, st).None? <==> LabelsDeclared(body, st)
  {
    forall item, l | item in st.items && RefersTo(item, l)
      ensures item == LastItem(st)
    {
      var j :| 0 <= j < |st.items| && st.items[j] == item;
    }
    var last := LastItem(st);
    assert last in st.items;
    if MissingIn(body, st).Some? {
      assert RefersTo(last, MissingIn(body, st).value);
    }
  }

  /** Lowering fails exactly when some reference names an undeclared label. */
  lemma {:induction false} FailsExactlyOnUndeclared(body: seq<S.Statement>, i: nat)
    requires HasItems(body) && i <= |body|
    requires forall k | 0 <= k < |body| :: S.WellFormedStatement(body[k])
    ensures FirstUndefined(body, i).None? <==> forall k | 0 <= k < i :: LabelsDeclared(body, body[k])
  {
    hide MissingIn, LabelsDeclared;
    if i > 0 {
      FailsExactlyOnUndeclared(body, i - 1);
      MissingExactlyIfUndeclared(body, body[i - 1]);
    }
  }

  /** The label that lowering fails with is one that some statement's last item refers to and the body does
      not declare; no earlier statement has such a reference. */
  lemma {:induction false} FirstUndefinedIs(body: seq<S.Statement>, n: nat) returns (i: nat)
    requires HasItems(body) && n <= |body| && FirstUndefined(body, n).Some?
    ensures i < n && FirstUndefined(body, i).None?
    ensures var l := FirstUndefined(body, n).value; RefersTo(LastItem(body[i]), l) && S.LabelStatement(body, l).None?
  {
    hide MissingIn;
    i := n - 1;
    if FirstUndefined(body, n - 1).Some? {
      i := FirstUndefinedIs(body, n - 1);
    } else {
      MissingIs(body, body[i]);
    }
  }

  lemma MissingIs(body: seq<S.Statement>, st: S.Statement)
    requires st.items != []
    ensures var l := MissingIn(body, st); l.Some? ==> RefersTo(LastItem(st), l.value) && S.LabelStatement(body, l.value).None?
  {
    hide S.LabelStatement;
  }

  function LowerResult(body: seq<S.Statement>): Result<seq<IrBlock>>
    requires HasItems(body)
  {
    match FirstUndefined(body, |body|)
    case Some(l) => UndefinedLabel(l)
    case None => Ok(LoweredBlocks(body))
  }

  // ----- the algorithm -----

  /** m maps exactly the labels the first i statements declare, each to its block. */
  ghost predicate MapsLabels(body: seq<S.Statement>, i: nat, m: map<nat, nat>)
    requires HasItems(body) && i <= |body|
  {
    && (forall l :: l in m <==> S.LabelAmong(body, i, l).Some?)
    && (forall l | l in m :: m[l] == BlockOf(body, S.LabelAmong(body, i, l).value))
  }

  method LabelBlocks(body: seq<S.Statement>, blockOf: seq<nat>) returns (m: map<nat, nat>)
    requires HasItems(body) && |blockOf| == |body|
    requires forall i {:trigger blockOf[i]} | 0 <= i < |body| :: blockOf[i] == BlockOf(body, i)
    ensures MapsLabels(body, |body|, m)
  {
    m := map[];
    for i := 0 to |body|
      invariant MapsLabels(body, i, m)
    {
      m := AddLabels(m, body[i].labels, blockOf[i]);
    }
  }

  method AddLabels(m: map<nat, nat>, labels: seq<nat>, block: nat) returns (m': map<nat, nat>)
    ensures forall l :: l in m' <==> l in m || l in labels
    ensures forall l | l in m' :: m'[l] == if l in labels then block else m[l]
  {
    m' := m;
    for a := 0 to |labels|
      invariant forall l :: l in m' <==> l in m || l in labels[..a]
      invariant forall l | l in m' :: m'[l] == if l in labels[..a] then block else m[l]
    {
      m' := m'[labels[a] := block];
    }
  }

  method ResolveLabel(ghost body: seq<S.Statement>, m: map<nat, nat>, l: nat) returns (r: Result<nat>)
    requires HasItems(body)
    requires MapsLabels(body, |body|, m)
    ensures r == if S.LabelStatement(body, l).Some? then Ok(LabelBlock(body, l)) else UndefinedLabel(l)
  {
    if l in m { r := Ok(m[l]); } else { r := UndefinedLabel(l); }
  }

  method ResolveArm(ghost body: seq<S.Statement>, m: map<nat, nat>, exitId: nat, arm: S.CheckArm)
    returns (r: Result<nat>)
    requires HasItems(body) && body != [] && exitId == ExitId(body)
    requires MapsLabels(body, |body|, m)
    ensures match MissingArm(body, arm)
            case Some(l) => r == UndefinedLabel(l)
            case None => r == Ok(ArmBlock(body, arm))
  {
    match arm
    case ArmReturn => r := Ok(exitId);
    case ArmLabel(l) => r := ResolveLabel(body, m, l);
  }

  /** The terminator a statement forces on its block, if it ends the block by itself. */
  function ForcedTerm(body: seq<S.Statement>, i: nat): Option<IrTerm>
    requires HasItems(body) && i < |body|
  {
    if Terminates(body[i]) then Some(TermOf(body, i)) else None
  }

  method Close(body: seq<S.Statement>, i: nat, m: map<nat, nat>, exitId: nat)
    returns (r: Result<Option<IrTerm>>, usesExit: bool)
    requires HasItems(body) && i < |body| && exitId == ExitId(body)
    requires MapsLabels(body, |body|, m)
    ensures match MissingIn(body, body[i])
            case Some(l) => r == UndefinedLabel(l)
            case None => r == Ok(ForcedTerm(body, i)) && usesExit == HasReturnArm(body[i])
  {
    usesExit := false;
    match body[i].items[|body[i].items| - 1]
    case Goto(l, _) =>
      var to := ResolveLabel(body, m, l);
      if to.UndefinedLabel? { return UndefinedLabel(to.l), false; }
      r := Ok(Some(Goto(to.value)));
    case Halt(_) =>
      r := Ok(Some(Halt));
    case Check(marked, blank, _) =>
      var m1 := ResolveArm(body, m, exitId, marked);
      if m1.UndefinedLabel? { return UndefinedLabel(m1.l), false; }
      var b1 := ResolveArm(body, m, exitId, blank);
      if b1.UndefinedLabel? { return UndefinedLabel(b1.l), false; }
      usesExit := marked.ArmReturn? || blank.ArmReturn?;
      r := Ok(Some(Check(m1.value, b1.value)));
    case Debugger(_) =>
      r := Ok(None);
    case Tape(_, succ, _) =>
      r := CloseSuccessor(body, m, succ);
    case Call(_, succ, _) =>
      r := CloseSuccessor(body, m, succ);
  }

  method CloseSuccessor(ghost body: seq<S.Statement>, m: map<nat, nat>, succ: S.Successor)
    returns (r: Result<Option<IrTerm>>)
    requires HasItems(body)
    requires MapsLabels(body, |body|, m)
    ensures match succ
            case ToLabel(l) =>
              r == (if S.LabelStatement(body, l).Some? then Ok(Some(Goto(LabelBlock(body, l))))
                    else UndefinedLabel(l))
            case Return => r == Ok(Some(Return))
            case FallThrough => r == Ok(None)
  {
    match succ
    case Return => r := Ok(Some(Return));
    case FallThrough => r := Ok(None);
    case ToLabel(l) =>
      var to := ResolveLabel(body, m, l);
      r := if to.UndefinedLabel? then UndefinedLabel(to.l) else Ok(Some(Goto(to.value)));
  }

  method AppendOps(ops: seq<IrOp>, items: seq<S.Item>) returns (ops': seq<IrOp>)
    ensures ops' == ops + OpsOf(items)
  {
    ops' := ops;
    for j := 0 to |items|
      invariant ops' == ops + OpsAmong(items, j)
    {
      ops' := Push(ops', items[j]);
    }
  }

  /** The block still open when statement i is reached. */
  function OpenBlock(body: seq<S.Statement>, i: nat): Option<IrBlock>
    requires HasItems(body) && i <= |body|
  {
    if i == 0 || EndsBlock(body, i - 1) then None else Some(Grown(body, i - 1))
  }

  method FindStarts(body: seq<S.Statement>) returns (starts: seq<bool>)
    requires HasItems(body)
    ensures |starts| == |body|
    ensures forall i {:trigger starts[i]} | 0 <= i < |body| :: starts[i] == StartsBlock(body, i)
  {
    var a := new bool[|body|];
    for i := 0 to |body|
      invariant forall k {:trigger a[k]} | 0 <= k < i :: a[k] == StartsBlock(body, k)
    {
      a[i] := i == 0 || body[i].labels != [] || Terminates(body[i - 1]);
    }
    starts := a[..];
  }

  method NumberBlocks(body: seq<S.Statement>, starts: seq<bool>) returns (blockOf: seq<nat>)
    requires HasItems(body) && |starts| == |body|
    requires forall i {:trigger starts[i]} | 0 <= i < |body| :: starts[i] == StartsBlock(body, i)
    ensures |blockOf| == |body|
    ensures forall i {:trigger blockOf[i]} | 0 <= i < |body| :: blockOf[i] == BlockOf(body, i)
  {
    var a := new nat[|body|];
    var nBlocks := 0;
    for i := 0 to |body|
      invariant nBlocks == if i == 0 then 0 else BlockOf(body, i - 1) + 1
      invariant forall k {:trigger a[k]} | 0 <= k < i :: a[k] == BlockOf(body, k)
    {
      if starts[i] { nBlocks := nBlocks + 1; }
      assert nBlocks == BlockOf(body, i) + 1;
      a[i] := nBlocks - 1;
    }
    blockOf := a[..];
  }

  /** Adding statement i to the block open at it. */
  method Grow(body: seq<S.Statement>, i: nat, start: bool, id: nat, current: Option<IrBlock>)
    returns (block: IrBlock)
    requires HasItems(body) && i < |body|
    requires start == StartsBlock(body, i) && id == BlockOf(body, i)
    requires current == OpenBlock(body, i)
    ensures block == Grown(body, i)
  {
    if start {
      block := IrBlock(id, body[i].labels, body[i].line, [], Return, 0);
    } else {
      block := current.value;
    }
    var ops := AppendOps(block.ops, body[i].items);
    block := block.(ops := ops);
  }

  /** A block nothing has closed yet ends where the body ends or the next block starts. */
  method CloseAtBoundary(ghost body: seq<S.Statement>, i: nat, starts: seq<bool>, blockOf: seq<nat>,
                         forced: Option<IrTerm>)
    returns (term: Option<IrTerm>)
    requires HasItems(body) && i < |body| == |starts| == |blockOf|
    requires i + 1 < |body| ==> starts[i + 1] == StartsBlock(body, i + 1)
    requires i + 1 < |body| ==> blockOf[i + 1] == BlockOf(body, i + 1)
    requires forced == ForcedTerm(body, i)
    ensures term == if EndsBlock(body, i) then Some(TermOf(body, i)) else None
  {
    term := forced;
    if term.None? {
      if i + 1 == |starts| {
        term := Some(Return);
      } else if starts[i + 1] {
        term := Some(FallThrough(blockOf[i + 1]));
      }
    }
  }

  method LowerBody(body: seq<S.Statement>) returns (r: Result<seq<IrBlock>>)
    requires HasItems(body) && body != []
    ensures r == LowerResult(body)
  {
    hide MissingIn, TermOf, Grown, LabelBlock, MapsLabels;
    var starts := FindStarts(body);
    var blockOf := NumberBlocks(body, starts);
    var exitId := blockOf[|body| - 1] + 1;
    var exitUsed := false;
    var labelBlock := LabelBlocks(body, blockOf);
    var blocks: seq<IrBlock> := [];
    var current: Option<IrBlock> := None;
    for i := 0 to |body|
      invariant FirstUndefined(body, i).None?
      invariant blocks == ClosedBlocks(body, i)
      invariant current == OpenBlock(body, i)
      invariant exitUsed == UsesExit(body, i)
    {
      var block := Grow(body, i, starts[i], blockOf[i], current);
      var close, usesExit := Close(body, i, labelBlock, exitId);
      if close.UndefinedLabel? {
        FirstUndefinedFound(body, i, |body|, close.l);
        return UndefinedLabel(close.l);
      }
      exitUsed := exitUsed || usesExit;
      var term := CloseAtBoundary(body, i, starts, blockOf, close.value);
      if term.Some? {
        blocks := blocks + [block.(term := term.value, termLine := body[i].line)];
        current := None;
      } else {
        current := Some(block);
      }
    }
    assert blocks + [] == blocks;
    if exitUsed {
      blocks := blocks + [SyntheticReturn(exitId)];
    }
    r := Ok(blocks);
  }

  lemma {:induction false} FirstUndefinedFound(body: seq<S.Statement>, i: nat, n: nat, l: nat)
    requires HasItems(body) && i < n <= |body|
    requires FirstUndefined(body, i).None?
    requires MissingIn(body, body[i]) == Some(l)
    ensures FirstUndefined(body, n) == Some(l)
  {
    hide MissingIn;
    if i + 1 < n {
      FirstUndefinedFound(body, i, n - 1, l);
    }
  }

  function Lowered(f: S.Function): IrFunction
    requires HasItems(f.body)
  {
    IrFunction(f.name, f.line, LoweredBlocks(f.body), f.local)
  }

  /** Lowering one function, with the ids of the source blocks no path from the entry reaches. */
  method LowerFunction(f: S.Function) returns (r: Result<IrFunction>, unreachable: seq<nat>)
    requires HasItems(f.body)
    ensures match FirstUndefined(f.body, |f.body|)
            case Some(l) => r == UndefinedLabel(l)
            case None => r == Ok(Lowered(f))
    ensures r.Ok? ==> unreachable == UnreachableIds(r.value.blocks, |r.value.blocks|)
  {
    unreachable := [];
    if f.body == [] {
      r := Ok(IrFunction(f.name, f.line, [SyntheticReturn(0)], f.local));
      assert UnreachableIds(r.value.blocks, 0) == [];
      return;
    }
    var blocks := LowerBody(f.body);
    if blocks.UndefinedLabel? {
      return UndefinedLabel(blocks.l), [];
    }
    LoweredValid(f.body);
    unreachable := WarnUnreachable(blocks.value);
    r := Ok(IrFunction(f.name, f.line, blocks.value, f.local));
  }

  // ----- structural validity -----

  function Targets(term: IrTerm): seq<nat>
  {
    match term
    case FallThrough(to) => [to]
    case Goto(to) => [to]
    case Check(marked, blank) => [marked, blank]
    case _ => []
  }

  ghost predicate UniqueIds(blocks: seq<IrBlock>)
  {
    forall a, b | 0 <= a < b < |blocks| :: blocks[a].id != blocks[b].id
  }

  ghost predicate TargetsExist(blocks: seq<IrBlock>, b: IrBlock)
  {
    forall t | t in Targets(b.term) :: exists c :: 0 <= c < |blocks| && blocks[c].id == t
  }

  /** What every pass must keep: at least one block, unique ids, no dangling terminator. */
  ghost predicate ValidBlocks(blocks: seq<IrBlock>)
  {
    blocks != [] && UniqueIds(blocks) && forall b | b in blocks :: TargetsExist(blocks, b)
  }

  method ValidateFunction(f: IrFunction) returns (ok: bool)
    ensures ok <==> ValidBlocks(f.blocks)
  {
    if f.blocks == [] { return false; }
    var ids: set<nat> := {};
    for i := 0 to |f.blocks|
      invariant forall t :: t in ids <==> exists c :: 0 <= c < i && f.blocks[c].id == t
      invariant forall a, b | 0 <= a < b < i :: f.blocks[a].id != f.blocks[b].id
    {
      if f.blocks[i].id in ids { return false; }
      ids := ids + {f.blocks[i].id};
    }
    for i := 0 to |f.blocks|
      invariant forall k | 0 <= k < i :: TargetsExist(f.blocks, f.blocks[k])
    {
      var targets := Targets(f.blocks[i].term);
      for j := 0 to |targets|
        invariant forall k | 0 <= k < j :: targets[k] in ids
      {
        if targets[j] !in ids {
          assert targets[j] in Targets(f.blocks[i].term) && f.blocks[i] in f.blocks;
          return false;
        }
      }
    }
    ok := true;
  }

  function IndexFrom(blocks: seq<IrBlock>, k: nat, id: nat): (r: Option<nat>)
    requires k <= |blocks|
    ensures r.Some? ==> k <= r.value < |blocks| && blocks[r.value].id == id
    decreases |blocks| - k
  {
    if k == |blocks| then None
    else if blocks[k].id == id then Some(k)
    else IndexFrom(blocks, k + 1, id)
  }

  function IndexOf(blocks: seq<IrBlock>, id: nat): (r: Option<nat>)
    ensures r.Some? ==> r.value < |blocks| && blocks[r.value].id == id
  {
    IndexFrom(blocks, 0, id)
  }

  lemma {:induction false} IndexFound(blocks: seq<IrBlock>, from: nat, k: nat)
    requires UniqueIds(blocks) && from <= k < |blocks|
    ensures IndexFrom(blocks, from, blocks[k].id) == Some(k)
    decreases k - from
  {
    if from < k {
      IndexFound(blocks, from + 1, k);
    }
  }

  // ----- unreachable code -----

  function Edges(blocks: seq<IrBlock>): nat -> seq<nat>
  {
    id => match IndexOf(blocks, id)
          case None => []
          case Some(k) => Targets(blocks[k].term)
  }

  ghost predicate FromEntry(blocks: seq<IrBlock>, id: nat)
    requires blocks != []
  {
    Graphs.Reachable(Edges(blocks), [blocks[0].id], id)
  }

  /** The source blocks (line 0 marks a synthetic one) that no path from the entry reaches. */
  ghost function UnreachableIds(blocks: seq<IrBlock>, i: nat): seq<nat>
    requires blocks != [] && i <= |blocks|
  {
    if i == 0 then []
    else UnreachableIds(blocks, i - 1)
         + (if !FromEntry(blocks, blocks[i - 1].id) && blocks[i - 1].line != 0
            then [blocks[i - 1].id] else [])
  }

  method ReachableIds(blocks: seq<IrBlock>) returns (seen: set<nat>)
    requires ValidBlocks(blocks)
    ensures forall id :: id in seen <==> FromEntry(blocks, id)
  {
    hide Graphs.Reachable;
    var edges := Edges(blocks);
    ghost var ids := set b | b in blocks :: b.id;
    ghost var roots := [blocks[0].id];
    assert blocks[0] in blocks;
    Graphs.RootReachable(edges, roots, blocks[0].id);
    seen := {};
    var work := [blocks[0].id];
    while work != []
      invariant forall id | id in work :: id in ids && FromEntry(blocks, id)
      invariant forall id | id in seen :: id in ids && FromEntry(blocks, id)
      invariant blocks[0].id in seen || blocks[0].id in work
      invariant forall u, w | u in seen && w in edges(u) :: w in seen || w in work
      decreases ids - seen, |work|
    {
      var id := work[|work| - 1];
      assert id in work;
      ghost var before := work;
      work := work[..|work| - 1];
      assert forall v | v in before :: v in work || v == id;
      if id !in seen {
        EdgesStayInside(blocks, id);
        forall w | w in edges(id) ensures FromEntry(blocks, w) {
          Graphs.StepReachable(edges, roots, id, w);
        }
        seen := seen + {id};
        work := work + edges(id);
      }
    }
    forall id | FromEntry(blocks, id) ensures id in seen {
      Graphs.ReachableInClosed(edges, roots, seen, id);
    }
  }

  lemma EdgesStayInside(blocks: seq<IrBlock>, id: nat)
    requires ValidBlocks(blocks)
    ensures forall w | w in Edges(blocks)(id) :: exists b :: b in blocks && b.id == w
  {
    forall w | w in Edges(blocks)(id) ensures exists b :: b in blocks && b.id == w {
      var k := IndexOf(blocks, id).value;
      assert TargetsExist(blocks, blocks[k]);
      var c :| 0 <= c < |blocks| && blocks[c].id == w;
      assert blocks[c] in blocks;
    }
  }

  method WarnUnreachable(blocks: seq<IrBlock>) returns (unreachable: seq<nat>)
    requires ValidBlocks(blocks)
    ensures unreachable == UnreachableIds(blocks, |blocks|)
  {
    hide FromEntry;
    var seen := ReachableIds(blocks);
    unreachable := [];
    for i := 0 to |blocks|
      invariant unreachable == UnreachableIds(blocks, i)
    {
      if blocks[i].id !in seen && blocks[i].line != 0 {
        unreachable := unreachable + [blocks[i].id];
      }
    }
  }

  // ----- lowered graphs are valid -----

  lemma {:induction false} BlockOfOrdered(body: seq<S.Statement>, i: nat, k: nat)
    requires HasItems(body) && i <= k < |body|
    ensures BlockOf(body, i) <= BlockOf(body, k)
  {
    if i < k {
      BlockOfOrdered(body, i, k - 1);
    }
  }

  /** Ids are positions, and the block a statement ends sits at the position of its id. */
  lemma {:induction false} ClosedBlocksShape(body: seq<S.Statement>, n: nat)
    requires HasItems(body) && n <= |body|
    ensures |ClosedBlocks(body, n)| ==
            if n == 0 then 0
            else BlockOf(body, n - 1) + (if EndsBlock(body, n - 1) then 1 else 0)
    ensures forall b | 0 <= b < |ClosedBlocks(body, n)| :: ClosedBlocks(body, n)[b].id == b
  {
    hide BlockEndingAt, StartsBlock;
    if n > 0 {
      ClosedBlocksShape(body, n - 1);
      if EndsBlock(body, n - 1) {
        BlockEndingId(body, n - 1);
      }
    }
  }

  lemma BlockEndingId(body: seq<S.Statement>, e: nat)
    requires HasItems(body) && e < |body| && EndsBlock(body, e)
    ensures BlockEndingAt(body, e).id == BlockOf(body, e)
  {
  }

  lemma {:induction false} ClosedBlockAt(body: seq<S.Statement>, n: nat, e: nat)
    requires HasItems(body) && e < n <= |body| && EndsBlock(body, e)
    ensures BlockOf(body, e) < |ClosedBlocks(body, n)|
    ensures ClosedBlocks(body, n)[BlockOf(body, e)] == BlockEndingAt(body, e)
  {
    ClosedBlocksShape(body, n - 1);
    if e < n - 1 {
      ClosedBlockAt(body, n - 1, e);
    }
  }

  lemma LoweredShape(body: seq<S.Statement>)
    requires HasItems(body) && body != []
    ensures |LoweredBlocks(body)| == ExitId(body) + (if UsesExit(body, |body|) then 1 else 0)
    ensures forall b | 0 <= b < |LoweredBlocks(body)| :: LoweredBlocks(body)[b].id == b
    ensures UsesExit(body, |body|) ==>
            LoweredBlocks(body)[ExitId(body)] == SyntheticReturn(ExitId(body))
  {
    ClosedBlocksShape(body, |body|);
  }

  /** Terminator targets stay among the lowered blocks. */
  lemma TermTargetsInside(body: seq<S.Statement>, e: nat)
    requires HasItems(body) && e < |body| && EndsBlock(body, e)
    ensures forall t | t in Targets(TermOf(body, e)) ::
              t < ExitId(body) + (if HasReturnArm(body[e]) then 1 else 0)
  {
    forall i | 0 <= i < |body| ensures BlockOf(body, i) < ExitId(body) {
      BlockOfOrdered(body, i, |body| - 1);
    }
    forall l ensures LabelBlock(body, l) < ExitId(body) {}
  }

  lemma {:induction false} UsesExitGrows(body: seq<S.Statement>, e: nat, n: nat)
    requires HasItems(body) && e < n <= |body| && HasReturnArm(body[e])
    ensures UsesExit(body, n)
  {
    if e < n - 1 {
      UsesExitGrows(body, e, n - 1);
    }
  }

  lemma {:induction false} ClosedTargetsInside(body: seq<S.Statement>, n: nat)
    requires HasItems(body) && n <= |body|
    ensures forall b, t | b in ClosedBlocks(body, n) && t in Targets(b.term) ::
              t < ExitId(body) + (if UsesExit(body, |body|) then 1 else 0)
  {
    if n > 0 {
      ClosedTargetsInside(body, n - 1);
      if EndsBlock(body, n - 1) {
        TermTargetsInside(body, n - 1);
        if HasReturnArm(body[n - 1]) {
          UsesExitGrows(body, n - 1, |body|);
        }
      }
    }
  }

  /** Every lowered function passes validation. */
  lemma LoweredValid(body: seq<S.Statement>)
    requires HasItems(body)
    ensures ValidBlocks(LoweredBlocks(body))
  {
    if body != [] {
      LoweredShape(body);
      ClosedTargetsInside(body, |body|);
      var blocks := LoweredBlocks(body);
      forall b, t | b in blocks && t in Targets(b.term)
        ensures exists c :: 0 <= c < |blocks| && blocks[c].id == t
      {
        assert blocks[t].id == t;
      }
    }
  }

  // ----- meaning -----

  datatype Place = Place(fn: nat, block: nat, op: nat)

  datatype State = State(at: Place, stack: seq<Place>, data: Data)

  function Names(p: seq<IrFunction>): seq<string>
  {
    seq(|p|, (k: nat) requires k < |p| => p[k].name)
  }

  function Execute(op: IrOp, d: Data, strip: bool): Data
  {
    match op
    case Lft(_) => MoveLeft(d)
    case Rgt(_) => MoveRight(d)
    case Wr(s, _) => Write(d, s)
    case WrLft(s, _) => MoveLeft(Write(d, s))
    case WrRgt(s, _) => MoveRight(Write(d, s))
    case Brk(_) => Pause(d, strip)
    case Call(_, _) => d
  }

  function EnterBlock(f: IrFunction, s: State, id: nat): Step<State, Outcome>
  {
    match IndexOf(f.blocks, id)
    case None => Done(Wrong)
    case Some(k) => Next(s.(at := Place(s.at.fn, k, 0)))
  }

  function Leave(f: IrFunction, s: State): Step<State, Outcome>
  {
    if f.name == "main" then Done(Stopped(s.data))
    else if s.stack == [] then Done(Returned(s.data))
    else Next(State(s.stack[0], s.stack[1..], s.data))
  }

  function Enter(p: seq<IrFunction>, s: State, callee: string, stack: seq<Place>): Step<State, Outcome>
  {
    match S.FunctionNamed(Names(p), callee)
    case None => Done(LeftModule(callee, s.data))
    case Some(k) => Next(State(Place(k, 0, 0), stack, s.data))
  }

  function Transfer(p: seq<IrFunction>, f: IrFunction, s: State, term: IrTerm): Step<State, Outcome>
  {
    match term
    case FallThrough(to) => EnterBlock(f, s, to)
    case Goto(to) => EnterBlock(f, s, to)
    case Check(marked, blank) => EnterBlock(f, s, if s.data.mf then marked else blank)
    case Return => Leave(f, s)
    case Halt => Done(Halted(s.data))
    case TailCall(callee) => Enter(p, s, callee, s.stack)
  }

  /** One step of a control-flow graph: an operation, or the terminator after the last one. */
  function CfgStep(p: seq<IrFunction>, strip: bool, s: State): Step<State, Outcome>
  {
    if s.at.fn >= |p| || s.at.block >= |p[s.at.fn].blocks| then Done(Wrong)
    else
      var f := p[s.at.fn];
      var b := f.blocks[s.at.block];
      if s.at.op >= |b.ops| then Transfer(p, f, s, b.term)
      else
        var op := b.ops[s.at.op];
        var after := s.at.(op := s.at.op + 1);
        if op.Call? then Enter(p, s, op.name, [after] + s.stack)
        else Next(s.(at := after, data := Execute(op, s.data, strip)))
  }

  function Start(fn: nat, d: Data): State
  {
    State(Place(fn, 0, 0), [], d)
  }

  function CfgStepper(p: seq<IrFunction>, strip: bool): State -> Step<State, Outcome>
  {
    (s: State) => CfgStep(p, strip, s)
  }
}
