/** The control-flow graph of a function body runs as the body does. */
module PmLowering {
  import opened Options
  import opened Simulation
  import opened PmMachine
  import S = PmSyntax
  import I = PmIr

  /** The programs the compiler lowers: parsed bodies in which every label is declared. */
  ghost predicate Compilable(p: seq<S.Function>)
  {
    forall k | 0 <= k < |p| ::
      S.WellFormed(p[k]) && I.FirstUndefined(p[k].body, |p[k].body|).None?
  }

  ghost predicate LoweredFrom(p: seq<S.Function>, ir: seq<I.IrFunction>)
    requires Compilable(p)
  {
    |ir| == |p| && forall k | 0 <= k < |p| :: ir[k] == I.Lowered(p[k])
  }

  // ----- where a statement's operations are -----

  ghost predicate Extends(ops: seq<I.IrOp>, longer: seq<I.IrOp>)
  {
    |ops| <= |longer| && forall o | 0 <= o < |ops| :: longer[o] == ops[o]
  }

  /** The statement that ends the block statement i belongs to. */
  ghost function EndOf(body: seq<S.Statement>, i: nat): (e: nat)
    requires I.HasItems(body) && i < |body|
    ensures i <= e < |body| && I.EndsBlock(body, e) && I.BlockOf(body, e) == I.BlockOf(body, i)
    ensures Extends(I.Grown(body, i).ops, I.Grown(body, e).ops)
    decreases |body| - i
  {
    if I.EndsBlock(body, i) then i else EndOf(body, i + 1)
  }

  /** The lowered block a statement belongs to. */
  lemma HomeBlock(body: seq<S.Statement>, i: nat)
    requires I.HasItems(body) && i < |body|
    ensures I.BlockOf(body, i) < |I.LoweredBlocks(body)|
    ensures I.LoweredBlocks(body)[I.BlockOf(body, i)] == I.BlockEndingAt(body, EndOf(body, i))
  {
    I.ClosedBlockAt(body, |body|, EndOf(body, i));
  }

  /** Operation o is the one that does what the item does. */
  predicate Performs(ops: seq<I.IrOp>, o: nat, item: S.Item)
  {
    o < |ops| && I.OpOf(item) == Some(ops[o])
  }

  /** The n-th item's operation is the n-th, as long as every item has one. */
  lemma {:induction false} OpsAmongItems(items: seq<S.Item>, n: nat, j: nat)
    requires j < n <= |items|
    requires forall a | 0 <= a < n :: S.HasEffect(items[a])
    ensures |I.OpsAmong(items, n)| == n && I.OpOf(items[j]) == Some(I.OpsAmong(items, n)[j])
  {
    if n > 1 {
      OpsAmongItems(items, n - 1, if j < n - 1 then j else 0);
    }
  }

  lemma StatementOps(st: S.Statement, j: nat)
    requires S.WellFormedStatement(st) && j < |st.items|
    ensures |I.OpsOf(st.items)| == |st.items| - (if S.HasEffect(I.LastItem(st)) then 0 else 1)
    ensures S.HasEffect(st.items[j]) ==> Performs(I.OpsOf(st.items), j, st.items[j])
  {
    var n := if S.HasEffect(I.LastItem(st)) then |st.items| else |st.items| - 1;
    assert n < |st.items| ==> I.OpOf(st.items[n]).None? && I.OpsOf(st.items) == I.OpsAmong(st.items, n);
    if n > 0 {
      OpsAmongItems(st.items, n, if j < n then j else 0);
    }
  }

  // ----- the relation -----

  ghost predicate Valid(f: S.Function, at: S.Place, done: bool)
    requires S.WellFormed(f)
  {
    if at.stmt < |f.body| then
      && at.item < |f.body[at.stmt].items|
      && (done ==> S.HasEffect(f.body[at.stmt].items[at.item]))
    else
      && at.stmt == |f.body| && at.item == 0 && !done
      && (f.body != [] ==> !I.Terminates(f.body[|f.body| - 1]))
  }

  ghost function PlaceOf(f: S.Function, at: S.Place, done: bool): I.Place
    requires S.WellFormed(f) && Valid(f, at, done)
  {
    var body := f.body;
    if at.stmt < |body| then
      I.Place(at.fn, I.BlockOf(body, at.stmt),
              |I.OpsBefore(body, at.stmt)| + at.item + (if done then 1 else 0))
    else if body == [] then I.Place(at.fn, 0, 0)
    else I.Place(at.fn, I.BlockOf(body, |body| - 1), |I.Grown(body, |body| - 1).ops|)
  }

  ghost predicate Stands(p: seq<S.Function>, at: S.Place, done: bool, place: I.Place)
    requires Compilable(p)
  {
    at.fn < |p| && Valid(p[at.fn], at, done) && place == PlaceOf(p[at.fn], at, done)
  }

  ghost predicate Related(p: seq<S.Function>, s: S.State, t: I.State)
    requires Compilable(p)
  {
    && Stands(p, s.at, s.done, t.at)
    && |s.stack| == |t.stack|
    && (forall k | 0 <= k < |s.stack| :: Stands(p, s.stack[k], true, t.stack[k]))
    && s.data == t.data
  }

  function Rank(s: S.State): (nat, nat)
  {
    (0, if s.done then 1 else 0)
  }

  // ----- where control stands in the lowered blocks -----

  /** A state about to run statement code stands in the block its statement belongs to. */
  lemma InHomeBlock(f: S.Function, at: S.Place, done: bool)
    requires S.WellFormed(f) && Valid(f, at, done) && at.stmt < |f.body|
    ensures var place := PlaceOf(f, at, done);
            var blocks := I.LoweredBlocks(f.body);
            && place.block < |blocks|
            && blocks[place.block] == I.BlockEndingAt(f.body, EndOf(f.body, at.stmt))
  {
    HomeBlock(f.body, at.stmt);
  }

  lemma PerformsLater(front: seq<I.IrOp>, back: seq<I.IrOp>, longer: seq<I.IrOp>, j: nat, item: S.Item)
    requires Performs(back, j, item)
    requires Extends(front + back, longer)
    ensures Performs(longer, |front| + j, item)
  {
    assert (front + back)[|front| + j] == back[j];
  }

  lemma OpInPlace(body: seq<S.Statement>, i: nat, j: nat)
    requires I.HasItems(body) && i < |body| && S.WellFormedStatement(body[i])
    requires j < |body[i].items| && S.HasEffect(body[i].items[j])
    ensures var ops := I.Grown(body, EndOf(body, i)).ops;
            Performs(ops, |I.OpsBefore(body, i)| + j, body[i].items[j])
  {
    hide Performs, Extends, I.OpsOf, I.OpsBefore, EndOf;
    StatementOps(body[i], j);
    PerformsLater(I.OpsBefore(body, i), I.OpsOf(body[i].items),
                  I.Grown(body, EndOf(body, i)).ops, j, body[i].items[j]);
  }

  /** An item's operation is where the item stands, and its end is one further. */
  lemma ItemInPlace(f: S.Function, at: S.Place)
    requires S.WellFormed(f) && Valid(f, at, false) && at.stmt < |f.body|
    requires S.HasEffect(f.body[at.stmt].items[at.item])
    ensures var place := PlaceOf(f, at, false);
            var ops := I.Grown(f.body, EndOf(f.body, at.stmt)).ops;
            && Performs(ops, place.op, f.body[at.stmt].items[at.item])
            && PlaceOf(f, at, true) == place.(op := place.op + 1)
  {
    OpInPlace(f.body, at.stmt, at.item);
  }

  /** Whether the last item of the statement at `at` has nothing left to do but transfer control. */
  predicate AtStatementEnd(f: S.Function, at: S.Place, done: bool)
    requires at.stmt < |f.body| && at.item < |f.body[at.stmt].items|
  {
    && at.item + 1 == |f.body[at.stmt].items|
    && (done || !S.HasEffect(f.body[at.stmt].items[at.item]))
  }

  /** A statement that ends its block is left through the block's terminator. */
  lemma TermInPlace(f: S.Function, at: S.Place, done: bool)
    requires S.WellFormed(f) && Valid(f, at, done) && at.stmt < |f.body|
    requires AtStatementEnd(f, at, done) && I.EndsBlock(f.body, at.stmt)
    ensures PlaceOf(f, at, done).op == |I.Grown(f.body, at.stmt).ops|
    ensures EndOf(f.body, at.stmt) == at.stmt
  {
    StatementOps(f.body[at.stmt], at.item);
  }

  /** A statement that falls through inside its block leads straight to the next one. */
  lemma NextInPlace(f: S.Function, at: S.Place)
    requires S.WellFormed(f) && Valid(f, at, true) && at.stmt < |f.body|
    requires AtStatementEnd(f, at, true)
    requires S.SuccessorOf(f.body[at.stmt].items[at.item]) == S.FallThrough
    requires at.stmt + 1 == |f.body| || !I.StartsBlock(f.body, at.stmt + 1)
    ensures var next := S.Place(at.fn, at.stmt + 1, 0);
            Valid(f, next, false) && PlaceOf(f, next, false) == PlaceOf(f, at, true)
  {
    StatementOps(f.body[at.stmt], at.item);
  }

  // ----- one step of the graph -----

  ghost predicate Good(p: seq<S.Function>, ir: seq<I.IrFunction>)
  {
    Compilable(p) && LoweredFrom(p, ir)
  }

  predicate AtOp(ir: seq<I.IrFunction>, t: I.State, item: S.Item)
  {
    && t.at.fn < |ir| && t.at.block < |ir[t.at.fn].blocks|
    && Performs(ir[t.at.fn].blocks[t.at.block].ops, t.at.op, item)
  }

  predicate AtTerm(ir: seq<I.IrFunction>, t: I.State, term: I.IrTerm)
  {
    && t.at.fn < |ir| && t.at.block < |ir[t.at.fn].blocks|
    && t.at.op == |ir[t.at.fn].blocks[t.at.block].ops|
    && ir[t.at.fn].blocks[t.at.block].term == term
  }

  lemma OpStep(ir: seq<I.IrFunction>, strip: bool, t: I.State, item: S.Item)
    requires AtOp(ir, t, item)
    ensures var after := t.at.(op := t.at.op + 1);
            I.CfgStep(ir, strip, t) ==
              match item
              case Tape(which, _, _) => Next(t.(at := after, data := S.Effect(which, t.data)))
              case Debugger(_) => Next(t.(at := after, data := Pause(t.data, strip)))
              case Call(name, _, _) => I.Enter(ir, t, name, [after] + t.stack)
              case _ => Done(Wrong)
  {
  }

  lemma TermStep(ir: seq<I.IrFunction>, strip: bool, t: I.State, term: I.IrTerm)
    requires AtTerm(ir, t, term)
    ensures I.CfgStep(ir, strip, t) == I.Transfer(ir, ir[t.at.fn], t, term)
  {
  }

  lemma AtItem(p: seq<S.Function>, ir: seq<I.IrFunction>, s: S.State, t: I.State)
    requires Good(p, ir) && Related(p, s, t)
    requires s.at.stmt < |p[s.at.fn].body| && !s.done
    requires S.HasEffect(p[s.at.fn].body[s.at.stmt].items[s.at.item])
    ensures AtOp(ir, t, p[s.at.fn].body[s.at.stmt].items[s.at.item])
    ensures Stands(p, s.at, true, t.at.(op := t.at.op + 1))
  {
    var f := p[s.at.fn];
    assert ir[s.at.fn] == I.Lowered(f);
    InHomeBlock(f, s.at, false);
    ItemInPlace(f, s.at);
    hide Performs, EndOf, I.OpsBefore, I.BlockOf, I.LoweredBlocks;
  }

  lemma AtEnd(p: seq<S.Function>, ir: seq<I.IrFunction>, s: S.State, t: I.State)
    requires Good(p, ir) && Related(p, s, t)
    requires s.at.stmt < |p[s.at.fn].body| && I.EndsBlock(p[s.at.fn].body, s.at.stmt)
    requires AtStatementEnd(p[s.at.fn], s.at, s.done)
    ensures AtTerm(ir, t, I.TermOf(p[s.at.fn].body, s.at.stmt))
  {
    var f := p[s.at.fn];
    assert ir[s.at.fn] == I.Lowered(f);
    InHomeBlock(f, s.at, s.done);
    TermInPlace(f, s.at, s.done);
    hide PlaceOf, EndOf, I.OpsBefore, I.BlockOf, I.LoweredBlocks, I.TermOf;
  }

  // ----- matching the source's steps -----

  /** The result of a step of each machine, matched. */
  ghost predicate Agree(p: seq<S.Function>, a: Step<S.State, Outcome>, b: Step<I.State, Outcome>)
    requires Compilable(p)
  {
    match (a, b)
    case (Done(o), Done(o')) => o == o'
    case (Next(s), Next(t)) => Related(p, s, t)
    case _ => false
  }

  lemma NamesAgree(p: seq<S.Function>, ir: seq<I.IrFunction>)
    requires Good(p, ir)
    ensures S.Names(p) == I.Names(ir)
  {
    hide I.LoweredBlocks, I.FirstUndefined;
  }

  /** A function body starts where its first block starts. */
  lemma EntryStands(p: seq<S.Function>, k: nat)
    requires Compilable(p) && k < |p|
    ensures Stands(p, S.Place(k, 0, 0), false, I.Place(k, 0, 0))
  {
  }

  lemma SourceInStatement(p: seq<S.Function>, strip: bool, s: S.State)
    requires s.at.fn < |p| && s.at.stmt < |p[s.at.fn].body|
    requires s.at.item < |p[s.at.fn].body[s.at.stmt].items|
    ensures var f := p[s.at.fn];
            S.SourceStep(p, strip, s)
            == if s.done then S.TakeSuccessor(f, s)
               else S.Perform(p, strip, f, s, f.body[s.at.stmt].items[s.at.item])
  {
  }

  /** Calling function k, or leaving the module when the program has no such function. */
  lemma CallMatched(p: seq<S.Function>, ir: seq<I.IrFunction>, s: S.State, t: I.State, name: string,
                    from: S.Place, back: I.Place)
    requires Good(p, ir) && Related(p, s, t) && Stands(p, from, true, back)
    ensures Agree(p,
              match S.FunctionNamed(S.Names(p), name)
              case None => Done(LeftModule(name, s.data))
              case Some(k) => Next(S.State(S.Place(k, 0, 0), false, [from] + s.stack, s.data)),
              I.Enter(ir, t, name, [back] + t.stack))
  {
    hide Stands, I.FirstUndefined, I.Names, S.NamedFrom, LoweredFrom, I.BlockOf;
    NamesAgree(p, ir);
    match S.FunctionNamed(S.Names(p), name)
    case None =>
    case Some(k) => EntryStands(p, k);
  }

  /** The effect of an item is one operation of the graph. */
  lemma EffectMatched(p: seq<S.Function>, ir: seq<I.IrFunction>, strip: bool, s: S.State, t: I.State)
    requires Good(p, ir) && Related(p, s, t)
    requires s.at.stmt < |p[s.at.fn].body| && !s.done
    requires S.HasEffect(p[s.at.fn].body[s.at.stmt].items[s.at.item])
    ensures Agree(p, S.SourceStep(p, strip, s), I.CfgStep(ir, strip, t))
  {
    var item := p[s.at.fn].body[s.at.stmt].items[s.at.item];
    AtItem(p, ir, s, t);
    OpStep(ir, strip, t, item);
    SourceInStatement(p, strip, s);
    if item.Call? {
      CallMatched(p, ir, s, t, item.name, s.at, t.at.(op := t.at.op + 1));
      hide *;
    } else {
      hide Stands, I.CfgStep, S.SourceStep, AtOp, Good;
    }
  }

  lemma LeaveMatched(p: seq<S.Function>, ir: seq<I.IrFunction>, s: S.State, t: I.State)
    requires Good(p, ir) && s.at.fn < |p| && t.at.fn == s.at.fn
    requires |s.stack| == |t.stack| && s.data == t.data
    requires forall k | 0 <= k < |s.stack| :: Stands(p, s.stack[k], true, t.stack[k])
    ensures Agree(p, S.Leave(p[s.at.fn], s), I.Leave(ir[s.at.fn], t))
  {
    hide Stands, I.LoweredBlocks, I.FirstUndefined;
  }

  /** A jump to a declared label enters the block that starts there. */
  lemma JumpMatched(p: seq<S.Function>, ir: seq<I.IrFunction>, s: S.State, t: I.State, l: nat)
    requires Good(p, ir) && Related(p, s, t)
    requires S.LabelStatement(p[s.at.fn].body, l).Some?
    ensures Agree(p, S.JumpTo(p[s.at.fn], s, l),
                  I.EnterBlock(ir[s.at.fn], t, I.LabelBlock(p[s.at.fn].body, l)))
  {
    EnterStatement(p, ir, t, S.LabelStatement(p[s.at.fn].body, l).value);
    hide Stands, I.EnterBlock, I.LoweredBlocks, I.FirstUndefined;
  }

  /** Entering a block that a statement starts. */
  lemma EnterStatement(p: seq<S.Function>, ir: seq<I.IrFunction>, t: I.State, i: nat)
    requires Good(p, ir) && t.at.fn < |p|
    requires i < |p[t.at.fn].body| && I.StartsBlock(p[t.at.fn].body, i)
    ensures var place := I.Place(t.at.fn, I.BlockOf(p[t.at.fn].body, i), 0);
            && I.EnterBlock(ir[t.at.fn], t, place.block) == Next(t.(at := place))
            && Stands(p, S.Place(t.at.fn, i, 0), false, place)
  {
    var body := p[t.at.fn].body;
    assert ir[t.at.fn] == I.Lowered(p[t.at.fn]);
    HomeBlock(body, i);
    I.LoweredValid(body);
    I.IndexFound(I.LoweredBlocks(body), 0, I.BlockOf(body, i));
    hide I.LoweredBlocks, I.FirstUndefined, I.IndexFrom, EndOf;
  }

  /** An arm of `check`: a jump, or a return by way of the shared exit block. */
  lemma ArmMatched(p: seq<S.Function>, ir: seq<I.IrFunction>, strip: bool, s: S.State, t: I.State,
                   arm: S.CheckArm) returns (k: nat)
    requires Good(p, ir) && Related(p, s, t)
    requires s.at.stmt < |p[s.at.fn].body|
    requires arm.ArmLabel? ==> S.LabelStatement(p[s.at.fn].body, arm.target).Some?
    requires arm.ArmReturn? ==> I.HasReturnArm(p[s.at.fn].body[s.at.stmt])
    ensures var r := I.EnterBlock(ir[s.at.fn], t, I.ArmBlock(p[s.at.fn].body, arm));
            && r.Next?
            && Agree(p, S.Arm(p[s.at.fn], s, arm),
                     Run((t: I.State) => I.CfgStep(ir, strip, t), r.state, k))
  {
    match arm
    case ArmLabel(l) =>
      JumpMatched(p, ir, s, t, l);
      k := 0;
      hide Stands, I.LoweredBlocks, I.FirstUndefined, I.CfgStep, I.EnterBlock, S.JumpTo;
    case ArmReturn =>
      ExitReturns(p, ir, strip, t, s.at.stmt);
      var t' := I.EnterBlock(ir[s.at.fn], t, I.ExitId(p[s.at.fn].body)).state;
      LeaveMatched(p, ir, s, t');
      k := 1;
      hide Stands, I.LoweredBlocks, I.FirstUndefined, I.CfgStep, I.EnterBlock;
      RunFirst((t: I.State) => I.CfgStep(ir, strip, t), t', 0);
  }

  /** The shared exit block returns. */
  lemma ExitReturns(p: seq<S.Function>, ir: seq<I.IrFunction>, strip: bool, t: I.State, i: nat)
    requires Good(p, ir)
    requires t.at.fn < |p| && i < |p[t.at.fn].body| && I.HasReturnArm(p[t.at.fn].body[i])
    ensures var exit := I.ExitId(p[t.at.fn].body);
            var t' := t.(at := I.Place(t.at.fn, exit, 0));
            && I.EnterBlock(ir[t.at.fn], t, exit) == Next(t')
            && I.CfgStep(ir, strip, t') == I.Leave(ir[t.at.fn], t')
  {
    var body := p[t.at.fn].body;
    assert ir[t.at.fn] == I.Lowered(p[t.at.fn]);
    I.UsesExitGrows(body, i, |body|);
    I.LoweredShape(body);
    I.LoweredValid(body);
    I.IndexFound(I.LoweredBlocks(body), 0, I.ExitId(body));
    hide I.LoweredBlocks, I.FirstUndefined, I.IndexFrom, I.UsesExit, I.ExitId;
  }

  /** Every label a statement's last item refers to is declared. */
  lemma ReferenceDeclared(p: seq<S.Function>, fn: nat, i: nat, l: nat)
    requires Compilable(p) && fn < |p| && i < |p[fn].body|
    requires I.RefersTo(I.LastItem(p[fn].body[i]), l)
    ensures S.LabelStatement(p[fn].body, l).Some?
  {
    var body := p[fn].body;
    I.FailsExactlyOnUndeclared(body, |body|);
    assert I.LabelsDeclared(body, body[i]);
    assert I.LastItem(body[i]) in body[i].items;
  }

  /** Taking a terminator does what the source's own transfer of control does. */
  lemma TransferMatched(p: seq<S.Function>, ir: seq<I.IrFunction>, strip: bool, s: S.State, t: I.State)
    returns (j: nat)
    requires Good(p, ir) && Related(p, s, t)
    requires s.at.stmt < |p[s.at.fn].body| && AtStatementEnd(p[s.at.fn], s.at, s.done)
    requires I.Terminates(p[s.at.fn].body[s.at.stmt])
    ensures var f := p[s.at.fn];
            var item := I.LastItem(f.body[s.at.stmt]);
            var step := (t: I.State) => I.CfgStep(ir, strip, t);
            Agree(p, if s.done then S.TakeSuccessor(f, s) else S.Perform(p, strip, f, s, item),
                  Continue(step, I.Transfer(ir, ir[s.at.fn], t, I.TermOf(f.body, s.at.stmt)), j))
  {
    var f := p[s.at.fn];
    var item := I.LastItem(f.body[s.at.stmt]);
    var term := I.TermOf(f.body, s.at.stmt);
    var succ := S.SuccessorOf(item);
    j := 0;
    if item.Check? {
      var arm := if s.data.mf then item.marked else item.blank;
      if arm.ArmLabel? { ReferenceDeclared(p, s.at.fn, s.at.stmt, arm.target); }
      j := ArmMatched(p, ir, strip, s, t, arm);
      hide Stands, I.LoweredBlocks, I.FirstUndefined, I.CfgStep, I.EnterBlock, I.ArmBlock, S.Arm, Good;
    } else if item.Goto? {
      ReferenceDeclared(p, s.at.fn, s.at.stmt, item.target);
      JumpMatched(p, ir, s, t, item.target);
      hide Stands, I.LoweredBlocks, I.FirstUndefined, I.CfgStep, I.EnterBlock, S.JumpTo, I.LabelBlock, Good;
    } else if succ.ToLabel? {
      ReferenceDeclared(p, s.at.fn, s.at.stmt, succ.target);
      JumpMatched(p, ir, s, t, succ.target);
      hide Stands, I.LoweredBlocks, I.FirstUndefined, I.CfgStep, I.EnterBlock, S.JumpTo, I.LabelBlock, Good;
    } else if succ.Return? {
      LeaveMatched(p, ir, s, t);
      hide Stands, I.LoweredBlocks, I.FirstUndefined, I.CfgStep, S.Leave, I.Leave, Good;
    }
  }

  /** A statement's last item leaves its statement otherwise than by falling through. */
  lemma ForcedMatched(p: seq<S.Function>, ir: seq<I.IrFunction>, strip: bool, s: S.State, t: I.State)
    returns (k: nat)
    requires Good(p, ir) && Related(p, s, t)
    requires s.at.stmt < |p[s.at.fn].body| && AtStatementEnd(p[s.at.fn], s.at, s.done)
    requires I.Terminates(p[s.at.fn].body[s.at.stmt])
    ensures k > 0
    ensures Agree(p, S.SourceStep(p, strip, s), Run((t: I.State) => I.CfgStep(ir, strip, t), t, k))
  {
    var f := p[s.at.fn];
    var step := (t: I.State) => I.CfgStep(ir, strip, t);
    AtEnd(p, ir, s, t);
    TermStep(ir, strip, t, I.TermOf(f.body, s.at.stmt));
    SourceInStatement(p, strip, s);
    var j := TransferMatched(p, ir, strip, s, t);
    RunFirst(step, t, j);
    k := j + 1;
    assert step(t) == I.CfgStep(ir, strip, t);
    hide *;
  }

  /** Falling through moves the graph only where a block ends. */
  lemma FallMatched(p: seq<S.Function>, ir: seq<I.IrFunction>, strip: bool, s: S.State, t: I.State)
    returns (k: nat)
    requires Good(p, ir) && Related(p, s, t) && s.done
    requires s.at.stmt < |p[s.at.fn].body|
    requires S.SuccessorOf(p[s.at.fn].body[s.at.stmt].items[s.at.item]) == S.FallThrough
    ensures Agree(p, S.SourceStep(p, strip, s), Run((t: I.State) => I.CfgStep(ir, strip, t), t, k))
  {
    var f := p[s.at.fn];
    var i := s.at.stmt;
    SourceInStatement(p, strip, s);
    if s.at.item + 1 < |f.body[i].items| {
      ItemStands(p, s.at, t.at);
      k := 0;
      hide Stands, S.SourceStep, Good, I.CfgStep;
    } else if i + 1 < |f.body| && I.StartsBlock(f.body, i + 1) {
      AtEnd(p, ir, s, t);
      TermStep(ir, strip, t, I.TermOf(f.body, i));
      EnterStatement(p, ir, t, i + 1);
      RunFirst((t: I.State) => I.CfgStep(ir, strip, t), t, 0);
      k := 1;
      hide Stands, S.SourceStep, Good, I.CfgStep, I.EnterBlock, AtTerm, I.BlockOf;
    } else {
      NextInPlace(f, s.at);
      k := 0;
      hide S.SourceStep, Good, I.CfgStep, PlaceOf, Valid;
    }
  }

  /** The end of an item stands where the next item of its statement does. */
  lemma ItemStands(p: seq<S.Function>, at: S.Place, place: I.Place)
    requires Compilable(p) && Stands(p, at, true, place)
    requires at.stmt < |p[at.fn].body| && at.item + 1 < |p[at.fn].body[at.stmt].items|
    ensures Stands(p, at.(item := at.item + 1), false, place)
  {
  }

  /** Past the last statement a function returns, and so does its last block. */
  lemma ImplicitReturn(p: seq<S.Function>, ir: seq<I.IrFunction>, strip: bool, s: S.State, t: I.State)
    requires Good(p, ir) && Related(p, s, t)
    requires s.at.stmt >= |p[s.at.fn].body|
    ensures Agree(p, S.SourceStep(p, strip, s), I.CfgStep(ir, strip, t))
  {
    LastReturns(p, ir, s.at, t);
    TermStep(ir, strip, t, I.Return);
    LeaveMatched(p, ir, s, t);
    hide Stands, I.CfgStep, S.Leave, I.Leave, I.FirstUndefined;
  }

  lemma LastReturns(p: seq<S.Function>, ir: seq<I.IrFunction>, at: S.Place, t: I.State)
    requires Good(p, ir) && Stands(p, at, false, t.at) && at.stmt >= |p[at.fn].body|
    ensures AtTerm(ir, t, I.Return) && t.at.fn == at.fn
  {
    var body := p[at.fn].body;
    assert ir[at.fn] == I.Lowered(p[at.fn]);
    if body != [] {
      HomeBlock(body, |body| - 1);
      assert EndOf(body, |body| - 1) == |body| - 1;
      hide I.LoweredBlocks, I.FirstUndefined, I.BlockOf, I.OpsBefore, EndOf;
    }
  }

  // ----- the theorem -----

  /** Every source step is answered by the graph. */
  lemma StepMatched(p: seq<S.Function>, ir: seq<I.IrFunction>, strip: bool, s: S.State, t: I.State)
    returns (k: nat)
    requires Good(p, ir) && Related(p, s, t)
    ensures Agree(p, S.SourceStep(p, strip, s), Run((t: I.State) => I.CfgStep(ir, strip, t), t, k))
    ensures k == 0 ==> s.done && S.SourceStep(p, strip, s).Next? && !S.SourceStep(p, strip, s).state.done
  {
    var f := p[s.at.fn];
    var step := (t: I.State) => I.CfgStep(ir, strip, t);
    assert step(t) == I.CfgStep(ir, strip, t);
    RunFirst(step, t, 0);
    if s.at.stmt >= |f.body| {
      ImplicitReturn(p, ir, strip, s, t);
      k := 1;
      hide *;
    } else {
      var item := f.body[s.at.stmt].items[s.at.item];
      if !s.done && S.HasEffect(item) {
        EffectMatched(p, ir, strip, s, t);
        k := 1;
        hide *;
      } else if s.done && S.SuccessorOf(item) == S.FallThrough {
        k := FallMatched(p, ir, strip, s, t);
        SourceInStatement(p, strip, s);
        hide S.SourceStep, Agree, I.CfgStep;
      } else {
        LastTransfers(f.body[s.at.stmt], s.at.item);
        k := ForcedMatched(p, ir, strip, s, t);
        hide *;
      }
    }
  }

  /** An item that transfers control is the last of its statement. */
  lemma LastTransfers(st: S.Statement, j: nat)
    requires S.WellFormedStatement(st) && j < |st.items|
    requires !S.HasEffect(st.items[j]) || S.SuccessorOf(st.items[j]) != S.FallThrough
    ensures j + 1 == |st.items| && I.Terminates(st)
  {
  }

  ghost function Relation(p: seq<S.Function>): (S.State, I.State) -> bool
    requires Compilable(p)
  {
    (s: S.State, t: I.State) => Related(p, s, t)
  }

  lemma GraphSimulates(p: seq<S.Function>, ir: seq<I.IrFunction>, strip: bool)
    requires Good(p, ir)
    ensures Simulates(S.SourceStepper(p, strip), I.CfgStepper(ir, strip), Relation(p), Rank)
  {
    hide S.SourceStep, I.CfgStep, Related, Compilable, LoweredFrom, Run;
    forall s, t | Relation(p)(s, t)
      ensures exists k: nat :: Answers(S.SourceStepper(p, strip), I.CfgStepper(ir, strip), Relation(p), Rank, s, t, k)
    {
      var k := StepMatched(p, ir, strip, s, t);
      assert Answers(S.SourceStepper(p, strip), I.CfgStepper(ir, strip), Relation(p), Rank, s, t, k);
    }
  }

  /** Lowering keeps every behaviour: started at the same function on the same data, the source
      and its control-flow graphs stop, halt, return and leave the module with the same data,
      and one runs for ever exactly when the other does. */
  lemma LoweringPreservesBehaviour(p: seq<S.Function>, ir: seq<I.IrFunction>, strip: bool, fn: nat, d: Data)
    requires Good(p, ir) && fn < |p|
    ensures var src := S.SourceStepper(p, strip);
            var cfg := I.CfgStepper(ir, strip);
            && (forall o :: Finishes(src, S.Start(fn, d), o) <==> Finishes(cfg, I.Start(fn, d), o))
            && (Diverges(src, S.Start(fn, d)) <==> Diverges(cfg, I.Start(fn, d)))
  {
    hide S.SourceStep, I.CfgStep, Stands, Compilable, LoweredFrom, Finishes, Diverges, Simulates;
    EntryStands(p, fn);
    GraphSimulates(p, ir, strip);
    SameBehaviour(S.SourceStepper(p, strip), I.CfgStepper(ir, strip), Relation(p), Rank,
                  S.Start(fn, d), I.Start(fn, d));
  }
}
