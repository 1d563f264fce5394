/** From state graphs to the `.tma` listing: tables, blocks, fall-through and label printing. */
module TmCodegen {
  import opened Options
  import opened TmListing
  import opened LineEmitter
  import opened FreshNames
  import R = TmRules
  import B = TmBands
  import I = TmIr

  datatype Instr = Instr(text: Line, line: nat)

  datatype Resume = ResumeAt(dest: string) | ResumeRet | ResumeStop | ResumeHalt

  datatype Term =
    | DispatchOn(table: nat)
    | GoTo(dest: string)
    | CallThen(target: string, binding: seq<I.TapeBinding>, resume: Resume)
    | Return
    | Stop
    | Halt
    | TailCall(target: string)
    | JumpIfMatch(dest: string)
    | RaiseRead
    | RaiseWrite

  datatype Block = Block(name: string, force: bool, body: seq<Instr>, term: Term, termLine: nat)

  datatype WorldPlan = WorldPlan(tables: seq<Table>, blocks: seq<Block>)

  // ----- rules as blocks -----

  function Vector<T>(v: Option<seq<T>>, arity: nat, plain: T): seq<T>
  {
    if v.Some? then v.value else seq(arity, _ => plain)
  }

  function RuleBody(r: I.IrRule, strip: bool): seq<Instr>
  {
    (if r.debugger && !strip then [Instr(Brk, r.line)] else [])
    + (if r.write.None? && r.moves.None? then []
       else [Instr(Wrmv(Vector(r.write, |r.pattern|, R.Keep), Vector(r.moves, |r.pattern|, R.Stay)), r.line)])
  }

  function StateName(w: I.IrWorld, id: nat): string
  {
    if id < |w.states| then w.states[id].name else ""
  }

  function ResumeOf(w: I.IrWorld, t: I.Then): Resume
  {
    match t
    case ThenGoto(s) => ResumeAt(StateName(w, s))
    case ThenReturn => ResumeRet
    case ThenStop => ResumeStop
    case ThenHalt => ResumeHalt
  }

  function TermOf(w: I.IrWorld, r: I.IrRule): Term
  {
    match r.transition
    case Goto(s) => GoTo(StateName(w, s))
    case CallThen(target, binding, resume) => CallThen(target, binding, ResumeOf(w, resume))
    case Return => Return
    case Stop => Stop
    case Halt => Halt
    case TailCall(target) => TailCall(target)
    case TrapRead => RaiseRead
    case TrapWrite => RaiseWrite
  }

  function RuleBlock(w: I.IrWorld, r: I.IrRule, strip: bool, name: string, force: bool): Block
  {
    Block(name, force, RuleBody(r, strip), TermOf(w, r), r.line)
  }

  function Head(st: I.IrState, n: nat, term: Term, force: bool): Block
  {
    Block(st.name, force, [Instr(Rd, st.line), Instr(Mtc(n), st.line)], term, st.line)
  }

  // ----- what a plan must be -----

  /** A label that leads to a rule: its block, or for a direct rule the state it goes to. */
  ghost predicate LeadsTo(w: I.IrWorld, r: I.IrRule, strip: bool, blocks: seq<Block>, name: string)
  {
    if r.direct then r.transition.Goto? && name == StateName(w, r.transition.state)
    else RuleBlock(w, r, strip, name, true) in blocks
  }

  /** The first of the first n tapes with the smallest alphabet. */
  function Narrowest(cards: seq<nat>, n: nat): (k: nat)
    requires 0 < n <= |cards|
    ensures k < n && forall j | 0 <= j < n :: cards[k] <= cards[j]
    ensures forall j | 0 <= j < k :: cards[k] < cards[j]
  {
    if n == 1 then 0
    else
      var k := Narrowest(cards, n - 1);
      if cards[n - 1] < cards[k] then n - 1 else k
  }

  /** The largest symbol a match row can hold. */
  const ROW_LIMIT: nat := 0x7E

  function EmptyRow(w: I.IrWorld): seq<R.Cell>
    requires w.cards != []
  {
    seq(|w.cards|, (k: nat) requires k < |w.cards| =>
      if k == Narrowest(w.cards, |w.cards|) then R.Sym(w.cards[k]) else R.Wild)
  }

  /** A state without rules: a match that never succeeds, or a bare trap where the alphabets leave
      no symbol for one. */
  ghost predicate EmptyAt(w: I.IrWorld, st: I.IrState, p: WorldPlan, b: nat)
    requires w.cards != [] && b < |p.blocks|
  {
    if w.cards[Narrowest(w.cards, |w.cards|)] > ROW_LIMIT
    then p.blocks[b] == Block(st.name, true, [], RaiseRead, st.line)
    else exists n :: HeadAt(st, p, b, n, DispatchOn(n), true) && Table(n, [EmptyRow(w)], [st.name]) in p.tables
  }

  ghost predicate HeadAt(st: I.IrState, p: WorldPlan, b: nat, n: nat, term: Term, force: bool)
    requires b < |p.blocks|
  {
    p.blocks[b] == Head(st, n, term, force)
  }

  ghost predicate OrderedRows(st: I.IrState, t: Table)
  {
    var order := B.EmittedRowOrder(I.Rows(st.rules));
    && |t.rows| == |t.targets| == |order| == |st.rules|
    && forall m | 0 <= m < |order| :: order[m] < |st.rules| && t.rows[m] == st.rules[order[m]].pattern
  }

  ghost predicate TargetsLead(w: I.IrWorld, st: I.IrState, strip: bool, t: Table, blocks: seq<Block>)
  {
    var order := B.EmittedRowOrder(I.Rows(st.rules));
    forall m | 0 <= m < |order| && m < |t.targets| && order[m] < |st.rules| ::
      LeadsTo(w, st.rules[order[m]], strip, blocks, t.targets[m])
  }

  /** A state with a table: rows in emitted order, the m-th target leading to the m-th row's rule. */
  ghost predicate TableAt(w: I.IrWorld, st: I.IrState, strip: bool, p: WorldPlan, b: nat, t: Table)
    requires b < |p.blocks|
  {
    && HeadAt(st, p, b, t.n, DispatchOn(t.n), false) && t in p.tables
    && OrderedRows(st, t) && TargetsLead(w, st, strip, t, p.blocks)
  }

  /** A state with a branch: one row, the other rule right behind the head. */
  ghost predicate BranchAt(w: I.IrWorld, st: I.IrState, strip: bool, p: WorldPlan, b: nat, n: nat, hit: string)
    requires b < |p.blocks| && |st.rules| == 2
  {
    && HeadAt(st, p, b, n, JumpIfMatch(hit), false) && Table(n, [st.rules[0].pattern], []) in p.tables
    && b + 1 < |p.blocks| && p.blocks[b + 1] == RuleBlock(w, st.rules[1], strip, p.blocks[b + 1].name, false)
    && LeadsTo(w, st.rules[0], strip, p.blocks, hit)
  }

  ghost predicate ImplementsAt(w: I.IrWorld, strip: bool, i: nat, p: WorldPlan, b: nat)
    requires w.cards != [] && i < |w.states|
  {
    && b < |p.blocks|
    && var st := w.states[i];
       if st.rules == [] then EmptyAt(w, st, p, b)
       else if I.IsStraight(st.rules) then p.blocks[b] == RuleBlock(w, st.rules[0], strip, st.name, false)
       else if st.dispatch.Branch? && |st.rules| == 2 then exists n, hit :: BranchAt(w, st, strip, p, b, n, hit)
       else exists t :: TableAt(w, st, strip, p, b, t)
  }

  ghost predicate Implements(w: I.IrWorld, strip: bool, i: nat, p: WorldPlan)
    requires w.cards != [] && i < |w.states|
  {
    exists b :: 0 <= b && ImplementsAt(w, strip, i, p, b)
  }

  ghost predicate NamesApart(blocks: seq<Block>)
  {
    forall a, b | 0 <= a < b < |blocks| :: blocks[a].name != blocks[b].name
  }

  /** Bodies read, match, pause and write; they neither jump nor carry labels. */
  predicate IsPlain(body: seq<Instr>)
  {
    forall k | 0 <= k < |body| :: body[k].text.Rd? || body[k].text.Mtc? || body[k].text.Brk? || body[k].text.Wrmv?
  }

  ghost predicate BodiesPlain(blocks: seq<Block>)
  {
    forall b | 0 <= b < |blocks| :: IsPlain(blocks[b].body)
  }

  predicate IsStateName(w: I.IrWorld, name: string)
  {
    exists i :: 0 <= i < |w.states| && w.states[i].name == name
  }

  predicate IsBlockName(blocks: seq<Block>, name: string)
  {
    exists b :: 0 <= b < |blocks| && blocks[b].name == name
  }

  predicate Known(w: I.IrWorld, blocks: seq<Block>, name: string)
  {
    IsStateName(w, name) || IsBlockName(blocks, name)
  }

  predicate DestKnown(w: I.IrWorld, blocks: seq<Block>, term: Term)
  {
    match term
    case GoTo(dest) => Known(w, blocks, dest)
    case CallThen(_, _, resume) => resume.ResumeAt? ==> Known(w, blocks, resume.dest)
    case JumpIfMatch(dest) => Known(w, blocks, dest)
    case _ => true
  }

  ghost predicate TargetsKnown(w: I.IrWorld, blocks: seq<Block>, t: Table)
  {
    forall m | 0 <= m < |t.targets| :: Known(w, blocks, t.targets[m])
  }

  /** Jumps and dispatch targets name states or blocks. */
  ghost predicate Closed(w: I.IrWorld, p: WorldPlan)
  {
    && (forall b | 0 <= b < |p.blocks| :: DestKnown(w, p.blocks, p.blocks[b].term))
    && (forall k | 0 <= k < |p.tables| :: TargetsKnown(w, p.blocks, p.tables[k]))
  }

  /** The tables are numbered from `first` up. */
  ghost predicate Numbered(tables: seq<Table>, first: nat)
  {
    forall k | 0 <= k < |tables| :: tables[k].n == first + k && tables[k].rows != []
  }

  /** A plan for a world: every state implemented, the entry state first. */
  ghost predicate PlanOf(w: I.IrWorld, strip: bool, first: nat, p: WorldPlan)
  {
    && w.cards != [] && w.entry < |w.states|
    && (forall i | 0 <= i < |w.states| :: Implements(w, strip, i, p))
    && NamesApart(p.blocks) && BodiesPlain(p.blocks) && Closed(w, p) && Numbered(p.tables, first)
    && p.blocks != [] && p.blocks[0].name == w.states[w.entry].name
  }

  /** What the front end guarantees of a world beside its validation. */
  ghost predicate Generable(w: I.IrWorld)
  {
    && w.arity == |w.cards| > 0 && I.ValidWorld(w)
    && (forall i, j | 0 <= i < j < |w.states| :: w.states[i].name != w.states[j].name)
    && (forall k | 0 <= k < |w.cards| :: 0 < w.cards[k])
    && (forall i | 0 <= i < |w.states| :: B.NoExactConflict(I.Rows(w.states[i].rules)) && BranchShape(w.states[i]))
  }

  predicate BranchShape(st: I.IrState)
  {
    st.dispatch.Branch? && st.rules != [] && !I.IsStraight(st.rules) ==>
      |st.rules| == 2 && R.IsAllWild(st.rules[1].pattern) && !R.IsAllWild(st.rules[0].pattern)
  }

  lemma RuleBodyPlain(r: I.IrRule, strip: bool)
    ensures IsPlain(RuleBody(r, strip))
  {
  }

  // ----- building a plan -----

  /** New blocks: their names are apart and none but the first was in use. */
  ghost predicate Minted(blocks: seq<Block>, used: set<string>, used': set<string>)
  {
    && used <= used' && NamesApart(blocks)
    && forall k | 0 < k < |blocks| :: blocks[k].name in used' && blocks[k].name !in used
  }

  predicate RulesFit(w: I.IrWorld, rules: seq<I.IrRule>)
  {
    |w.cards| == w.arity && forall k | 0 <= k < |rules| :: I.RuleFits(w, rules[k])
  }

  /** A valid rule's destinations are states. */
  lemma RuleKnown(w: I.IrWorld, r: I.IrRule, blocks: seq<Block>)
    requires |w.cards| == w.arity && I.RuleFits(w, r)
    ensures DestKnown(w, blocks, TermOf(w, r))
    ensures r.direct ==> r.transition.Goto? && Known(w, blocks, StateName(w, r.transition.state))
  {
    hide I.CellsFit, I.WriteFits, I.BindingFits, IsBlockName;
  }

  method ZeroRow(w: I.IrWorld, st: I.IrState, n: nat) returns (tables: seq<Table>, head: Block)
    requires w.cards != []
    ensures Numbered(tables, n) && EmptyAt(w, st, WorldPlan(tables, [head]), 0)
    ensures Closed(w, WorldPlan(tables, [head]))
    ensures head.name == st.name && IsPlain(head.body)
  {
    var k := Narrowest(w.cards, |w.cards|);
    if w.cards[k] > ROW_LIMIT {
      return [], Block(st.name, true, [], RaiseRead, st.line);
    }
    var row: seq<R.Cell> := seq(|w.cards|, _ => R.Wild);
    row := row[k := R.Sym(w.cards[k])];
    assert row == EmptyRow(w);
    tables := [Table(n, [row], [st.name])];
    head := Head(st, n, DispatchOn(n), true);
    assert HeadAt(st, WorldPlan(tables, [head]), 0, n, DispatchOn(n), true);
  }

  /** One label for each of a state's rules. */
  method MintLabels(st: I.IrState, used: set<string>) returns (labels: seq<string>, used': set<string>)
    ensures |labels| == |st.rules| && used <= used'
    ensures forall k | 0 <= k < |labels| :: labels[k] in used' && labels[k] !in used
    ensures forall j, k | 0 <= j < k < |labels| :: labels[j] != labels[k]
  {
    labels, used' := [], used;
    for k := 0 to |st.rules|
      invariant |labels| == k && used <= used'
      invariant forall j | 0 <= j < k :: labels[j] in used' && labels[j] !in used
      invariant forall i, j | 0 <= i < j < k :: labels[i] != labels[j]
    {
      var name := Fresh(used', st.name + "__" + Decimal(k));
      labels := labels + [name];
      used' := used' + {name};
    }
  }

  /** The blocks of a state's rules, in source order; a direct rule needs none. */
  method RuleBlocks(w: I.IrWorld, st: I.IrState, strip: bool, labels: seq<string>) returns (blocks: seq<Block>)
    requires |labels| == |st.rules| && RulesFit(w, st.rules)
    requires forall j, k | 0 <= j < k < |labels| :: labels[j] != labels[k]
    ensures NamesApart(blocks) && BodiesPlain(blocks)
    ensures forall b, more | 0 <= b < |blocks| :: DestKnown(w, more, blocks[b].term)
    ensures forall b | 0 <= b < |blocks| :: blocks[b].name in labels
    ensures forall k | 0 <= k < |labels| && !st.rules[k].direct :: RuleBlock(w, st.rules[k], strip, labels[k], true) in blocks
  {
    hide RuleBody, TermOf, DestKnown, I.RuleFits;
    blocks := [];
    for k := 0 to |labels|
      invariant NamesApart(blocks) && BodiesPlain(blocks)
      invariant forall b | 0 <= b < |blocks| :: exists j :: 0 <= j < k && blocks[b].name == labels[j]
      invariant forall j | 0 <= j < k && !st.rules[j].direct :: RuleBlock(w, st.rules[j], strip, labels[j], true) in blocks
      invariant forall b, more | 0 <= b < |blocks| :: DestKnown(w, more, blocks[b].term)
    {
      if !st.rules[k].direct {
        RuleBodyPlain(st.rules[k], strip);
        forall more ensures DestKnown(w, more, TermOf(w, st.rules[k])) {
          RuleKnown(w, st.rules[k], more);
        }
        blocks := blocks + [RuleBlock(w, st.rules[k], strip, labels[k], true)];
      }
    }
  }

  /** A state's match and dispatch table with the blocks its targets name. */
  method Conditional(w: I.IrWorld, st: I.IrState, strip: bool, n: nat, used: set<string>)
    returns (t: Table, blocks: seq<Block>, used': set<string>)
    requires st.rules != [] && RulesFit(w, st.rules)
    ensures TargetsKnown(w, blocks, t) && forall b, more | 0 <= b < |blocks| :: DestKnown(w, more, blocks[b].term)
    ensures t.n == n && t.rows != [] && OrderedRows(st, t) && TargetsLead(w, st, strip, t, blocks)
    ensures used <= used' && NamesApart(blocks) && BodiesPlain(blocks)
    ensures forall k | 0 <= k < |blocks| :: blocks[k].name in used' && blocks[k].name !in used
  {
    hide RuleBody, TermOf, B.EmittedRowOrder, DestKnown, I.RuleFits, Known;
    var labels: seq<string>;
    labels, used' := MintLabels(st, used);
    var order := B.ComputeRowOrder(I.Rows(st.rules));
    OrderCovers(I.Rows(st.rules));
    var rows: seq<seq<R.Cell>>, targets: seq<string> := [], [];
    for m := 0 to |order|
      invariant |rows| == |targets| == m
      invariant forall j | 0 <= j < m :: rows[j] == st.rules[order[j]].pattern
      invariant forall j | 0 <= j < m :: targets[j] == TargetName(w, st.rules[order[j]], labels[order[j]])
    {
      var r := st.rules[order[m]];
      rows := rows + [r.pattern];
      targets := targets + [TargetName(w, r, labels[order[m]])];
    }
    t := Table(n, rows, targets);
    blocks := RuleBlocks(w, st, strip, labels);
    forall m | 0 <= m < |targets|
      ensures LeadsTo(w, st.rules[order[m]], strip, blocks, targets[m]) && Known(w, blocks, targets[m])
    {
      RuleKnown(w, st.rules[order[m]], blocks);
      LeadKnown(w, st.rules[order[m]], strip, blocks, targets[m]);
    }
  }

  lemma LeadKnown(w: I.IrWorld, r: I.IrRule, strip: bool, blocks: seq<Block>, name: string)
    requires LeadsTo(w, r, strip, blocks, name) && |w.cards| == w.arity && I.RuleFits(w, r)
    ensures Known(w, blocks, name)
  {
    hide RuleBody, TermOf, IsStateName, StateName, I.RuleFits;
    RuleKnown(w, r, blocks);
    if !r.direct {
      var b :| 0 <= b < |blocks| && blocks[b] == RuleBlock(w, r, strip, name, true);
    }
  }

  function TargetName(w: I.IrWorld, r: I.IrRule, own: string): string
  {
    if r.direct && r.transition.Goto? then StateName(w, r.transition.state) else own
  }

  /** The emitted order lists as many rows as there are rules, each one a rule. */
  lemma OrderCovers(rules: seq<R.Rule>)
    ensures |B.EmittedRowOrder(rules)| == |rules|
    ensures forall j | 0 <= j < |B.EmittedRowOrder(rules)| :: B.EmittedRowOrder(rules)[j] < |rules|
  {
    hide B.EmittedRowOrder;
    var order := B.EmittedRowOrder(rules);
    B.OrderIsPermutation(rules);
    forall j | 0 <= j < |order| ensures order[j] < |rules| {
      assert order[j] in multiset(order);
    }
    PermutationSize(multiset(order), |rules|);
  }

  lemma {:induction false} PermutationSize(m: multiset<nat>, n: nat)
    requires forall k: nat :: m[k] == if k < n then 1 else 0
    ensures |m| == n
  {
    if n == 0 {
      assert m == multiset{};
    } else {
      PermutationSize(m - multiset{n - 1}, n - 1);
      assert m == (m - multiset{n - 1}) + multiset{n - 1};
    }
  }

  /** A two-row state as head, catch-all and hit block. */
  method BranchState(w: I.IrWorld, st: I.IrState, strip: bool, n: nat, used: set<string>)
    returns (t: Table, blocks: seq<Block>, used': set<string>)
    requires |st.rules| == 2 && RulesFit(w, st.rules) && st.name in used
    ensures Closed(w, WorldPlan([t], blocks))
    ensures t.n == n && t.rows != [] && Minted(blocks, used, used') && BodiesPlain(blocks)
    ensures blocks != [] && blocks[0].name == st.name
    ensures exists hit :: BranchAt(w, st, strip, WorldPlan([t], blocks), 0, n, hit)
  {
    hide RuleBody, TermOf, I.RuleFits, Known;
    var selective, catchAll := st.rules[0], st.rules[1];
    RuleDirect(w, selective);
    used' := used;
    var hit;
    if selective.direct {
      hit := StateName(w, selective.transition.state);
    } else {
      hit := Fresh(used', st.name + "__m");
      used' := used' + {hit};
    }
    RuleBodyPlain(selective, strip);
    RuleBodyPlain(catchAll, strip);
    var fall := Fresh(used', st.name + "__c");
    used' := used' + {fall};
    t := Table(n, [selective.pattern], []);
    blocks := [Head(st, n, JumpIfMatch(hit), false), RuleBlock(w, catchAll, strip, fall, false)];
    if !selective.direct {
      blocks := blocks + [RuleBlock(w, selective, strip, hit, true)];
      assert blocks[2] == RuleBlock(w, selective, strip, hit, true);
    }
    assert HeadAt(st, WorldPlan([t], blocks), 0, n, JumpIfMatch(hit), false);
    assert BranchAt(w, st, strip, WorldPlan([t], blocks), 0, n, hit);
    RuleKnown(w, selective, blocks);
    RuleKnown(w, catchAll, blocks);
    LeadKnown(w, selective, strip, blocks, hit);
  }

  lemma RuleDirect(w: I.IrWorld, r: I.IrRule)
    requires |w.cards| == w.arity && I.RuleFits(w, r)
    ensures r.direct ==> r.transition.Goto?
  {
  }

  /** One state's tables and blocks, its head first. */
  method LowerState(w: I.IrWorld, i: nat, strip: bool, n: nat, used: set<string>)
    returns (p: WorldPlan, used': set<string>)
    requires w.cards != [] && i < |w.states| && w.states[i].name in used
    requires RulesFit(w, w.states[i].rules) && BranchShape(w.states[i])
    ensures Closed(w, p)
    ensures Numbered(p.tables, n) && Minted(p.blocks, used, used') && BodiesPlain(p.blocks)
    ensures p.blocks != [] && p.blocks[0].name == w.states[i].name
    ensures ImplementsAt(w, strip, i, p, 0)
  {
    hide RuleBody, TermOf, EmptyAt, B.EmittedRowOrder, R.IsAllWild, I.RuleFits, Known;
    var st := w.states[i];
    used' := used;
    if st.rules == [] {
      var tables, head := ZeroRow(w, st, n);
      p := WorldPlan(tables, [head]);
    } else if I.IsStraight(st.rules) {
      RuleBodyPlain(st.rules[0], strip);
      p := WorldPlan([], [RuleBlock(w, st.rules[0], strip, st.name, false)]);
      RuleKnown(w, st.rules[0], p.blocks);
    } else if st.dispatch.Branch? {
      var t, blocks;
      t, blocks, used' := BranchState(w, st, strip, n, used);
      p := WorldPlan([t], blocks);
    } else {
      var t, blocks;
      t, blocks, used' := Conditional(w, st, strip, n, used);
      var head := Head(st, n, DispatchOn(n), false);
      p := WorldPlan([t], [head] + blocks);
      assert forall b | 0 < b < |p.blocks| :: p.blocks[b] == blocks[b - 1];
      TargetsStay(w, st, strip, t, blocks, p.blocks);
      assert HeadAt(st, p, 0, n, DispatchOn(n), false);
      assert TableAt(w, st, strip, p, 0, t);
      forall m | 0 <= m < |t.targets| ensures Known(w, p.blocks, t.targets[m]) {
        KnownStays(w, blocks, p.blocks, t.targets[m], 1);
      }
    }
  }

  // ----- plans grow -----

  function Plus(p: WorldPlan, q: WorldPlan): WorldPlan
  {
    WorldPlan(p.tables + q.tables, p.blocks + q.blocks)
  }

  ghost predicate PartOf(p: WorldPlan, q: WorldPlan, shift: nat)
  {
    && (forall t | t in p.tables :: t in q.tables)
    && |p.blocks| + shift <= |q.blocks| && forall b | 0 <= b < |p.blocks| :: q.blocks[b + shift] == p.blocks[b]
  }

  lemma TargetsStay(w: I.IrWorld, st: I.IrState, strip: bool, t: Table, blocks: seq<Block>, more: seq<Block>)
    requires TargetsLead(w, st, strip, t, blocks) && forall b | b in blocks :: b in more
    ensures TargetsLead(w, st, strip, t, more)
  {
    hide B.EmittedRowOrder, RuleBlock;
  }

  /** What implements a state still does inside a larger plan. */
  lemma ImplementsStays(w: I.IrWorld, strip: bool, i: nat, p: WorldPlan, q: WorldPlan, b: nat, shift: nat)
    requires w.cards != [] && i < |w.states| && ImplementsAt(w, strip, i, p, b) && PartOf(p, q, shift)
    ensures ImplementsAt(w, strip, i, q, b + shift)
    ensures Implements(w, strip, i, q)
  {
    hide RuleBlock, B.EmittedRowOrder, EmptyRow, Head, OrderedRows, TargetsLead, I.IsStraight;
    var st := w.states[i];
    assert q.blocks[b + shift] == p.blocks[b];
    forall x | x in p.blocks ensures x in q.blocks {
      var k :| 0 <= k < |p.blocks| && p.blocks[k] == x;
      assert q.blocks[k + shift] == x;
    }
    if st.rules == [] {
      EmptyStays(w, st, p, q, b, shift);
    } else if I.IsStraight(st.rules) {
    } else if st.dispatch.Branch? && |st.rules| == 2 {
      var n, hit :| BranchAt(w, st, strip, p, b, n, hit);
      assert q.blocks[b + 1 + shift] == p.blocks[b + 1];
      assert BranchAt(w, st, strip, q, b + shift, n, hit);
    } else {
      var t :| TableAt(w, st, strip, p, b, t);
      TargetsStay(w, st, strip, t, p.blocks, q.blocks);
      assert TableAt(w, st, strip, q, b + shift, t);
    }
  }

  lemma EmptyStays(w: I.IrWorld, st: I.IrState, p: WorldPlan, q: WorldPlan, b: nat, shift: nat)
    requires w.cards != [] && b < |p.blocks| && PartOf(p, q, shift) && EmptyAt(w, st, p, b)
    ensures EmptyAt(w, st, q, b + shift)
  {
    hide EmptyRow, Head;
    assert q.blocks[b + shift] == p.blocks[b];
    if w.cards[Narrowest(w.cards, |w.cards|)] <= ROW_LIMIT {
      var n :| HeadAt(st, p, b, n, DispatchOn(n), true) && Table(n, [EmptyRow(w)], [st.name]) in p.tables;
      assert HeadAt(st, q, b + shift, n, DispatchOn(n), true);
    }
  }

  lemma KnownStays(w: I.IrWorld, blocks: seq<Block>, more: seq<Block>, name: string, shift: nat)
    requires Known(w, blocks, name) && |blocks| + shift <= |more|
    requires forall b | 0 <= b < |blocks| :: more[b + shift] == blocks[b]
    ensures Known(w, more, name)
  {
    hide IsStateName;
    if IsBlockName(blocks, name) {
      var b :| 0 <= b < |blocks| && blocks[b].name == name;
      assert more[b + shift].name == name;
    }
  }

  lemma DestStays(w: I.IrWorld, blocks: seq<Block>, more: seq<Block>, term: Term, shift: nat)
    requires DestKnown(w, blocks, term) && |blocks| + shift <= |more|
    requires forall b | 0 <= b < |blocks| :: more[b + shift] == blocks[b]
    ensures DestKnown(w, more, term)
  {
    hide Known;
    match term
    case GoTo(dest) => KnownStays(w, blocks, more, dest, shift);
    case CallThen(_, _, resume) =>
      if resume.ResumeAt? {
        KnownStays(w, blocks, more, resume.dest, shift);
      }
    case JumpIfMatch(dest) => KnownStays(w, blocks, more, dest, shift);
    case _ =>
  }

  lemma PartClosed(w: I.IrWorld, p: WorldPlan, q: WorldPlan, shift: nat)
    requires Closed(w, p) && PartOf(p, q, shift)
    ensures forall b | 0 <= b < |p.blocks| :: DestKnown(w, q.blocks, p.blocks[b].term)
    ensures forall k | 0 <= k < |p.tables| :: TargetsKnown(w, q.blocks, p.tables[k])
  {
    hide DestKnown, Known;
    forall b | 0 <= b < |p.blocks| ensures DestKnown(w, q.blocks, p.blocks[b].term) {
      DestStays(w, p.blocks, q.blocks, p.blocks[b].term, shift);
    }
    forall k, m | 0 <= k < |p.tables| && 0 <= m < |p.tables[k].targets| ensures Known(w, q.blocks, p.tables[k].targets[m]) {
      KnownStays(w, p.blocks, q.blocks, p.tables[k].targets[m], shift);
    }
  }

  lemma PlusClosed(w: I.IrWorld, p: WorldPlan, q: WorldPlan)
    requires Closed(w, p) && Closed(w, q)
    ensures Closed(w, Plus(p, q))
  {
    hide DestKnown, TargetsKnown, PartOf;
    PlusParts(p, q);
    PartClosed(w, p, Plus(p, q), 0);
    PartClosed(w, q, Plus(p, q), |p.blocks|);
  }

  lemma PlusParts(p: WorldPlan, q: WorldPlan)
    ensures PartOf(p, Plus(p, q), 0)
    ensures PartOf(q, Plus(p, q), |p.blocks|)
  {
    var r := Plus(p, q);
    assert forall b | 0 <= b < |q.blocks| :: r.blocks[b + |p.blocks|] == q.blocks[b];
  }

  /** Adds state i to a plan that does not hold it yet. */
  method AddState(w: I.IrWorld, i: nat, strip: bool, first: nat, p: WorldPlan, used: set<string>)
    returns (p': WorldPlan, used': set<string>)
    requires Generable(w) && i < |w.states|
    requires forall j | 0 <= j < |w.states| :: w.states[j].name in used
    requires NamesApart(p.blocks) && BodiesPlain(p.blocks) && Closed(w, p) && Numbered(p.tables, first)
    requires forall b | 0 <= b < |p.blocks| :: p.blocks[b].name in used && p.blocks[b].name != w.states[i].name
    ensures used <= used' && NamesApart(p'.blocks) && BodiesPlain(p'.blocks) && Closed(w, p') && Numbered(p'.tables, first)
    ensures forall j | 0 <= j < |w.states| && (j == i || Implements(w, strip, j, p)) :: Implements(w, strip, j, p')
    ensures forall b | 0 <= b < |p'.blocks| :: p'.blocks[b].name in used'
    ensures forall b, j | 0 <= b < |p'.blocks| && 0 <= j < |w.states| && j != i && p'.blocks[b].name == w.states[j].name ::
              exists c :: 0 <= c < |p.blocks| && p.blocks[c].name == w.states[j].name
    ensures p'.blocks != [] && p'.blocks[0].name == (if p.blocks == [] then w.states[i].name else p.blocks[0].name)
  {
    hide ImplementsAt, B.NoExactConflict, Closed, I.RuleFits;
    StateFacts(w, i);
    var q;
    q, used' := LowerState(w, i, strip, first + |p.tables|, used);
    p' := Plus(p, q);
    PlusParts(p, q);
    PlusClosed(w, p, q);
    ImplementsStays(w, strip, i, q, p', 0, |p.blocks|);
    forall j | 0 <= j < |w.states| && Implements(w, strip, j, p) ensures Implements(w, strip, j, p') {
      var b :| 0 <= b && ImplementsAt(w, strip, j, p, b);
      ImplementsStays(w, strip, j, p, p', b, 0);
    }
    AppendApart(p.blocks, q.blocks, used, used');
  }

  lemma StateFacts(w: I.IrWorld, i: nat)
    requires Generable(w) && i < |w.states|
    ensures RulesFit(w, w.states[i].rules) && BranchShape(w.states[i])
  {
    hide B.NoExactConflict, I.RuleFits;
  }

  lemma AppendApart(a: seq<Block>, b: seq<Block>, used: set<string>, used': set<string>)
    requires NamesApart(a) && Minted(b, used, used') && b != []
    requires forall k | 0 <= k < |a| :: a[k].name in used && a[k].name != b[0].name
    ensures NamesApart(a + b)
  {
  }

  /** A world's tables and blocks: the entry state first, the others by id. */
  method BuildWorldPlan(w: I.IrWorld, strip: bool, first: nat) returns (p: WorldPlan)
    requires Generable(w)
    ensures PlanOf(w, strip, first, p)
  {
    hide Implements, B.NoExactConflict, I.ValidWorld, DestKnown, TargetsKnown;
    EntryExists(w);
    var used := set s | s in w.states :: s.name;
    assert forall j | 0 <= j < |w.states| :: w.states[j] in w.states;
    p := WorldPlan([], []);
    p, used := AddState(w, w.entry, strip, first, p, used);
    for i := 0 to |w.states|
      invariant forall j | 0 <= j < |w.states| :: w.states[j].name in used
      invariant NamesApart(p.blocks) && BodiesPlain(p.blocks) && Closed(w, p) && Numbered(p.tables, first)
      invariant forall j | 0 <= j < |w.states| && (j < i || j == w.entry) :: Implements(w, strip, j, p)
      invariant forall b | 0 <= b < |p.blocks| :: p.blocks[b].name in used
      invariant forall b, j | 0 <= b < |p.blocks| && i <= j < |w.states| && j != w.entry :: p.blocks[b].name != w.states[j].name
      invariant p.blocks != [] && p.blocks[0].name == w.states[w.entry].name
    {
      if i != w.entry {
        p, used := AddState(w, i, strip, first, p, used);
      }
    }
  }

  lemma EntryExists(w: I.IrWorld)
    requires Generable(w)
    ensures w.entry < |w.states|
  {
    hide B.NoExactConflict;
  }

  // ----- layout -----

  predicate IsNext(blocks: seq<Block>, i: nat, dest: string)
  {
    i + 1 < |blocks| && blocks[i + 1].name == dest
  }

  /** Control passes to the block that physically follows without a jump. */
  function JumpLines(blocks: seq<Block>, i: nat, dest: string): seq<Line>
  {
    if IsNext(blocks, i, dest) then [] else [Jmp(dest)]
  }

  function TermLines(blocks: seq<Block>, i: nat): seq<Line>
    requires i < |blocks|
  {
    match blocks[i].term
    case DispatchOn(n) => [Djmp(n)]
    case GoTo(dest) => JumpLines(blocks, i, dest)
    case CallThen(target, binding, resume) =>
      [Call(target, binding)] + ResumeLines(blocks, i, resume)
    case Return => [Ret]
    case Stop => [Stp]
    case Halt => [Hlt]
    case TailCall(target) => [JmpRoutine(target)]
    case JumpIfMatch(dest) => [Jm(dest)]
    case RaiseRead => [Trap(0)]
    case RaiseWrite => [Trap(1)]
  }

  function ResumeLines(blocks: seq<Block>, i: nat, resume: Resume): seq<Line>
  {
    match resume
    case ResumeAt(dest) => JumpLines(blocks, i, dest)
    case ResumeRet => [Ret]
    case ResumeStop => [Stp]
    case ResumeHalt => [Hlt]
  }

  /** The labels that the jumps after the i-th block name. */
  function NamedBy(blocks: seq<Block>, i: nat): set<string>
    requires i < |blocks|
  {
    match blocks[i].term
    case GoTo(dest) => if IsNext(blocks, i, dest) then {} else {dest}
    case CallThen(_, _, resume) =>
      if resume.ResumeAt? && !IsNext(blocks, i, resume.dest) then {resume.dest} else {}
    case JumpIfMatch(dest) => {dest}
    case _ => {}
  }

  function Named(blocks: seq<Block>, n: nat): set<string>
    requires n <= |blocks|
  {
    if n == 0 then {} else Named(blocks, n - 1) + NamedBy(blocks, n - 1)
  }

  function Forced(blocks: seq<Block>, n: nat): set<string>
    requires n <= |blocks|
  {
    if n == 0 then {} else Forced(blocks, n - 1) + (if blocks[n - 1].force then {blocks[n - 1].name} else {})
  }

  function Elements(names: seq<string>, n: nat): set<string>
    requires n <= |names|
  {
    if n == 0 then {} else Elements(names, n - 1) + {names[n - 1]}
  }

  function TargetNames(tables: seq<Table>, n: nat): set<string>
    requires n <= |tables|
  {
    if n == 0 then {} else TargetNames(tables, n - 1) + Elements(tables[n - 1].targets, |tables[n - 1].targets|)
  }

  /** Which labels print. */
  function Printed(p: WorldPlan): set<string>
  {
    Forced(p.blocks, |p.blocks|) + TargetNames(p.tables, |p.tables|) + Named(p.blocks, |p.blocks|)
  }

  function LabelLines(p: WorldPlan, i: nat): seq<Line>
    requires i < |p.blocks|
  {
    if p.blocks[i].name in Printed(p) then [Label(p.blocks[i].name)] else []
  }

  function BodyLines(body: seq<Instr>): seq<Generated<Line>>
  {
    seq(|body|, (k: nat) requires k < |body| => Generated(body[k].text, body[k].line))
  }

  function BlockLines(p: WorldPlan, i: nat): seq<Generated<Line>>
    requires i < |p.blocks|
  {
    From(LabelLines(p, i), 0) + BodyLines(p.blocks[i].body) + From(TermLines(p.blocks, i), p.blocks[i].termLine)
  }

  function CodeLines(p: WorldPlan, n: nat): seq<Generated<Line>>
    requires n <= |p.blocks|
  {
    if n == 0 then [] else CodeLines(p, n - 1) + BlockLines(p, n - 1)
  }

  function FuncLines(w: I.IrWorld, p: WorldPlan): seq<Generated<Line>>
  {
    [Generated(Routine(w.name, w.arity, w.cards), 0), Generated(Func(w.name, w.local), w.line)]
    + CodeLines(p, |p.blocks|)
  }

  function TableLines(t: Table): seq<Line>
  {
    seq(|t.rows|, (k: nat) requires k < |t.rows| => Row(if k == 0 then Some(t.n) else None, t.rows[k]))
    + (if t.targets != [] then [Targets(t.n, t.targets)] else [])
  }

  function TablesLines(tables: seq<Table>, n: nat): seq<Line>
    requires n <= |tables|
  {
    if n == 0 then [] else TablesLines(tables, n - 1) + TableLines(tables[n - 1])
  }

  function AllTables(plans: seq<WorldPlan>, n: nat): seq<Table>
    requires n <= |plans|
  {
    if n == 0 then [] else AllTables(plans, n - 1) + plans[n - 1].tables
  }

  function TableSection(tables: seq<Table>): seq<Line>
  {
    if tables == [] then [] else [SectionTables] + TablesLines(tables, |tables|) + [SectionCode]
  }

  function CodeSection(ws: seq<I.IrWorld>, plans: seq<WorldPlan>, n: nat): seq<Generated<Line>>
    requires n <= |ws| == |plans|
  {
    if n == 0 then [] else CodeSection(ws, plans, n - 1) + FuncLines(ws[n - 1], plans[n - 1])
  }

  function ProgramLines(ws: seq<I.IrWorld>, plans: seq<WorldPlan>): seq<Generated<Line>>
    requires |ws| == |plans|
  {
    From(TableSection(AllTables(plans, |plans|)), 0) + CodeSection(ws, plans, |ws|)
  }

  // ----- emission -----

  method CollectPrinted(p: WorldPlan) returns (printed: set<string>)
    ensures printed == Printed(p)
  {
    printed := {};
    for i := 0 to |p.blocks|
      invariant printed == Forced(p.blocks, i)
    {
      if p.blocks[i].force {
        printed := printed + {p.blocks[i].name};
      }
    }
    ghost var forced := printed;
    for i := 0 to |p.tables|
      invariant printed == forced + TargetNames(p.tables, i)
    {
      ghost var before := printed;
      for k := 0 to |p.tables[i].targets|
        invariant printed == before + Elements(p.tables[i].targets, k)
      {
        printed := printed + {p.tables[i].targets[k]};
      }
    }
    ghost var fixed := printed;
    for i := 0 to |p.blocks|
      invariant printed == fixed + Named(p.blocks, i)
    {
      match p.blocks[i].term
      case GoTo(dest) =>
        if !IsNext(p.blocks, i, dest) { printed := printed + {dest}; }
      case CallThen(_, _, resume) =>
        if resume.ResumeAt? && !IsNext(p.blocks, i, resume.dest) { printed := printed + {resume.dest}; }
      case JumpIfMatch(dest) =>
        printed := printed + {dest};
      case _ =>
    }
  }

  method EmitTables(e: Emitter<Line>, tables: seq<Table>)
    requires e.Valid()
    modifies e
    ensures e.Valid() && e.emitted == old(e.emitted) + From(TablesLines(tables, |tables|), 0)
  {
    hide LineMap, TableLines;
    for i := 0 to |tables|
      invariant e.Valid() && e.emitted == old(e.emitted) + From(TablesLines(tables, i), 0)
    {
      e.PushAll(TableLines(tables[i]), 0);
      assert From(TablesLines(tables, i + 1), 0) == From(TablesLines(tables, i), 0) + From(TableLines(tables[i]), 0);
    }
  }

  method EmitBlock(e: Emitter<Line>, p: WorldPlan, printed: set<string>, i: nat)
    requires i < |p.blocks| && printed == Printed(p) && e.Valid()
    modifies e
    ensures e.Valid() && e.emitted == old(e.emitted) + BlockLines(p, i)
  {
    hide LineMap, TermLines, Printed;
    var b := p.blocks[i];
    e.PushAll(if b.name in printed then [Label(b.name)] else [], 0);
    ghost var head := e.emitted;
    for k := 0 to |b.body|
      invariant e.Valid() && e.emitted == head + BodyLines(b.body)[..k]
    {
      e.Push(b.body[k].text, b.body[k].line);
    }
    assert BodyLines(b.body)[..|b.body|] == BodyLines(b.body);
    e.PushAll(TermLines(p.blocks, i), b.termLine);
  }

  method EmitFunc(e: Emitter<Line>, w: I.IrWorld, p: WorldPlan)
    requires e.Valid()
    modifies e
    ensures e.Valid() && e.emitted == old(e.emitted) + FuncLines(w, p)
  {
    hide LineMap, BlockLines, Printed;
    var printed := CollectPrinted(p);
    e.Push(Routine(w.name, w.arity, w.cards), 0);
    e.Push(Func(w.name, w.local), w.line);
    ghost var head := e.emitted;
    for i := 0 to |p.blocks|
      invariant e.Valid() && e.emitted == head + CodeLines(p, i)
    {
      EmitBlock(e, p, printed, i);
    }
  }

  /** Every world planned, its tables numbered on from the worlds before it. */
  ghost predicate Planned(ws: seq<I.IrWorld>, strip: bool, plans: seq<WorldPlan>)
  {
    |plans| == |ws| && forall k | 0 <= k < |ws| :: PlanOf(ws[k], strip, |AllTables(plans, k)|, plans[k])
  }

  lemma {:induction false} AllTablesPrefix(plans: seq<WorldPlan>, more: seq<WorldPlan>, n: nat)
    requires n <= |plans|
    ensures AllTables(plans + more, n) == AllTables(plans, n)
  {
    if n > 0 {
      AllTablesPrefix(plans, more, n - 1);
    }
  }

  method PlanWorlds(ws: seq<I.IrWorld>, strip: bool) returns (plans: seq<WorldPlan>)
    requires forall k | 0 <= k < |ws| :: Generable(ws[k])
    ensures Planned(ws, strip, plans)
  {
    hide Generable, PlanOf;
    plans := [];
    var idx := 0;
    for i := 0 to |ws|
      invariant |plans| == i && idx == |AllTables(plans, i)|
      invariant forall k | 0 <= k < i :: PlanOf(ws[k], strip, |AllTables(plans, k)|, plans[k])
    {
      var p := BuildWorldPlan(ws[i], strip, idx);
      forall k | 0 <= k <= i ensures AllTables(plans + [p], k) == AllTables(plans, k) {
        AllTablesPrefix(plans, [p], k);
      }
      plans := plans + [p];
      idx := idx + |p.tables|;
    }
  }

  lemma SectionEmitted(tables: seq<Table>)
    ensures From(TableSection(tables), 0)
         == if tables == [] then []
            else From([SectionTables], 0) + From(TablesLines(tables, |tables|), 0) + From([SectionCode], 0)
  {
    hide TablesLines, From;
    var all := TablesLines(tables, |tables|);
    FromAppend<Line>([SectionTables], all, 0);
    FromAppend([SectionTables] + all, [SectionCode], 0);
  }

  /** The tables section; a program without tables gets no section lines. */
  method EmitTableSection(e: Emitter<Line>, tables: seq<Table>)
    requires e.Valid() && e.emitted == []
    modifies e
    ensures e.Valid() && e.emitted == From(TableSection(tables), 0)
  {
    hide LineMap, TablesLines, From, TableSection;
    SectionEmitted(tables);
    if tables != [] {
      e.PushAll([SectionTables], 0);
      EmitTables(e, tables);
      e.PushAll([SectionCode], 0);
    }
  }

  method CollectTables(plans: seq<WorldPlan>) returns (tables: seq<Table>)
    ensures tables == AllTables(plans, |plans|)
  {
    tables := [];
    for i := 0 to |plans|
      invariant tables == AllTables(plans, i)
    {
      tables := tables + plans[i].tables;
    }
  }

  method EmitProgram(ws: seq<I.IrWorld>, strip: bool)
    returns (lines: seq<Line>, lineMap: seq<(nat, nat)>, plans: seq<WorldPlan>)
    requires forall k | 0 <= k < |ws| :: Generable(ws[k])
    ensures Planned(ws, strip, plans)
    ensures lines == Texts(ProgramLines(ws, plans))
    ensures lineMap == LineMap(ProgramLines(ws, plans), 0, |ProgramLines(ws, plans)|)
  {
    hide Generable, PlanOf, FuncLines, LineMap, From, Texts, TableSection, AllTables;
    plans := PlanWorlds(ws, strip);
    var tables := CollectTables(plans);
    var e := new Emitter<Line>();
    EmitTableSection(e, tables);
    ghost var head := e.emitted;
    for i := 0 to |ws|
      invariant e.Valid() && e.emitted == head + CodeSection(ws, plans, i)
    {
      EmitFunc(e, ws[i], plans[i]);
    }
    lines, lineMap := e.lines, e.lineMap;
  }
}
