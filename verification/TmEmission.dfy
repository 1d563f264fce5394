/** The emitted TM-1 listing runs as the state graphs do: tables, branches, straight-line states,
    threaded targets and elided jumps all select and run the rule that band order selects. */
module TmEmission {
  import opened Options
  import opened Simulation
  import opened TmMachine
  import opened LineEmitter
  import R = TmRules
  import B = TmBands
  import I = TmIr
  import L = TmListing
  import opened TmCodegen

  /** A world, its plan, and the tables and callees its code runs with. */
  datatype Job = Job(
    world: I.IrWorld, strip: bool, first: nat, plan: WorldPlan, tables: seq<L.Table>, callee: I.Callee)

  /** Called routines keep every band inside its alphabet. */
  ghost predicate CalleeKeeps(callee: I.Callee, cards: seq<nat>)
  {
    forall target, binding, d | Within(d, cards) && callee(target, binding, d).Comes? ::
      Within(callee(target, binding, d).data, cards)
  }

  ghost predicate Serves(tables: seq<L.Table>, plan: WorldPlan)
  {
    forall t | t in plan.tables :: L.FindTable(tables, 0, t.n) == Some(t)
  }

  ghost predicate Ready(j: Job)
  {
    && Generable(j.world) && PlanOf(j.world, j.strip, j.first, j.plan)
    && Serves(j.tables, j.plan) && CalleeKeeps(j.callee, j.world.cards)
  }

  // ----- where things are in the code -----

  function Code(p: WorldPlan): seq<L.Line>
  {
    Texts(CodeLines(p, |p.blocks|))
  }

  function StartPos(p: WorldPlan, b: nat): nat
    requires b <= |p.blocks|
  {
    |CodeLines(p, b)|
  }

  function BodyPos(p: WorldPlan, b: nat): nat
    requires b < |p.blocks|
  {
    StartPos(p, b) + |LabelLines(p, b)|
  }

  function TermPos(p: WorldPlan, b: nat): nat
    requires b < |p.blocks|
  {
    BodyPos(p, b) + |p.blocks[b].body|
  }

  predicate Holds(p: WorldPlan, pc: nat, line: L.Line)
  {
    pc < |Code(p)| && Code(p)[pc] == line
  }

  lemma {:induction false} CodeAt(p: WorldPlan, b: nat, n: nat, q: nat)
    requires b < n <= |p.blocks| && q < |BlockLines(p, b)|
    ensures StartPos(p, b) + q < |CodeLines(p, n)|
    ensures CodeLines(p, n)[StartPos(p, b) + q] == BlockLines(p, b)[q]
  {
    hide BlockLines;
    if b < n - 1 {
      CodeAt(p, b, n - 1, q);
    }
  }

  lemma BlockSplit(p: WorldPlan, b: nat)
    requires b < |p.blocks|
    ensures |BlockLines(p, b)| == |LabelLines(p, b)| + |p.blocks[b].body| + |TermLines(p.blocks, b)|
    ensures forall q | 0 <= q < |LabelLines(p, b)| :: BlockLines(p, b)[q].text == LabelLines(p, b)[q]
    ensures forall k | 0 <= k < |p.blocks[b].body| ::
              BlockLines(p, b)[|LabelLines(p, b)| + k].text == p.blocks[b].body[k].text
    ensures forall q | 0 <= q < |TermLines(p.blocks, b)| ::
              BlockLines(p, b)[|LabelLines(p, b)| + |p.blocks[b].body| + q].text == TermLines(p.blocks, b)[q]
  {
    hide LabelLines, TermLines;
  }

  lemma LabelAt(p: WorldPlan, b: nat)
    requires b < |p.blocks| && LabelLines(p, b) != []
    ensures Holds(p, StartPos(p, b), L.Label(p.blocks[b].name))
  {
    BlockSplit(p, b);
    CodeAt(p, b, |p.blocks|, 0);
    hide CodeLines, BlockLines, TermLines, Printed;
  }

  lemma InstrAt(p: WorldPlan, b: nat, k: nat)
    requires b < |p.blocks| && k < |p.blocks[b].body|
    ensures Holds(p, BodyPos(p, b) + k, p.blocks[b].body[k].text)
  {
    hide CodeLines, BlockLines, TermLines, LabelLines;
    BlockSplit(p, b);
    CodeAt(p, b, |p.blocks|, |LabelLines(p, b)| + k);
  }

  lemma TermAt(p: WorldPlan, b: nat, q: nat)
    requires b < |p.blocks| && q < |TermLines(p.blocks, b)|
    ensures Holds(p, TermPos(p, b) + q, TermLines(p.blocks, b)[q])
  {
    hide CodeLines, BlockLines, TermLines, LabelLines;
    BlockSplit(p, b);
    CodeAt(p, b, |p.blocks|, |LabelLines(p, b)| + |p.blocks[b].body| + q);
  }

  lemma NextStart(p: WorldPlan, b: nat)
    requires b < |p.blocks|
    ensures StartPos(p, b + 1) == TermPos(p, b) + |TermLines(p.blocks, b)|
  {
    hide BlockLines, TermLines, LabelLines;
    BlockSplit(p, b);
  }

  // ----- label addresses -----

  lemma ForeignLabel(p: WorldPlan, a: nat, b: nat, q: nat)
    requires NamesApart(p.blocks) && BodiesPlain(p.blocks)
    requires a < b < |p.blocks| && q < |BlockLines(p, a)|
    ensures BlockLines(p, a)[q].text != L.Label(p.blocks[b].name)
  {
    BlockSplit(p, a);
    TermsPlain(p.blocks, a);
    hide BlockLines, TermLines, Printed;
    var n := |LabelLines(p, a)|;
    if q >= n {
      if q < n + |p.blocks[a].body| {
        assert IsPlain(p.blocks[a].body);
        assert BlockLines(p, a)[n + (q - n)].text == p.blocks[a].body[q - n].text;
      } else {
        var m := q - n - |p.blocks[a].body|;
        assert BlockLines(p, a)[n + |p.blocks[a].body| + m].text == TermLines(p.blocks, a)[m];
      }
    }
  }

  lemma TermsPlain(blocks: seq<Block>, b: nat)
    requires b < |blocks|
    ensures forall q | 0 <= q < |TermLines(blocks, b)| :: !TermLines(blocks, b)[q].Label? && !TermLines(blocks, b)[q].Func?
                                                          && !TermLines(blocks, b)[q].Routine?
  {
  }

  lemma {:induction false} NoEarlierLabel(p: WorldPlan, n: nat, b: nat, pc: nat)
    requires NamesApart(p.blocks) && BodiesPlain(p.blocks)
    requires n <= b < |p.blocks| && pc < StartPos(p, n)
    ensures CodeLines(p, n)[pc].text != L.Label(p.blocks[b].name)
  {
    hide BlockLines;
    if pc < StartPos(p, n - 1) {
      NoEarlierLabel(p, n - 1, b, pc);
    } else {
      ForeignLabel(p, n - 1, b, pc - StartPos(p, n - 1));
    }
  }

  lemma {:induction false} CodePrefix(p: WorldPlan, b: nat, n: nat, pc: nat)
    requires b <= n <= |p.blocks| && pc < StartPos(p, b)
    ensures pc < |CodeLines(p, n)| && CodeLines(p, n)[pc] == CodeLines(p, b)[pc]
  {
    hide BlockLines;
    if b < n {
      CodePrefix(p, b, n - 1, pc);
    }
  }

  lemma {:induction false} FirstLabel(code: seq<L.Line>, from: nat, k: nat, name: string)
    requires from <= k < |code| && code[k] == L.Label(name)
    requires forall q | from <= q < k :: code[q] != L.Label(name)
    ensures L.FindLabel(code, from, name) == Some(k)
    decreases k - from
  {
    if from < k {
      FirstLabel(code, from + 1, k, name);
    }
  }

  /** A printed label is the address of the one block that has its name. */
  lemma LabelAddress(p: WorldPlan, b: nat)
    requires NamesApart(p.blocks) && BodiesPlain(p.blocks)
    requires b < |p.blocks| && p.blocks[b].name in Printed(p)
    ensures L.FindLabel(Code(p), 0, p.blocks[b].name) == Some(StartPos(p, b))
  {
    LabelAt(p, b);
    forall q | 0 <= q < StartPos(p, b) ensures Code(p)[q] != L.Label(p.blocks[b].name) {
      NoEarlierLabel(p, b, b, q);
      CodePrefix(p, b, |p.blocks|, q);
    }
    hide Code, CodeLines, Printed, NamesApart, BodiesPlain;
    FirstLabel(Code(p), 0, StartPos(p, b), p.blocks[b].name);
  }

  // ----- states and blocks -----

  function FindBlock(blocks: seq<Block>, k: nat, name: string): (r: Option<nat>)
    requires k <= |blocks|
    ensures r.Some? ==> k <= r.value < |blocks| && blocks[r.value].name == name
    decreases |blocks| - k
  {
    if k == |blocks| then None
    else if blocks[k].name == name then Some(k)
    else FindBlock(blocks, k + 1, name)
  }

  lemma {:induction false} BlockFound(blocks: seq<Block>, k: nat, b: nat)
    requires NamesApart(blocks) && k <= b < |blocks|
    ensures FindBlock(blocks, k, blocks[b].name) == Some(b)
    decreases b - k
  {
    if k < b {
      BlockFound(blocks, k + 1, b);
    }
  }

  /** The block where state i starts. */
  ghost function BlockOf(w: I.IrWorld, p: WorldPlan, i: nat): nat
  {
    match FindBlock(p.blocks, 0, StateName(w, i))
    case None => 0
    case Some(b) => b
  }

  lemma StateBlock(j: Job, i: nat)
    requires Ready(j) && i < |j.world.states|
    ensures var b := BlockOf(j.world, j.plan, i);
            && ImplementsAt(j.world, j.strip, i, j.plan, b)
            && j.plan.blocks[b].name == StateName(j.world, i)
  {
    assert Implements(j.world, j.strip, i, j.plan);
    var b :| 0 <= b && ImplementsAt(j.world, j.strip, i, j.plan, b);
    ImplementsNamed(j.world, j.strip, i, j.plan, b);
    hide ImplementsAt, Generable, Serves, CalleeKeeps;
    BlockFound(j.plan.blocks, 0, b);
  }

  lemma ImplementsNamed(w: I.IrWorld, strip: bool, i: nat, p: WorldPlan, b: nat)
    requires w.cards != [] && i < |w.states| && ImplementsAt(w, strip, i, p, b)
    ensures p.blocks[b].name == StateName(w, i)
  {
    hide EmptyRow, OrderedRows, TargetsLead, LeadsTo, RuleBody, TermOf, I.IsStraight;
  }

  ghost predicate Related(j: Job, s: I.State, u: L.State)
  {
    && s.at < |j.world.states|
    && (var b := BlockOf(j.world, j.plan, s.at); b < |j.plan.blocks| && u.pc == StartPos(j.plan, b))
    && s.data == u.data && Within(s.data, j.world.cards)
  }

  ghost predicate Agree(j: Job, a: Step<I.State, Ending>, b: Step<L.State, Ending>)
  {
    match (a, b)
    case (Done(o), Done(o')) => o == o'
    case (Next(s), Next(u)) => Related(j, s, u)
    case _ => false
  }

  ghost function Rank(j: Job, s: I.State): (nat, nat)
  {
    var b := BlockOf(j.world, j.plan, s.at);
    (if b <= |j.plan.blocks| then |j.plan.blocks| - b else 0, 0)
  }

  ghost function Stepper(j: Job): L.State -> Step<L.State, Ending>
  {
    L.ListingStepper(j.tables, Code(j.plan), j.callee)
  }

  lemma LineStep(j: Job, u: L.State, line: L.Line)
    requires Holds(j.plan, u.pc, line)
    ensures Stepper(j)(u) == L.Execute(j.tables, Code(j.plan), j.callee, u, line)
  {
    hide Code, L.Execute;
  }

  /** Control that arrives at a block passes its label. */
  lemma PassLabel(j: Job, u: L.State, b: nat)
    requires b < |j.plan.blocks| && u.pc == StartPos(j.plan, b)
    ensures Run(Stepper(j), u, |LabelLines(j.plan, b)|) == Next(u.(pc := BodyPos(j.plan, b)))
  {
    hide Stepper, Holds, StartPos, Printed;
    if LabelLines(j.plan, b) != [] {
      LabelAt(j.plan, b);
      LineStep(j, u, L.Label(j.plan.blocks[b].name));
      RunOnce(Stepper(j), u);
    }
  }

  /** A jump to a printed state label leads to that state. */
  lemma JumpMatched(j: Job, u: L.State, i: nat)
    requires Ready(j) && i < |j.world.states| && Within(u.data, j.world.cards)
    requires StateName(j.world, i) in Printed(j.plan)
    ensures Agree(j, Next(I.State(i, u.data)), L.JumpTo(Code(j.plan), u, StateName(j.world, i)))
  {
    StateBlock(j, i);
    var b := BlockOf(j.world, j.plan, i);
    PlanFacts(j);
    hide Ready, Code, Printed, StartPos, ImplementsAt, BlockOf, NamesApart, BodiesPlain, StateName;
    BlockInside(j.world, j.strip, i, j.plan, b);
    LabelAddress(j.plan, b);
  }

  lemma BlockInside(w: I.IrWorld, strip: bool, i: nat, p: WorldPlan, b: nat)
    requires w.cards != [] && i < |w.states| && ImplementsAt(w, strip, i, p, b)
    ensures b < |p.blocks|
  {
  }

  lemma PlanFacts(j: Job)
    requires Ready(j)
    ensures NamesApart(j.plan.blocks) && BodiesPlain(j.plan.blocks) && Serves(j.tables, j.plan)
    ensures j.world.cards != [] && j.world.arity == |j.world.cards| && CalleeKeeps(j.callee, j.world.cards)
    ensures j.world.entry < |j.world.states| && j.plan.blocks != []
    ensures j.plan.blocks[0].name == StateName(j.world, j.world.entry)
  {
  }

  // ----- one rule -----

  /** Missing vectors leave every tape alone, as the written-out ones do. */
  lemma SameAction(r: I.IrRule, d: Data)
    requires |r.pattern| == |d.tapes|
    ensures WriteMove(d, Vector(r.write, |r.pattern|, R.Keep), Vector(r.moves, |r.pattern|, R.Stay))
         == WriteMove(d, if r.write.Some? then r.write.value else [], if r.moves.Some? then r.moves.value else [])
  {
    hide Act;
    var a := WriteMove(d, Vector(r.write, |r.pattern|, R.Keep), Vector(r.moves, |r.pattern|, R.Stay));
    var b := WriteMove(d, if r.write.Some? then r.write.value else [], if r.moves.Some? then r.moves.value else []);
    assert forall k | 0 <= k < |d.tapes| :: a.tapes[k] == b.tapes[k];
  }

  lemma ActionWithin(w: I.IrWorld, r: I.IrRule, strip: bool, d: Data)
    requires w.arity == |w.cards| && I.RuleFits(w, r) && Within(d, w.cards)
    ensures Within(I.Action(r, strip, d), w.cards)
  {
    hide WriteMove, I.CellsFit, I.TransitionFits;
    var paused := if r.debugger then Pause(d, strip) else d;
    PauseWithin(d, strip, w.cards);
    WriteMoveWithin(paused, if r.write.Some? then r.write.value else [], if r.moves.Some? then r.moves.value else [],
                    w.cards);
  }

  lemma PauseWithin(d: Data, strip: bool, cards: seq<nat>)
    requires Within(d, cards)
    ensures Within(Pause(d, strip), cards) && |Pause(d, strip).tapes| == |d.tapes|
  {
  }

  /** Two lines in a row. */
  lemma TwoSteps(j: Job, u: L.State, v: L.State)
    requires Stepper(j)(u) == Next(v)
    ensures Run(Stepper(j), u, 2) == Stepper(j)(v)
  {
    hide Stepper;
    RunFirst(Stepper(j), u, 1);
    RunOnce(Stepper(j), v);
  }

  /** A rule's body does what the rule's action does. */
  lemma BodyMatched(j: Job, u: L.State, b: nat, r: I.IrRule)
    requires b < |j.plan.blocks| && j.plan.blocks[b].body == RuleBody(r, j.strip)
    requires u.pc == BodyPos(j.plan, b) && |r.pattern| == |u.data.tapes|
    ensures Run(Stepper(j), u, |j.plan.blocks[b].body|)
         == Next(u.(pc := TermPos(j.plan, b), data := I.Action(r, j.strip, u.data)))
  {
    hide Stepper, BodyPos, Holds, WriteMove, Vector, L.FindTable, Code;
    var body := j.plan.blocks[b].body;
    forall k: nat | k < |body| ensures Holds(j.plan, BodyPos(j.plan, b) + k, body[k].text) {
      InstrAt(j.plan, b, k);
    }
    SameAction(r, if r.debugger then Pause(u.data, j.strip) else u.data);
    if |body| > 0 {
      LineStep(j, u, body[0].text);
      RunOnce(Stepper(j), u);
    }
    if |body| == 2 {
      var v := u.(pc := u.pc + 1, data := Pause(u.data, false));
      TwoSteps(j, u, v);
      LineStep(j, v, body[1].text);
    }
  }

  /** Where the lines that end a block lead when they name a state: by a jump, or by running on. */
  lemma NamedStateReached(j: Job, u: L.State, b: nat, i: nat, q: nat) returns (k: nat)
    requires Ready(j) && b < |j.plan.blocks| && i < |j.world.states| && Within(u.data, j.world.cards)
    requires u.pc == TermPos(j.plan, b) + q
    requires |TermLines(j.plan.blocks, b)| == q + |JumpLines(j.plan.blocks, b, StateName(j.world, i))|
    requires IsNext(j.plan.blocks, b, StateName(j.world, i)) || TermLines(j.plan.blocks, b)[q] == L.Jmp(StateName(j.world, i))
    requires IsNext(j.plan.blocks, b, StateName(j.world, i)) || StateName(j.world, i) in Printed(j.plan)
    ensures Agree(j, Next(I.State(i, u.data)), Run(Stepper(j), u, k))
    ensures k == 0 ==> BlockOf(j.world, j.plan, i) == b + 1
  {
    hide Ready, Stepper, TermLines, Printed, TermPos, StartPos, Code, NamesApart, BodiesPlain, Serves, CalleeKeeps, Holds;
    PlanFacts(j);
    var name := StateName(j.world, i);
    if IsNext(j.plan.blocks, b, name) {
      k := 0;
      NextStart(j.plan, b);
      BlockFound(j.plan.blocks, 0, b + 1);
    } else {
      k := 1;
      TermAt(j.plan, b, q);
      LineStep(j, u, L.Jmp(name));
      JumpMatched(j, u, i);
      RunOnce(Stepper(j), u);
    }
  }

  lemma {:induction false} NamedIn(blocks: seq<Block>, b: nat, n: nat)
    requires b < n <= |blocks|
    ensures NamedBy(blocks, b) <= Named(blocks, n)
  {
    hide NamedBy;
    if b < n - 1 {
      NamedIn(blocks, b, n - 1);
    }
  }

  lemma NamedPrinted(p: WorldPlan, b: nat, name: string)
    requires b < |p.blocks| && name in NamedBy(p.blocks, b)
    ensures name in Printed(p)
  {
    hide NamedBy, Forced, TargetNames;
    NamedIn(p.blocks, b, |p.blocks|);
  }

  /** The resume of a call. */
  lemma ResumeMatched(j: Job, u: L.State, b: nat, t: I.Then) returns (k: nat)
    requires Ready(j) && b < |j.plan.blocks| && Within(u.data, j.world.cards)
    requires j.plan.blocks[b].term.CallThen? && j.plan.blocks[b].term.resume == ResumeOf(j.world, t)
    requires t.ThenGoto? ==> t.state < |j.world.states|
    requires u.pc == TermPos(j.plan, b) + 1
    ensures Agree(j, I.Resume(t, u.data), Run(Stepper(j), u, k))
  {
    hide Ready, Stepper, Printed, TermPos, StateName, Code, IsNext, Run, Holds, L.FindTable, Named, Forced, TargetNames;
    if t.ThenGoto? {
      var name := StateName(j.world, t.state);
      if !IsNext(j.plan.blocks, b, name) {
        NamedPrinted(j.plan, b, name);
      }
      k := NamedStateReached(j, u, b, t.state, 1);
    } else {
      k := 1;
      TermAt(j.plan, b, 1);
      LineStep(j, u, TermLines(j.plan.blocks, b)[1]);
      RunOnce(Stepper(j), u);
    }
  }

  /** The end of a rule's block. */
  lemma TransferMatched(j: Job, u: L.State, b: nat, r: I.IrRule) returns (k: nat)
    requires Ready(j) && b < |j.plan.blocks| && Within(u.data, j.world.cards)
    requires j.plan.blocks[b].term == TermOf(j.world, r) && I.TransitionFits(j.world, r.transition)
    requires u.pc == TermPos(j.plan, b)
    ensures Agree(j, I.Transfer(r.transition, j.callee, u.data), Run(Stepper(j), u, k))
    ensures k == 0 ==> r.transition.Goto? && BlockOf(j.world, j.plan, r.transition.state) == b + 1
  {
    hide Ready, Stepper, Printed, TermPos, StateName, Code, IsNext, Run, Holds, L.FindTable, Named, Forced, TargetNames,
      I.Resume, ResumeLines, ResumeOf, I.BindingFits, Within, BlockOf, Related;
    if r.transition.Goto? {
      var name := StateName(j.world, r.transition.state);
      if !IsNext(j.plan.blocks, b, name) {
        NamedPrinted(j.plan, b, name);
      }
      k := NamedStateReached(j, u, b, r.transition.state, 0);
    } else {
      TermAt(j.plan, b, 0);
      LineStep(j, u, TermLines(j.plan.blocks, b)[0]);
      RunOnce(Stepper(j), u);
      k := 1;
      if r.transition.CallThen? {
        var result := j.callee(r.transition.target, r.transition.binding, u.data);
        if result.Comes? {
          KeptWithin(j, r.transition.target, r.transition.binding, u.data);
          var v := L.State(u.pc + 1, result.tuple, result.mr, result.data);
          k := ResumeMatched(j, v, b, r.transition.resume);
          RunFirst(Stepper(j), u, k);
          k := k + 1;
        }
      }
    }
  }

  lemma KeptWithin(j: Job, target: string, binding: seq<I.TapeBinding>, d: Data)
    requires Ready(j) && Within(d, j.world.cards) && j.callee(target, binding, d).Comes?
    ensures Within(j.callee(target, binding, d).data, j.world.cards)
  {
    hide Generable, PlanOf, Serves, Within;
  }

  /** A whole rule block, from its label on. */
  lemma RuleBlockMatched(j: Job, u: L.State, b: nat, r: I.IrRule, name: string, force: bool) returns (k: nat)
    requires Ready(j) && b < |j.plan.blocks| && Within(u.data, j.world.cards)
    requires j.plan.blocks[b] == RuleBlock(j.world, r, j.strip, name, force) && I.RuleFits(j.world, r)
    requires u.pc == StartPos(j.plan, b)
    ensures Agree(j, I.Fire(r, j.strip, j.callee, u.data), Run(Stepper(j), u, k))
    ensures k == 0 ==> r.transition.Goto? && BlockOf(j.world, j.plan, r.transition.state) == b + 1
  {
    hide Ready, Stepper, Printed, TermPos, BodyPos, StartPos, Code, Run, Within, I.Action, I.Transfer, I.CellsFit,
      I.WriteFits, I.TransitionFits, RuleBody, TermOf, LabelLines, Agree, BlockOf;
    PlanFacts(j);
    SameWidth(j.world, r, u.data);
    PassLabel(j, u, b);
    var v := u.(pc := BodyPos(j.plan, b));
    BodyMatched(j, v, b, r);
    var w := v.(pc := TermPos(j.plan, b), data := I.Action(r, j.strip, u.data));
    ActionWithin(j.world, r, j.strip, u.data);
    var n := TransferMatched(j, w, b, r);
    RunSplit(Stepper(j), v, |j.plan.blocks[b].body|, n);
    RunSplit(Stepper(j), u, |LabelLines(j.plan, b)|, |j.plan.blocks[b].body| + n);
    k := |LabelLines(j.plan, b)| + (|j.plan.blocks[b].body| + n);
  }

  lemma SameWidth(w: I.IrWorld, r: I.IrRule, d: Data)
    requires |w.cards| == w.arity && I.RuleFits(w, r) && Within(d, w.cards)
    ensures |r.pattern| == |d.tapes|
  {
  }

  /** What a label that leads to a rule leads to. */
  lemma LeadMatched(j: Job, u: L.State, r: I.IrRule, name: string) returns (k: nat)
    requires Ready(j) && Within(u.data, j.world.cards) && I.RuleFits(j.world, r)
    requires LeadsTo(j.world, r, j.strip, j.plan.blocks, name) && name in Printed(j.plan)
    ensures Agree(j, I.Fire(r, j.strip, j.callee, u.data), Continue(Stepper(j), L.JumpTo(Code(j.plan), u, name), k))
  {
    hide Ready, Stepper, Printed, StartPos, Code, Run, Within, I.CellsFit, I.WriteFits, StateName,
      Agree, RuleBlock, NamesApart, BodiesPlain, Serves, CalleeKeeps, L.FindLabel;
    PlanFacts(j);
    if r.direct {
      JumpMatched(j, u, r.transition.state);
      ArrivedAgrees(j, I.State(r.transition.state, u.data), L.JumpTo(Code(j.plan), u, name));
      BareActs(r, j.strip, u.data);
      k := 0;
    } else {
      var b :| 0 <= b < |j.plan.blocks| && j.plan.blocks[b] == RuleBlock(j.world, r, j.strip, name, true);
      RuleBlockNamed(j.world, r, j.strip, name, true);
      LabelAddress(j.plan, b);
      k := RuleBlockMatched(j, u.(pc := StartPos(j.plan, b)), b, r, name, true);
    }
  }

  lemma BareActs(r: I.IrRule, strip: bool, d: Data)
    requires I.IsBare(r)
    ensures I.Action(r, strip, d) == d
  {
  }

  lemma RuleBlockNamed(w: I.IrWorld, r: I.IrRule, strip: bool, name: string, force: bool)
    ensures RuleBlock(w, r, strip, name, force).name == name
  {
  }

  lemma ArrivedAgrees(j: Job, s: I.State, arrived: Step<L.State, Ending>)
    requires Agree(j, Next(s), arrived)
    ensures Agree(j, Next(s), Continue(Stepper(j), arrived, 0))
  {
  }

  // ----- heads -----

  /** A head reads and matches. */
  lemma HeadMatched(j: Job, u: L.State, b: nat, st: I.IrState, t: L.Table, term: Term, force: bool)
    requires b < |j.plan.blocks| && HeadAt(st, j.plan, b, t.n, term, force)
    requires t in j.plan.tables && Serves(j.tables, j.plan) && u.pc == StartPos(j.plan, b)
    ensures Run(Stepper(j), u, |LabelLines(j.plan, b)| + 2)
         == Next(L.State(TermPos(j.plan, b), Read(u.data), L.MatchRows(t.rows, 0, Read(u.data)), u.data))
  {
    hide Stepper, StartPos, Holds, LabelLines, Code, Run, L.FindTable, L.MatchRows;
    PassLabel(j, u, b);
    var v := u.(pc := BodyPos(j.plan, b));
    InstrAt(j.plan, b, 0);
    LineStep(j, v, L.Rd);
    InstrAt(j.plan, b, 1);
    var v' := v.(pc := v.pc + 1, tuple := Read(u.data));
    LineStep(j, v', L.Mtc(t.n));
    TwoSteps(j, v, v');
    RunSplit(Stepper(j), u, |LabelLines(j.plan, b)|, 2);
  }

  /** The line at the end of a head, after reading and matching. */
  lemma HeadEnds(j: Job, u: L.State, b: nat, st: I.IrState, t: L.Table, term: Term, force: bool, line: L.Line, k: nat)
    requires b < |j.plan.blocks| && HeadAt(st, j.plan, b, t.n, term, force)
    requires TermLines(j.plan.blocks, b) == [line]
    requires t in j.plan.tables && Serves(j.tables, j.plan) && u.pc == StartPos(j.plan, b)
    ensures var v := L.State(TermPos(j.plan, b), Read(u.data), L.MatchRows(t.rows, 0, Read(u.data)), u.data);
            Run(Stepper(j), u, |LabelLines(j.plan, b)| + 2 + (k + 1))
            == Continue(Stepper(j), L.Execute(j.tables, Code(j.plan), j.callee, v, line), k)
  {
    hide Stepper, StartPos, TermPos, LabelLines, Code, Run, L.Execute, L.MatchRows, HeadAt, TermLines, Holds;
    HeadMatched(j, u, b, st, t, term, force);
    var v := L.State(TermPos(j.plan, b), Read(u.data), L.MatchRows(t.rows, 0, Read(u.data)), u.data);
    TermAt(j.plan, b, 0);
    LineStep(j, v, line);
    RunFirst(Stepper(j), v, k);
    RunSplit(Stepper(j), u, |LabelLines(j.plan, b)| + 2, k + 1);
  }

  // ----- matching picks the banded rule -----

  /** Walking the rows of a table is walking the emitted order. */
  lemma {:induction false} RowsFollowOrder(rules: seq<I.IrRule>, order: seq<nat>, rows: seq<seq<R.Cell>>, i: nat, tuple: seq<nat>)
    requires i <= |order| == |rows|
    requires forall m | 0 <= m < |order| :: order[m] < |rules| && rows[m] == rules[order[m]].pattern
    ensures var pick := B.OrderPick(I.Rows(rules), order, i, tuple);
            var mr := L.MatchRows(rows, i, tuple);
            && mr <= |rows|
            && (pick.None? <==> mr == 0)
            && (pick.Some? ==> order[mr - 1] == pick.value)
    decreases |order| - i
  {
    hide R.Matches;
    if i < |order| {
      RowsFollowOrder(rules, order, rows, i + 1, tuple);
    }
  }

  /** The match register selects the row of the rule that band order picks. */
  lemma TableSelects(st: I.IrState, t: L.Table, tuple: seq<nat>)
    requires OrderedRows(st, t) && B.NoExactConflict(I.Rows(st.rules)) && tuple != []
    ensures var pick := B.BandPick(I.Rows(st.rules), tuple);
            var mr := L.MatchRows(t.rows, 0, tuple);
            var order := B.EmittedRowOrder(I.Rows(st.rules));
            && mr <= |t.rows| == |t.targets| == |order|
            && (pick.None? <==> mr == 0)
            && (pick.Some? ==> order[mr - 1] == pick.value < |st.rules|)
  {
    hide B.EmittedRowOrder, B.OrderPick, L.MatchRows, B.NoExactConflict, B.BandPick;
    B.BandOrderSound(I.Rows(st.rules), tuple);
    RowsFollowOrder(st.rules, B.EmittedRowOrder(I.Rows(st.rules)), t.rows, 0, tuple);
  }

  lemma {:induction false} TargetIn(tables: seq<L.Table>, t: L.Table, n: nat, name: string)
    requires n <= |tables| && t in tables[..n] && name in t.targets
    ensures name in TargetNames(tables, n)
  {
    if tables[n - 1] == t {
      ElementsExact(t.targets, |t.targets|, name);
    } else {
      assert tables[..n] == tables[..n - 1] + [tables[n - 1]];
      TargetIn(tables, t, n - 1, name);
    }
  }

  lemma {:induction false} ElementsExact(names: seq<string>, n: nat, name: string)
    requires n <= |names|
    ensures name in Elements(names, n) <==> name in names[..n]
  {
    if n > 0 {
      ElementsExact(names, n - 1, name);
      assert names[..n] == names[..n - 1] + [names[n - 1]];
    }
  }

  /** Every dispatch target prints. */
  lemma TargetPrinted(p: WorldPlan, t: L.Table, m: nat)
    requires t in p.tables && m < |t.targets|
    ensures t.targets[m] in Printed(p)
  {
    hide Forced, Named, TargetNames;
    assert p.tables[..|p.tables|] == p.tables;
    TargetIn(p.tables, t, |p.tables|, t.targets[m]);
  }

  // ----- states -----

  /** How a state without rules traps: with no match, or, where no row can stand for that, with an
      unmapped read. */
  function EmptyTrap(w: I.IrWorld): TrapKind
    requires w.cards != []
  {
    if w.cards[Narrowest(w.cards, |w.cards|)] > ROW_LIMIT then UnmappedRead else NoTransition
  }

  /** A world's step as its code shows it: only a state without rules may trap as something else. */
  ghost function CodedStep(w: I.IrWorld, strip: bool, callee: I.Callee, s: I.State): Step<I.State, Ending>
    requires w.cards != []
  {
    if s.at < |w.states| && w.states[s.at].rules == [] then Done(Trapped(EmptyTrap(w), s.data))
    else I.WorldStep(w, strip, callee, s)
  }

  ghost function CodedStepper(w: I.IrWorld, strip: bool, callee: I.Callee): I.State -> Step<I.State, Ending>
    requires w.cards != []
  {
    (s: I.State) => CodedStep(w, strip, callee, s)
  }

  /** What a world's step does in a state with rules. */
  lemma StepInState(j: Job, s: I.State)
    requires Ready(j) && s.at < |j.world.states| && j.world.states[s.at].rules != []
    ensures var rules := j.world.states[s.at].rules;
            CodedStep(j.world, j.strip, j.callee, s)
            == (match B.BandPick(I.Rows(rules), Read(s.data))
                case None => Done(Trapped(NoTransition, s.data))
                case Some(k) => I.Fire(rules[k], j.strip, j.callee, s.data))
  {
    hide Ready, B.BandPick;
  }

  lemma RulesFit(j: Job, i: nat)
    requires Ready(j) && i < |j.world.states|
    ensures |j.world.cards| == j.world.arity > 0
    ensures forall k | 0 <= k < |j.world.states[i].rules| :: I.RuleFits(j.world, j.world.states[i].rules[k])
    ensures B.NoExactConflict(I.Rows(j.world.states[i].rules)) && BranchShape(j.world.states[i])
  {
    hide PlanOf, Serves, CalleeKeeps, B.NoExactConflict, I.RuleFits;
  }

  lemma TableMatched(j: Job, s: I.State, u: L.State, b: nat, t: L.Table) returns (k: nat)
    requires Ready(j) && Related(j, s, u) && j.world.states[s.at].rules != []
    requires b == BlockOf(j.world, j.plan, s.at) && b < |j.plan.blocks|
    requires TableAt(j.world, j.world.states[s.at], j.strip, j.plan, b, t)
    ensures k > 0 && Agree(j, CodedStep(j.world, j.strip, j.callee, s), Run(Stepper(j), u, k))
  {
    hide Ready, Stepper, Code, Run, HeadAt, OrderedRows, Within, I.RuleFits, I.Fire, LeadsTo, B.BandPick,
      B.EmittedRowOrder, L.MatchRows, B.NoExactConflict, CodedStep, BlockOf, StartPos, TermPos, Printed, LabelLines,
      L.FindTable, L.JumpTo, Agree, Serves, CalleeKeeps, NamesApart, BodiesPlain;
    var st := j.world.states[s.at];
    PlanFacts(j);
    RulesFit(j, s.at);
    ReadSome(s.data, j.world.cards);
    TableSelects(st, t, Read(s.data));
    StepInState(j, s);
    HeadDispatches(j, b, st, t.n, false);
    var mr := L.MatchRows(t.rows, 0, Read(s.data));
    var v := L.State(TermPos(j.plan, b), Read(u.data), mr, u.data);
    DispatchRuns(j, v, t);
    if mr == 0 {
      HeadEnds(j, u, b, st, t, DispatchOn(t.n), false, L.Djmp(t.n), 0);
      k := |LabelLines(j.plan, b)| + 2 + (0 + 1);
      TrapAgrees(j, NoTransition, s.data);
    } else {
      TargetPrinted(j.plan, t, mr - 1);
      var order := B.EmittedRowOrder(I.Rows(st.rules));
      var n := LeadMatched(j, v, st.rules[order[mr - 1]], t.targets[mr - 1]);
      HeadEnds(j, u, b, st, t, DispatchOn(t.n), false, L.Djmp(t.n), n);
      k := |LabelLines(j.plan, b)| + 2 + (n + 1);
    }
  }

  lemma TrapAgrees(j: Job, kind: TrapKind, d: Data)
    ensures Agree(j, Done(Trapped(kind, d)), Continue(Stepper(j), Done(Trapped(kind, d)), 0))
  {
  }

  lemma ReadSome(d: Data, cards: seq<nat>)
    requires Within(d, cards) && cards != []
    ensures Read(d) != [] && |Read(d)| == |cards|
  {
  }

  lemma HeadDispatches(j: Job, b: nat, st: I.IrState, n: nat, force: bool)
    requires b < |j.plan.blocks| && HeadAt(st, j.plan, b, n, DispatchOn(n), force)
    ensures TermLines(j.plan.blocks, b) == [L.Djmp(n)]
  {
  }

  lemma DispatchRuns(j: Job, v: L.State, t: L.Table)
    requires t in j.plan.tables && Serves(j.tables, j.plan) && v.mr <= |t.targets|
    ensures L.Execute(j.tables, Code(j.plan), j.callee, v, L.Djmp(t.n))
         == if v.mr == 0 then Done(Trapped(NoTransition, v.data))
            else L.JumpTo(Code(j.plan), v, t.targets[v.mr - 1])
  {
    hide Code, L.JumpTo;
  }

  // ----- branches -----

  /** Of a selective rule and a catch-all, the first that matches. */
  lemma BranchPick(rules: seq<I.IrRule>, tuple: seq<nat>)
    requires |rules| == 2 && R.IsAllWild(rules[1].pattern) && !R.IsAllWild(rules[0].pattern)
    requires |rules[0].pattern| == |rules[1].pattern| == |tuple| && tuple != []
    ensures B.BandPick(I.Rows(rules), tuple)
         == Some(if R.Matches(rules[0].pattern, tuple) then 0 else 1)
  {
    var rows := I.Rows(rules);
    assert rows[1].pattern[0] == R.Wild;
    assert R.Matches(rows[1].pattern, tuple);
    hide R.Matches, B.IsExact, R.IsAllWild;
    TwoKept(rows, B.IsExact, tuple);
    TwoKept(rows, B.IsPartial, tuple);
    TwoKept(rows, B.IsCatchAll, tuple);
  }

  lemma TwoKept(rows: seq<R.Rule>, keep: seq<R.Cell> -> bool, tuple: seq<nat>)
    requires |rows| == 2
    ensures B.FirstKept(rows, keep, 2, tuple)
         == if keep(rows[0].pattern) && R.Matches(rows[0].pattern, tuple) then Some(0)
            else if keep(rows[1].pattern) && R.Matches(rows[1].pattern, tuple) then Some(1)
            else None
  {
    hide R.Matches;
    assert B.FirstKept(rows, keep, 0, tuple).None?;
    assert B.FirstKept(rows, keep, 1, tuple)
        == if keep(rows[0].pattern) && R.Matches(rows[0].pattern, tuple) then Some(0) else None;
  }

  lemma OneRow(pattern: seq<R.Cell>, tuple: seq<nat>)
    ensures L.MatchRows([pattern], 0, tuple) == if R.Matches(pattern, tuple) then 1 else 0
  {
    hide R.Matches;
  }

  lemma HitPrinted(p: WorldPlan, b: nat, hit: string)
    requires b < |p.blocks| && p.blocks[b].term == JumpIfMatch(hit)
    ensures hit in Printed(p) && TermLines(p.blocks, b) == [L.Jm(hit)]
  {
    NamedPrinted(p, b, hit);
    hide Printed;
  }

  lemma BranchRuns(j: Job, v: L.State, hit: string)
    ensures L.Execute(j.tables, Code(j.plan), j.callee, v, L.Jm(hit))
         == if v.mr != 0 then L.JumpTo(Code(j.plan), v, hit) else Next(v.(pc := v.pc + 1))
  {
    hide Code, L.JumpTo;
  }

  lemma BranchMatched(j: Job, s: I.State, u: L.State, b: nat, n: nat, hit: string) returns (k: nat)
    requires Ready(j) && Related(j, s, u) && |j.world.states[s.at].rules| == 2
    requires !I.IsStraight(j.world.states[s.at].rules) && j.world.states[s.at].dispatch.Branch?
    requires b == BlockOf(j.world, j.plan, s.at) && b < |j.plan.blocks|
    requires BranchAt(j.world, j.world.states[s.at], j.strip, j.plan, b, n, hit)
    ensures k > 0 && Agree(j, CodedStep(j.world, j.strip, j.callee, s), Run(Stepper(j), u, k))
  {
    hide Ready, Stepper, Code, Run, Within, I.Fire, LeadsTo, B.BandPick, R.IsAllWild, R.Matches,
      L.MatchRows, B.NoExactConflict, CodedStep, BlockOf, StartPos, TermPos, Printed, LabelLines, TermLines,
      L.FindTable, L.JumpTo, Agree, Serves, CalleeKeeps, NamesApart, BodiesPlain, I.WriteFits, I.TransitionFits,
      L.Execute, RuleBlock;
    var st := j.world.states[s.at];
    var t := L.Table(n, [st.rules[0].pattern], []);
    PlanFacts(j);
    RulesFit(j, s.at);
    ReadSome(s.data, j.world.cards);
    BranchPick(st.rules, Read(s.data));
    OneRow(st.rules[0].pattern, Read(s.data));
    StepInState(j, s);
    HitPrinted(j.plan, b, hit);
    var mr := L.MatchRows(t.rows, 0, Read(s.data));
    var v := L.State(TermPos(j.plan, b), Read(u.data), mr, u.data);
    BranchRuns(j, v, hit);
    var m;
    if mr != 0 {
      m := LeadMatched(j, v, st.rules[0], hit);
    } else {
      NextStart(j.plan, b);
      var w := v.(pc := v.pc + 1);
      m := RuleBlockMatched(j, w, b + 1, st.rules[1], j.plan.blocks[b + 1].name, false);
    }
    HeadEnds(j, u, b, st, t, JumpIfMatch(hit), false, L.Jm(hit), m);
    k := |LabelLines(j.plan, b)| + 2 + (m + 1);
  }

  // ----- states without rules -----

  /** No tuple of the tapes' alphabets meets the sentinel row. */
  lemma SentinelNeverMatches(w: I.IrWorld, tuple: seq<nat>)
    requires w.cards != [] && |tuple| == |w.cards| && forall k | 0 <= k < |tuple| :: tuple[k] < w.cards[k]
    ensures L.MatchRows([EmptyRow(w)], 0, tuple) == 0
  {
    var k := Narrowest(w.cards, |w.cards|);
    assert !R.CellMatches(EmptyRow(w)[k], tuple[k]);
    assert !R.Matches(EmptyRow(w), tuple);
    hide R.Matches;
    OneRow(EmptyRow(w), tuple);
  }

  /** Entering a state without rules always traps. */
  lemma EmptyMatched(j: Job, s: I.State, u: L.State, b: nat) returns (k: nat)
    requires Ready(j) && Related(j, s, u) && j.world.states[s.at].rules == []
    requires b == BlockOf(j.world, j.plan, s.at) && b < |j.plan.blocks|
    requires EmptyAt(j.world, j.world.states[s.at], j.plan, b)
    ensures k > 0 && Agree(j, CodedStep(j.world, j.strip, j.callee, s), Run(Stepper(j), u, k))
  {
    hide Ready, Stepper, Run, EmptyAt, EmptyTrap;
    PlanFacts(j);
    TwoTraps(j.world);
    if EmptyTrap(j.world) == UnmappedRead {
      k := BareTrapMatched(j, s, u, b);
    } else {
      k := SentinelMatched(j, s, u, b);
    }
  }

  lemma BareTrapMatched(j: Job, s: I.State, u: L.State, b: nat) returns (k: nat)
    requires Ready(j) && Related(j, s, u) && j.world.states[s.at].rules == []
    requires b == BlockOf(j.world, j.plan, s.at) && b < |j.plan.blocks| && j.world.cards != []
    requires EmptyAt(j.world, j.world.states[s.at], j.plan, b) && EmptyTrap(j.world) == UnmappedRead
    ensures k > 0 && Run(Stepper(j), u, k) == Done(Trapped(UnmappedRead, s.data))
  {
    hide Ready, Stepper, Code, Run, BlockOf, StartPos, TermPos, BodyPos, LabelLines, L.MatchRows, L.FindTable, L.JumpTo, Holds,
      EmptyRow, Within;
    PassLabel(j, u, b);
    TermAt(j.plan, b, 0);
    var v := u.(pc := TermPos(j.plan, b));
    BareBody(j.plan, b);
    LineStep(j, v, L.Trap(0));
    RunOnce(Stepper(j), v);
    RunSplit(Stepper(j), u, |LabelLines(j.plan, b)|, 1);
    k := |LabelLines(j.plan, b)| + 1;
  }

  lemma SentinelMatched(j: Job, s: I.State, u: L.State, b: nat) returns (k: nat)
    requires Ready(j) && Related(j, s, u) && j.world.states[s.at].rules == []
    requires b == BlockOf(j.world, j.plan, s.at) && b < |j.plan.blocks| && j.world.cards != []
    requires EmptyAt(j.world, j.world.states[s.at], j.plan, b) && EmptyTrap(j.world) != UnmappedRead
    ensures k > 0 && Run(Stepper(j), u, k) == Done(Trapped(NoTransition, s.data))
  {
    hide Ready, Stepper, Code, Run, BlockOf, StartPos, TermPos, BodyPos, LabelLines, L.MatchRows, L.FindTable, L.JumpTo, Serves,
      CalleeKeeps, NamesApart, BodiesPlain, Holds, EmptyRow, Within;
    PlanFacts(j);
    var st := j.world.states[s.at];
    var n :| HeadAt(st, j.plan, b, n, DispatchOn(n), true) && L.Table(n, [EmptyRow(j.world)], [st.name]) in j.plan.tables;
    var t := L.Table(n, [EmptyRow(j.world)], [st.name]);
    WidthAndRange(s.data, j.world.cards);
    SentinelNeverMatches(j.world, Read(s.data));
    HeadDispatches(j, b, st, n, true);
    DispatchRuns(j, L.State(TermPos(j.plan, b), Read(u.data), 0, u.data), t);
    HeadEnds(j, u, b, st, t, DispatchOn(n), true, L.Djmp(n), 0);
    k := |LabelLines(j.plan, b)| + 2 + (0 + 1);
  }

  lemma BareBody(p: WorldPlan, b: nat)
    requires b < |p.blocks| && p.blocks[b].body == []
    ensures TermPos(p, b) == BodyPos(p, b)
  {
  }

  lemma WidthAndRange(d: Data, cards: seq<nat>)
    requires Within(d, cards)
    ensures |Read(d)| == |cards| && forall k | 0 <= k < |cards| :: Read(d)[k] < cards[k]
  {
    ReadWithin(d, cards);
  }

  // ----- straight-line states -----

  /** A single all-wildcard rule is picked whatever the tapes hold. */
  lemma StraightPick(rules: seq<I.IrRule>, tuple: seq<nat>)
    requires I.IsStraight(rules) && |rules[0].pattern| == |tuple| && tuple != []
    ensures B.BandPick(I.Rows(rules), tuple) == Some(0)
  {
    assert rules[0].pattern[0] == R.Wild;
    assert R.Matches(I.Rows(rules)[0].pattern, tuple);
  }

  lemma StraightMatched(j: Job, s: I.State, u: L.State, b: nat) returns (k: nat)
    requires Ready(j) && Related(j, s, u) && I.IsStraight(j.world.states[s.at].rules)
    requires b == BlockOf(j.world, j.plan, s.at) && b < |j.plan.blocks|
    requires j.plan.blocks[b] == RuleBlock(j.world, j.world.states[s.at].rules[0], j.strip, j.world.states[s.at].name, false)
    ensures Agree(j, CodedStep(j.world, j.strip, j.callee, s), Run(Stepper(j), u, k))
    ensures k == 0 ==> CodedStep(j.world, j.strip, j.callee, s).Next?
                       && BlockOf(j.world, j.plan, CodedStep(j.world, j.strip, j.callee, s).state.at) == b + 1
  {
    hide Ready, Stepper, Code, Run, BlockOf, StartPos, Within, Agree, RuleBlock, CodedStep, B.BandPick, R.IsAllWild,
      B.NoExactConflict, I.TransitionFits, I.WriteFits, I.Action;
    var rules := j.world.states[s.at].rules;
    RulesFit(j, s.at);
    ReadSome(s.data, j.world.cards);
    StraightPick(rules, Read(s.data));
    StepInState(j, s);
    k := RuleBlockMatched(j, u, b, rules[0], j.world.states[s.at].name, false);
  }

  // ----- the theorem -----

  /** Every step of a world is answered by its code. */
  lemma StepMatched(j: Job, s: I.State, u: L.State) returns (k: nat)
    requires Ready(j) && Related(j, s, u)
    ensures Agree(j, CodedStep(j.world, j.strip, j.callee, s), Run(Stepper(j), u, k))
    ensures k == 0 ==> CodedStep(j.world, j.strip, j.callee, s).Next?
                       && BlockOf(j.world, j.plan, CodedStep(j.world, j.strip, j.callee, s).state.at)
                          == BlockOf(j.world, j.plan, s.at) + 1
  {
    hide Ready, Stepper, Run, BlockOf, StartPos, Within, Agree, RuleBlock, CodedStep, EmptyAt, TableAt, BranchAt,
      I.IsStraight, B.NoExactConflict, I.RuleFits;
    var b := BlockOf(j.world, j.plan, s.at);
    var st := j.world.states[s.at];
    StateBlock(j, s.at);
    RulesFit(j, s.at);
    if st.rules == [] {
      k := EmptyMatched(j, s, u, b);
    } else if I.IsStraight(st.rules) {
      k := StraightMatched(j, s, u, b);
    } else if st.dispatch.Branch? {
      var n, hit :| BranchAt(j.world, st, j.strip, j.plan, b, n, hit);
      k := BranchMatched(j, s, u, b, n, hit);
    } else {
      var t :| TableAt(j.world, st, j.strip, j.plan, b, t);
      k := TableMatched(j, s, u, b, t);
    }
  }

  ghost function Relation(j: Job): (I.State, L.State) -> bool
  {
    (s: I.State, u: L.State) => Related(j, s, u)
  }

  ghost function Ranking(j: Job): I.State -> (nat, nat)
  {
    (s: I.State) => Rank(j, s)
  }

  lemma CodeSimulates(j: Job)
    requires Ready(j)
    ensures j.world.cards != []
    ensures Simulates(CodedStepper(j.world, j.strip, j.callee), Stepper(j), Relation(j), Ranking(j))
  {
    hide Ready, Stepper, Run, BlockOf, StartPos, Within, CodedStep;
    PlanFacts(j);
    forall s, u | Relation(j)(s, u)
      ensures exists k: nat ::
                Answers(CodedStepper(j.world, j.strip, j.callee), Stepper(j), Relation(j), Ranking(j), s, u, k)
    {
      var k := StepMatched(j, s, u);
      assert Answers(CodedStepper(j.world, j.strip, j.callee), Stepper(j), Relation(j), Ranking(j), s, u, k);
    }
  }

  /** Can the code show every missing match as one?  A state without rules needs a sentinel row for
      that, which only an alphabet below the row limit has room for. */
  predicate ShowsNoMatch(w: I.IrWorld)
    requires w.cards != []
  {
    EmptyTrap(w) == NoTransition || forall k | 0 <= k < |w.states| :: w.states[k].rules != []
  }

  /** The same ending with the same data; where the code has no room for a sentinel row, a state
      without rules traps as an unmapped read instead of a missing transition. */
  predicate EndingsAgree(w: I.IrWorld, e: Ending, shown: Ending)
    requires w.cards != []
  {
    || shown == e
    || (!ShowsNoMatch(w) && e.Trapped? && e.kind == NoTransition && shown == Trapped(UnmappedRead, e.data))
  }

  function Agreement(w: I.IrWorld): (Ending, Ending) -> bool
    requires w.cards != []
  {
    (e: Ending, shown: Ending) => EndingsAgree(w, e, shown)
  }

  lemma StepsAlike(w: I.IrWorld, strip: bool, callee: I.Callee, s: I.State)
    requires w.cards != []
    ensures StepAlike(Agreement(w), I.WorldStep(w, strip, callee, s), CodedStep(w, strip, callee, s))
  {
    hide I.Fire, EmptyTrap;
    if s.at < |w.states| && w.states[s.at].rules == [] {
      NothingPicked(Read(s.data));
      TwoTraps(w);
    }
  }

  lemma NothingPicked(tuple: seq<nat>)
    ensures B.BandPick(I.Rows([]), tuple).None?
  {
  }

  lemma TwoTraps(w: I.IrWorld)
    requires w.cards != []
    ensures EmptyTrap(w) == NoTransition || EmptyTrap(w) == UnmappedRead
  {
  }

  /** Code generation keeps every behaviour of a world: entered at its first line with the bands
      inside their alphabets, its code ends the same ways with the same data, or runs for ever
      when the state graph does - whatever the routines it calls do. */
  lemma CodePreservesBehaviour(j: Job, tuple: seq<nat>, mr: nat, d: Data)
    requires Ready(j) && Within(d, j.world.cards)
    ensures j.world.cards != []
    ensures EndsAlike(I.WorldStepper(j.world, j.strip, j.callee), I.State(j.world.entry, d),
                      Stepper(j), L.State(0, tuple, mr, d), Agreement(j.world))
  {
    hide CodedStep, I.WorldStep, Stepper, Ready, Within, Ranking, Simulates, Finishes, Diverges, NamesApart, BodiesPlain, Serves,
      CalleeKeeps, FindBlock, StateName, EndsAlike, StepAlike, Agreement;
    PlanFacts(j);
    CodeSimulates(j);
    BlockFound(j.plan.blocks, 0, 0);
    var world, coded := I.WorldStepper(j.world, j.strip, j.callee), CodedStepper(j.world, j.strip, j.callee);
    var s, u := I.State(j.world.entry, d), L.State(0, tuple, mr, d);
    SameBehaviour(coded, Stepper(j), Relation(j), Ranking(j), s, u);
    forall x ensures StepAlike(Agreement(j.world), world(x), coded(x)) {
      StepsAlike(j.world, j.strip, j.callee, x);
    }
    AlikeBehaviour(world, coded, Agreement(j.world), s, Stepper(j), u);
  }
}
