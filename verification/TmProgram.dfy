/** The whole TM-1 listing: reading it back gives every world its tables and its code, every jump
    in it has one place to go, and each world runs as its state graph does. */
module TmProgram {
  import opened Options
  import opened Simulation
  import opened TmMachine
  import opened LineEmitter
  import I = TmIr
  import L = TmListing
  import opened TmCodegen
  import opened TmEmission

  // ----- every destination is one printed label -----

  /** A line that names a label of its own world. */
  function Destination(line: L.Line): Option<string>
  {
    if line.Jmp? || line.Jm? then Some(line.dest) else None
  }

  lemma DestinationNamed(blocks: seq<Block>, b: nat, q: nat)
    requires b < |blocks| && q < |TermLines(blocks, b)| && Destination(TermLines(blocks, b)[q]).Some?
    ensures Destination(TermLines(blocks, b)[q]).value in NamedBy(blocks, b)
  {
    hide IsNext;
  }

  lemma NamedIsKnown(w: I.IrWorld, p: WorldPlan, b: nat, name: string)
    requires Closed(w, p) && b < |p.blocks| && name in NamedBy(p.blocks, b)
    ensures Known(w, p.blocks, name)
  {
    hide Known, IsNext, TargetsKnown;
    assert DestKnown(w, p.blocks, p.blocks[b].term);
  }

  /** A label that names exactly one block, whose first line carries it. */
  ghost predicate NamesOneBlock(p: WorldPlan, name: string)
  {
    exists b :: NamesBlock(p, name, b)
  }

  ghost predicate NamesBlock(p: WorldPlan, name: string, b: nat)
  {
    && b < |p.blocks| && p.blocks[b].name == name
    && L.FindLabel(Code(p), 0, name) == Some(StartPos(p, b))
    && forall c | 0 <= c < |p.blocks| && p.blocks[c].name == name :: c == b
  }

  lemma PrintedNames(j: Job, name: string)
    requires Ready(j) && Known(j.world, j.plan.blocks, name) && name in Printed(j.plan)
    ensures NamesOneBlock(j.plan, name)
  {
    hide Ready, Printed, Code, StartPos, Serves, CalleeKeeps, L.FindLabel, ImplementsAt;
    PlanFacts(j);
    var b: nat;
    if IsBlockName(j.plan.blocks, name) {
      b :| 0 <= b < |j.plan.blocks| && j.plan.blocks[b].name == name;
    } else {
      var i :| 0 <= i < |j.world.states| && j.world.states[i].name == name;
      StateBlock(j, i);
      b := BlockOf(j.world, j.plan, i);
      BlockInside(j.world, j.strip, i, j.plan, b);
    }
    LabelAddress(j.plan, b);
    assert NamesBlock(j.plan, name, b);
  }

  /** Every jump after a block, and every dispatch target, goes to the one block with its label. */
  lemma DestinationsResolve(j: Job)
    requires Ready(j)
    ensures forall b, q | 0 <= b < |j.plan.blocks| && 0 <= q < |TermLines(j.plan.blocks, b)|
                          && Destination(TermLines(j.plan.blocks, b)[q]).Some? ::
              NamesOneBlock(j.plan, Destination(TermLines(j.plan.blocks, b)[q]).value)
    ensures forall k, m | 0 <= k < |j.plan.tables| && 0 <= m < |j.plan.tables[k].targets| ::
              NamesOneBlock(j.plan, j.plan.tables[k].targets[m])
  {
    hide Ready, Printed, TermLines, NamesOneBlock, Known, DestKnown, Destination, NamedBy;
    PlanCloses(j);
    forall b, q | 0 <= b < |j.plan.blocks| && 0 <= q < |TermLines(j.plan.blocks, b)|
                  && Destination(TermLines(j.plan.blocks, b)[q]).Some?
      ensures NamesOneBlock(j.plan, Destination(TermLines(j.plan.blocks, b)[q]).value)
    {
      var name := Destination(TermLines(j.plan.blocks, b)[q]).value;
      DestinationNamed(j.plan.blocks, b, q);
      NamedIsKnown(j.world, j.plan, b, name);
      NamedPrinted(j.plan, b, name);
      PrintedNames(j, name);
    }
    forall k, m | 0 <= k < |j.plan.tables| && 0 <= m < |j.plan.tables[k].targets|
      ensures NamesOneBlock(j.plan, j.plan.tables[k].targets[m])
    {
      TargetPrinted(j.plan, j.plan.tables[k], m);
      PrintedNames(j, j.plan.tables[k].targets[m]);
    }
  }

  lemma PlanCloses(j: Job)
    requires Ready(j)
    ensures Closed(j.world, j.plan)
  {
    hide Closed, Generable;
  }

  // ----- reading the tables back -----

  ghost predicate Slice<T>(all: seq<T>, at: nat, part: seq<T>)
  {
    at + |part| <= |all| && forall q | 0 <= q < |part| :: all[at + q] == part[q]
  }

  lemma SliceSplit<T>(all: seq<T>, at: nat, a: seq<T>, b: seq<T>)
    requires Slice(all, at, a + b)
    ensures Slice(all, at, a) && Slice(all, at + |a|, b)
  {
    forall q | 0 <= q < |a| ensures all[at + q] == a[q] {
      assert all[at + q] == (a + b)[q];
    }
    forall q | 0 <= q < |b| ensures all[at + |a| + q] == b[q] {
      assert all[at + (|a| + q)] == (a + b)[|a| + q];
    }
  }

  function RowLines(t: L.Table): seq<L.Line>
  {
    seq(|t.rows|, (k: nat) requires k < |t.rows| => L.Row(if k == 0 then Some(t.n) else None, t.rows[k]))
  }

  /** Reading the first k rows of a table. */
  lemma {:induction false} RowsRead(lines: seq<L.Line>, at: nat, t: L.Table, k: nat)
    requires 0 < k <= |t.rows| && Slice(lines, at, RowLines(t))
    ensures L.TablesIn(lines, at + k) == L.TablesIn(lines, at) + [L.Table(t.n, t.rows[..k], [])]
  {
    var ts := L.TablesIn(lines, at);
    assert lines[at + (k - 1)] == RowLines(t)[k - 1];
    if k == 1 {
      assert t.rows[..1] == [t.rows[0]];
    } else {
      RowsRead(lines, at, t, k - 1);
      assert t.rows[..k] == t.rows[..k - 1] + [t.rows[k - 1]];
    }
  }

  lemma TableRead(lines: seq<L.Line>, at: nat, t: L.Table)
    requires t.rows != [] && Slice(lines, at, TableLines(t))
    ensures L.TablesIn(lines, at + |TableLines(t)|) == L.TablesIn(lines, at) + [t]
  {
    var rows := RowLines(t);
    var rest := if t.targets != [] then [L.Targets(t.n, t.targets)] else [];
    assert TableLines(t) == rows + rest;
    SliceSplit(lines, at, rows, rest);
    RowsRead(lines, at, t, |t.rows|);
    assert t.rows[..|t.rows|] == t.rows;
    if t.targets != [] {
      assert lines[at + |rows| + 0] == rest[0];
    }
  }

  lemma {:induction false} TablesRead(lines: seq<L.Line>, at: nat, tables: seq<L.Table>, n: nat)
    requires n <= |tables| && Slice(lines, at, TablesLines(tables, n))
    requires forall k | 0 <= k < n :: tables[k].rows != []
    ensures L.TablesIn(lines, at + |TablesLines(tables, n)|) == L.TablesIn(lines, at) + tables[..n]
  {
    hide TableLines, L.TablesIn, Slice;
    if n > 0 {
      SliceSplit(lines, at, TablesLines(tables, n - 1), TableLines(tables[n - 1]));
      TablesRead(lines, at, tables, n - 1);
      TableRead(lines, at + |TablesLines(tables, n - 1)|, tables[n - 1]);
      assert tables[..n] == tables[..n - 1] + [tables[n - 1]];
    }
  }

  predicate IsTableLine(line: L.Line)
  {
    line.Row? || line.Targets?
  }

  lemma {:induction false} TablesUntouched(lines: seq<L.Line>, a: nat, b: nat)
    requires a <= b <= |lines| && forall q | a <= q < b :: !IsTableLine(lines[q])
    ensures L.TablesIn(lines, b) == L.TablesIn(lines, a)
  {
    if a < b {
      TablesUntouched(lines, a, b - 1);
    }
  }

  // ----- code lines -----

  predicate IsCodeLine(line: L.Line)
  {
    !IsTableLine(line) && !line.Func? && !line.Routine?
  }

  lemma BlockCode(p: WorldPlan, b: nat)
    requires BodiesPlain(p.blocks) && b < |p.blocks|
    ensures forall q | 0 <= q < |BlockLines(p, b)| :: IsCodeLine(BlockLines(p, b)[q].text)
  {
    var body := p.blocks[b].body;
    assert IsPlain(body);
    TermCode(p.blocks, b);
    hide TermLines, Printed;
  }

  lemma TermCode(blocks: seq<Block>, b: nat)
    requires b < |blocks|
    ensures forall q | 0 <= q < |TermLines(blocks, b)| :: IsCodeLine(TermLines(blocks, b)[q])
  {
  }

  lemma {:induction false} CodeLinesCode(p: WorldPlan, n: nat)
    requires BodiesPlain(p.blocks) && n <= |p.blocks|
    ensures forall q | 0 <= q < |CodeLines(p, n)| :: IsCodeLine(CodeLines(p, n)[q].text)
  {
    hide BlockLines, IsCodeLine, BodiesPlain;
    if n > 0 {
      CodeLinesCode(p, n - 1);
      BlockCode(p, n - 1);
    }
  }

  lemma CodeIsCode(p: WorldPlan)
    requires BodiesPlain(p.blocks)
    ensures forall q | 0 <= q < |Code(p)| :: IsCodeLine(Code(p)[q])
  {
    hide CodeLines, IsCodeLine, BodiesPlain;
    CodeLinesCode(p, |p.blocks|);
  }

  // ----- reading the code back -----

  lemma {:induction false} CodeRead(lines: seq<L.Line>, at: nat, name: string, before: seq<L.Section>, code: seq<L.Line>, n: nat)
    requires n <= |code| && Slice(lines, at, code) && forall q | 0 <= q < |code| :: IsCodeLine(code[q])
    requires L.SectionsIn(lines, at) == before + [L.Section(name, [])]
    ensures L.SectionsIn(lines, at + n) == before + [L.Section(name, code[..n])]
  {
    if n > 0 {
      CodeRead(lines, at, name, before, code, n - 1);
      assert lines[at + (n - 1)] == code[n - 1];
      assert code[..n] == code[..n - 1] + [code[n - 1]];
    }
  }

  function WorldText(w: I.IrWorld, p: WorldPlan): seq<L.Line>
  {
    [L.Routine(w.name, w.arity, w.cards), L.Func(w.name, w.local)] + Code(p)
  }

  lemma WorldRead(lines: seq<L.Line>, at: nat, w: I.IrWorld, p: WorldPlan)
    requires BodiesPlain(p.blocks) && Slice(lines, at, WorldText(w, p))
    ensures L.SectionsIn(lines, at + |WorldText(w, p)|) == L.SectionsIn(lines, at) + [L.Section(w.name, Code(p))]
    ensures forall q | at <= q < at + |WorldText(w, p)| :: !IsTableLine(lines[q])
  {
    hide Code, BodiesPlain;
    CodeIsCode(p);
    var head := [L.Routine(w.name, w.arity, w.cards), L.Func(w.name, w.local)];
    SliceSplit(lines, at, head, Code(p));
    assert lines[at + 0] == head[0] && lines[at + 1] == head[1];
    assert L.SectionsIn(lines, at + 1) == L.SectionsIn(lines, at);
    CodeRead(lines, at + 2, w.name, L.SectionsIn(lines, at), Code(p), |Code(p)|);
    assert Code(p)[..|Code(p)|] == Code(p);
    forall q | at <= q < at + |WorldText(w, p)| ensures !IsTableLine(lines[q]) {
      if q >= at + 2 {
        assert lines[at + 2 + (q - at - 2)] == Code(p)[q - at - 2];
      }
    }
  }

  function WorldTexts(ws: seq<I.IrWorld>, plans: seq<WorldPlan>, n: nat): seq<L.Line>
    requires n <= |ws| == |plans|
  {
    if n == 0 then [] else WorldTexts(ws, plans, n - 1) + WorldText(ws[n - 1], plans[n - 1])
  }

  function SectionsOf(ws: seq<I.IrWorld>, plans: seq<WorldPlan>, n: nat): (r: seq<L.Section>)
    requires n <= |ws| == |plans|
    ensures |r| == n
    ensures forall k | 0 <= k < n :: r[k] == L.Section(ws[k].name, Code(plans[k]))
  {
    seq(n, (k: nat) requires k < n <= |ws| == |plans| => L.Section(ws[k].name, Code(plans[k])))
  }

  lemma {:induction false} WorldsRead(lines: seq<L.Line>, at: nat, ws: seq<I.IrWorld>, plans: seq<WorldPlan>, n: nat)
    requires n <= |ws| == |plans| && Slice(lines, at, WorldTexts(ws, plans, n))
    requires forall k | 0 <= k < |plans| :: BodiesPlain(plans[k].blocks)
    requires L.SectionsIn(lines, at) == []
    ensures L.SectionsIn(lines, at + |WorldTexts(ws, plans, n)|) == SectionsOf(ws, plans, n)
    ensures forall q | at <= q < at + |WorldTexts(ws, plans, n)| :: !IsTableLine(lines[q])
  {
    hide L.SectionsIn, WorldText, Code, IsTableLine, BodiesPlain;
    if n > 0 {
      SliceSplit(lines, at, WorldTexts(ws, plans, n - 1), WorldText(ws[n - 1], plans[n - 1]));
      WorldsRead(lines, at, ws, plans, n - 1);
      WorldRead(lines, at + |WorldTexts(ws, plans, n - 1)|, ws[n - 1], plans[n - 1]);
    }
  }

  // ----- the listing as text -----

  lemma TextsAppend<T>(a: seq<Generated<T>>, b: seq<Generated<T>>)
    ensures Texts(a + b) == Texts(a) + Texts(b)
  {
  }

  lemma TextsFrom<T>(lines: seq<T>, source: nat)
    ensures Texts(From(lines, source)) == lines
  {
  }

  lemma FuncText(w: I.IrWorld, p: WorldPlan)
    ensures Texts(FuncLines(w, p)) == WorldText(w, p)
  {
    hide CodeLines;
  }

  lemma {:induction false} CodeSectionText(ws: seq<I.IrWorld>, plans: seq<WorldPlan>, n: nat)
    requires n <= |ws| == |plans|
    ensures Texts(CodeSection(ws, plans, n)) == WorldTexts(ws, plans, n)
  {
    hide FuncLines, WorldText, Texts;
    if n > 0 {
      CodeSectionText(ws, plans, n - 1);
      TextsAppend(CodeSection(ws, plans, n - 1), FuncLines(ws[n - 1], plans[n - 1]));
      FuncText(ws[n - 1], plans[n - 1]);
    } else {
      NoTexts<L.Line>();
    }
  }

  lemma NoTexts<T>()
    ensures Texts<T>([]) == []
  {
  }

  lemma ProgramText(ws: seq<I.IrWorld>, plans: seq<WorldPlan>)
    requires |ws| == |plans|
    ensures Texts(ProgramLines(ws, plans)) == TableSection(AllTables(plans, |plans|)) + WorldTexts(ws, plans, |ws|)
  {
    hide TableSection, Texts, From, CodeSection, WorldTexts;
    var tables := TableSection(AllTables(plans, |plans|));
    TextsAppend(From(tables, 0), CodeSection(ws, plans, |ws|));
    TextsFrom(tables, 0);
    CodeSectionText(ws, plans, |ws|);
  }

  lemma PlanShape(w: I.IrWorld, strip: bool, first: nat, p: WorldPlan)
    requires PlanOf(w, strip, first, p)
    ensures Numbered(p.tables, first) && BodiesPlain(p.blocks)
  {
  }

  lemma NumberedAppend(a: seq<L.Table>, b: seq<L.Table>)
    requires Numbered(a, 0) && Numbered(b, |a|)
    ensures Numbered(a + b, 0)
  {
  }

  lemma {:induction false} AllNumbered(ws: seq<I.IrWorld>, strip: bool, plans: seq<WorldPlan>, n: nat)
    requires Planned(ws, strip, plans) && n <= |plans|
    ensures Numbered(AllTables(plans, n), 0)
    ensures forall k | 0 <= k < |plans| :: BodiesPlain(plans[k].blocks)
  {
    hide PlanOf, BodiesPlain, Numbered;
    forall k | 0 <= k < |plans| ensures BodiesPlain(plans[k].blocks) {
      PlanShape(ws[k], strip, |AllTables(plans, k)|, plans[k]);
    }
    if n == 0 {
      NoneNumbered();
    } else {
      AllNumbered(ws, strip, plans, n - 1);
      PlanShape(ws[n - 1], strip, |AllTables(plans, n - 1)|, plans[n - 1]);
      NumberedAppend(AllTables(plans, n - 1), plans[n - 1].tables);
    }
  }

  lemma NoneNumbered()
    ensures Numbered([], 0)
  {
  }

  lemma {:induction false} NoSections(lines: seq<L.Line>, n: nat)
    requires n <= |lines| && forall q | 0 <= q < n :: !lines[q].Func?
    ensures L.SectionsIn(lines, n) == []
  {
    if n > 0 {
      NoSections(lines, n - 1);
    }
  }

  lemma {:induction false} TablesLinesKind(tables: seq<L.Table>, n: nat)
    requires n <= |tables|
    ensures forall q | 0 <= q < |TablesLines(tables, n)| :: !TablesLines(tables, n)[q].Func?
  {
    if n > 0 {
      TablesLinesKind(tables, n - 1);
    }
  }

  lemma TableSectionKind(tables: seq<L.Table>)
    ensures forall q | 0 <= q < |TableSection(tables)| :: !TableSection(tables)[q].Func?
  {
    hide TablesLines;
    TablesLinesKind(tables, |tables|);
  }

  lemma TableSectionRead(lines: seq<L.Line>, tables: seq<L.Table>)
    requires Slice(lines, 0, TableSection(tables)) && Numbered(tables, 0)
    ensures L.TablesIn(lines, |TableSection(tables)|) == tables
  {
    hide TablesLines;
    var all := TablesLines(tables, |tables|);
    if tables == [] {
      NoTables(lines);
    } else {
      SliceSplit(lines, 0, [L.SectionTables] + all, [L.SectionCode]);
      SliceSplit(lines, 0, [L.SectionTables], all);
      NoTables(lines);
      assert lines[0 + 0] == [L.SectionTables][0] && lines[1 + |all| + 0] == [L.SectionCode][0];
      TablesUntouched(lines, 0, 1);
      TablesRead(lines, 1, tables, |tables|);
      assert tables[..|tables|] == tables;
      TablesUntouched(lines, 1 + |all|, 2 + |all|);
    }
  }

  lemma NoTables(lines: seq<L.Line>)
    ensures L.TablesIn(lines, 0) == []
  {
  }

  /** Reading a whole listing gives back all tables and each world's code. */
  lemma ListingReads(ws: seq<I.IrWorld>, strip: bool, plans: seq<WorldPlan>)
    requires Planned(ws, strip, plans)
    ensures var lines := Texts(ProgramLines(ws, plans));
            && L.TablesIn(lines, |lines|) == AllTables(plans, |plans|)
            && L.SectionsIn(lines, |lines|) == SectionsOf(ws, plans, |ws|)
  {
    hide Texts, ProgramLines, TableSection, AllTables, WorldTexts, L.TablesIn, L.SectionsIn, BodiesPlain, SectionsOf, PlanOf;
    var lines := Texts(ProgramLines(ws, plans));
    var tables := TableSection(AllTables(plans, |plans|));
    var code := WorldTexts(ws, plans, |ws|);
    ProgramText(ws, plans);
    AllNumbered(ws, strip, plans, |plans|);
    SliceSplit(lines, 0, tables, code);
    TableSectionKind(AllTables(plans, |plans|));
    NoSections(lines, |tables|);
    TableSectionRead(lines, AllTables(plans, |plans|));
    WorldsRead(lines, |tables|, ws, plans, |ws|);
    TablesUntouched(lines, |tables|, |lines|);
  }

  // ----- serving tables -----

  lemma {:induction false} NumberFound(tables: seq<L.Table>, from: nat, k: nat)
    requires Numbered(tables, 0) && from <= k < |tables|
    ensures L.FindTable(tables, from, tables[k].n) == Some(tables[k])
    decreases k - from
  {
    if from < k {
      NumberFound(tables, from + 1, k);
    }
  }

  lemma {:induction false} TableWithin(plans: seq<WorldPlan>, k: nat, n: nat, t: L.Table)
    requires k < n <= |plans| && t in plans[k].tables
    ensures t in AllTables(plans, n)
  {
    if k < n - 1 {
      TableWithin(plans, k, n - 1, t);
    }
  }

  lemma TablesServe(ws: seq<I.IrWorld>, strip: bool, plans: seq<WorldPlan>, k: nat)
    requires Planned(ws, strip, plans) && k < |plans|
    ensures Serves(AllTables(plans, |plans|), plans[k])
  {
    hide PlanOf, AllTables, L.FindTable, BodiesPlain;
    AllNumbered(ws, strip, plans, |plans|);
    var all := AllTables(plans, |plans|);
    forall t | t in plans[k].tables ensures L.FindTable(all, 0, t.n) == Some(t) {
      TableWithin(plans, k, |plans|, t);
      var m :| 0 <= m < |all| && all[m] == t;
      NumberFound(all, 0, m);
    }
  }

  /** The k-th world's code as the processor finds it in the listing. */
  ghost function ReadBack(lines: seq<L.Line>, k: nat, callee: I.Callee): L.State -> Step<L.State, Ending>
  {
    var sections := L.SectionsIn(lines, |lines|);
    L.ListingStepper(L.TablesIn(lines, |lines|), if k < |sections| then sections[k].code else [], callee)
  }

  /** The whole generator: from every world's first line, the listing behaves as the world's state
      graph, for all data inside the alphabets and whatever the called routines do. */
  lemma GeneratorPreservesBehaviour(ws: seq<I.IrWorld>, strip: bool, plans: seq<WorldPlan>, k: nat, callee: I.Callee,
                                    tuple: seq<nat>, mr: nat, d: Data)
    requires Planned(ws, strip, plans) && k < |ws| && Generable(ws[k])
    requires CalleeKeeps(callee, ws[k].cards) && Within(d, ws[k].cards)
    ensures ws[k].cards != []
    ensures EndsAlike(I.WorldStepper(ws[k], strip, callee), I.State(ws[k].entry, d),
                      ReadBack(Texts(ProgramLines(ws, plans)), k, callee), L.State(0, tuple, mr, d), Agreement(ws[k]))
  {
    hide EndsAlike, Agreement, I.WorldStepper, L.ListingStepper, Generable, PlanOf, Serves, CalleeKeeps, Within, Code, AllTables,
      ProgramLines, Texts, L.SectionsIn, L.TablesIn;
    var j := Job(ws[k], strip, |AllTables(plans, k)|, plans[k], AllTables(plans, |plans|), callee);
    ListingReads(ws, strip, plans);
    TablesServe(ws, strip, plans, k);
    CodePreservesBehaviour(j, tuple, mr, d);
  }

  /** Where every missing match can show as one - no alphabet is too wide for a sentinel row, or every
      state has a rule - the endings are the same to the last detail. */
  lemma GeneratorPreservesEndings(ws: seq<I.IrWorld>, strip: bool, plans: seq<WorldPlan>, k: nat, callee: I.Callee,
                                  tuple: seq<nat>, mr: nat, d: Data, o: Ending)
    requires Planned(ws, strip, plans) && k < |ws| && Generable(ws[k])
    requires CalleeKeeps(callee, ws[k].cards) && Within(d, ws[k].cards)
    requires ws[k].cards != [] && ShowsNoMatch(ws[k])
    ensures Finishes(I.WorldStepper(ws[k], strip, callee), I.State(ws[k].entry, d), o)
       <==> Finishes(ReadBack(Texts(ProgramLines(ws, plans)), k, callee), L.State(0, tuple, mr, d), o)
  {
    hide Finishes, Diverges, I.WorldStepper, Planned, Generable, CalleeKeeps, Within, ProgramLines, Texts, ReadBack, ShowsNoMatch;
    GeneratorPreservesBehaviour(ws, strip, plans, k, callee, tuple, mr, d);
  }
}
