/** What a debugger and the linker rely on: every world's heading in order, and every line of a state or a
    rule mapped to the source line it stems from, kept from the rule as it is written. */
module TmTrace {
  import opened Options
  import opened LineEmitter
  import opened TmRules
  import opened TmSplice
  import opened TmGrafts
  import opened TmLowering
  import Ranges = TmRanges
  import Records = TmCalls
  import Key = TmGraftKey
  import I = TmIr
  import L = TmListing
  import G = TmCodegen

  // ----- from written rules to lowered ones -----

  ghost predicate AllFrom(rows: seq<Rule>, line: nat)
  {
    forall k | 0 <= k < |rows| :: rows[k].line == line
  }

  lemma {:induction false} RowsKeepLine(rule: Ranges.SourceRule, tapes: seq<Ranges.Glyphs>,
                                        combos: seq<seq<Ranges.Alternative>>, n: nat)
    requires Ranges.WidthsFit(rule, |tapes|) && n <= |combos| && Ranges.RowsOf(rule, tapes, combos, n).Ok?
    ensures AllFrom(Ranges.RowsOf(rule, tapes, combos, n).value, rule.line)
  {
    hide Ranges.WriteVector;
    if n > 0 {
      RowsKeepLine(rule, tapes, combos, n - 1);
    }
  }

  /** A rule's expanded rows stand on the rule's line. */
  lemma ExpandedOnLine(names: Records.Names, state: string, r: Records.WrittenRule, tapes: seq<Ranges.Glyphs>)
    requires Records.Rows(names, state, r, tapes).Ok?
    ensures AllFrom(Records.Rows(names, state, r, tapes).value, r.line)
  {
    hide Ranges.AllOptions, Ranges.RowsOf, Ranges.Product, Records.Lower;
    var rule := Records.RuleWith(r, Records.Lower(names, state, r.transition));
    var opts := Ranges.AllOptions(rule.pattern, tapes, |tapes|).value;
    RowsKeepLine(rule, tapes, Ranges.Product(opts, |opts|), |Ranges.Product(opts, |opts|)|);
  }

  /** A graph rule's host rows stand on the rule's line, wherever it is grafted. */
  lemma SplicedOnLine(rule: Rule, comp: Composite, arity: nat, remap: Transition -> Transition)
    requires Fits(rule, comp)
    ensures AllFrom(MapRule(rule, comp, arity, remap), rule.line)
  {
    hide Cartesian, PatternOf, WriteHole, HostWrite, HostMoves, Choices;
  }

  /** A graft's read traps stand on their state's line. */
  lemma {:induction false} TrapsOnLine(comp: Composite, arity: nat, line: nat, n: nat)
    requires n <= |comp| && forall k | 0 <= k < |comp| :: comp[k].phys < arity
    ensures AllFrom(TrapRows(comp, arity, line, n), line)
  {
    hide Holes;
    if n > 0 {
      TrapsOnLine(comp, arity, line, n - 1);
    }
  }

  /** A row of a spliced state stands on its rule's line; a read trap, like the state itself, on the line of the
      graph's state. */
  lemma {:induction false} MappedOnLines(rules: seq<Rule>, comp: Composite, arity: nat, remap: Transition -> Transition, n: nat)
    requires n <= |rules| && AllFit(rules, comp)
    ensures forall row | row in MapRules(rules, comp, arity, remap, n) :: exists k :: 0 <= k < n && row.line == rules[k].line
  {
    hide MapRule;
    if n > 0 {
      MappedOnLines(rules, comp, arity, remap, n - 1);
      var last := MapRule(rules[n - 1], comp, arity, remap);
      SplicedOnLine(rules[n - 1], comp, arity, remap);
      forall row | row in MapRules(rules, comp, arity, remap, n)
        ensures exists k :: 0 <= k < n && row.line == rules[k].line {
        if row in last {
          assert row.line == rules[n - 1].line;
        }
      }
    }
  }

  lemma StateSplicedOnLines(st: State, comp: Composite, arity: nat, cont: seq<Key.Bind>, params: seq<string>,
                            names: map<string, string>)
    requires Splicable(st.rules, comp, arity)
    ensures var host := Spliced(st, comp, arity, cont, params, names);
            && host.line == st.line
            && forall row | row in host.rules ::
                 (row.transition.TrapRead? && row.line == st.line) || exists k :: 0 <= k < |st.rules| && row.line == st.rules[k].line
  {
    hide MapRules, TrapRows;
    var remap := Remapping(cont, params, names);
    MappedOnLines(st.rules, comp, arity, remap, |st.rules|);
    TrapsOnLine(comp, arity, st.line, |comp|);
    TrapsRead(comp, arity, st.line, |comp|);
  }

  lemma {:induction false} TrapsRead(comp: Composite, arity: nat, line: nat, n: nat)
    requires n <= |comp| && forall k | 0 <= k < |comp| :: comp[k].phys < arity
    ensures forall row | row in TrapRows(comp, arity, line, n) :: row.transition.TrapRead?
  {
    hide Holes;
    if n > 0 {
      TrapsRead(comp, arity, line, n - 1);
    }
  }

  lemma {:induction false} RulesLowered(gx: Expansion, params: seq<string>, calls: Calls, rules: seq<Rule>, n: nat)
    requires n <= |rules| && LowerRules(gx, params, calls, rules, n).Fine?
    ensures var out := LowerRules(gx, params, calls, rules, n).value;
            |out| == n && forall k | 0 <= k < n :: RuleFrom(rules[k], out[k])
  {
    hide LowerRule, RuleFrom;
    if n > 0 {
      RulesLowered(gx, params, calls, rules, n - 1);
      OneRule(gx, params, calls, rules[n - 1]);
    }
  }

  /** A lowered rule: vectors that do nothing are left out, traps are marked as the compiler's own. */
  ghost predicate RuleFrom(r: Rule, out: I.IrRule)
  {
    && out.line == r.line && out.pattern == r.pattern && out.debugger == r.debugger && !out.direct
    && (if forall k | 0 <= k < |r.write| :: r.write[k].Keep? then out.write.None? else out.write == Some(r.write))
    && (if forall k | 0 <= k < |r.moves| :: r.moves[k].Stay? then out.moves.None? else out.moves == Some(r.moves))
    && (out.synthesized <==> r.transition.TrapRead? || r.transition.TrapWrite?)
  }

  lemma OneRule(gx: Expansion, params: seq<string>, calls: Calls, r: Rule)
    requires LowerRule(gx, params, calls, r).Fine?
    ensures RuleFrom(r, LowerRule(gx, params, calls, r).value)
  {
    hide IdOf;
  }

  /** A lowered state is the k-th one: its name and line, its rules in order, each on its own line. */
  ghost predicate StateFrom(st: State, k: nat, out: I.IrState)
  {
    && out.id == k && out.name == st.name && out.line == st.line && |out.rules| == |st.rules|
    && forall q | 0 <= q < |st.rules| :: RuleFrom(st.rules[q], out.rules[q])
  }

  lemma {:induction false} StatesLowered(gx: Expansion, params: seq<string>, calls: Calls, n: nat)
    requires n <= |gx.states| && LowerStates(gx, params, calls, n).Fine?
    ensures var out := LowerStates(gx, params, calls, n).value;
            |out| == n && forall k | 0 <= k < n :: StateFrom(gx.states[k], k, out[k])
  {
    hide LowerRules, StateFrom;
    if n > 0 {
      StatesLowered(gx, params, calls, n - 1);
      OneLowered(gx, params, calls, n - 1);
    }
  }

  lemma OneLowered(gx: Expansion, params: seq<string>, calls: Calls, k: nat)
    requires k < |gx.states| && LowerRules(gx, params, calls, gx.states[k].rules, |gx.states[k].rules|).Fine?
    ensures StateFrom(gx.states[k], k,
                      I.IrState(k, gx.states[k].name, gx.states[k].line,
                                LowerRules(gx, params, calls, gx.states[k].rules, |gx.states[k].rules|).value, I.Table))
  {
    hide LowerRules, RuleFrom;
    RulesLowered(gx, params, calls, gx.states[k].rules, |gx.states[k].rules|);
  }

  /** Lowering keeps a world's heading and, in order, its states and rules with their lines. */
  lemma WorldLowered(h: Header, gx: Expansion, params: seq<string>, calls: Calls)
    requires gx.entry in NamesOf(gx.states) && LowerWorld(h, gx, params, calls).Fine?
    ensures var w := LowerWorld(h, gx, params, calls).value;
            && w.name == h.name && w.cards == h.cards && w.arity == |h.cards| && w.local == h.local && w.line == h.line
            && |w.states| == |gx.states| && forall k | 0 <= k < |w.states| :: StateFrom(gx.states[k], k, w.states[k])
  {
    hide LowerStates, StateFrom;
    StatesLowered(gx, params, calls, |gx.states|);
  }

  // ----- from plans to lines -----

  /** Everything in a block stands on one source line. */
  ghost predicate OnLine(b: G.Block, line: nat)
  {
    b.termLine == line && forall k | 0 <= k < |b.body| :: b.body[k].line == line
  }

  /** A rule's block stands on the rule's line, a state's head on the state's. */
  lemma BlocksOnLine(w: I.IrWorld, r: I.IrRule, strip: bool, name: string, force: bool, st: I.IrState, n: nat, term: G.Term)
    ensures OnLine(G.RuleBlock(w, r, strip, name, force), r.line) && OnLine(G.Head(st, n, term, force), st.line)
  {
    hide G.TermOf, G.Vector;
  }

  /** The source line of a state's first block: its only rule's, if it runs without a match, else its own. */
  function HeadLine(st: I.IrState): nat
  {
    if st.rules != [] && I.IsStraight(st.rules) then st.rules[0].line else st.line
  }

  lemma StateOnLine(w: I.IrWorld, strip: bool, p: G.WorldPlan, i: nat) returns (b: nat)
    requires w.cards != [] && i < |w.states| && G.Implements(w, strip, i, p)
    ensures b < |p.blocks| && G.ImplementsAt(w, strip, i, p, b) && OnLine(p.blocks[b], HeadLine(w.states[i]))
  {
    hide G.RuleBody, G.TermOf, G.EmptyRow, G.OrderedRows, G.TargetsLead, G.LeadsTo, I.IsStraight;
    b :| 0 <= b && G.ImplementsAt(w, strip, i, p, b);
    var st := w.states[i];
    if st.rules != [] {
      BlocksOnLine(w, st.rules[0], strip, st.name, false, st, 0, G.Return);
    }
    forall n, term, force ensures OnLine(G.Head(st, n, term, force), st.line) {
    }
  }

  /** A block's lines behind its label stand where the block does. */
  lemma LinesOnLine(p: G.WorldPlan, b: nat, line: nat)
    requires b < |p.blocks| && OnLine(p.blocks[b], line)
    ensures var lines := G.BlockLines(p, b);
            |G.LabelLines(p, b)| <= |lines| && forall j | |G.LabelLines(p, b)| <= j < |lines| :: lines[j].source == line
  {
    hide G.LabelLines, G.TermLines;
  }

  /** Where one piece of the listing stands in the whole. */
  ghost predicate Stands<T>(whole: seq<T>, at: nat, part: seq<T>)
  {
    at + |part| <= |whole| && forall j | 0 <= j < |part| :: whole[at + j] == part[j]
  }

  lemma {:induction false} BlockPlaced(p: G.WorldPlan, b: nat, n: nat) returns (at: nat)
    requires b < n <= |p.blocks|
    ensures Stands(G.CodeLines(p, n), at, G.BlockLines(p, b))
  {
    hide G.BlockLines;
    if b == n - 1 {
      at := |G.CodeLines(p, n - 1)|;
    } else {
      at := BlockPlaced(p, b, n - 1);
    }
  }

  lemma {:induction false} WorldPlaced(ws: seq<I.IrWorld>, plans: seq<G.WorldPlan>, k: nat, n: nat) returns (at: nat)
    requires k < n <= |ws| == |plans|
    ensures Stands(G.CodeSection(ws, plans, n), at, G.FuncLines(ws[k], plans[k]))
  {
    hide G.FuncLines;
    if k == n - 1 {
      at := |G.CodeSection(ws, plans, n - 1)|;
    } else {
      at := WorldPlaced(ws, plans, k, n - 1);
    }
  }

  lemma StandsDeep<T>(whole: seq<T>, at: nat, part: seq<T>, inner: nat, piece: seq<T>)
    requires Stands(whole, at, part) && Stands(part, inner, piece)
    ensures Stands(whole, at + inner, piece)
  {
    forall j | 0 <= j < |piece| ensures whole[at + inner + j] == piece[j] {
      assert whole[at + (inner + j)] == part[inner + j];
    }
  }

  /** Line m of the listing, counted from zero, stems from a source line. */
  predicate Maps(lineMap: seq<(nat, nat)>, m: nat, line: nat)
  {
    (m + 1, line) in lineMap
  }

  lemma FuncCode(w: I.IrWorld, p: G.WorldPlan)
    ensures Stands(G.FuncLines(w, p), 2, G.CodeLines(p, |p.blocks|))
  {
    hide G.CodeLines;
  }

  lemma SectionPlaced(ws: seq<I.IrWorld>, plans: seq<G.WorldPlan>) returns (at: nat)
    requires |ws| == |plans|
    ensures Stands(G.ProgramLines(ws, plans), at, G.CodeSection(ws, plans, |ws|))
  {
    hide G.CodeSection, G.TableSection;
    at := |From(G.TableSection(G.AllTables(plans, |plans|)), 0)|;
  }

  lemma BlockInProgram(ws: seq<I.IrWorld>, plans: seq<G.WorldPlan>, k: nat, b: nat) returns (at: nat)
    requires k < |ws| == |plans| && b < |plans[k].blocks|
    ensures Stands(G.ProgramLines(ws, plans), at, G.BlockLines(plans[k], b))
  {
    hide Stands, G.ProgramLines, G.CodeSection, G.FuncLines, G.CodeLines, G.BlockLines;
    var p, lines, section := plans[k], G.ProgramLines(ws, plans), G.CodeSection(ws, plans, |ws|);
    var inCode := BlockPlaced(p, b, |p.blocks|);
    FuncCode(ws[k], p);
    StandsDeep(G.FuncLines(ws[k], p), 2, G.CodeLines(p, |p.blocks|), inCode, G.BlockLines(p, b));
    var inSection := WorldPlaced(ws, plans, k, |ws|);
    StandsDeep(section, inSection, G.FuncLines(ws[k], p), 2 + inCode, G.BlockLines(p, b));
    var start := SectionPlaced(ws, plans);
    StandsDeep(lines, start, section, inSection + (2 + inCode), G.BlockLines(p, b));
    at := start + (inSection + (2 + inCode));
  }

  /** Every line of a block, behind its label, is in the line map with the block's source line. */
  lemma BlockTold(ws: seq<I.IrWorld>, plans: seq<G.WorldPlan>, k: nat, b: nat, line: nat) returns (at: nat)
    requires k < |ws| == |plans| && b < |plans[k].blocks| && OnLine(plans[k].blocks[b], line) && line != 0
    ensures var lines, block := G.ProgramLines(ws, plans), G.BlockLines(plans[k], b);
            && Stands(lines, at, block)
            && forall m | at + |G.LabelLines(plans[k], b)| <= m < at + |block| :: Maps(LineMap(lines, 0, |lines|), m, line)
  {
    hide G.ProgramLines, G.BlockLines, LineMap, G.LabelLines;
    at := BlockInProgram(ws, plans, k, b);
    LinesOnLine(plans[k], b, line);
    AllMapped(G.ProgramLines(ws, plans), at, G.BlockLines(plans[k], b), |G.LabelLines(plans[k], b)|, line);
  }

  lemma AllMapped(lines: seq<Generated<L.Line>>, at: nat, block: seq<Generated<L.Line>>, from: nat, line: nat)
    requires Stands(lines, at, block) && line != 0 && forall j | from <= j < |block| :: block[j].source == line
    ensures forall m | at + from <= m < at + |block| :: Maps(LineMap(lines, 0, |lines|), m, line)
  {
    hide LineMap;
    LineMapExact(lines, 0, |lines|);
    forall m | at + from <= m < at + |block| ensures Maps(LineMap(lines, 0, |lines|), m, line) {
      assert lines[at + (m - at)] == block[m - at];
    }
  }

  // ----- headings -----

  predicate IsHeading(l: L.Line)
  {
    l.Routine? || l.Func?
  }

  function Headings(lines: seq<Generated<L.Line>>, n: nat): seq<Generated<L.Line>>
    requires n <= |lines|
  {
    if n == 0 then [] else Headings(lines, n - 1) + (if IsHeading(lines[n - 1].text) then [lines[n - 1]] else [])
  }

  /** What a world is announced as. */
  function HeadingsOf(ws: seq<I.IrWorld>, n: nat): seq<Generated<L.Line>>
    requires n <= |ws|
  {
    if n == 0 then []
    else
      var w := ws[n - 1];
      HeadingsOf(ws, n - 1) + [Generated(L.Routine(w.name, w.arity, w.cards), 0), Generated(L.Func(w.name, w.local), w.line)]
  }

  lemma {:induction false} HeadingsPrefix(a: seq<Generated<L.Line>>, b: seq<Generated<L.Line>>, n: nat)
    requires n <= |a|
    ensures Headings(a + b, n) == Headings(a, n)
  {
    if n > 0 {
      HeadingsPrefix(a, b, n - 1);
    }
  }

  lemma {:induction false} HeadingsJoin(a: seq<Generated<L.Line>>, b: seq<Generated<L.Line>>, n: nat)
    requires n <= |b|
    ensures Headings(a + b, |a| + n) == Headings(a, |a|) + Headings(b, n)
  {
    if n == 0 {
      HeadingsPrefix(a, b, |a|);
    } else {
      HeadingsJoin(a, b, n - 1);
      assert (a + b)[|a| + n - 1] == b[n - 1];
    }
  }

  lemma {:induction false} NoHeadings(lines: seq<Generated<L.Line>>, n: nat)
    requires n <= |lines| && forall k | 0 <= k < |lines| :: !IsHeading(lines[k].text)
    ensures Headings(lines, n) == []
  {
    if n > 0 {
      NoHeadings(lines, n - 1);
    }
  }

  lemma BlockHasNone(p: G.WorldPlan, b: nat)
    requires b < |p.blocks| && G.IsPlain(p.blocks[b].body)
    ensures forall k | 0 <= k < |G.BlockLines(p, b)| :: !IsHeading(G.BlockLines(p, b)[k].text)
  {
    hide G.Printed;
  }

  lemma {:induction false} CodeHasNone(p: G.WorldPlan, n: nat)
    requires n <= |p.blocks| && G.BodiesPlain(p.blocks)
    ensures forall k | 0 <= k < |G.CodeLines(p, n)| :: !IsHeading(G.CodeLines(p, n)[k].text)
  {
    hide G.BlockLines, IsHeading, G.IsPlain;
    if n > 0 {
      CodeHasNone(p, n - 1);
      BlockHasNone(p, n - 1);
    }
  }

  lemma {:induction false} TablesHaveNone(tables: seq<L.Table>, n: nat)
    requires n <= |tables|
    ensures forall k | 0 <= k < |G.TablesLines(tables, n)| :: !IsHeading(G.TablesLines(tables, n)[k])
  {
    if n > 0 {
      TablesHaveNone(tables, n - 1);
    }
  }

  lemma FuncHeadings(w: I.IrWorld, p: G.WorldPlan)
    requires G.BodiesPlain(p.blocks)
    ensures var lines := G.FuncLines(w, p);
            Headings(lines, |lines|) == [Generated(L.Routine(w.name, w.arity, w.cards), 0),
                                         Generated(L.Func(w.name, w.local), w.line)]
  {
    hide G.CodeLines, G.BodiesPlain, Headings;
    var head := [Generated(L.Routine(w.name, w.arity, w.cards), 0), Generated(L.Func(w.name, w.local), w.line)];
    var code := G.CodeLines(p, |p.blocks|);
    CodeHasNone(p, |p.blocks|);
    NoHeadings(code, |code|);
    TwoHeadings(head);
    HeadingsJoin(head, code, |code|);
    assert |head + code| == |head| + |code|;
  }

  lemma {:induction false} SectionHeadings(ws: seq<I.IrWorld>, plans: seq<G.WorldPlan>, n: nat)
    requires n <= |ws| == |plans| && forall k | 0 <= k < |plans| :: G.BodiesPlain(plans[k].blocks)
    ensures var lines := G.CodeSection(ws, plans, n); Headings(lines, |lines|) == HeadingsOf(ws, n)
  {
    hide G.FuncLines, G.BodiesPlain, Headings;
    if n > 0 {
      SectionHeadings(ws, plans, n - 1);
      FuncHeadings(ws[n - 1], plans[n - 1]);
      var lines := G.FuncLines(ws[n - 1], plans[n - 1]);
      HeadingsJoin(G.CodeSection(ws, plans, n - 1), lines, |lines|);
    } else {
      NoHeadings([], 0);
    }
  }

  lemma TwoHeadings(head: seq<Generated<L.Line>>)
    requires |head| == 2 && IsHeading(head[0].text) && IsHeading(head[1].text)
    ensures Headings(head, 2) == head
  {
    assert Headings(head, 1) == [] + [head[0]];
  }

  lemma PlainBodies(ws: seq<I.IrWorld>, strip: bool, plans: seq<G.WorldPlan>)
    requires G.Planned(ws, strip, plans)
    ensures |plans| == |ws| && forall k | 0 <= k < |plans| :: G.BodiesPlain(plans[k].blocks)
  {
    hide G.BodiesPlain, G.Implements, G.NamesApart, G.Closed, G.Numbered, G.AllTables;
    forall k | 0 <= k < |plans| ensures G.BodiesPlain(plans[k].blocks) {
      assert G.PlanOf(ws[k], strip, |G.AllTables(plans, k)|, plans[k]);
    }
  }

  lemma TableSectionHasNone(tables: seq<L.Table>)
    ensures var first := From(G.TableSection(tables), 0); Headings(first, |first|) == []
  {
    hide G.TablesLines, Headings;
    TablesHaveNone(tables, |tables|);
    var first := From(G.TableSection(tables), 0);
    NoHeadings(first, |first|);
  }

  /** The listing announces every world once, in order, with its name, tapes, visibility and source line. */
  lemma ProgramHeadings(ws: seq<I.IrWorld>, strip: bool, plans: seq<G.WorldPlan>)
    requires G.Planned(ws, strip, plans)
    ensures var lines := G.ProgramLines(ws, plans); Headings(lines, |lines|) == HeadingsOf(ws, |ws|)
  {
    hide G.CodeSection, G.BodiesPlain, G.Planned, G.TableSection, G.AllTables, Headings, HeadingsOf, From;
    PlainBodies(ws, strip, plans);
    var first, code := From(G.TableSection(G.AllTables(plans, |plans|)), 0), G.CodeSection(ws, plans, |ws|);
    TableSectionHasNone(G.AllTables(plans, |plans|));
    SectionHeadings(ws, plans, |ws|);
    HeadingsJoin(first, code, |code|);
  }

  // ----- what is left out -----

  /** No block ends with a jump to the block that follows it. */
  lemma NoJumpToNext(blocks: seq<G.Block>, i: nat)
    requires i + 1 < |blocks|
    ensures forall l | l in G.TermLines(blocks, i) && l.Jmp? :: l.dest != blocks[i + 1].name
  {
  }

  /** A rule's block pauses only for a debugger statement that is kept, and writes and moves only if the rule
      does. */
  lemma RuleActs(w: I.IrWorld, r: I.IrRule, strip: bool, name: string, force: bool)
    ensures var body := G.RuleBlock(w, r, strip, name, force).body;
            && ((exists k :: 0 <= k < |body| && body[k].text.Brk?) <==> r.debugger && !strip)
            && ((exists k :: 0 <= k < |body| && body[k].text.Wrmv?) <==> r.write.Some? || r.moves.Some?)
  {
    hide G.TermOf, G.Vector;
    var body := G.RuleBlock(w, r, strip, name, force).body;
    if r.debugger && !strip {
      assert body[0].text.Brk?;
    }
    if r.write.Some? || r.moves.Some? {
      assert body[|body| - 1].text.Wrmv?;
    }
  }
}
