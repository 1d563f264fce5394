/** Expanded rows stay inside the alphabets: whatever a graph's rules hold, a spliced row matches and
    writes symbols of the host's tapes only. */
module TmInside {
  import opened Options
  import opened TmRules
  import opened TmSplice
  import opened TmGrafts
  import Ranges = TmRanges
  import CallRecords = TmCalls
  import opened TmMachine
  import opened TmBandSplice
  import opened TmSharing
  import Runs = TmRuns

  ghost predicate RowInside(r: Rule, cards: seq<nat>)
  {
    && |r.pattern| == |r.write| == |r.moves| == |cards|
    && (forall h | 0 <= h < |cards| && r.pattern[h].Sym? :: r.pattern[h].s < cards[h])
    && (forall h | 0 <= h < |cards| && r.write[h].Put? :: r.write[h].s < cards[h])
  }

  ghost predicate RowsInside(rules: seq<Rule>, cards: seq<nat>)
  {
    forall k | 0 <= k < |rules| :: RowInside(rules[k], cards)
  }

  ghost predicate AllInside(states: seq<State>, cards: seq<nat>)
  {
    forall i | 0 <= i < |states| :: RowsInside(states[i].rules, cards)
  }

  /** A binding onto tapes of these sizes. */
  ghost predicate OnTapes(comp: Composite, cards: seq<nat>)
  {
    Placed(comp, |cards|) && forall k | 0 <= k < |comp| :: comp[k].hostCard == cards[comp[k].phys]
  }

  lemma {:induction false} HolesBelowCard(t: TapeMap, n: nat)
    ensures forall k | 0 <= k < |HolesBelow(t, n)| :: HolesBelow(t, n)[k] < n
  {
    hide ReadImage;
    if n > 0 {
      HolesBelowCard(t, n - 1);
    }
  }

  lemma {:induction false} PreimageBelowCard(t: TapeMap, v: nat, n: nat)
    ensures forall k | 0 <= k < |PreimageBelow(t, v, n)| :: PreimageBelow(t, v, n)[k] < n
  {
    hide ReadImage;
    if n > 0 {
      PreimageBelowCard(t, v, n - 1);
    }
  }

  lemma {:induction false} TrapsInside(comp: Composite, cards: seq<nat>, line: nat, n: nat)
    requires n <= |comp| && OnTapes(comp, cards)
    ensures RowsInside(TrapRows(comp, |cards|, line, n), cards)
  {
    hide HolesBelow;
    if n > 0 {
      TrapsInside(comp, cards, line, n - 1);
      HolesBelowCard(comp[n - 1], SymbolCount(comp[n - 1].hostCard));
    }
  }

  lemma CellsInside(t: TapeMap, c: Cell, card: nat)
    requires t.hostCard == card < SYMBOL_LIMIT
    ensures forall x | x in ChoiceOf(t, c).cells && x.Sym? :: x.s < card
  {
    hide PreimageBelow;
    if c.Sym? {
      PreimageBelowCard(t, c.s, SymbolCount(t.hostCard));
    }
  }

  /** Every cell of a host row is a wildcard or one of its tape's alternatives. */
  lemma PatternInside(rule: Rule, comp: Composite, cards: seq<nat>, combo: Combo)
    requires |rule.pattern| == |comp| && OnTapes(comp, cards)
    requires var opts := Choices(rule, comp); combo in Cartesian(opts, |opts|)
    ensures var p := PatternOf(combo, |cards|, |combo|);
            forall h | 0 <= h < |cards| && p[h].Sym? :: p[h].s < cards[h]
  {
    hide Cartesian, PatternOf, ChoiceOf;
    var opts := Choices(rule, comp);
    InCartesian(opts, |opts|, combo);
    forall k | 0 <= k < |comp|
      ensures opts[k].pos == comp[k].phys && forall x | x in opts[k].cells && x.Sym? :: x.s < cards[comp[k].phys]
    {
      ChoicePos(comp[k], rule.pattern[k]);
      CellsInside(comp[k], rule.pattern[k], cards[comp[k].phys]);
    }
    PatternAt(combo, |cards|, |combo|);
    var p := PatternOf(combo, |cards|, |combo|);
    forall h | 0 <= h < |cards| && p[h].Sym? ensures p[h].s < cards[h] {
      var k :| 0 <= k < |combo| && combo[k].0 == h;
      assert combo[k].1 in opts[k].cells;
    }
  }

  lemma ImageInside(t: TapeMap, v: nat)
    ensures WriteImage(t, v).Some? ==> WriteImage(t, v).value < t.hostCard
  {
  }

  lemma WriteInside(rule: Rule, comp: Composite, cards: seq<nat>)
    requires |rule.write| == |comp| && OnTapes(comp, cards)
    ensures var w := HostWrite(rule, comp, |cards|, |comp|);
            forall h | 0 <= h < |cards| && w[h].Put? :: w[h].s < cards[h]
  {
    hide HostWrite, WriteImage;
    HostWriteAt(rule, comp, |cards|, |comp|);
    var w := HostWrite(rule, comp, |cards|, |comp|);
    forall h | 0 <= h < |cards| && w[h].Put? ensures w[h].s < cards[h] {
      var k :| 0 <= k < |comp| && comp[k].phys == h;
      ImageInside(comp[k], rule.write[k].s);
    }
  }

  lemma MapRuleInside(rule: Rule, comp: Composite, cards: seq<nat>, remap: Transition -> Transition)
    requires |rule.pattern| == |rule.write| == |rule.moves| == |comp| && OnTapes(comp, cards)
    ensures RowsInside(MapRule(rule, comp, |cards|, remap), cards)
  {
    hide Cartesian, PatternOf, WriteHole, HostWrite, HostMoves, ChoiceOf, Choices, OnTapes;
    var opts := Choices(rule, comp);
    var combos := Cartesian(opts, |opts|);
    var rows := MapRule(rule, comp, |cards|, remap);
    WriteInside(rule, comp, cards);
    forall k | 0 <= k < |rows| ensures RowInside(rows[k], cards) {
      assert combos[k] in combos;
      PatternInside(rule, comp, cards, combos[k]);
    }
  }

  lemma {:induction false} MapRulesInside(rules: seq<Rule>, comp: Composite, cards: seq<nat>, remap: Transition -> Transition,
                                          n: nat)
    requires n <= |rules| && AllFit(rules, comp) && OnTapes(comp, cards)
    ensures RowsInside(MapRules(rules, comp, |cards|, remap, n), cards)
  {
    hide MapRule, OnTapes, RowInside;
    if n > 0 {
      MapRulesInside(rules, comp, cards, remap, n - 1);
      MapRuleInside(rules[n - 1], comp, cards, remap);
    }
  }

  lemma SplicedInside(st: State, comp: Composite, cards: seq<nat>, cont: seq<(string, Transition)>, params: seq<string>,
                      names: map<string, string>)
    requires OnTapes(comp, cards)
    ensures RowsInside(Spliced(st, comp, |cards|, cont, params, names).rules, cards)
  {
    hide MapRules, TrapRows, RowInside, Remapping, StateReads;
    if Splicable(st.rules, comp, |cards|) {
      TrapsInside(comp, cards, st.line, |comp|);
      MapRulesInside(st.rules, comp, cards, Remapping(cont, params, names), |st.rules|);
    }
  }

  lemma StepInside(w: World, g: Graft, params: seq<string>, gx: Expansion, acc: Acc, cards: seq<nat>)
    requires |cards| == w.arity && OnTapes(g.comp, cards) && AllInside(acc.states, cards)
    ensures AllInside(AddGraft(w, g, params, gx, acc).states, cards)
  {
    hide RowsInside, OnTapes, Spliced, KeyOf, NameStates, InstanceName, UsedBy;
    var names := NameStates(gx.states, gx.entry, InstanceName(g, acc.used), UsedBy(g, acc.used), |gx.states|).names;
    forall k | 0 <= k < |gx.states|
      ensures RowsInside(SplicedStates(gx.states, g.comp, w.arity, g.cont, params, names)[k].rules, cards)
    {
      SplicedInside(gx.states[k], g.comp, cards, g.cont, params, names);
    }
  }

  /** A world whose own rules stay inside its alphabets and whose grafts are bound between them. */
  ghost predicate Inside(w: World, cards: seq<nat>)
  {
    && |cards| == w.arity && AllInside(w.own, cards) && forall k | 0 <= k < |w.grafts| :: OnTapes(w.grafts[k].comp, cards)
  }

  lemma {:induction false} GraftsInside(graphs: Graphs, order: seq<string>, w: World, r: nat, n: nat, cards: seq<nat>)
    requires AllDescend(graphs, order) && Descends(graphs, order, w, r) && n <= |w.grafts| && Inside(w, cards)
    ensures AddGrafts(graphs, order, w, r, n).Ok? ==> AllInside(AddGrafts(graphs, order, w, r, n).value.states, cards)
  {
    hide AllInside, OnTapes, AddGraft, FirstCall, ExpandGraph;
    if n > 0 {
      GraftsInside(graphs, order, w, r, n - 1, cards);
      if AddGrafts(graphs, order, w, r, n).Ok? {
        var g := w.grafts[n - 1];
        StepInside(w, g, graphs[g.target].params, ExpandGraph(graphs, order, g.target).value,
                   AddGrafts(graphs, order, w, r, n - 1).value, cards);
      }
    }
  }

  /** An expanded world's rows stay inside its alphabets. */
  lemma ExpansionInside(graphs: Graphs, order: seq<string>, w: World, r: nat, cards: seq<nat>)
    requires AllDescend(graphs, order) && Descends(graphs, order, w, r) && Inside(w, cards)
    requires AddGrafts(graphs, order, w, r, |w.grafts|).Ok?
    ensures AllInside(Finish(w, AddGrafts(graphs, order, w, r, |w.grafts|).value).states, cards)
  {
    hide AddGrafts, RowInside, ResolveTransition;
    GraftsInside(graphs, order, w, r, |w.grafts|, cards);
    var acc := AddGrafts(graphs, order, w, r, |w.grafts|).value;
    forall i | 0 <= i < |acc.states| ensures RowsInside(ResolveRules(acc.states[i].rules, acc.alias), cards) {
      ResolvedInside(acc.states[i].rules, acc.alias, cards);
    }
  }

  lemma ResolvedInside(rules: seq<Rule>, alias: map<string, string>, cards: seq<nat>)
    requires RowsInside(rules, cards)
    ensures RowsInside(ResolveRules(rules, alias), cards)
  {
    hide ResolveTransition;
    forall k | 0 <= k < |rules| ensures RowInside(ResolveRules(rules, alias)[k], cards) {
      assert RowInside(rules[k], cards);
    }
  }

  // ----- runs stay inside the alphabets -----

  lemma InsideFits(rules: seq<Rule>, cards: seq<nat>)
    requires RowsInside(rules, cards)
    ensures Runs.RulesFit(rules, cards)
  {
    forall k | 0 <= k < |rules| ensures Runs.WritesFit(rules[k].write, cards) {
      assert RowInside(rules[k], cards);
    }
  }

  lemma InsideSized(w: World, cards: seq<nat>)
    requires Inside(w, cards)
    ensures Runs.Sized(w, cards)
  {
    hide RowsInside, Runs.RulesFit, Placed;
    forall st | st in w.own ensures Runs.RulesFit(st.rules, cards) {
      var i :| 0 <= i < |w.own| && w.own[i] == st;
      InsideFits(w.own[i].rules, cards);
    }
    forall k, i | 0 <= k < |w.grafts| && 0 <= i < |w.grafts[k].comp|
      ensures w.grafts[k].comp[i].phys < w.arity && w.grafts[k].comp[i].hostCard == cards[w.grafts[k].comp[i].phys]
    {
      OnTape(w.grafts[k].comp, cards, i);
    }
  }

  lemma OnTape(comp: Composite, cards: seq<nat>, i: nat)
    requires OnTapes(comp, cards) && i < |comp|
    ensures comp[i].phys < |cards| && comp[i].hostCard == cards[comp[i].phys]
  {
  }

  /** A step keeps the bands inside their alphabets. */
  lemma StaysWithin(gx: Expansion, params: seq<string>, strip: bool, callee: Runs.Callee, s: Runs.Spot, cards: seq<nat>)
    requires AllInside(gx.states, cards) && Within(s.data, cards) && Runs.CalleeKeeps(callee, cards)
    ensures var r := Runs.StatesStep(gx.states, params, strip, callee, s);
            r.Next? ==> Within(r.state.data, cards)
  {
    hide RowsInside, Within, Runs.CalleeKeeps, Runs.Perform, BandedOutcome, Runs.RulesFit, FindState;
    var found := FindState(gx.states, 0, s.name);
    if found.Some? {
      var i :| 0 <= i < |gx.states| && gx.states[i] == found.value;
      InsideFits(gx.states[i].rules, cards);
      Runs.BandedFits(found.value.rules, Read(s.data), cards);
      Runs.PerformWithin(BandedOutcome(found.value.rules, Read(s.data)), s.data, strip, callee, cards);
    }
  }

  // ----- a world's own rows -----

  function Sizes(tapes: seq<Ranges.Glyphs>): (cards: seq<nat>)
    ensures |cards| == |tapes| && forall k | 0 <= k < |tapes| :: cards[k] == |tapes[k]|
  {
    seq(|tapes|, (k: nat) requires k < |tapes| => |tapes[k]|)
  }

  lemma {:induction false} IndexInside(glyphs: seq<string>, i: nat, g: string)
    requires i <= |glyphs|
    ensures Ranges.IndexOf(glyphs, i, g).Some? ==> Ranges.IndexOf(glyphs, i, g).value < |glyphs|
    decreases |glyphs| - i
  {
    if i < |glyphs| {
      IndexInside(glyphs, i + 1, g);
    }
  }

  lemma {:induction false} OptionsInside(ms: seq<Ranges.Member>, n: nat, glyphs: seq<string>, binding: Option<string>)
    requires n <= |ms|
    ensures forall o | o in Ranges.OnTape(ms, n, glyphs, binding) && o.0.Sym? :: o.0.s < |glyphs|
  {
    hide Ranges.IndexOf;
    if n > 0 {
      OptionsInside(ms, n - 1, glyphs, binding);
      IndexInside(glyphs, 0, ms[n - 1].0);
    }
  }

  lemma CellOptionsInside(c: Ranges.PatternCell, glyphs: seq<string>)
    requires Ranges.CellOptions(c, glyphs).Ok?
    ensures forall o | o in Ranges.CellOptions(c, glyphs).value && o.0.Sym? :: o.0.s < |glyphs|
  {
    hide Ranges.Denoted, Ranges.OnTape;
    if !c.kind.Any? {
      OptionsInside(Ranges.Denoted(c.kind).value, |Ranges.Denoted(c.kind).value|, glyphs, c.binding);
    }
  }

  lemma WriteCellInside(c: Ranges.WriteCell, glyphs: seq<string>, env: Ranges.Env)
    requires Ranges.WriteCellOut(c, glyphs, env).Ok?
    ensures var w := Ranges.WriteCellOut(c, glyphs, env).value;
            w.Put? ==> w.s < |glyphs|
  {
    hide Ranges.IndexOf, Ranges.Substituted;
    match c
    case KeepCell =>
    case Lit(l) => IndexInside(glyphs, 0, Ranges.Label(l));
    case Subst(e) => IndexInside(glyphs, 0, Ranges.Substituted(e, env).value);
  }

  lemma {:induction false} WritesInside(cells: seq<Ranges.WriteCell>, tapes: seq<Ranges.Glyphs>, env: Ranges.Env, n: nat)
    requires n <= |cells| == |tapes| && Ranges.WritesOut(cells, tapes, env, n).Ok?
    ensures var w := Ranges.WritesOut(cells, tapes, env, n).value;
            |w| == n && forall k | 0 <= k < n && w[k].Put? :: w[k].s < |tapes[k]|
  {
    hide Ranges.WriteCellOut;
    if n > 0 {
      WritesInside(cells, tapes, env, n - 1);
      WriteCellInside(cells[n - 1], tapes[n - 1], env);
    }
  }

  lemma RowOfInside(rule: Ranges.SourceRule, tapes: seq<Ranges.Glyphs>, combo: seq<Ranges.Alternative>)
    requires Ranges.WidthsFit(rule, |tapes|) && Ranges.RowOf(rule, tapes, combo).Ok?
    requires |combo| == |tapes| && forall k | 0 <= k < |combo| && combo[k].0.Sym? :: combo[k].0.s < |tapes[k]|
    ensures RowInside(Ranges.RowOf(rule, tapes, combo).value, Sizes(tapes))
  {
    hide Ranges.WritesOut, Ranges.EnvOf;
    if rule.write.Some? {
      WritesInside(rule.write.value, tapes, Ranges.EnvOf(combo, |combo|), |tapes|);
    }
  }

  /** Range expansion gives rows inside the tapes' alphabets. */
  lemma ExpandedInside(rule: Ranges.SourceRule, tapes: seq<Ranges.Glyphs>)
    requires Ranges.Expanded(rule, tapes).Ok?
    ensures RowsInside(Ranges.Expanded(rule, tapes).value, Sizes(tapes))
  {
    hide Ranges.AllOptions, Ranges.CellOptions, Ranges.RowsOf, Ranges.RowOf, Ranges.Product, RowInside, Ranges.Earlier;
    var opts: seq<seq<Ranges.Alternative>> := Ranges.AllOptions(rule.pattern, tapes, |tapes|).value;
    var combos := Ranges.Product(opts, |opts|);
    var rows := Ranges.Expanded(rule, tapes).value;
    Ranges.OptionsAt(rule.pattern, tapes, |tapes|);
    Ranges.RowsAt(rule, tapes, combos, |combos|);
    Ranges.ProductExact(opts, |opts|);
    forall k | 0 <= k < |tapes| ensures forall o: Ranges.Alternative | o in opts[k] && o.0.Sym? :: o.0.s < |tapes[k]| {
      CellOptionsInside(rule.pattern[k], tapes[k]);
    }
    forall i | 0 <= i < |rows| ensures RowInside(rows[i], Sizes(tapes)) {
      assert combos[i] in combos;
      ComboInside(opts, combos[i], tapes);
      RowOfInside(rule, tapes, combos[i]);
    }
  }

  lemma ComboInside(opts: seq<seq<Ranges.Alternative>>, combo: seq<Ranges.Alternative>, tapes: seq<Ranges.Glyphs>)
    requires |opts| == |tapes| && Ranges.PicksFrom(opts, |opts|, combo)
    requires forall k | 0 <= k < |tapes| :: forall o | o in opts[k] && o.0.Sym? :: o.0.s < |tapes[k]|
    ensures |combo| == |tapes| && forall k | 0 <= k < |combo| && combo[k].0.Sym? :: combo[k].0.s < |tapes[k]|
  {
    forall k | 0 <= k < |combo| && combo[k].0.Sym? ensures combo[k].0.s < |tapes[k]| {
      assert combo[k] in opts[k];
    }
  }

  lemma {:induction false} AllRowsInside(names: CallRecords.Names, state: string, rules: seq<CallRecords.WrittenRule>,
                                         tapes: seq<Ranges.Glyphs>, n: nat)
    requires n <= |rules| && CallRecords.AllRows(names, state, rules, tapes, n).Ok?
    ensures RowsInside(CallRecords.AllRows(names, state, rules, tapes, n).value, Sizes(tapes))
  {
    hide Ranges.Expanded, RowInside;
    if n > 0 {
      AllRowsInside(names, state, rules, tapes, n - 1);
      ExpandedInside(CallRecords.RuleWith(rules[n - 1], CallRecords.Lower(names, state, rules[n - 1].transition)), tapes);
    }
  }

  /** A world's own expanded states stay inside its alphabets. */
  lemma {:induction false} OwnInside(names: CallRecords.Names, states: seq<CallRecords.SourceState>, tapes: seq<Ranges.Glyphs>,
                                     n: nat)
    requires n <= |states| && CallRecords.OwnStates(names, states, tapes, n).Ok?
    ensures AllInside(CallRecords.OwnStates(names, states, tapes, n).value, Sizes(tapes))
  {
    hide CallRecords.AllRows, RowsInside;
    if n > 0 {
      OwnInside(names, states, tapes, n - 1);
      AllRowsInside(names, states[n - 1].name, states[n - 1].rules, tapes, |states[n - 1].rules|);
    }
  }
}
