/** The TM-1 compiler from resolved worlds to the listing - expand, lower, validate, generate - and its
    correctness. */
module TmCompiler {
  import opened Options
  import opened Simulation
  import opened TmMachine
  import opened TmSplice
  import opened TmBands
  import opened TmGraftGraph
  import opened TmGrafts
  import opened TmHygiene
  import opened TmSharing
  import Runs = TmRuns
  import D = TmDeep
  import opened TmInside
  import opened TmLowering
  import X = TmExpand
  import I = TmIr
  import L = TmListing
  import G = TmCodegen
  import Em = TmEmission
  import P = TmProgram
  import E = LineEmitter

  /** A world to be compiled, with what is kept of its declaration and what its own calls are bound to. */
  datatype Unit = Unit(header: Header, world: World, calls: Calls)

  function WorldsOf(units: seq<Unit>): seq<World>
  {
    seq(|units|, (k: nat) requires k < |units| => units[k].world)
  }

  /** What name resolution and the checks before expansion guarantee of a unit. */
  ghost predicate Checked(graphs: Graphs, sizes: D.CardMap, u: Unit)
  {
    && Resolved(graphs, u.world) && D.Fitting(graphs, sizes, u.world, u.header.cards) && |u.header.cards| > 0
    && CallsFit(u.calls, u.header.cards)
  }

  ghost predicate AllChecked(graphs: Graphs, sizes: D.CardMap, units: seq<Unit>)
  {
    D.Sound(graphs, sizes) && forall k | 0 <= k < |units| :: Checked(graphs, sizes, units[k])
  }

  ghost predicate Descending(graphs: Graphs, order: seq<string>, units: seq<Unit>)
  {
    AllDescend(graphs, order) && forall k | 0 <= k < |units| :: Descends(graphs, order, units[k].world, |order| + 1)
  }

  /** A unit expanded, with its rows in order. */
  ghost predicate ExpandedAs(graphs: Graphs, order: seq<string>, w: World, gx: Expansion)
    requires AllDescend(graphs, order) && Descends(graphs, order, w, |order| + 1)
  {
    && AddGrafts(graphs, order, w, |order| + 1, |w.grafts|).Ok?
    && gx == Finish(w, AddGrafts(graphs, order, w, |order| + 1, |w.grafts|).value)
    && Hygienic(w, gx) && X.RowsChecked(gx)
  }

  /** A unit's expansion, lowered. */
  ghost predicate CompiledAs(graphs: Graphs, order: seq<string>, u: Unit, w: I.IrWorld)
    requires AllDescend(graphs, order) && Descends(graphs, order, u.world, |order| + 1)
  {
    exists gx :: ExpandedAs(graphs, order, u.world, gx) && gx.entry in NamesOf(gx.states)
                 && LowerWorld(u.header, gx, u.world.params, u.calls) == Fine(w)
  }

  ghost predicate Compiled(graphs: Graphs, order: seq<string>, units: seq<Unit>, ir: seq<I.IrWorld>)
  {
    && Descending(graphs, order, units) && |ir| == |units|
    && forall k | 0 <= k < |units| :: CompiledAs(graphs, order, units[k], ir[k])
  }

  datatype Outcome =
    | Listing(lines: seq<L.Line>, lineMap: seq<(nat, nat)>)
    | NotExpanded(outcome: X.Outcome)
    | NotLowered(unit: nat, error: Error)
    | Internal

  lemma EntryNamed(w: World, gx: Expansion)
    requires Hygienic(w, gx)
    ensures gx.entry in NamesOf(gx.states) && Apart(gx.states) && NamesOf(gx.states) !! Elements(w.params)
  {
    hide NamesOf, AllWide, Closed, Apart;
  }

  lemma CompiledGenerable(graphs: Graphs, order: seq<string>, sizes: D.CardMap, u: Unit, w: I.IrWorld)
    requires AllDescend(graphs, order) && Descends(graphs, order, u.world, |order| + 1) && Checked(graphs, sizes, u)
    requires CompiledAs(graphs, order, u, w)
    ensures G.Generable(w) && w.cards == u.header.cards
  {
    hide AddGrafts, Finish, Resolved, Keyed, LowerWorld, G.Generable, NoExactConflict, AllInside, Inside, CallsFit, NamesOf,
      Hygienic;
    var gx :| ExpandedAs(graphs, order, u.world, gx) && gx.entry in NamesOf(gx.states)
              && LowerWorld(u.header, gx, u.world.params, u.calls) == Fine(w);
    EntryNamed(u.world, gx);
    ExpansionInside(graphs, order, u.world, |order| + 1, u.header.cards);
    LoweredGenerable(u.header, gx, u.world.params, u.calls);
    LoweredCards(u.header, gx, u.world.params, u.calls);
  }

  lemma LoweredCards(h: Header, gx: Expansion, params: seq<string>, calls: Calls)
    requires gx.entry in NamesOf(gx.states) && LowerWorld(h, gx, params, calls).Fine?
    ensures LowerWorld(h, gx, params, calls).value.cards == h.cards
  {
    hide LowerStates;
  }

  lemma GenerableValid(w: I.IrWorld)
    requires G.Generable(w)
    ensures |w.cards| == w.arity && I.ValidWorld(w)
  {
  }

  /** A refusal has its reason: a world that does not expand, or one whose expansion does not lower. */
  ghost predicate Justified(graphs: Graphs, order: seq<string>, units: seq<Unit>, r: Outcome)
  {
    && (r.NotExpanded? && !r.outcome.Cycle? ==>
          Descending(graphs, order, units) && exists k :: 0 <= k < |units| && !X.Expands(graphs, order, units[k].world))
    && (r.NotLowered? ==>
          && Descending(graphs, order, units) && r.unit < |units|
          && exists gx :: ExpandedAs(graphs, order, units[r.unit].world, gx) && gx.entry in NamesOf(gx.states)
                          && LowerWorld(units[r.unit].header, gx, units[r.unit].world.params, units[r.unit].calls)
                               == Refused(r.error))
  }

  /** Resolved worlds to listing.  The validator between lowering and generation never refuses. */
  method Compile(graphs: Graphs, ghost sizes: D.CardMap, units: seq<Unit>, strip: bool)
    returns (r: Outcome, ghost order: seq<string>, ir: seq<I.IrWorld>, plans: seq<G.WorldPlan>)
    requires AllChecked(graphs, sizes, units)
    ensures !r.Internal?
    ensures r.NotExpanded? && r.outcome.Cycle? <==> Cyclic(DepsOf(graphs))
    ensures Justified(graphs, order, units, r)
    ensures r.Listing? ==>
              && Compiled(graphs, order, units, ir) && G.Planned(ir, strip, plans)
              && r.lines == E.Texts(G.ProgramLines(ir, plans))
              && r.lineMap == E.LineMap(G.ProgramLines(ir, plans), 0, |G.ProgramLines(ir, plans)|)
  {
    hide AddGrafts, Finish, Hygienic, LowerWorld, G.Generable, X.RowsChecked, Descends, Checked, Resolved, NamesOf, E.LineMap,
      G.ProgramLines, X.Expands;
    Worlds(graphs, sizes, units);
    var expanded;
    expanded, order := X.Expand(graphs, WorldsOf(units));
    ir, plans := [], [];
    if !expanded.Cycle? {
      AllDescending(graphs, order, units);
    }
    if !expanded.Expanded? {
      r := NotExpanded(expanded);
      if !expanded.Cycle? {
        ghost var k :| 0 <= k < |units| && !X.Expands(graphs, order, WorldsOf(units)[k]);
        assert WorldsOf(units)[k] == units[k].world;
      }
      return;
    }
    AllExpanded(graphs, order, units, expanded);
    for k := 0 to |units|
      invariant |ir| == k && forall i | 0 <= i < k :: CompiledAs(graphs, order, units[i], ir[i]) && G.Generable(ir[i])
    {
      EntryNamed(units[k].world, expanded.worlds[k]);
      var w := Lower(units[k].header, expanded.worlds[k], units[k].world.params, units[k].calls);
      if w.Refused? {
        r := NotLowered(k, w.error);
        return;
      }
      CompiledGenerable(graphs, order, sizes, units[k], w.value);
      GenerableValid(w.value);
      var ok := I.ValidateWorld(w.value);
      if !ok {
        return Internal, order, ir, plans;
      }
      ir := ir + [w.value];
    }
    var lines, lineMap;
    lines, lineMap, plans := G.EmitProgram(ir, strip);
    r := Listing(lines, lineMap);
  }

  lemma Worlds(graphs: Graphs, sizes: D.CardMap, units: seq<Unit>)
    requires AllChecked(graphs, sizes, units)
    ensures forall k | 0 <= k < |units| :: Resolved(graphs, WorldsOf(units)[k])
  {
    hide Resolved, Inside, CallsFit;
    forall k | 0 <= k < |units| ensures Resolved(graphs, WorldsOf(units)[k]) {
      assert Checked(graphs, sizes, units[k]);
    }
  }

  lemma AllDescending(graphs: Graphs, order: seq<string>, units: seq<Unit>)
    requires AllDescend(graphs, order)
    requires forall k | 0 <= k < |units| :: Descends(graphs, order, WorldsOf(units)[k], |order| + 1)
    ensures Descending(graphs, order, units)
  {
    hide Descends;
    forall k | 0 <= k < |units| ensures Descends(graphs, order, units[k].world, |order| + 1) {
      assert WorldsOf(units)[k] == units[k].world;
    }
  }

  lemma AllExpanded(graphs: Graphs, order: seq<string>, units: seq<Unit>, x: X.Outcome)
    requires AllDescend(graphs, order) && x.Expanded? && |x.worlds| == |units|
    requires forall k | 0 <= k < |units| :: Descends(graphs, order, WorldsOf(units)[k], |order| + 1)
    requires forall k | 0 <= k < |units| :: X.Expands(graphs, order, WorldsOf(units)[k])
    requires forall k | 0 <= k < |units| ::
               var acc := AddGrafts(graphs, order, WorldsOf(units)[k], |order| + 1, |WorldsOf(units)[k].grafts|);
               acc.Ok? && x.worlds[k] == Finish(WorldsOf(units)[k], acc.value) && Hygienic(WorldsOf(units)[k], x.worlds[k])
    ensures Descending(graphs, order, units)
    ensures forall k | 0 <= k < |units| :: ExpandedAs(graphs, order, units[k].world, x.worlds[k])
  {
    hide AddGrafts, Finish, Hygienic, Descends, X.RowsChecked;
    forall k | 0 <= k < |units|
      ensures Descends(graphs, order, units[k].world, |order| + 1)
      ensures ExpandedAs(graphs, order, units[k].world, x.worlds[k])
    {
      assert WorldsOf(units)[k] == units[k].world;
      assert X.Expands(graphs, order, WorldsOf(units)[k]);
    }
  }

  // ----- the theorem -----

  /** A called routine that keeps the alphabets, seen from either side of the lowering. */
  lemma CalleesKeep(calls: Calls, callee: I.Callee, cards: seq<nat>)
    requires Em.CalleeKeeps(callee, cards)
    ensures Runs.CalleeKeeps(CalleeOf(calls, callee), cards)
  {
    hide Within;
    var runs := CalleeOf(calls, callee);
    forall target, tag, d | Within(d, cards) && runs(target, tag, d).Comes? ensures Within(runs(target, tag, d).data, cards) {
      var bound := calls(target, tag).value;
      assert callee(bound.0, bound.1, d).Comes?;
    }
  }

  /** From a world and its nested grafts to its lowered form. */
  lemma DeepLowered(graphs: Graphs, order: seq<string>, sizes: D.CardMap, mean: D.Meaning, used: set<string>, u: Unit,
                    w: I.IrWorld, strip: bool, callee: I.Callee, d: Data)
    requires AllDescend(graphs, order) && Descends(graphs, order, u.world, |order| + 1)
    requires D.Sound(graphs, sizes) && Checked(graphs, sizes, u) && CompiledAs(graphs, order, u, w)
    requires D.Agrees(mean, None, u.world, u.header.cards) && D.AllAgree(graphs, sizes, mean, used)
             && D.GraftsOnly(u.world, used)
    requires Em.CalleeKeeps(callee, u.header.cards) && Within(d, u.header.cards)
    ensures var deep := D.DeepStepper(graphs, order, mean, u.world, |order| + 1, strip, CalleeOf(u.calls, callee));
            var world := I.WorldStepper(w, strip, callee);
            var c, t := D.Config(D.Entry(graphs, order, u.world, |order| + 1), d), I.State(w.entry, d);
            && (forall e :: Finishes(deep, c, e) <==> Finishes(world, t, e))
            && (Diverges(deep, c) <==> Diverges(world, t))
  {
    hide AddGrafts, Finish, Resolved, Keyed, LowerWorld, X.RowsChecked, AllInside, Inside, CallsFit, NamesOf, Hygienic, D.Sound,
      Finishes, Diverges, Within, Runs.CalleeKeeps, Em.CalleeKeeps, CalleeOf, AllDescend, Descends, Apart, D.Agrees, D.AllAgree,
      D.GraftsOnly, D.DeepStepper, Runs.StatesStepper, I.WorldStepper, D.Entry;
    var gx :| ExpandedAs(graphs, order, u.world, gx) && gx.entry in NamesOf(gx.states)
              && LowerWorld(u.header, gx, u.world.params, u.calls) == Fine(w);
    CalleesKeep(u.calls, callee, u.header.cards);
    EntryNamed(u.world, gx);
    ExpansionInside(graphs, order, u.world, |order| + 1, u.header.cards);
    D.DeepRunsAsExpansion(graphs, order, sizes, mean, used, u.world, |order| + 1, u.header.cards, strip,
                          CalleeOf(u.calls, callee), d);
    LoweringPreservesBehaviour(u.header, gx, u.world.params, u.calls, w, strip, callee, d);
  }

  /** Machines that end alike stay so when the first is replaced by one with its behaviour. */
  lemma SameThenAlike<S, T, U, O(!new)>(
    a: S -> Step<S, O>, s: S, b: T -> Step<T, O>, t: T, dst: U -> Step<U, O>, u: U, alike: (O, O) -> bool)
    requires forall o :: Finishes(a, s, o) <==> Finishes(b, t, o)
    requires Diverges(a, s) <==> Diverges(b, t)
    requires EndsAlike(b, t, dst, u, alike)
    ensures EndsAlike(a, s, dst, u, alike)
  {
    hide Finishes, Diverges;
  }

  /** From its first line the k-th world's part of a listing behaves as the deep machine of its unit: it ends
      the same ways with the same data, a rule-less state's trap as `Em.Agreement` says, or runs for ever
      when that does. */
  ghost predicate BehavesAs(graphs: Graphs, order: seq<string>, mean: D.Meaning, u: Unit, w: I.IrWorld, strip: bool,
                            lines: seq<L.Line>, k: nat, callee: I.Callee, tuple: seq<nat>, mr: nat, d: Data)
  {
    && AllDescend(graphs, order) && Descends(graphs, order, u.world, |order| + 1) && w.cards != []
    && EndsAlike(D.DeepStepper(graphs, order, mean, u.world, |order| + 1, strip, CalleeOf(u.calls, callee)),
                 D.Config(D.Entry(graphs, order, u.world, |order| + 1), d),
                 P.ReadBack(lines, k, callee), L.State(0, tuple, mr, d), Em.Agreement(w))
  }

  /** The compiler is correct: a world's part of the listing behaves as the world does with its grafts, and
      theirs, left where they are - own states choosing by bands as `mean` says, every graft walking its
      graph through its own maps - whatever the data inside the alphabets and the routines it calls. */
  lemma CompilerPreservesBehaviour(graphs: Graphs, order: seq<string>, sizes: D.CardMap, mean: D.Meaning, used: set<string>,
                                   units: seq<Unit>, ir: seq<I.IrWorld>, strip: bool, plans: seq<G.WorldPlan>, k: nat,
                                   callee: I.Callee, tuple: seq<nat>, mr: nat, d: Data)
    requires k < |units| == |ir|
    requires AllChecked(graphs, sizes, units) && Compiled(graphs, order, units, ir) && G.Planned(ir, strip, plans)
    requires Em.CalleeKeeps(callee, units[k].header.cards) && Within(d, units[k].header.cards)
    requires D.Agrees(mean, None, units[k].world, units[k].header.cards)
    requires D.AllAgree(graphs, sizes, mean, used) && D.GraftsOnly(units[k].world, used)
    ensures BehavesAs(graphs, order, mean, units[k], ir[k], strip, E.Texts(G.ProgramLines(ir, plans)), k, callee, tuple, mr, d)
  {
    hide CompiledAs, Checked, G.PlanOf, Em.CalleeKeeps, Within, Finishes, Diverges, EndsAlike, Em.Agreement, D.DeepStepper,
      D.Entry, I.WorldStepper, P.ReadBack, G.ProgramLines, CalleeOf, G.Generable, AllDescend, Descends, D.Sound, D.Agrees,
      D.AllAgree, D.GraftsOnly;
    assert CompiledAs(graphs, order, units[k], ir[k]) && Checked(graphs, sizes, units[k]);
    CompiledGenerable(graphs, order, sizes, units[k], ir[k]);
    DeepLowered(graphs, order, sizes, mean, used, units[k], ir[k], strip, callee, d);
    P.GeneratorPreservesBehaviour(ir, strip, plans, k, callee, tuple, mr, d);
    SameThenAlike(D.DeepStepper(graphs, order, mean, units[k].world, |order| + 1, strip, CalleeOf(units[k].calls, callee)),
                  D.Config(D.Entry(graphs, order, units[k].world, |order| + 1), d),
                  I.WorldStepper(ir[k], strip, callee), I.State(ir[k].entry, d),
                  P.ReadBack(E.Texts(G.ProgramLines(ir, plans)), k, callee), L.State(0, tuple, mr, d), Em.Agreement(ir[k]));
  }
}
