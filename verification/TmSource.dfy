/** The TM-1 compiler from the states as they are written.  The meaning of a program is the deep machine
    whose own states choose among written rules - ranges, bindings, folded writes, dead rules and all - and
    the listing behaves as that machine does. */
module TmSource {
  import opened Options
  import opened Simulation
  import opened TmMachine
  import opened TmRules
  import opened TmGrafts
  import opened TmGraftGraph
  import opened TmHygiene
  import opened TmSharing
  import opened TmInside
  import opened TmLowering
  import opened TmCompiler
  import opened TmModes
  import Reach = Graphs
  import opened TmSplice
  import W = TmWritten
  import Ranges = TmRanges
  import Calls = TmCalls
  import D = TmDeep
  import I = TmIr
  import L = TmListing
  import G = TmCodegen
  import Em = TmEmission
  import P = TmProgram
  import E = LineEmitter

  /** A world as it is written, its binds resolved. */
  datatype SourceWorld = SourceWorld(
    names: Calls.Names, states: seq<Calls.SourceState>, tapes: seq<Ranges.Glyphs>, ownEntry: Option<string>, grafts: seq<Graft>,
    params: seq<string>)

  type Sources = map<string, SourceWorld>

  /** The own states without their dead rules, expanded. */
  function Own(s: SourceWorld): Ranges.Res<seq<State>>
  {
    Calls.OwnStates(s.names, Calls.PrunedStates(s.states), s.tapes, |s.states|)
  }

  function NamedOnly(s: SourceWorld): seq<State>
  {
    seq(|s.states|, (k: nat) requires k < |s.states| => State(s.states[k].name, s.states[k].line, []))
  }

  /** The world's names and grafts alone. */
  function Frame(s: SourceWorld): World
  {
    World(|s.tapes|, NamedOnly(s), s.ownEntry, s.grafts, s.params)
  }

  /** The world as grafts are expanded into it.  The rows of a graph that does not expand do not matter: a
      program that grafts one is refused. */
  function WorldOf(s: SourceWorld): World
  {
    if Own(s).Ok? then Frame(s).(own := Own(s).value) else Frame(s)
  }

  function GraphsOf(sources: Sources): Graphs
  {
    map n | n in sources :: WorldOf(sources[n])
  }

  function SizesOf(sources: Sources): D.CardMap
  {
    map n | n in sources :: Sizes(sources[n].tapes)
  }

  // ----- what name resolution guarantees -----

  /** A rule goes to a name of its world. */
  predicate Known(s: SourceWorld, t: Calls.Written)
  {
    match t
    case ToState(name) => name in Reserved(Frame(s))
    case CallTo(_, _, _) =>
      (var put := s.names.put(Calls.RecordOf(s.names, t));
       Names(put).Some? ==> Names(put).value in Reserved(Frame(s)))
    case _ => true
  }

  ghost predicate AllKnown(s: SourceWorld)
  {
    forall i, k | 0 <= i < |s.states| && 0 <= k < |s.states[i].rules| :: Known(s, s.states[i].rules[k].transition)
  }

  ghost predicate SourceSound(sources: Sources, s: SourceWorld)
  {
    && AllKnown(s) && W.Lettered(s.tapes)
    && Resolved(GraphsOf(sources), Frame(s)) && D.Fitting(GraphsOf(sources), SizesOf(sources), Frame(s), Sizes(s.tapes))
  }

  ghost predicate AllSound(sources: Sources)
  {
    forall n | n in sources :: SourceSound(sources, sources[n])
  }

  /** These graphs expand their own rows, and graft each other only. */
  ghost predicate AllExpand(sources: Sources, used: set<string>)
  {
    forall n | n in sources && n in used :: Own(sources[n]).Ok? && D.GraftsOnly(Frame(sources[n]), used)
  }

  // ----- what the states mean -----

  function FindWritten(states: seq<Calls.SourceState>, i: nat, name: string): Option<Calls.SourceState>
    requires i <= |states|
    decreases |states| - i
  {
    if i == |states| then None
    else if states[i].name == name then Some(states[i])
    else FindWritten(states, i + 1, name)
  }

  ghost function Meaning(sources: Sources, top: SourceWorld): D.Meaning
  {
    (key: Option<string>, name: string, tuple: seq<nat>, wide: bool) =>
      var s := if key.Some? && key.value in sources then sources[key.value] else top;
      match FindWritten(s.states, 0, name)
      case None => NoMatch
      case Some(st) => W.WrittenOutcome(s.names, st, s.tapes, tuple, wide)
  }

  lemma {:induction false} FindsWritten(states: seq<Calls.SourceState>, i: nat, k: nat)
    requires i <= k < |states| && forall a, b | 0 <= a < b < |states| :: states[a].name != states[b].name
    ensures FindWritten(states, i, states[k].name) == Some(states[k])
    decreases k - i
  {
    if i < k {
      FindsWritten(states, i + 1, k);
    }
  }

  lemma {:induction false} OwnAt(names: Calls.Names, states: seq<Calls.SourceState>, tapes: seq<Ranges.Glyphs>, n: nat)
    requires n <= |states| && Calls.OwnStates(names, states, tapes, n).Ok?
    ensures var own := Calls.OwnStates(names, states, tapes, n).value;
            && |own| == n
            && forall k | 0 <= k < n ::
                 var rows := Calls.AllRows(names, states[k].name, states[k].rules, tapes, |states[k].rules|);
                 rows.Ok? && own[k] == State(states[k].name, states[k].line, rows.value)
  {
    hide Calls.AllRows;
    if n > 0 {
      OwnAt(names, states, tapes, n - 1);
    }
  }

  /** A world's own states: as many, with the names and the rows of the written ones. */
  lemma OwnRows(s: SourceWorld, k: nat)
    requires Own(s).Ok? && k < |s.states|
    ensures |Own(s).value| == |s.states|
    ensures var left := Calls.Pruned(s.states[k]);
            var rows := Calls.AllRows(s.names, left.name, left.rules, s.tapes, |left.rules|);
            rows.Ok? && Own(s).value[k] == State(s.states[k].name, s.states[k].line, rows.value)
  {
    hide Calls.AllRows, Calls.OwnStates, Calls.Survivors;
    OwnAt(s.names, Calls.PrunedStates(s.states), s.tapes, |s.states|);
    assert Calls.PrunedStates(s.states)[k] == Calls.Pruned(s.states[k]);
    assert Own(s).value[k].name == s.states[k].name;
  }

  lemma OwnCount(s: SourceWorld)
    requires Own(s).Ok?
    ensures |Own(s).value| == |s.states|
  {
    hide Calls.AllRows, Calls.OwnStates, Calls.Survivors;
    OwnAt(s.names, Calls.PrunedStates(s.states), s.tapes, |s.states|);
  }

  /** The written rules are an account of the expanded rows. */
  lemma WrittenAgrees(sources: Sources, top: SourceWorld, key: Option<string>, s: SourceWorld)
    requires s == (if key.Some? && key.value in sources then sources[key.value] else top)
    requires Own(s).Ok? && W.Lettered(s.tapes) && Apart(NamedOnly(s))
    ensures D.Agrees(Meaning(sources, top), key, WorldOf(s), Sizes(s.tapes))
  {
    hide Own, W.WrittenOutcome, ModeOutcome, FindWritten, Calls.AllRows, Calls.Survivors, Ranges.IsAlphabet;
    OwnCount(s);
    forall st, tuple, wide | st in WorldOf(s).own && D.InCards(tuple, Sizes(s.tapes))
      ensures Meaning(sources, top)(key, st.name, tuple, wide) == ModeOutcome(st.rules, tuple, wide)
    {
      var k :| 0 <= k < |s.states| && Own(s).value[k] == st;
      OwnRows(s, k);
      StatesApart(s);
      FindsWritten(s.states, 0, k);
      assert Ranges.OfAlphabets(s.tapes, tuple);
      W.SurvivingRowsMean(s.names, s.states[k], s.tapes, tuple, wide);
    }
  }

  lemma StatesApart(s: SourceWorld)
    requires Apart(NamedOnly(s))
    ensures forall a, b | 0 <= a < b < |s.states| :: s.states[a].name != s.states[b].name
  {
    forall a: nat, b: nat | a < b < |s.states| ensures s.states[a].name != s.states[b].name {
      assert NamedOnly(s)[a].name != NamedOnly(s)[b].name;
    }
  }

  // ----- the expanded worlds are resolved -----

  lemma SameNames(s: SourceWorld)
    ensures NamesOf(WorldOf(s).own) == NamesOf(NamedOnly(s)) && Reserved(WorldOf(s)) == Reserved(Frame(s))
    ensures Apart(NamedOnly(s)) ==> Apart(WorldOf(s).own)
  {
    hide Own;
    if Own(s).Ok? {
      OwnCount(s);
      forall k: nat | k < |s.states| ensures Own(s).value[k].name == s.states[k].name {
        OwnRows(s, k);
      }
      forall n ensures n in NamesOf(Own(s).value) <==> n in NamesOf(NamedOnly(s)) {
        if n in NamesOf(Own(s).value) {
          var k := StateOf(Own(s).value, n);
          NameOf(NamedOnly(s), k);
        }
        if n in NamesOf(NamedOnly(s)) {
          var k := StateOf(NamedOnly(s), n);
          NameOf(Own(s).value, k);
        }
      }
      if Apart(NamedOnly(s)) {
        StatesApart(s);
      }
    }
  }

  /** A rule's rows have its tapes' width and go where the rule goes. */
  lemma RowsResolved(s: SourceWorld, state: string, r: Calls.WrittenRule)
    requires Calls.Rows(s.names, state, r, s.tapes).Ok? && Known(s, r.transition) && state in Reserved(Frame(s))
    ensures var rows := Calls.Rows(s.names, state, r, s.tapes).value;
            Wide(rows, |s.tapes|) && NamesWithin(rows, Reserved(Frame(s)))
  {
    hide Calls.Rows, Reserved, Frame;
    ExpandedInRows(s, state, r);
    forall i: nat | i < |Calls.Rows(s.names, state, r, s.tapes).value|
      ensures Calls.Rows(s.names, state, r, s.tapes).value[i].transition == Calls.Lower(s.names, state, r.transition)
    {
      W.RowFacts(s.names, state, r, s.tapes, i);
    }
  }

  lemma ExpandedInRows(s: SourceWorld, state: string, r: Calls.WrittenRule)
    requires Calls.Rows(s.names, state, r, s.tapes).Ok?
    ensures Wide(Calls.Rows(s.names, state, r, s.tapes).value, |s.tapes|)
  {
    hide Ranges.Expanded, Calls.Lower;
    ExpandedInside(Calls.RuleWith(r, Calls.Lower(s.names, state, r.transition)), s.tapes);
  }

  lemma {:induction false} AllRowsResolved(s: SourceWorld, state: string, rules: seq<Calls.WrittenRule>, n: nat)
    requires n <= |rules| && Calls.AllRows(s.names, state, rules, s.tapes, n).Ok? && state in Reserved(Frame(s))
    requires forall k | 0 <= k < n :: Known(s, rules[k].transition)
    ensures var rows := Calls.AllRows(s.names, state, rules, s.tapes, n).value;
            Wide(rows, |s.tapes|) && NamesWithin(rows, Reserved(Frame(s)))
  {
    hide Calls.Rows, Reserved, Known, Frame;
    if n > 0 {
      AllRowsResolved(s, state, rules, n - 1);
      RowsResolved(s, state, rules[n - 1]);
    }
  }

  lemma {:induction false} SurvivorsKnown(s: SourceWorld, rules: seq<Calls.WrittenRule>, n: nat)
    requires n <= |rules| && forall k | 0 <= k < n :: Known(s, rules[k].transition)
    ensures forall k | 0 <= k < |Calls.Survivors(rules, n)| :: Known(s, Calls.Survivors(rules, n)[k].transition)
  {
    hide Known, Calls.Dead;
    if n > 0 {
      SurvivorsKnown(s, rules, n - 1);
    }
  }

  lemma StateNamed(s: SourceWorld, k: nat)
    requires k < |s.states|
    ensures s.states[k].name in Reserved(Frame(s))
  {
    NameOf(NamedOnly(s), k);
  }

  /** The world that expansion works on is resolved. */
  lemma WorldResolved(sources: Sources, s: SourceWorld)
    requires SourceSound(sources, s)
    ensures Resolved(GraphsOf(sources), WorldOf(s))
  {
    hide Own, Known, NamesOf, Reserved, GraftResolved, D.Fitting, W.Lettered, GraphsOf, Apart, Wide, NamesWithin, Calls.AllRows,
      Calls.Survivors, InstanceNames, Elements;
    SameNames(s);
    if Own(s).Ok? {
      OwnCount(s);
      forall k: nat | k < |s.states|
        ensures Wide(Own(s).value[k].rules, |s.tapes|) && NamesWithin(Own(s).value[k].rules, Reserved(Frame(s)))
      {
        OwnRows(s, k);
        StateNamed(s, k);
        SurvivorsKnown(s, s.states[k].rules, |s.states[k].rules|);
        AllRowsResolved(s, s.states[k].name, Calls.Pruned(s.states[k]).rules, |Calls.Pruned(s.states[k]).rules|);
      }
    }
    SameGrafts(sources, s);
  }

  lemma SameGrafts(sources: Sources, s: SourceWorld)
    requires SourceSound(sources, s)
    ensures forall k | 0 <= k < |s.grafts| :: GraftResolved(GraphsOf(sources), WorldOf(s), s.grafts[k])
  {
    hide Own, Known, NamesOf, Reserved, D.Fitting, W.Lettered, GraphsOf, Apart, AllWide, Closed, Placed;
    SameNames(s);
    forall k | 0 <= k < |s.grafts| ensures GraftResolved(GraphsOf(sources), WorldOf(s), s.grafts[k]) {
      assert GraftResolved(GraphsOf(sources), Frame(s), Frame(s).grafts[k]);
    }
  }

  lemma WorldFits(sources: Sources, s: SourceWorld)
    requires SourceSound(sources, s)
    ensures D.Fitting(GraphsOf(sources), SizesOf(sources), WorldOf(s), Sizes(s.tapes))
  {
    hide Own, AllKnown, Resolved, W.Lettered, GraphsOf, SizesOf, OnTapes, D.Positive, D.GraftFits, AllInside;
    if Own(s).Ok? {
      OwnStaysInside(s);
    }
  }

  lemma OwnStaysInside(s: SourceWorld)
    requires Own(s).Ok?
    ensures AllInside(Own(s).value, Sizes(s.tapes))
  {
    hide Calls.OwnStates, AllInside;
    OwnInside(s.names, Calls.PrunedStates(s.states), s.tapes, |s.states|);
  }

  lemma GraphsSound(sources: Sources)
    requires AllSound(sources)
    ensures D.Sound(GraphsOf(sources), SizesOf(sources))
  {
    hide SourceSound, Resolved, D.Fitting, WorldOf;
    forall n | n in sources
      ensures Resolved(GraphsOf(sources), WorldOf(sources[n]))
      ensures D.Fitting(GraphsOf(sources), SizesOf(sources), WorldOf(sources[n]), Sizes(sources[n].tapes))
    {
      WorldResolved(sources, sources[n]);
      WorldFits(sources, sources[n]);
    }
  }

  lemma GraphsAgree(sources: Sources, top: SourceWorld, used: set<string>)
    requires AllSound(sources) && AllExpand(sources, used)
    ensures D.AllAgree(GraphsOf(sources), SizesOf(sources), Meaning(sources, top), used)
  {
    hide Own, Meaning, D.Agrees, AllKnown, W.Lettered, D.Fitting, Sizes;
    forall n | n in sources && n in used
      ensures D.Agrees(Meaning(sources, top), Some(n), GraphsOf(sources)[n], SizesOf(sources)[n])
              && D.GraftsOnly(GraphsOf(sources)[n], used)
    {
      assert SourceSound(sources, sources[n]);
      FrameApart(sources, sources[n]);
      WrittenAgrees(sources, top, Some(n), sources[n]);
    }
  }

  lemma FrameApart(sources: Sources, s: SourceWorld)
    requires SourceSound(sources, s)
    ensures Apart(NamedOnly(s))
  {
    hide AllWide, Closed, Reserved, NamesOf, GraftResolved, D.Fitting, W.Lettered, AllKnown, GraphsOf;
  }

  // ----- the theorem -----

  /** A world to be compiled, as it is written. */
  datatype SourceUnit = SourceUnit(header: Header, written: SourceWorld, calls: TmLowering.Calls)

  function UnitOf(u: SourceUnit): Unit
  {
    Unit(u.header, WorldOf(u.written), u.calls)
  }

  function UnitsOf(units: seq<SourceUnit>): seq<Unit>
  {
    seq(|units|, (k: nat) requires k < |units| => UnitOf(units[k]))
  }

  /** A program as name resolution leaves it. */
  ghost predicate ProgramSound(sources: Sources, units: seq<SourceUnit>)
  {
    AllSound(sources) && forall k | 0 <= k < |units| :: UnitSound(sources, units[k])
  }

  ghost predicate UnitSound(sources: Sources, u: SourceUnit)
  {
    && SourceSound(sources, u.written) && u.header.cards == Sizes(u.written.tapes) && |u.header.cards| > 0
    && CallsFit(u.calls, u.header.cards)
  }

  /** The checks before expansion hold of what the program's worlds expand from. */
  lemma ProgramChecked(sources: Sources, units: seq<SourceUnit>)
    requires ProgramSound(sources, units)
    ensures AllChecked(GraphsOf(sources), SizesOf(sources), UnitsOf(units))
  {
    hide AllSound, SourceSound, Resolved, D.Fitting, D.Sound, WorldOf, CallsFit, GraphsOf, SizesOf;
    GraphsSound(sources);
    forall k: nat | k < |units| ensures Checked(GraphsOf(sources), SizesOf(sources), UnitsOf(units)[k]) {
      assert UnitSound(sources, units[k]);
      WorldResolved(sources, units[k].written);
      WorldFits(sources, units[k].written);
    }
  }

  /** The compiler keeps what a program means as it is written: a world's part of the listing behaves as the
      deep machine does whose own states - the world's, and those of the graphs it grafts at any depth -
      choose among their written rules. */
  lemma CompilerPreservesMeaning(sources: Sources, order: seq<string>, units: seq<SourceUnit>, used: set<string>,
                                 ir: seq<I.IrWorld>, strip: bool, plans: seq<G.WorldPlan>, k: nat, callee: I.Callee,
                                 tuple: seq<nat>, mr: nat, d: Data)
    requires ProgramSound(sources, units) && Compiled(GraphsOf(sources), order, UnitsOf(units), ir)
             && G.Planned(ir, strip, plans)
    requires k < |units| && Em.CalleeKeeps(callee, units[k].header.cards) && Within(d, units[k].header.cards)
    requires Own(units[k].written).Ok? && D.GraftsOnly(Frame(units[k].written), used) && AllExpand(sources, used)
    ensures BehavesAs(GraphsOf(sources), order, Meaning(sources, units[k].written), UnitOf(units[k]), ir[k], strip,
                      E.Texts(G.ProgramLines(ir, plans)), k, callee, tuple, mr, d)
  {
    hide AllSound, SourceSound, Own, AllExpand, CompiledAs, Checked, G.PlanOf, Em.CalleeKeeps, Within, BehavesAs,
      G.ProgramLines, AllDescend, Descends, D.Sound, D.Agrees, D.AllAgree, D.GraftsOnly, GraphsOf, SizesOf, CallsFit, Meaning;
    ProgramChecked(sources, units);
    assert UnitsOf(units)[k] == UnitOf(units[k]);
    assert UnitSound(sources, units[k]);
    GraphsAgree(sources, units[k].written, used);
    TopAgrees(sources, units[k].written);
    SameGrafting(units[k].written, used);
    CompilerPreservesBehaviour(GraphsOf(sources), order, SizesOf(sources), Meaning(sources, units[k].written), used,
                               UnitsOf(units), ir, strip, plans, k, callee, tuple, mr, d);
  }

  lemma TopAgrees(sources: Sources, top: SourceWorld)
    requires SourceSound(sources, top) && Own(top).Ok?
    ensures D.Agrees(Meaning(sources, top), None, WorldOf(top), Sizes(top.tapes))
  {
    hide Own, D.Agrees, Resolved, D.Fitting, Meaning, WorldOf, AllKnown, GraphsOf;
    FrameApart(sources, top);
    WrittenAgrees(sources, top, None, top);
  }

  lemma SameGrafting(s: SourceWorld, used: set<string>)
    requires D.GraftsOnly(Frame(s), used)
    ensures D.GraftsOnly(WorldOf(s), used)
  {
    hide Own;
  }

  // ----- the compiler -----

  /** The graphs a graph grafts. */
  function Grafted(sources: Sources): string -> seq<string>
  {
    (n: string) => if n in sources then TargetsOf(Frame(sources[n])) else []
  }

  /** The graphs a program's worlds graft themselves. */
  function RootsOf(units: seq<SourceUnit>, n: nat): seq<string>
    requires n <= |units|
  {
    if n == 0 then [] else RootsOf(units, n - 1) + TargetsOf(Frame(units[n - 1].written))
  }

  /** A graph that some world grafts, itself or through other graphs. */
  ghost predicate Needed(sources: Sources, roots: seq<string>, n: string)
  {
    n in sources && Reach.Reachable(Grafted(sources), roots, n)
  }

  method ExpandRows(s: SourceWorld) returns (r: Ranges.Res<seq<State>>)
    ensures r == Own(s)
  {
    hide Calls.OwnStates, Calls.PrunedStates, Calls.AllDeadLines;
    var w := new Calls.World(s.names, s.states);
    var _ := w.DropUnreachable();
    r := w.ExpandOwn(s.tapes);
    PrunedCount(s.states);
  }

  lemma PrunedCount(states: seq<Calls.SourceState>)
    ensures |Calls.PrunedStates(states)| == |states|
  {
  }

  lemma TargetsKnown(sources: Sources, s: SourceWorld)
    requires SourceSound(sources, s)
    ensures forall t | t in TargetsOf(Frame(s)) :: t in sources
  {
    hide AllWide, Closed, Reserved, NamesOf, D.Fitting, W.Lettered, AllKnown, Placed;
    forall k | 0 <= k < |s.grafts| ensures s.grafts[k].target in sources {
      assert GraftResolved(GraphsOf(sources), Frame(s), Frame(s).grafts[k]);
    }
  }

  /** Expands the own rows of every graph that is needed, and of no other; fails exactly when one of them
      does not expand. */
  method ExpandNeeded(sources: Sources, roots: seq<string>) returns (failed: Option<Ranges.Error>, used: set<string>)
    requires AllSound(sources) && forall n | n in roots :: n in sources
    ensures failed.None? <==> forall n | Needed(sources, roots, n) :: Own(sources[n]).Ok?
    ensures failed.Some? ==> exists n :: Needed(sources, roots, n) && Own(sources[n]) == Ranges.Err(failed.value)
    ensures failed.None? ==> AllExpand(sources, used) && forall n | n in roots :: n in used
  {
    hide AllSound, Own, Needed, Grafted, AllExpand, Searched;
    var pending, next := roots, 0;
    used := {};
    SearchStarts(sources, roots);
    while next < |pending|
      invariant next <= |pending| && Searched(sources, roots, pending, next, used)
      decreases |sources.Keys - used|, |pending| - next
    {
      var n := pending[next];
      SearchNeeded(sources, roots, pending, next, used);
      if n in used {
        SearchSkips(sources, roots, pending, next, used);
      } else {
        var own := ExpandRows(sources[n]);
        if own.Err? {
          return Some(own.error), used;
        }
        SearchGrows(sources, roots, pending, next, used);
        used, pending := used + {n}, pending + Grafted(sources)(n);
      }
      next := next + 1;
    }
    failed := None;
    SearchEnds(sources, roots, pending, used);
  }

  /** Graphs expanded so far, all they graft among those still to come. */
  ghost predicate Searched(sources: Sources, roots: seq<string>, pending: seq<string>, next: nat, used: set<string>)
  {
    && next <= |pending| && used <= sources.Keys && (forall n | n in pending :: Needed(sources, roots, n))
    && (forall n | n in used :: n in pending && Own(sources[n]).Ok? && forall t | t in Grafted(sources)(n) :: t in pending)
    && (forall i | 0 <= i < next :: pending[i] in used) && forall n | n in roots :: n in pending
  }

  lemma SearchStarts(sources: Sources, roots: seq<string>)
    requires forall n | n in roots :: n in sources
    ensures Searched(sources, roots, roots, 0, {})
  {
    hide Needed, Grafted, Own;
    RootsNeeded(sources, roots);
  }

  lemma SearchNeeded(sources: Sources, roots: seq<string>, pending: seq<string>, next: nat, used: set<string>)
    requires Searched(sources, roots, pending, next, used) && next < |pending|
    ensures pending[next] in sources && Needed(sources, roots, pending[next])
  {
    hide Grafted, Own, Reach.Reachable;
    assert Needed(sources, roots, pending[next]);
  }

  lemma SearchSkips(sources: Sources, roots: seq<string>, pending: seq<string>, next: nat, used: set<string>)
    requires Searched(sources, roots, pending, next, used) && next < |pending| && pending[next] in used
    ensures Searched(sources, roots, pending, next + 1, used)
  {
    hide Needed, Grafted, Own;
  }

  lemma SearchGrows(sources: Sources, roots: seq<string>, pending: seq<string>, next: nat, used: set<string>)
    requires AllSound(sources) && Searched(sources, roots, pending, next, used) && next < |pending|
    requires pending[next] in sources && pending[next] !in used && Own(sources[pending[next]]).Ok?
    ensures Searched(sources, roots, pending + Grafted(sources)(pending[next]), next + 1, used + {pending[next]})
    ensures |sources.Keys - (used + {pending[next]})| < |sources.Keys - used|
  {
    hide AllSound, Needed, Grafted, Own;
    NextNeeded(sources, roots, pending[next]);
    OneLess(sources.Keys, used, pending[next]);
  }

  lemma SearchEnds(sources: Sources, roots: seq<string>, pending: seq<string>, used: set<string>)
    requires Searched(sources, roots, pending, |pending|, used)
    ensures (forall n | Needed(sources, roots, n) :: n in sources && Own(sources[n]).Ok?)
    ensures AllExpand(sources, used) && forall n | n in roots :: n in used
  {
    hide Needed, Grafted, Own, AllExpand;
    assert forall n | n in pending :: n in used;
    AllUsed(sources, roots, used);
    GraftsKnown(sources, used);
  }

  lemma AllUsed(sources: Sources, roots: seq<string>, used: set<string>)
    requires forall n | n in roots :: n in used
    requires forall n | n in used :: forall t | t in Grafted(sources)(n) :: t in used
    ensures forall n | Needed(sources, roots, n) :: n in used
  {
    hide Grafted;
    forall n | Needed(sources, roots, n) ensures n in used {
      Reach.ReachableInClosed(Grafted(sources), roots, used, n);
    }
  }

  lemma RootsNeeded(sources: Sources, roots: seq<string>)
    requires forall n | n in roots :: n in sources
    ensures forall n | n in roots :: Needed(sources, roots, n)
  {
    hide Reach.Reachable;
    forall n | n in roots ensures Needed(sources, roots, n) {
      Reach.RootReachable(Grafted(sources), roots, n);
    }
  }

  lemma NextNeeded(sources: Sources, roots: seq<string>, n: string)
    requires AllSound(sources) && Needed(sources, roots, n)
    ensures forall t | t in Grafted(sources)(n) :: Needed(sources, roots, t) && t in sources
  {
    hide Reach.Reachable, SourceSound, Frame;
    assert SourceSound(sources, sources[n]);
    TargetsKnown(sources, sources[n]);
    forall t | t in Grafted(sources)(n) ensures Needed(sources, roots, t) {
      Reach.StepReachable(Grafted(sources), roots, n, t);
    }
  }

  lemma OneLess(all: set<string>, used: set<string>, n: string)
    requires n in all && n !in used
    ensures |all - (used + {n})| < |all - used|
  {
    assert all - used == (all - (used + {n})) + {n};
  }

  lemma GraftsKnown(sources: Sources, used: set<string>)
    requires forall n | n in used :: n in sources && Own(sources[n]).Ok?
    requires forall n | n in used :: forall t | t in Grafted(sources)(n) :: t in used
    ensures AllExpand(sources, used)
  {
    hide Own;
    forall n | n in sources && n in used ensures D.GraftsOnly(Frame(sources[n]), used) {
      forall k | 0 <= k < |sources[n].grafts| ensures sources[n].grafts[k].target in used {
        assert TargetsOf(Frame(sources[n]))[k] in Grafted(sources)(n);
      }
    }
  }

  datatype Result =
    | RowsRefused(error: Ranges.Error)
    | Made(outcome: TmCompiler.Outcome)

  /** Every own row that is needed expands: the worlds' own, and those of the graphs they graft at any depth. */
  ghost predicate RowsExpand(sources: Sources, units: seq<SourceUnit>)
  {
    && (forall k | 0 <= k < |units| :: Own(units[k].written).Ok?)
    && forall n | Needed(sources, RootsOf(units, |units|), n) :: Own(sources[n]).Ok?
  }

  /** A listing behaves as the program does as it is written: every world, whatever the data inside its
      alphabets and the routines it calls. */
  ghost predicate Faithful(sources: Sources, order: seq<string>, units: seq<SourceUnit>, ir: seq<I.IrWorld>, strip: bool,
                           lines: seq<L.Line>)
  {
    && |ir| == |units|
    && forall k: nat, callee, tuple, mr: nat, d |
         k < |units| && Em.CalleeKeeps(callee, units[k].header.cards) && Within(d, units[k].header.cards) ::
         BehavesAs(GraphsOf(sources), order, Meaning(sources, units[k].written), UnitOf(units[k]), ir[k], strip, lines, k,
                   callee, tuple, mr, d)
  }

  lemma {:induction false} RootsListed(units: seq<SourceUnit>, n: nat)
    requires n <= |units|
    ensures forall k, t | 0 <= k < n && t in TargetsOf(Frame(units[k].written)) :: t in RootsOf(units, n)
    ensures forall t | t in RootsOf(units, n) :: exists k :: 0 <= k < n && t in TargetsOf(Frame(units[k].written))
  {
    hide Frame;
    if n > 0 {
      RootsListed(units, n - 1);
    }
  }

  lemma RootsKnown(sources: Sources, units: seq<SourceUnit>)
    requires ProgramSound(sources, units)
    ensures forall t | t in RootsOf(units, |units|) :: t in sources
  {
    hide SourceSound, Frame, CallsFit, AllSound, RootsOf;
    RootsListed(units, |units|);
    forall t | t in RootsOf(units, |units|) ensures t in sources {
      var k :| 0 <= k < |units| && t in TargetsOf(Frame(units[k].written));
      assert UnitSound(sources, units[k]);
      TargetsKnown(sources, units[k].written);
    }
  }

  lemma RootsUsed(units: seq<SourceUnit>, used: set<string>)
    requires forall t | t in RootsOf(units, |units|) :: t in used
    ensures forall k | 0 <= k < |units| :: D.GraftsOnly(Frame(units[k].written), used)
  {
    RootsListed(units, |units|);
    forall k: nat | k < |units| ensures D.GraftsOnly(Frame(units[k].written), used) {
      forall i | 0 <= i < |units[k].written.grafts| ensures units[k].written.grafts[i].target in used {
        assert TargetsOf(Frame(units[k].written))[i] in RootsOf(units, |units|);
      }
    }
  }

  lemma ListingFaithful(sources: Sources, order: seq<string>, units: seq<SourceUnit>, used: set<string>, ir: seq<I.IrWorld>,
                        strip: bool, plans: seq<G.WorldPlan>)
    requires ProgramSound(sources, units) && Compiled(GraphsOf(sources), order, UnitsOf(units), ir)
             && G.Planned(ir, strip, plans)
    requires AllExpand(sources, used)
    requires forall k | 0 <= k < |units| :: Own(units[k].written).Ok? && D.GraftsOnly(Frame(units[k].written), used)
    ensures Faithful(sources, order, units, ir, strip, E.Texts(G.ProgramLines(ir, plans)))
  {
    hide ProgramSound, AllExpand, Own, Frame, CompiledAs, G.PlanOf, G.ProgramLines, BehavesAs, Em.CalleeKeeps, Within, Meaning,
      GraphsOf, Descending, D.GraftsOnly;
    forall k: nat, callee, tuple, mr: nat, d |
      k < |units| && Em.CalleeKeeps(callee, units[k].header.cards) && Within(d, units[k].header.cards)
      ensures BehavesAs(GraphsOf(sources), order, Meaning(sources, units[k].written), UnitOf(units[k]), ir[k], strip,
                        E.Texts(G.ProgramLines(ir, plans)), k, callee, tuple, mr, d)
    {
      CompilerPreservesMeaning(sources, order, units, used, ir, strip, plans, k, callee, tuple, mr, d);
    }
  }

  /** The compiler, from written worlds to the listing.  Rows that are needed and do not expand are refused, a
      cycle of grafts first; every listing behaves as its program. */
  method CompileProgram(sources: Sources, units: seq<SourceUnit>, strip: bool)
    returns (r: Result, ghost order: seq<string>, ir: seq<I.IrWorld>)
    requires ProgramSound(sources, units)
    ensures r.RowsRefused? <==> !Cyclic(DepsOf(GraphsOf(sources))) && !RowsExpand(sources, units)
    ensures r.RowsRefused? ==>
              || (exists k :: 0 <= k < |units| && Own(units[k].written) == Ranges.Err(r.error))
              || (exists n :: Needed(sources, RootsOf(units, |units|), n) && Own(sources[n]) == Ranges.Err(r.error))
    ensures r.Made? && r.outcome.NotExpanded? && r.outcome.outcome.Cycle? <==> Cyclic(DepsOf(GraphsOf(sources)))
    ensures r.Made? && r.outcome.Listing? ==> Faithful(sources, order, units, ir, strip, r.outcome.lines)
    ensures r.Made? ==> !r.outcome.Internal? && Justified(GraphsOf(sources), order, UnitsOf(units), r.outcome)
  {
    hide ProgramSound, AllSound, Own, Needed, Justified, AllExpand, Compiled, G.Planned, G.ProgramLines, Faithful, Cyclic,
      Ranked, Descending, AllChecked, E.LineMap, Frame, ExpandedAs, RootsOf;
    order, ir := [], [];
    var cycle, _ := CheckAcyclicity(DepsOf(GraphsOf(sources)));
    ghost var used: set<string> := {};
    if cycle.None? {
      for k := 0 to |units|
        invariant forall i | 0 <= i < k :: Own(units[i].written).Ok?
      {
        var own := ExpandRows(units[k].written);
        if own.Err? {
          return RowsRefused(own.error), order, ir;
        }
      }
      RootsKnown(sources, units);
      ProgramGraphs(sources, units);
      var failed;
      failed, used := ExpandNeeded(sources, RootsOf(units, |units|));
      if failed.Some? {
        return RowsRefused(failed.value), order, ir;
      }
      RootsUsed(units, used);
    }
    ProgramChecked(sources, units);
    var outcome, plans;
    outcome, order, ir, plans := Compile(GraphsOf(sources), SizesOf(sources), UnitsOf(units), strip);
    if outcome.Listing? {
      ListingFaithful(sources, order, units, used, ir, strip, plans);
    }
    r := Made(outcome);
  }

  lemma ProgramGraphs(sources: Sources, units: seq<SourceUnit>)
    requires ProgramSound(sources, units)
    ensures AllSound(sources)
  {
    hide AllSound, UnitSound;
  }
}
