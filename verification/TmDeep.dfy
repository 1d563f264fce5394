/** Whole runs through nested grafts.  The deep machine is in an own state of some world, below a stack of
    grafts that lead to it; a step reads the tapes through every graft's maps in turn, does what the
    innermost world's own state does, carries that back out, and goes on inside, or out by the
    continuations.  No graft is spliced, named or shared at any depth; the expanded world runs as it does. */
module TmDeep {
  import opened Options
  import opened Simulation
  import opened TmMachine
  import opened TmRules
  import opened TmSplice
  import opened TmBands
  import opened TmBandSplice
  import opened TmGraftGraph
  import opened TmGraftKey
  import opened TmGrafts
  import opened TmHygiene
  import opened TmSharing
  import opened TmInside
  import opened TmModes
  import Runs = TmRuns

  // ----- the machine -----

  /** An own state, below the grafts on the way to it. */
  datatype Place = Top(name: string) | Nested(graft: nat, inner: Place)

  datatype Config = Config(at: Place, data: Data)

  /** What an own state of a world - a graph, or the one that is compiled - does on a tuple, choosing by
      bands or, where the rows no longer have exact ones, widely. */
  type Meaning = (Option<string>, string, seq<nat>, bool) -> Outcome

  /** The patterns that splicing leaves of a state: they say whether it looks at its tapes at all. */
  function Look(graphs: Graphs, w: World, p: Place): seq<seq<Cell>>
    decreases p
  {
    match p
    case Top(name) =>
      (match FindState(w.own, 0, name)
       case None => []
       case Some(st) => Patterns(st.rules))
    case Nested(k, inner) =>
      if k >= |w.grafts| || w.grafts[k].target !in graphs then []
      else
        var rows, comp := IdleRows(Look(graphs, graphs[w.grafts[k].target], inner)), w.grafts[k].comp;
        if Splicable(rows, comp, w.arity) then Patterns(SpliceRules(rows, comp, w.arity, 0, Runs.Same)) else []
  }

  ghost function DeepOutcome(graphs: Graphs, mean: Meaning, key: Option<string>, w: World, p: Place, tuple: seq<nat>,
                             wide: bool): Outcome
    decreases p
  {
    match p
    case Top(name) => mean(key, name, tuple, wide)
    case Nested(k, inner) =>
      if k >= |w.grafts| || w.grafts[k].target !in graphs || !Placed(w.grafts[k].comp, |tuple|) then NoMatch
      else
        var t, comp := w.grafts[k].target, w.grafts[k].comp;
        if StateReads(IdleRows(Look(graphs, graphs[t], inner))) && !Readable(comp, tuple) then ReadTrap(|tuple|)
        else
          CarryBack(DeepOutcome(graphs, mean, Some(t), graphs[t], inner, Seen(comp, tuple), wide || !Covers(comp, |tuple|)),
                    comp, |tuple|)
  }

  /** Where a name leads: to a place, out of the world by a state parameter, or to an ending. */
  datatype Way = Goes(place: Place) | Leaves(param: string) | EndsAs(t: Transition)

  /** Where a world is entered. */
  ghost function Entry(graphs: Graphs, order: seq<string>, w: World, r: nat): Place
    requires AllDescend(graphs, order) && Descends(graphs, order, w, r)
    decreases r
  {
    if w.ownEntry.Some? then Top(w.ownEntry.value)
    else
      match LastEntry(w.grafts, |w.grafts|)
      case None => Top("")
      case Some(k) => Nested(k, GraftEntry(graphs, order, w, r, k))
  }

  /** Where a graft's graph is entered. */
  ghost function GraftEntry(graphs: Graphs, order: seq<string>, w: World, r: nat, k: nat): Place
    requires AllDescend(graphs, order) && Descends(graphs, order, w, r) && k < |w.grafts|
    decreases r, 0
  {
    Entry(graphs, order, graphs[w.grafts[k].target], Rank(order, 0, w.grafts[k].target))
  }

  /** Where a name of a world leads: a state parameter out, an instance to its graph's entry. */
  ghost function Enter(graphs: Graphs, order: seq<string>, w: World, r: nat, name: string): Way
    requires AllDescend(graphs, order) && Descends(graphs, order, w, r)
  {
    if name in w.params then Leaves(name)
    else
      match Runs.InstanceNamed(w.grafts, 0, name)
      case None => Goes(Top(name))
      case Some(k) => Goes(Nested(k, GraftEntry(graphs, order, w, r, k)))
  }

  /** Where a name of the innermost world leads: out of a graft by the continuation of a state parameter. */
  ghost function Follow(graphs: Graphs, order: seq<string>, w: World, r: nat, p: Place, name: string): Way
    requires AllDescend(graphs, order) && Descends(graphs, order, w, r)
    decreases p
  {
    match p
    case Top(_) => Enter(graphs, order, w, r, name)
    case Nested(k, inner) =>
      if k >= |w.grafts| then Leaves(name)
      else
        var t := w.grafts[k].target;
        Outward(graphs, order, w, r, k, Follow(graphs, order, graphs[t], Rank(order, 0, t), inner, name))
  }

  /** A way of a graph, seen from its host: a state parameter continues as the graft says. */
  ghost function Outward(graphs: Graphs, order: seq<string>, w: World, r: nat, k: nat, way: Way): Way
    requires AllDescend(graphs, order) && Descends(graphs, order, w, r) && k < |w.grafts|
  {
    match way
    case Goes(q) => Goes(Nested(k, q))
    case EndsAs(e) => EndsAs(e)
    case Leaves(param) =>
      match FindBind(w.grafts[k].cont, 0, param)
      case None => Leaves(param)
      case Some(c) => if c.Goto? then Enter(graphs, order, w, r, c.name) else EndsAs(c)
  }

  ghost function DeepArrive(graphs: Graphs, order: seq<string>, w: World, r: nat, p: Place, callee: Runs.Callee,
                            l: Runs.Landing)
    : Step<Config, Ending>
    requires AllDescend(graphs, order) && Descends(graphs, order, w, r)
  {
    match l
    case Over(e) => Done(e)
    case At(name, d) =>
      match Follow(graphs, order, w, r, p, name)
      case Goes(q) => Next(Config(q, d))
      case Leaves(param) => Done(LeftFor(param, d))
      case EndsAs(t) =>
        match Runs.Land(t, d, callee)
        case Over(e) => Done(e)
        case At(_, _) => Done(Wrong)
  }

  ghost function DeepStep(graphs: Graphs, order: seq<string>, mean: Meaning, w: World, r: nat, strip: bool, callee: Runs.Callee,
                          c: Config)
    : Step<Config, Ending>
    requires AllDescend(graphs, order) && Descends(graphs, order, w, r)
  {
    var o := DeepOutcome(graphs, mean, None, w, c.at, Read(c.data), false);
    DeepArrive(graphs, order, w, r, c.at, callee, Runs.Perform(o, c.data, strip, callee))
  }

  ghost function DeepStepper(graphs: Graphs, order: seq<string>, mean: Meaning, w: World, r: nat, strip: bool,
                             callee: Runs.Callee)
    : Config -> Step<Config, Ending>
    requires AllDescend(graphs, order) && Descends(graphs, order, w, r)
  {
    (c: Config) =>
      if AllDescend(graphs, order) && Descends(graphs, order, w, r) then DeepStep(graphs, order, mean, w, r, strip, callee, c)
      else Done(Wrong)
  }

  // ----- what resolution guarantees -----

  /** The sizes of every graph's tapes' alphabets. */
  type CardMap = map<string, seq<nat>>

  /** A graft between a world's tapes and its graph's, continuing state parameters only. */
  ghost predicate GraftFits(graphs: Graphs, sizes: CardMap, g: Graft)
  {
    && Keyed(g) && g.target in graphs && g.target in sizes && |g.comp| == |sizes[g.target]|
    && (forall i | 0 <= i < |g.comp| :: g.comp[i].graphCard == sizes[g.target][i])
    && forall b | b in g.cont :: b.0 in graphs[g.target].params
  }

  ghost predicate Positive(cards: seq<nat>)
  {
    forall k | 0 <= k < |cards| :: 0 < cards[k]
  }

  ghost predicate Fitting(graphs: Graphs, sizes: CardMap, w: World, cards: seq<nat>)
  {
    && Inside(w, cards) && Positive(cards) && forall k | 0 <= k < |w.grafts| :: GraftFits(graphs, sizes, w.grafts[k])
  }

  /** Graphs as they reach expansion, with the sizes of their tapes' alphabets. */
  ghost predicate Sound(graphs: Graphs, sizes: CardMap)
  {
    AllResolved(graphs) && forall n | n in graphs :: n in sizes && Fitting(graphs, sizes, graphs[n], sizes[n])
  }

  /** A world that expands. */
  ghost predicate Ready(graphs: Graphs, order: seq<string>, sizes: CardMap, w: World, r: nat, cards: seq<nat>)
  {
    && AllDescend(graphs, order) && Descends(graphs, order, w, r) && AddGrafts(graphs, order, w, r, |w.grafts|).Ok?
    && Sound(graphs, sizes) && Resolved(graphs, w) && Fitting(graphs, sizes, w, cards)
  }

  ghost function AccOf(graphs: Graphs, order: seq<string>, w: World, r: nat): Acc
    requires AllDescend(graphs, order) && Descends(graphs, order, w, r) && AddGrafts(graphs, order, w, r, |w.grafts|).Ok?
  {
    AddGrafts(graphs, order, w, r, |w.grafts|).value
  }

  ghost predicate InCards(tuple: seq<nat>, cards: seq<nat>)
  {
    |tuple| == |cards| && forall k | 0 <= k < |cards| :: tuple[k] < cards[k]
  }

  /** A world's own rows do what its states mean. */
  ghost predicate Agrees(mean: Meaning, key: Option<string>, w: World, cards: seq<nat>)
  {
    forall st, tuple, wide | st in w.own && InCards(tuple, cards) ::
      mean(key, st.name, tuple, wide) == ModeOutcome(st.rules, tuple, wide)
  }

  /** The world grafts only these graphs. */
  ghost predicate GraftsOnly(w: World, used: set<string>)
  {
    forall k | 0 <= k < |w.grafts| :: w.grafts[k].target in used
  }

  /** An account of these graphs, which graft each other only. */
  ghost predicate AllAgree(graphs: Graphs, sizes: CardMap, mean: Meaning, used: set<string>)
  {
    forall n | n in graphs && n in sizes && n in used ::
      Agrees(mean, Some(n), graphs[n], sizes[n]) && GraftsOnly(graphs[n], used)
  }

  lemma ReadyExpanded(graphs: Graphs, order: seq<string>, sizes: CardMap, w: World, r: nat, cards: seq<nat>)
    requires Ready(graphs, order, sizes, w, r, cards)
    ensures Runs.Expanded(graphs, Bodies(graphs, order), w, AccOf(graphs, order, w, r), cards)
  {
    hide AddGrafts, Resolved, Hygienic, Runs.Callless, Kept, AllRealised, Runs.Sized, Keyed, Bodies, Inside, AllDescend,
      Descends;
    GraftsKept(graphs, order, w, r, |w.grafts|);
    GraftsRealised(graphs, order, w, r, |w.grafts|);
    Runs.GraftsCallless(graphs, order, w, r, |w.grafts|);
    Runs.BodiesHygienic(graphs, order);
    InsideSized(w, cards);
  }

  lemma {:induction false} GraftExpands(graphs: Graphs, order: seq<string>, w: World, r: nat, n: nat, k: nat)
    requires AllDescend(graphs, order) && Descends(graphs, order, w, r) && k < n <= |w.grafts|
    requires AddGrafts(graphs, order, w, r, n).Ok?
    ensures ExpandGraph(graphs, order, w.grafts[k].target).Ok?
  {
    hide AddGraft, FirstCall, ExpandGraph, Start;
    if k < n - 1 {
      GraftExpands(graphs, order, w, r, n - 1, k);
    }
  }

  /** A graft's graph expands too. */
  lemma GraftReady(graphs: Graphs, order: seq<string>, sizes: CardMap, w: World, r: nat, cards: seq<nat>, k: nat)
    requires Ready(graphs, order, sizes, w, r, cards) && k < |w.grafts|
    ensures var t := w.grafts[k].target;
            && t in graphs && t in sizes && Ready(graphs, order, sizes, graphs[t], Rank(order, 0, t), sizes[t])
            && Rank(order, 0, t) < r && t in Bodies(graphs, order)
            && Bodies(graphs, order)[t] == Finish(graphs[t], AccOf(graphs, order, graphs[t], Rank(order, 0, t)))
  {
    hide AddGrafts, Finish, Resolved, Fitting;
    GraftExpands(graphs, order, w, r, |w.grafts|, k);
  }

  // ----- which state a place is -----

  /** The state of the expanded world that a place stands for, through the names each splice made up. */
  ghost predicate DeepStands(graphs: Graphs, order: seq<string>, w: World, r: nat, p: Place, name: string)
    requires AllDescend(graphs, order) && Descends(graphs, order, w, r)
    decreases p, 0
  {
    && AddGrafts(graphs, order, w, r, |w.grafts|).Ok?
    && match p
       case Top(n) => name == n && n in NamesOf(w.own)
       case Nested(k, inner) => k < |w.grafts| && exists m :: StandsBelow(graphs, order, w, r, k, inner, m, name)
  }

  ghost predicate StandsBelow(graphs: Graphs, order: seq<string>, w: World, r: nat, k: nat, inner: Place, m: string,
                              name: string)
    requires AllDescend(graphs, order) && Descends(graphs, order, w, r) && k < |w.grafts|
    requires AddGrafts(graphs, order, w, r, |w.grafts|).Ok?
    decreases inner, 1
  {
    var t := w.grafts[k].target;
    SplicedFrom(graphs, order, w, r, k, m, name) && DeepStands(graphs, order, graphs[t], Rank(order, 0, t), inner, m)
  }

  /** Graft k's splice turns a state of its graph into a state of the expanded world. */
  ghost predicate SplicedFrom(graphs: Graphs, order: seq<string>, w: World, r: nat, k: nat, m: string, name: string)
    requires AllDescend(graphs, order) && Descends(graphs, order, w, r)
    requires AddGrafts(graphs, order, w, r, |w.grafts|).Ok?
  {
    Runs.StandsFor(graphs, Bodies(graphs, order), w, AccOf(graphs, order, w, r), Runs.Inside(k, m), name)
  }

  /** A way and a transition of the expanded world lead to the same state, parameter or ending. */
  ghost predicate LeadsTo(graphs: Graphs, order: seq<string>, w: World, r: nat, way: Way, t: Transition)
    requires AllDescend(graphs, order) && Descends(graphs, order, w, r)
  {
    match way
    case Goes(q) => t.Goto? && t.name !in w.params && DeepStands(graphs, order, w, r, q, t.name)
    case Leaves(param) => t == Goto(param) && param in w.params
    case EndsAs(e) => t == e && IsEnding(e)
  }

  /** An innermost transition and the expanded world's. */
  ghost predicate Leads(graphs: Graphs, order: seq<string>, w: World, r: nat, p: Place, t: Transition, t': Transition)
    requires AllDescend(graphs, order) && Descends(graphs, order, w, r)
  {
    match t
    case Goto(name) => LeadsTo(graphs, order, w, r, Follow(graphs, order, w, r, p, name), t')
    case Call(target, tag, ToState(name)) =>
      && t'.Call? && t'.target == target && t'.tag == tag && t'.resume.ToState?
      && LeadsTo(graphs, order, w, r, Follow(graphs, order, w, r, p, name), Goto(t'.resume.name))
    case _ => t' == t
  }

  ghost predicate OutcomeLeads(graphs: Graphs, order: seq<string>, w: World, r: nat, p: Place, o: Outcome, o': Outcome)
    requires AllDescend(graphs, order) && Descends(graphs, order, w, r)
  {
    match (o, o')
    case (NoMatch, NoMatch) => true
    case (Fired(g, a, m, t), Fired(g', a', m', t')) => g == g' && a == a' && m == m' && Leads(graphs, order, w, r, p, t, t')
    case _ => false
  }

  // ----- names -----

  lemma NameFacts(graphs: Graphs, order: seq<string>, sizes: CardMap, w: World, r: nat, cards: seq<nat>)
    requires Ready(graphs, order, sizes, w, r, cards)
    ensures var acc := AccOf(graphs, order, w, r);
            && (forall n | n in NamesOf(acc.states) :: ResolveName(n, acc.alias) == n && n !in w.params)
            && NamesOf(w.own) <= NamesOf(acc.states) && (forall n | n in w.params :: ResolveName(n, acc.alias) == n)
  {
    hide Sound, Fitting, Resolved, AllDescend, Descends, AddGrafts, Runs.Expanded, Bodies, AccOf, NamesOf;
    ReadyExpanded(graphs, order, sizes, w, r, cards);
    Runs.HostNames(graphs, Bodies(graphs, order), w, AccOf(graphs, order, w, r), cards);
    assert forall n :: n in w.params <==> n in Elements(w.params);
  }

  /** A graft's entry stands for what its instance's name resolves to. */
  lemma InstanceEnters(graphs: Graphs, order: seq<string>, sizes: CardMap, w: World, r: nat, cards: seq<nat>, k: nat)
    requires Ready(graphs, order, sizes, w, r, cards) && k < |w.grafts|
    ensures var acc := AccOf(graphs, order, w, r);
            && KeyOf(w.grafts[k]) in acc.dedup && acc.dedup[KeyOf(w.grafts[k])] in NamesOf(acc.states)
            && DeepStands(graphs, order, w, r, Nested(k, GraftEntry(graphs, order, w, r, k)), acc.dedup[KeyOf(w.grafts[k])])
            && (w.grafts[k].asName.Some? ==> ResolveName(w.grafts[k].asName.value, acc.alias) == acc.dedup[KeyOf(w.grafts[k])])
    decreases r, 0
  {
    hide Sound, Fitting, Resolved, AllDescend, Descends, AddGrafts, Runs.Expanded, Runs.StandsFor, Bodies, NamesOf, KeyOf,
      ResolveName;
    var acc, t := AccOf(graphs, order, w, r), w.grafts[k].target;
    ReadyExpanded(graphs, order, sizes, w, r, cards);
    GraftReady(graphs, order, sizes, w, r, cards, k);
    Runs.InstanceStands(graphs, Bodies(graphs, order), w, acc, cards, k);
    WorldEnters(graphs, order, sizes, graphs[t], Rank(order, 0, t), sizes[t]);
    assert StandsBelow(graphs, order, w, r, k, GraftEntry(graphs, order, w, r, k), Bodies(graphs, order)[t].entry,
                       acc.dedup[KeyOf(w.grafts[k])]);
  }

  /** A world's entry stands for the expanded world's. */
  lemma WorldEnters(graphs: Graphs, order: seq<string>, sizes: CardMap, w: World, r: nat, cards: seq<nat>)
    requires Ready(graphs, order, sizes, w, r, cards)
    ensures DeepStands(graphs, order, w, r, Entry(graphs, order, w, r), Finish(w, AccOf(graphs, order, w, r)).entry)
    decreases r
  {
    hide Sound, Fitting, Resolved, AllDescend, Descends, AddGrafts, Runs.Expanded, NamesOf, KeyOf, LastEntry, ResolveStates,
      DeepStands;
    var acc := AccOf(graphs, order, w, r);
    ReadyExpanded(graphs, order, sizes, w, r, cards);
    NameFacts(graphs, order, sizes, w, r, cards);
    Runs.EntryGiven(graphs, Bodies(graphs, order), w, acc, cards);
    if w.ownEntry.Some? {
      OwnStands(graphs, order, sizes, w, r, cards, w.ownEntry.value);
    } else {
      InstanceEnters(graphs, order, sizes, w, r, cards, LastEntry(w.grafts, |w.grafts|).value);
    }
  }

  lemma OwnStands(graphs: Graphs, order: seq<string>, sizes: CardMap, w: World, r: nat, cards: seq<nat>, name: string)
    requires Ready(graphs, order, sizes, w, r, cards) && name in NamesOf(w.own)
    ensures DeepStands(graphs, order, w, r, Top(name), name)
  {
    hide AddGrafts, Sound, Resolved, Fitting, AllDescend, Descends;
  }

  /** A name of a world leads to what it resolves to. */
  lemma NameLeads(graphs: Graphs, order: seq<string>, sizes: CardMap, w: World, r: nat, cards: seq<nat>, name: string)
    requires Ready(graphs, order, sizes, w, r, cards) && name in Reserved(w)
    ensures LeadsTo(graphs, order, w, r, Enter(graphs, order, w, r, name),
                    Goto(ResolveName(name, AccOf(graphs, order, w, r).alias)))
  {
    hide Sound, Fitting, Resolved, AllDescend, Descends, AddGrafts, NamesOf, KeyOf, DeepStands, AccOf, GraftEntry,
      Runs.InstanceNamed, ResolveName;
    NameFacts(graphs, order, sizes, w, r, cards);
    var k := Runs.InstanceNamed(w.grafts, 0, name);
    if name in w.params {
    } else if k.Some? {
      InstanceEnters(graphs, order, sizes, w, r, cards, k.value);
    } else {
      Runs.OwnName(w, name);
      OwnStands(graphs, order, sizes, w, r, cards, name);
    }
  }

  // ----- transitions, one graft further out -----

  lemma BindKnown(graphs: Graphs, order: seq<string>, sizes: CardMap, w: World, r: nat, cards: seq<nat>, k: nat, name: string)
    requires Ready(graphs, order, sizes, w, r, cards) && k < |w.grafts|
    ensures var bound := FindBind(w.grafts[k].cont, 0, name);
            && (bound.Some? <==> name in graphs[w.grafts[k].target].params)
            && (bound.Some? ==> IsEnding(bound.value) || (bound.value.Goto? && bound.value.name in Reserved(w)))
  {
    hide AllDescend, AddGrafts, FindBind, Reserved, Placed, Keyed, Inside, Positive, Apart, AllWide, Closed, AllResolved,
      NamesOf;
    var g := w.grafts[k];
    assert GraftResolved(graphs, w, g) && GraftFits(graphs, sizes, g);
    var bound := FindBind(g.cont, 0, name);
    if bound.Some? {
      BoundSomewhere(g.cont, 0, name);
      assert (name, bound.value) in g.cont;
    }
  }

  /** What is known of graft k's splice, graft c's or its own. */
  ghost predicate SplicedBy(graphs: Graphs, order: seq<string>, w: World, r: nat, k: nat, m: string, name: string, c: nat,
                            names: map<string, string>)
    requires AllDescend(graphs, order) && Descends(graphs, order, w, r) && k < |w.grafts|
    requires AddGrafts(graphs, order, w, r, |w.grafts|).Ok?
  {
    Runs.InsideAs(graphs, Bodies(graphs, order), w, AccOf(graphs, order, w, r), k, m, c, names, name)
  }

  /** A state of graft k's graph, renamed by the same splice. */
  lemma SpliceMore(graphs: Graphs, order: seq<string>, sizes: CardMap, w: World, r: nat, cards: seq<nat>, k: nat, m: string,
                   name: string, c: nat, names: map<string, string>, n: string)
    requires Ready(graphs, order, sizes, w, r, cards) && k < |w.grafts| && SplicedBy(graphs, order, w, r, k, m, name, c, names)
    requires var t := w.grafts[k].target;
             n in NamesOf(Finish(graphs[t], AccOf(graphs, order, graphs[t], Rank(order, 0, t))).states)
    ensures n in names && names[n] in NamesOf(AccOf(graphs, order, w, r).states)
    ensures SplicedFrom(graphs, order, w, r, k, n, names[n])
  {
    hide Sound, Fitting, Resolved, AddGrafts, AllDescend, Descends, NamesOf, Runs.Expanded, Realised, Finish;
    var acc, t := AccOf(graphs, order, w, r), w.grafts[k].target;
    var bodies := Bodies(graphs, order);
    ReadyExpanded(graphs, order, sizes, w, r, cards);
    GraftReady(graphs, order, sizes, w, r, cards, k);
    var st := Runs.InsideState(graphs, bodies, w, acc, cards, k, m, c, names, name);
    var i := StateOf(bodies[t].states, n);
    assert bodies[t].states[i] in bodies[t].states;
    assert Runs.InsideAs(graphs, bodies, w, acc, k, n, c, names, names[n]);
  }

  /** A place stands for a state that is there. */
  lemma PlaceNamed(graphs: Graphs, order: seq<string>, sizes: CardMap, w: World, r: nat, cards: seq<nat>, p: Place,
                   name: string)
    requires Ready(graphs, order, sizes, w, r, cards) && DeepStands(graphs, order, w, r, p, name)
    ensures name in NamesOf(AccOf(graphs, order, w, r).states) && name in NamesOf(Finish(w, AccOf(graphs, order, w, r)).states)
  {
    hide Sound, Fitting, Resolved, AddGrafts, AllDescend, Descends, NamesOf, Runs.Expanded, Realised, ResolveStates, Bodies;
    var acc := AccOf(graphs, order, w, r);
    NameFacts(graphs, order, sizes, w, r, cards);
    ResolveKeeps(acc.states, acc.alias);
    if p.Nested? {
      var m :| StandsBelow(graphs, order, w, r, p.graft, p.inner, m, name);
      assert SplicedFrom(graphs, order, w, r, p.graft, m, name);
      ReadyExpanded(graphs, order, sizes, w, r, cards);
      var c: nat, names: map<string, string> :|
        Runs.InsideAs(graphs, Bodies(graphs, order), w, acc, p.graft, m, c, names, name);
      var st := Runs.InsideState(graphs, Bodies(graphs, order), w, acc, cards, p.graft, m, c, names, name);
    }
  }

  /** What a graph's transition leads to in its own expansion, its renaming leads to in the host's. */
  lemma NestedLeads(graphs: Graphs, order: seq<string>, sizes: CardMap, w: World, r: nat, cards: seq<nat>, k: nat, inner: Place,
                    m: string, name: string, c: nat, names: map<string, string>, t: Transition, t': Transition)
    requires Ready(graphs, order, sizes, w, r, cards) && k < |w.grafts| && SplicedBy(graphs, order, w, r, k, m, name, c, names)
    requires c < |w.grafts| && forall x :: FindBind(w.grafts[c].cont, 0, x) == FindBind(w.grafts[k].cont, 0, x)
    requires var g := w.grafts[k].target; Leads(graphs, order, graphs[g], Rank(order, 0, g), inner, t, t') && !t'.Call?
    ensures var to := Remap(t', w.grafts[c].cont, graphs[w.grafts[k].target].params, names);
            Leads(graphs, order, w, r, Nested(k, inner), t, ResolveTransition(to, AccOf(graphs, order, w, r).alias))
  {
    hide Sound, Fitting, Resolved, AddGrafts, NamesOf, FindBind, SplicedBy, Enter, DeepStands, Reserved, ResolveName;
    if t.Goto? {
      var g := w.grafts[k].target;
      GraftReady(graphs, order, sizes, w, r, cards, k);
      WayOut(graphs, order, sizes, w, r, cards, k, inner, m, name, c, names,
             Follow(graphs, order, graphs[g], Rank(order, 0, g), inner, t.name), t');
    }
  }

  lemma WayOut(graphs: Graphs, order: seq<string>, sizes: CardMap, w: World, r: nat, cards: seq<nat>, k: nat, inner: Place,
               m: string, name: string, c: nat, names: map<string, string>, way: Way, t': Transition)
    requires Ready(graphs, order, sizes, w, r, cards) && k < |w.grafts| && SplicedBy(graphs, order, w, r, k, m, name, c, names)
    requires c < |w.grafts| && forall x :: FindBind(w.grafts[c].cont, 0, x) == FindBind(w.grafts[k].cont, 0, x)
    requires var g := w.grafts[k].target; LeadsTo(graphs, order, graphs[g], Rank(order, 0, g), way, t')
    ensures var to := Remap(t', w.grafts[c].cont, graphs[w.grafts[k].target].params, names);
            LeadsTo(graphs, order, w, r, Outward(graphs, order, w, r, k, way),
                    ResolveTransition(to, AccOf(graphs, order, w, r).alias))
  {
    hide Sound, Fitting, Resolved, AddGrafts, NamesOf, FindBind, SplicedBy, Enter, DeepStands, Reserved, AllDescend,
      SplicedFrom;
    var g := w.grafts[k].target;
    GraftReady(graphs, order, sizes, w, r, cards, k);
    match way
    case Goes(q) =>
      PlaceNamed(graphs, order, sizes, graphs[g], Rank(order, 0, g), sizes[g], q, t'.name);
      SpliceMore(graphs, order, sizes, w, r, cards, k, m, name, c, names, t'.name);
      NameFacts(graphs, order, sizes, w, r, cards);
      BindKnown(graphs, order, sizes, w, r, cards, k, t'.name);
      NestedStands(graphs, order, sizes, w, r, cards, k, q, t'.name, names[t'.name]);
    case Leaves(param) =>
      BindKnown(graphs, order, sizes, w, r, cards, k, param);
      var bound := FindBind(w.grafts[k].cont, 0, param).value;
      if bound.Goto? {
        NameLeads(graphs, order, sizes, w, r, cards, bound.name);
      }
    case EndsAs(e) =>
  }

  lemma NestedStands(graphs: Graphs, order: seq<string>, sizes: CardMap, w: World, r: nat, cards: seq<nat>, k: nat, q: Place,
                     m: string, name: string)
    requires Ready(graphs, order, sizes, w, r, cards) && k < |w.grafts| && SplicedFrom(graphs, order, w, r, k, m, name)
    requires var g := w.grafts[k].target; DeepStands(graphs, order, graphs[g], Rank(order, 0, g), q, m)
    ensures DeepStands(graphs, order, w, r, Nested(k, q), name)
  {
    hide Sound, Fitting, Resolved, AddGrafts, SplicedFrom, AllDescend, Descends;
    assert StandsBelow(graphs, order, w, r, k, q, m, name);
  }

  // ----- what a place does -----

  /** A state of the expanded world looks and acts as a place. */
  ghost predicate ActsAs(graphs: Graphs, order: seq<string>, mean: Meaning, key: Option<string>, w: World, r: nat,
                         cards: seq<nat>, p: Place, rules: seq<Rule>)
    requires AllDescend(graphs, order) && Descends(graphs, order, w, r)
  {
    && Patterns(rules) == Look(graphs, w, p)
    && forall tuple, wide | InCards(tuple, cards) ::
         OutcomeLeads(graphs, order, w, r, p, DeepOutcome(graphs, mean, key, w, p, tuple, wide),
                      ModeOutcome(rules, tuple, wide))
  }

  lemma OwnOutcome(rules: seq<Rule>, tuple: seq<nat>, wide: bool)
    ensures var o := ModeOutcome(rules, tuple, wide);
            o.Fired? ==> exists q :: 0 <= q < |rules| && rules[q].transition == o.transition
  {
    hide FirstKept;
  }

  lemma OwnLeads(graphs: Graphs, order: seq<string>, sizes: CardMap, w: World, r: nat, cards: seq<nat>, st: State, o: Outcome)
    requires Ready(graphs, order, sizes, w, r, cards) && st in w.own
    requires o.Fired? ==> exists q :: 0 <= q < |st.rules| && st.rules[q].transition == o.transition
    ensures OutcomeLeads(graphs, order, w, r, Top(st.name), o,
                         Runs.Redirect(o, Runs.Resolving(AccOf(graphs, order, w, r).alias)))
  {
    hide Sound, Fitting, AddGrafts, NamesOf, AllDescend, Descends, LeadsTo, Reserved, AllWide, Apart, GraftResolved,
      ResolveName, Enter, AccOf;
    if o.Fired? {
      var k :| 0 <= k < |w.own| && w.own[k] == st;
      assert NamesWithin(w.own[k].rules, Reserved(w));
      var q :| 0 <= q < |st.rules| && st.rules[q].transition == o.transition;
      assert Names(st.rules[q].transition).Some? ==> Names(st.rules[q].transition).value in Reserved(w);
      if Names(o.transition).Some? {
        NameLeads(graphs, order, sizes, w, r, cards, Names(o.transition).value);
      }
    }
  }

  /** An own state, its aliases resolved, acts as itself. */
  lemma OwnActs(graphs: Graphs, order: seq<string>, sizes: CardMap, mean: Meaning, key: Option<string>, w: World, r: nat,
                cards: seq<nat>, name: string)
    requires Ready(graphs, order, sizes, w, r, cards) && Agrees(mean, key, w, cards) && name in NamesOf(w.own)
    ensures var found := FindState(Finish(w, AccOf(graphs, order, w, r)).states, 0, name);
            found.Some? && ActsAs(graphs, order, mean, key, w, r, cards, Top(name), found.value.rules)
  {
    hide Sound, Fitting, Resolved, AddGrafts, AllDescend, Descends, OutcomeLeads, ModeOutcome, AccOf, ResolveRules,
      Runs.Redirect, Finish, FindState, AllRealised, Apart, Kept, Runs.Sized, Keyed, Hygienic, Runs.Callless;
    var acc := AccOf(graphs, order, w, r);
    ReadyExpanded(graphs, order, sizes, w, r, cards);
    Runs.HostNames(graphs, Bodies(graphs, order), w, acc, cards);
    var k := StateOf(w.own, name);
    var st := w.own[k];
    assert st in w.own;
    Runs.OwnFound(graphs, w, st);
    OwnKept(graphs, Bodies(graphs, order), w, acc, st);
    Runs.Finished(w, acc, st);
    ResolvedPatterns(st.rules, acc.alias);
    forall tuple, wide | InCards(tuple, cards)
      ensures OutcomeLeads(graphs, order, w, r, Top(name), DeepOutcome(graphs, mean, key, w, Top(name), tuple, wide),
                           ModeOutcome(ResolveRules(st.rules, acc.alias), tuple, wide))
    {
      ModeResolves(st.rules, acc.alias, tuple, wide);
      OwnOutcome(st.rules, tuple, wide);
      OwnLeads(graphs, order, sizes, w, r, cards, st, ModeOutcome(st.rules, tuple, wide));
    }
  }

  lemma OwnKept(graphs: Graphs, bodies: map<string, Expansion>, w: World, acc: Acc, st: State)
    requires AllRealised(graphs, bodies, w, acc, |w.grafts|) && st in w.own
    ensures st in acc.states
  {
    hide IsRealised, KeyUsed, KeyOf;
  }

  lemma SeenInCards(comp: Composite, cards: seq<nat>, inner: seq<nat>, tuple: seq<nat>)
    requires OnTapes(comp, cards) && InCards(tuple, cards) && Positive(inner)
    requires |comp| == |inner| && forall i | 0 <= i < |comp| :: comp[i].graphCard == inner[i]
    ensures Placed(comp, |tuple|) && InRange(comp, |tuple|, tuple) && InCards(Seen(comp, tuple), inner)
  {
    hide Apply;
    if Readable(comp, tuple) {
      var g := ReadTuple(comp, tuple);
      forall k | 0 <= k < |inner| ensures g[k] < inner[k] {
        assert ReadImage(comp[k], tuple[comp[k].phys]) == Some(g[k]);
      }
    }
  }

  /** Outcomes that lead alike inside a graft do so outside it. */
  lemma CarriedLeads(graphs: Graphs, order: seq<string>, sizes: CardMap, w: World, r: nat, cards: seq<nat>, k: nat,
                     inner: Place, m: string, name: string, c: nat, names: map<string, string>, comp: Composite, arity: nat,
                     o: Outcome, o': Outcome)
    requires Ready(graphs, order, sizes, w, r, cards) && k < |w.grafts| && SplicedBy(graphs, order, w, r, k, m, name, c, names)
    requires c < |w.grafts| && forall x :: FindBind(w.grafts[c].cont, 0, x) == FindBind(w.grafts[k].cont, 0, x)
    requires var g := w.grafts[k].target; OutcomeLeads(graphs, order, graphs[g], Rank(order, 0, g), inner, o, o')
    requires o'.Fired? ==> !o'.transition.Call?
    requires Runs.KeepsTraps(Remapping(w.grafts[c].cont, graphs[w.grafts[k].target].params, names))
    ensures var remap := Remapping(w.grafts[c].cont, graphs[w.grafts[k].target].params, names);
            OutcomeLeads(graphs, order, w, r, Nested(k, inner), CarryBack(o, comp, arity),
                         Runs.Redirect(Runs.Redirect(CarryBack(o', comp, arity), remap),
                                       Runs.Resolving(AccOf(graphs, order, w, r).alias)))
  {
    hide Sound, Fitting, Resolved, AddGrafts, AllDescend, Descends, WriteBack, MoveBack, Unwritable, Leads, SplicedBy, FindBind,
      AccOf, Remap, ResolveTransition;
    QuietLeads(graphs, order, w, r, Nested(k, inner), AccOf(graphs, order, w, r).alias);
    if o.Fired? {
      NestedLeads(graphs, order, sizes, w, r, cards, k, inner, m, name, c, names, o.transition, o'.transition);
      SameBack(o, o', comp, arity);
    }
  }

  lemma SameBack(o: Outcome, o': Outcome, comp: Composite, arity: nat)
    requires o.Fired? && o'.Fired? && o'.(transition := o.transition) == o
    ensures var x, y := CarryBack(o, comp, arity), CarryBack(o', comp, arity);
            || (x == y && (x.Fired? ==> x.transition == TrapWrite))
            || (x.Fired? && x.transition == o.transition && y == x.(transition := o'.transition))
  {
    hide WriteBack, MoveBack, Unwritable;
    if |o.write| == |comp| && |o.moves| == |comp| && !Unwritable(o.write, comp) {
      var a := seq(arity, (h: nat) requires |o.write| == |comp| => WriteBack(o.write, comp, h));
      var b := seq(arity, (h: nat) requires |o.moves| == |comp| => MoveBack(o.moves, comp, h));
      var x, y := CarryBack(o, comp, arity), CarryBack(o', comp, arity);
      assert x.write == a == y.write && x.moves == b == y.moves;
    }
  }

  lemma QuietLeads(graphs: Graphs, order: seq<string>, w: World, r: nat, p: Place, alias: map<string, string>)
    requires AllDescend(graphs, order) && Descends(graphs, order, w, r)
    ensures Leads(graphs, order, w, r, p, TrapRead, ResolveTransition(TrapRead, alias))
    ensures Leads(graphs, order, w, r, p, TrapWrite, ResolveTransition(TrapWrite, alias))
  {
    hide AllDescend, Descends;
  }

  /** One graft further out a state does what the graph's does, through the maps. */
  lemma NestedOutcome(graphs: Graphs, order: seq<string>, sizes: CardMap, mean: Meaning, key: Option<string>, w: World, r: nat,
                      cards: seq<nat>, k: nat, inner: Place, m: string, name: string, c: nat, names: map<string, string>,
                      rules: seq<Rule>, line: nat, tuple: seq<nat>, wide: bool)
    requires Ready(graphs, order, sizes, w, r, cards) && k < |w.grafts| && SplicedBy(graphs, order, w, r, k, m, name, c, names)
    requires c < |w.grafts| && forall x :: FindBind(w.grafts[c].cont, 0, x) == FindBind(w.grafts[k].cont, 0, x)
    requires AllFit(rules, w.grafts[k].comp) && Splicable(rules, w.grafts[k].comp, w.arity)
             && (forall q | 0 <= q < |rules| :: !rules[q].transition.Call?)
    requires var g := w.grafts[k].target;
             g in sizes && ActsAs(graphs, order, mean, Some(g), graphs[g], Rank(order, 0, g), sizes[g], inner, rules)
    requires Runs.KeepsTraps(Remapping(w.grafts[c].cont, graphs[w.grafts[k].target].params, names))
    requires InCards(tuple, cards) && |cards| == w.arity && GraftFits(graphs, sizes, w.grafts[k])
             && OnTapes(w.grafts[k].comp, cards)
    requires Positive(sizes[w.grafts[k].target])
    ensures var remap := Remapping(w.grafts[c].cont, graphs[w.grafts[k].target].params, names);
            var spliced := SpliceRules(rules, w.grafts[k].comp, w.arity, line, remap);
            OutcomeLeads(graphs, order, w, r, Nested(k, inner),
                         DeepOutcome(graphs, mean, key, w, Nested(k, inner), tuple, wide),
                         ModeOutcome(ResolveRules(spliced, AccOf(graphs, order, w, r).alias), tuple, wide))
  {
    hide Sound, Fitting, Resolved, AddGrafts, AllDescend, Descends, SplicedBy, FindBind, AccOf, Remap, OutcomeLeads,
      ModeOutcome, SpliceRules, CarryBack, Look, StateReads, Readable, AllFit, Runs.KeepsTraps, Seen, InRange, Placed, OnTapes,
      InCards, Positive, Keyed, ResolveRules, Runs.Redirect, Covers;
    var g, comp := w.grafts[k].target, w.grafts[k].comp;
    var remap, alias := Remapping(w.grafts[c].cont, graphs[g].params, names), AccOf(graphs, order, w, r).alias;
    SeenInCards(comp, cards, sizes[g], tuple);
    SameWidth(tuple, cards);
    ModeSplice(rules, comp, line, remap, tuple, wide);
    ModeResolves(SpliceRules(rules, comp, w.arity, line, remap), alias, tuple, wide);
    IdleReads(rules);
    if StateReads(rules) && !Readable(comp, tuple) {
      TrapLeads(graphs, order, w, r, Nested(k, inner), alias, |tuple|);
    } else {
      var seen, mode := Seen(comp, tuple), wide || !Covers(comp, |tuple|);
      var o, o' := DeepOutcome(graphs, mean, Some(g), graphs[g], inner, seen, mode), ModeOutcome(rules, seen, mode);
      NeverCalls(rules, seen, mode);
      CarriedLeads(graphs, order, sizes, w, r, cards, k, inner, m, name, c, names, comp, |tuple|, o, o');
    }
  }

  lemma SameWidth(tuple: seq<nat>, cards: seq<nat>)
    requires InCards(tuple, cards)
    ensures |tuple| == |cards|
  {
  }

  lemma NeverCalls(rules: seq<Rule>, tuple: seq<nat>, wide: bool)
    requires forall q | 0 <= q < |rules| :: !rules[q].transition.Call?
    ensures var o := ModeOutcome(rules, tuple, wide); o.Fired? ==> !o.transition.Call?
  {
    hide ModeOutcome;
    OwnOutcome(rules, tuple, wide);
  }

  lemma TrapLeads(graphs: Graphs, order: seq<string>, w: World, r: nat, p: Place, alias: map<string, string>, arity: nat)
    requires AllDescend(graphs, order) && Descends(graphs, order, w, r)
    ensures OutcomeLeads(graphs, order, w, r, p, ReadTrap(arity), Runs.Redirect(ReadTrap(arity), Runs.Resolving(alias)))
  {
    hide AllDescend, Descends;
  }

  /** A state inside a graft acts as its place, if the graph's own state does. */
  lemma NestedActs(graphs: Graphs, order: seq<string>, sizes: CardMap, mean: Meaning, key: Option<string>, w: World, r: nat,
                   cards: seq<nat>, k: nat, inner: Place, m: string, name: string)
    requires Ready(graphs, order, sizes, w, r, cards) && k < |w.grafts| && SplicedFrom(graphs, order, w, r, k, m, name)
    requires var g := w.grafts[k].target;
             && g in sizes && g in Bodies(graphs, order)
             && FindState(Bodies(graphs, order)[g].states, 0, m).Some?
             && ActsAs(graphs, order, mean, Some(g), graphs[g], Rank(order, 0, g), sizes[g], inner,
                       FindState(Bodies(graphs, order)[g].states, 0, m).value.rules)
    ensures var found := FindState(Finish(w, AccOf(graphs, order, w, r)).states, 0, name);
            found.Some? && ActsAs(graphs, order, mean, key, w, r, cards, Nested(k, inner), found.value.rules)
  {
    hide AddGrafts, AllDescend, Descends, FindBind, AccOf, Remap, OutcomeLeads, ModeOutcome, SpliceRules, AllFit,
      Runs.KeepsTraps, InCards, Inside, Keyed, ResolveRules, Finish, FindState, Bodies, Kept, AllRealised, Hygienic,
      Runs.Callless, Runs.Sized, Realised, Resolved, DeepOutcome, Wide, Placed, OnTapes, AllResolved, Positive, Splicable,
      Apart, GraftResolved;
    var acc, bodies := AccOf(graphs, order, w, r), Bodies(graphs, order);
    ReadyExpanded(graphs, order, sizes, w, r, cards);
    var c: nat, names: map<string, string> :| Runs.InsideAs(graphs, bodies, w, acc, k, m, c, names, name);
    var st := Runs.InsideState(graphs, bodies, w, acc, cards, k, m, c, names, name);
    var g, h := w.grafts[k], w.grafts[c];
    Runs.GraftFacts(graphs, bodies, w, acc, cards, k, st);
    Runs.ResolvedGrafts(graphs, bodies, w, acc, cards, c);
    Runs.Bindable(graphs, w, g);
    Runs.Bindable(graphs, w, h);
    Runs.StateFits(st.rules, g.comp, w.arity, graphs[g.target].arity);
    Runs.RemapKeepsTraps(h.cont, graphs[g.target].params, names);
    GraftSizes(graphs, sizes, w, cards, k);
    Runs.HostNames(graphs, bodies, w, acc, cards);
    var sp := Spliced(st, h.comp, w.arity, h.cont, graphs[g.target].params, names);
    Runs.Finished(w, acc, sp);
    var remap := Remapping(h.cont, graphs[g.target].params, names);
    var rules := SpliceRules(st.rules, g.comp, w.arity, st.line, remap);
    ResolvedPatterns(rules, acc.alias);
    SplicePatterns(st.rules, g.comp, w.arity, st.line, remap);
    forall tuple, wide | InCards(tuple, cards)
      ensures OutcomeLeads(graphs, order, w, r, Nested(k, inner),
                           DeepOutcome(graphs, mean, key, w, Nested(k, inner), tuple, wide),
                           ModeOutcome(ResolveRules(rules, acc.alias), tuple, wide))
    {
      NestedOutcome(graphs, order, sizes, mean, key, w, r, cards, k, inner, m, name, c, names, st.rules, st.line, tuple, wide);
    }
  }

  lemma GraftSizes(graphs: Graphs, sizes: CardMap, w: World, cards: seq<nat>, k: nat)
    requires Sound(graphs, sizes) && Fitting(graphs, sizes, w, cards) && k < |w.grafts|
    ensures |cards| == w.arity && GraftFits(graphs, sizes, w.grafts[k]) && OnTapes(w.grafts[k].comp, cards)
    ensures Positive(sizes[w.grafts[k].target])
  {
    hide AllResolved, OnTapes, Positive, Keyed, AllInside;
  }

  /** Every place acts as the state of the expanded world that it stands for, however deep. */
  lemma DeepActs(graphs: Graphs, order: seq<string>, sizes: CardMap, mean: Meaning, used: set<string>, key: Option<string>,
                 w: World, r: nat, cards: seq<nat>, p: Place, name: string)
    requires Ready(graphs, order, sizes, w, r, cards) && Agrees(mean, key, w, cards) && AllAgree(graphs, sizes, mean, used)
             && GraftsOnly(w, used)
    requires DeepStands(graphs, order, w, r, p, name)
    ensures var found := FindState(Finish(w, AccOf(graphs, order, w, r)).states, 0, name);
            found.Some? && ActsAs(graphs, order, mean, key, w, r, cards, p, found.value.rules)
    decreases p
  {
    hide Sound, Fitting, Resolved, AddGrafts, AllDescend, Descends, SplicedFrom, ActsAs, Finish, AccOf, FindState, Agrees,
      Bodies, NamesOf;
    match p
    case Top(n) => OwnActs(graphs, order, sizes, mean, key, w, r, cards, n);
    case Nested(k, inner) =>
      var m :| StandsBelow(graphs, order, w, r, k, inner, m, name);
      var g := w.grafts[k].target;
      GraftReady(graphs, order, sizes, w, r, cards, k);
      DeepActs(graphs, order, sizes, mean, used, Some(g), graphs[g], Rank(order, 0, g), sizes[g], inner, m);
      NestedActs(graphs, order, sizes, mean, key, w, r, cards, k, inner, m, name);
  }

  // ----- whole runs -----

  ghost predicate DeepRep(graphs: Graphs, order: seq<string>, w: World, r: nat, cards: seq<nat>, c: Config, s: Runs.Spot)
    requires AllDescend(graphs, order) && Descends(graphs, order, w, r)
  {
    c.data == s.data && Within(c.data, cards) && DeepStands(graphs, order, w, r, c.at, s.name)
  }

  ghost predicate StepsDeep(graphs: Graphs, order: seq<string>, w: World, r: nat, a: Step<Config, Ending>,
                            b: Step<Runs.Spot, Ending>)
    requires AllDescend(graphs, order) && Descends(graphs, order, w, r)
  {
    match (a, b)
    case (Done(e), Done(e')) => e == e'
    case (Next(c), Next(s)) => c.data == s.data && DeepStands(graphs, order, w, r, c.at, s.name)
    case _ => false
  }

  /** Outcomes that lead alike arrive alike. */
  lemma ArrivesAlike(graphs: Graphs, order: seq<string>, w: World, r: nat, p: Place, o: Outcome, o': Outcome, d: Data,
                     strip: bool, callee: Runs.Callee)
    requires AllDescend(graphs, order) && Descends(graphs, order, w, r) && OutcomeLeads(graphs, order, w, r, p, o, o')
    ensures StepsDeep(graphs, order, w, r, DeepArrive(graphs, order, w, r, p, callee, Runs.Perform(o, d, strip, callee)),
                      Runs.Arrive(w.params, Runs.Perform(o', d, strip, callee)))
  {
    hide AllDescend, Descends, DeepStands, Follow, WriteMove;
  }

  lemma DeepMatched(graphs: Graphs, order: seq<string>, sizes: CardMap, mean: Meaning, used: set<string>, w: World, r: nat,
                    cards: seq<nat>, strip: bool, callee: Runs.Callee, c: Config, s: Runs.Spot)
    requires Ready(graphs, order, sizes, w, r, cards) && Agrees(mean, None, w, cards) && AllAgree(graphs, sizes, mean, used)
             && GraftsOnly(w, used)
    requires Runs.CalleeKeeps(callee, cards) && DeepRep(graphs, order, w, r, cards, c, s)
    ensures var a := DeepStep(graphs, order, mean, w, r, strip, callee, c);
            var b := Runs.StatesStep(Finish(w, AccOf(graphs, order, w, r)).states, w.params, strip, callee, s);
            StepsDeep(graphs, order, w, r, a, b) && (b.Next? ==> Within(b.state.data, cards))
  {
    hide Sound, Resolved, AddGrafts, AllDescend, Descends, Finish, FindState, Agrees, AllAgree, NamesOf, OutcomeLeads,
      StepsDeep, DeepArrive, Runs.Arrive, Runs.Perform, Runs.CalleeKeeps, Within, DeepOutcome, BandedOutcome, DeepStands,
      AllInside, Look, Positive, GraftFits;
    var gx, d := Finish(w, AccOf(graphs, order, w, r)), c.data;
    DeepActs(graphs, order, sizes, mean, used, None, w, r, cards, c.at, s.name);
    ReadWithin(d, cards);
    ReadInCards(d, cards);
    var rules := FindState(gx.states, 0, s.name).value.rules;
    ArrivesAlike(graphs, order, w, r, c.at, DeepOutcome(graphs, mean, None, w, c.at, Read(d), false),
                 ModeOutcome(rules, Read(d), false), d, strip, callee);
    ExpansionInside(graphs, order, w, r, cards);
    StaysWithin(gx, w.params, strip, callee, s, cards);
  }

  lemma ReadInCards(d: Data, cards: seq<nat>)
    requires Within(d, cards)
    ensures InCards(Read(d), cards)
  {
    ReadWithin(d, cards);
  }

  ghost function DeepRelation(graphs: Graphs, order: seq<string>, w: World, r: nat, cards: seq<nat>)
    : (Config, Runs.Spot) -> bool
  {
    (c: Config, s: Runs.Spot) =>
      AllDescend(graphs, order) && Descends(graphs, order, w, r) && DeepRep(graphs, order, w, r, cards, c, s)
  }

  /** Neither machine ever stands still. */
  function NoRank(): Config -> (nat, nat)
  {
    (_: Config) => (0, 0)
  }

  lemma DeepSimulates(graphs: Graphs, order: seq<string>, sizes: CardMap, mean: Meaning, used: set<string>, w: World, r: nat,
                      cards: seq<nat>, strip: bool, callee: Runs.Callee)
    requires Ready(graphs, order, sizes, w, r, cards) && Agrees(mean, None, w, cards) && AllAgree(graphs, sizes, mean, used)
             && GraftsOnly(w, used)
    requires Runs.CalleeKeeps(callee, cards)
    ensures Simulates(DeepStepper(graphs, order, mean, w, r, strip, callee),
                      Runs.StatesStepper(Finish(w, AccOf(graphs, order, w, r)).states, w.params, strip, callee),
                      DeepRelation(graphs, order, w, r, cards), NoRank())
  {
    hide Sound, Fitting, Resolved, AddGrafts, AllDescend, Descends, Finish, Agrees, AllAgree, AccOf, Runs.CalleeKeeps, Within,
      DeepStep, DeepStands, Runs.StatesStep, Run;
    var src := DeepStepper(graphs, order, mean, w, r, strip, callee);
    var dst := Runs.StatesStepper(Finish(w, AccOf(graphs, order, w, r)).states, w.params, strip, callee);
    var rel := DeepRelation(graphs, order, w, r, cards);
    forall c, s | rel(c, s) ensures exists k: nat :: Answers(src, dst, rel, NoRank(), c, s, k) {
      DeepMatched(graphs, order, sizes, mean, used, w, r, cards, strip, callee, c, s);
      RunOnce(dst, s);
      assert Answers(src, dst, rel, NoRank(), c, s, 1);
    }
  }

  /** An expanded world runs as the deep machine does, through all the grafts in its grafts' graphs:
      whatever the data and the routines it calls, it ends the same ways with the same data, or runs for
      ever.  `mean` is any account of
      what the own states do, here and in the graphs used, that their rows agree with. */
  lemma DeepRunsAsExpansion(graphs: Graphs, order: seq<string>, sizes: CardMap, mean: Meaning, used: set<string>, w: World,
                            r: nat, cards: seq<nat>, strip: bool, callee: Runs.Callee, d: Data)
    requires Ready(graphs, order, sizes, w, r, cards) && Agrees(mean, None, w, cards) && AllAgree(graphs, sizes, mean, used)
             && GraftsOnly(w, used)
    requires Runs.CalleeKeeps(callee, cards) && Within(d, cards)
    ensures var gx := Finish(w, AccOf(graphs, order, w, r));
            var deep := DeepStepper(graphs, order, mean, w, r, strip, callee);
            var states := Runs.StatesStepper(gx.states, w.params, strip, callee);
            var c, s := Config(Entry(graphs, order, w, r), d), Runs.Spot(gx.entry, d);
            && (forall e :: Finishes(deep, c, e) <==> Finishes(states, s, e))
            && (Diverges(deep, c) <==> Diverges(states, s))
  {
    hide Sound, Fitting, Resolved, AddGrafts, AllDescend, Descends, Finish, Agrees, AllAgree, AccOf, Runs.CalleeKeeps, Within,
      DeepStepper, DeepStands, Runs.StatesStepper, Run, Finishes, Diverges, Simulates, Entry;
    WorldEnters(graphs, order, sizes, w, r, cards);
    DeepSimulates(graphs, order, sizes, mean, used, w, r, cards, strip, callee);
    SameBehaviour(DeepStepper(graphs, order, mean, w, r, strip, callee),
                  Runs.StatesStepper(Finish(w, AccOf(graphs, order, w, r)).states, w.params, strip, callee),
                  DeepRelation(graphs, order, w, r, cards), NoRank(), Config(Entry(graphs, order, w, r), d),
                  Runs.Spot(Finish(w, AccOf(graphs, order, w, r)).entry, d));
  }

  // ----- what rows mean -----

  ghost function RowsMeaning(graphs: Graphs, top: World): Meaning
  {
    (key: Option<string>, name: string, tuple: seq<nat>, wide: bool) =>
      var w := if key.Some? && key.value in graphs then graphs[key.value] else top;
      match FindState(w.own, 0, name)
      case None => NoMatch
      case Some(st) => ModeOutcome(st.rules, tuple, wide)
  }

  lemma OwnFindable(graphs: Graphs, w: World)
    requires Resolved(graphs, w)
    ensures GraftsOnly(w, graphs.Keys) && forall st | st in w.own :: FindState(w.own, 0, st.name) == Some(st)
  {
    hide FindState, Placed, Reserved, Closed, AllWide, NamesOf;
    forall k | 0 <= k < |w.grafts| ensures w.grafts[k].target in graphs {
      assert GraftResolved(graphs, w, w.grafts[k]);
    }
    forall st | st in w.own ensures FindState(w.own, 0, st.name) == Some(st) {
      Finds(w.own, st);
    }
  }

  /** Own rows are an account of themselves. */
  lemma RowsAgree(graphs: Graphs, sizes: CardMap, w: World, cards: seq<nat>)
    requires AllResolved(graphs) && Resolved(graphs, w)
    ensures Agrees(RowsMeaning(graphs, w), None, w, cards) && GraftsOnly(w, graphs.Keys)
    ensures AllAgree(graphs, sizes, RowsMeaning(graphs, w), graphs.Keys)
  {
    hide FindState, ModeOutcome, Resolved, GraftsOnly;
    OwnFindable(graphs, w);
    forall n | n in graphs && n in sizes
      ensures Agrees(RowsMeaning(graphs, w), Some(n), graphs[n], sizes[n]) && GraftsOnly(graphs[n], graphs.Keys)
    {
      OwnFindable(graphs, graphs[n]);
    }
  }
}
