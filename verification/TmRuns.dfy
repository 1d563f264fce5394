/** Whole runs of an expanded world.  The layered machine keeps every graft apart: it is in an own state, or
    inside one graft, where it walks the graph's own states through the graft's maps until it leaves by a
    continuation.  The expanded world - instances shared, names made up, aliases resolved - runs as it does. */
module TmRuns {
  import opened Options
  import opened Simulation
  import opened TmMachine
  import opened TmRules
  import opened TmSplice
  import opened TmBands
  import opened TmBandSplice
  import opened TmGraftKey
  import opened TmGrafts
  import opened TmHygiene
  import opened TmSharing

  // ----- what one outcome leads to -----

  datatype Answer = Comes(data: Data) | Ends(ending: Ending)

  /** What a called routine does with the data. */
  type Callee = (string, nat, Data) -> Answer

  datatype Landing = At(name: string, data: Data) | Over(ending: Ending)

  function LandAt(c: Continuation, d: Data): Landing
  {
    match c
    case ToState(name) => At(name, d)
    case ByReturn => Over(Returned(d))
    case ByStop => Over(Stopped(d))
    case ByHalt => Over(Halted(d))
  }

  function Land(t: Transition, d: Data, callee: Callee): Landing
  {
    match t
    case Goto(name) => At(name, d)
    case Call(target, tag, resume) =>
      (match callee(target, tag, d)
       case Ends(e) => Over(e)
       case Comes(d') => LandAt(resume, d'))
    case Return => Over(Returned(d))
    case Stop => Over(Stopped(d))
    case Halt => Over(Halted(d))
    case TrapRead => Over(Trapped(UnmappedRead, d))
    case TrapWrite => Over(Trapped(UnmappedWrite, d))
  }

  function Perform(o: Outcome, d: Data, strip: bool, callee: Callee): Landing
  {
    match o
    case NoMatch => Over(Trapped(NoTransition, d))
    case Fired(debugger, write, moves, t) =>
      Land(t, WriteMove(if debugger then Pause(d, strip) else d, write, moves), callee)
  }

  // ----- the expanded world -----

  datatype Spot = Spot(name: string, data: Data)

  function Arrive(params: seq<string>, l: Landing): Step<Spot, Ending>
  {
    match l
    case Over(e) => Done(e)
    case At(name, d) => if name in params then Done(LeftFor(name, d)) else Next(Spot(name, d))
  }

  /** One step of a world's states, each choosing by bands. */
  ghost function StatesStep(states: seq<State>, params: seq<string>, strip: bool, callee: Callee, s: Spot): Step<Spot, Ending>
  {
    match FindState(states, 0, s.name)
    case None => Done(Wrong)
    case Some(st) => Arrive(params, Perform(BandedOutcome(st.rules, Read(s.data)), s.data, strip, callee))
  }

  ghost function StatesStepper(states: seq<State>, params: seq<string>, strip: bool, callee: Callee): Spot -> Step<Spot, Ending>
  {
    (s: Spot) => StatesStep(states, params, strip, callee, s)
  }

  // ----- the layered machine -----

  datatype Place = Own(name: string) | Inside(graft: nat, name: string)

  datatype Config = Config(at: Place, data: Data)

  function InstanceNamed(grafts: seq<Graft>, i: nat, name: string): (r: Option<nat>)
    requires i <= |grafts|
    ensures r.Some? ==> i <= r.value < |grafts| && grafts[r.value].asName == Some(name)
    ensures r.None? ==> forall k | i <= k < |grafts| :: grafts[k].asName != Some(name)
    decreases |grafts| - i
  {
    if i == |grafts| then None
    else if grafts[i].asName == Some(name) then Some(i)
    else InstanceNamed(grafts, i + 1, name)
  }

  /** Going to a name of the host: a state parameter leaves, an instance is entered at its entry. */
  function EnterHost(bodies: map<string, Expansion>, w: World, name: string, d: Data): Step<Config, Ending>
  {
    if name in w.params then Done(LeftFor(name, d))
    else
      match InstanceNamed(w.grafts, 0, name)
      case None => Next(Config(Own(name), d))
      case Some(k) =>
        if w.grafts[k].target !in bodies then Done(Wrong)
        else Next(Config(Inside(k, bodies[w.grafts[k].target].entry), d))
  }

  function HostStep(bodies: map<string, Expansion>, w: World, l: Landing): Step<Config, Ending>
  {
    match l
    case Over(e) => Done(e)
    case At(name, d) => EnterHost(bodies, w, name, d)
  }

  /** Inside a graft: a bound state parameter leaves it for its continuation, any other name is the
      graph's own. */
  function InsideStep(bodies: map<string, Expansion>, w: World, k: nat, callee: Callee, l: Landing): Step<Config, Ending>
    requires k < |w.grafts|
  {
    match l
    case Over(e) => Done(e)
    case At(name, d) =>
      match FindBind(w.grafts[k].cont, 0, name)
      case Some(t) => HostStep(bodies, w, Land(t, d, callee))
      case None => Next(Config(Inside(k, name), d))
  }

  function Same(t: Transition): Transition
  {
    t
  }

  ghost function LayeredStep(bodies: map<string, Expansion>, w: World, strip: bool, callee: Callee, c: Config): Step<Config,
    Ending>
  {
    match c.at
    case Own(name) =>
      (match FindState(w.own, 0, name)
       case None => Done(Wrong)
       case Some(st) => HostStep(bodies, w, Perform(BandedOutcome(st.rules, Read(c.data)), c.data, strip, callee)))
    case Inside(k, name) =>
      if k >= |w.grafts| || w.grafts[k].target !in bodies then Done(Wrong)
      else
        match FindState(bodies[w.grafts[k].target].states, 0, name)
        case None => Done(Wrong)
        case Some(st) =>
          var g, tuple := w.grafts[k], Read(c.data);
          if !(AllFit(st.rules, g.comp) && Placed(g.comp, |tuple|)) then Done(Wrong)
          else InsideStep(bodies, w, k, callee, Perform(BandedWalk(st.rules, g.comp, Same, tuple), c.data, strip, callee))
  }

  ghost function LayeredStepper(bodies: map<string, Expansion>, w: World, strip: bool, callee: Callee): Config -> Step<Config,
    Ending>
  {
    (c: Config) => LayeredStep(bodies, w, strip, callee, c)
  }

  /** Where a run of the world begins. */
  function Entry(bodies: map<string, Expansion>, w: World): Place
  {
    if w.ownEntry.Some? then Own(w.ownEntry.value)
    else
      match LastEntry(w.grafts, |w.grafts|)
      case None => Own("")
      case Some(k) => Inside(k, if w.grafts[k].target in bodies then bodies[w.grafts[k].target].entry else "")
  }

  // ----- outcomes under renaming -----

  function Redirect(o: Outcome, remap: Transition -> Transition): Outcome
  {
    if o.Fired? then o.(transition := remap(o.transition)) else o
  }

  /** Renaming leaves the traps of a binding alone. */
  predicate KeepsTraps(remap: Transition -> Transition)
  {
    remap(TrapRead) == TrapRead && remap(TrapWrite) == TrapWrite
  }

  lemma BackRedirects(rule: Rule, comp: Composite, arity: nat, remap: Transition -> Transition)
    requires |rule.write| == |rule.moves| == |comp| && KeepsTraps(remap)
    ensures Back(rule, comp, arity, remap) == Redirect(Back(rule, comp, arity, Same), remap)
  {
    hide WriteBack, MoveBack, Unwritable;
    var a := seq(arity, (h: nat) requires |rule.write| == |comp| => WriteBack(rule.write, comp, h));
    var b := seq(arity, (h: nat) requires |rule.moves| == |comp| => MoveBack(rule.moves, comp, h));
    var x, y := Back(rule, comp, arity, remap), Back(rule, comp, arity, Same);
    if !Unwritable(rule.write, comp) {
      assert x.write == a == y.write && x.moves == b == y.moves;
    }
  }

  /** Walking with a renaming is walking without, then renaming. */
  lemma WalkRedirects(rules: seq<Rule>, comp: Composite, remap: Transition -> Transition, tuple: seq<nat>)
    requires AllFit(rules, comp) && Placed(comp, |tuple|) && KeepsTraps(remap)
    ensures BandedWalk(rules, comp, remap, tuple) == Redirect(BandedWalk(rules, comp, Same, tuple), remap)
  {
    hide Back, FirstKept, Readable, ReadTuple, KeepsTraps, Redirect;
    forall k | 0 <= k < |rules|
      ensures Back(rules[k], comp, |tuple|, remap) == Redirect(Back(rules[k], comp, |tuple|, Same), remap)
    {
      BackRedirects(rules[k], comp, |tuple|, remap);
    }
    NothingRedirected(remap, |tuple|);
  }

  lemma NothingRedirected(remap: Transition -> Transition, arity: nat)
    ensures Redirect(NoMatch, remap) == NoMatch
    ensures KeepsTraps(remap) ==> Redirect(ReadTrap(arity), remap) == ReadTrap(arity)
  {
  }

  function Resolving(alias: map<string, string>): Transition -> Transition
  {
    (t: Transition) => ResolveTransition(t, alias)
  }

  lemma {:induction false} KeptResolves(rules: seq<Rule>, alias: map<string, string>, keep: seq<Cell> -> bool, n: nat,
                                        tuple: seq<nat>)
    requires n <= |rules|
    ensures FirstKept(ResolveRules(rules, alias), keep, n, tuple) == FirstKept(rules, keep, n, tuple)
  {
    hide Matches, ResolveTransition;
    if n > 0 {
      KeptResolves(rules, alias, keep, n - 1, tuple);
    }
  }

  /** Resolving aliases changes no row's choice, only where it leads. */
  lemma OutcomeResolves(rules: seq<Rule>, alias: map<string, string>, tuple: seq<nat>)
    ensures BandedOutcome(ResolveRules(rules, alias), tuple) == Redirect(BandedOutcome(rules, tuple), Resolving(alias))
  {
    hide FirstKept, ResolveTransition, IsExact, IsPartial, IsCatchAll;
    KeptResolves(rules, alias, IsExact, |rules|, tuple);
    KeptResolves(rules, alias, IsPartial, |rules|, tuple);
    KeptResolves(rules, alias, IsCatchAll, |rules|, tuple);
  }

  function ResolveLanding(l: Landing, alias: map<string, string>): Landing
  {
    if l.At? then At(ResolveName(l.name, alias), l.data) else l
  }

  lemma LandResolves(t: Transition, d: Data, callee: Callee, alias: map<string, string>)
    ensures Land(ResolveTransition(t, alias), d, callee) == ResolveLanding(Land(t, d, callee), alias)
  {
    hide ResolveName;
  }

  lemma PerformResolves(o: Outcome, d: Data, strip: bool, callee: Callee, alias: map<string, string>)
    ensures Perform(Redirect(o, Resolving(alias)), d, strip, callee) == ResolveLanding(Perform(o, d, strip, callee), alias)
  {
    hide Land, ResolveTransition, WriteMove;
    if o.Fired? {
      LandResolves(o.transition, WriteMove(if o.debugger then Pause(d, strip) else d, o.write, o.moves), callee, alias);
    } else {
      NothingRedirected(Resolving(alias), 0);
    }
  }

  // ----- the bands stay inside their alphabets -----

  ghost predicate WritesFit(write: seq<WriteOut>, cards: seq<nat>)
  {
    forall h | 0 <= h < |write| && h < |cards| && write[h].Put? :: write[h].s < cards[h]
  }

  ghost predicate RulesFit(rules: seq<Rule>, cards: seq<nat>)
  {
    forall k | 0 <= k < |rules| :: WritesFit(rules[k].write, cards)
  }

  /** The alphabets' sizes: own rules write symbols of them, and grafts are bound between them. */
  ghost predicate Sized(w: World, cards: seq<nat>)
  {
    && |cards| == w.arity && (forall st | st in w.own :: RulesFit(st.rules, cards))
    && forall k, i | 0 <= k < |w.grafts| && 0 <= i < |w.grafts[k].comp| ::
         w.grafts[k].comp[i].phys < w.arity && w.grafts[k].comp[i].hostCard == cards[w.grafts[k].comp[i].phys]
  }

  ghost predicate CalleeKeeps(callee: Callee, cards: seq<nat>)
  {
    forall target, tag, d | Within(d, cards) && callee(target, tag, d).Comes? :: Within(callee(target, tag, d).data, cards)
  }

  ghost predicate LandsWithin(l: Landing, cards: seq<nat>)
  {
    l.At? ==> Within(l.data, cards)
  }

  lemma LandWithin(t: Transition, d: Data, callee: Callee, cards: seq<nat>)
    requires Within(d, cards) && CalleeKeeps(callee, cards)
    ensures LandsWithin(Land(t, d, callee), cards)
  {
    hide Within;
  }

  lemma PerformWithin(o: Outcome, d: Data, strip: bool, callee: Callee, cards: seq<nat>)
    requires Within(d, cards) && CalleeKeeps(callee, cards) && (o.Fired? ==> WritesFit(o.write, cards))
    ensures LandsWithin(Perform(o, d, strip, callee), cards)
  {
    hide Land, WriteMove, CalleeKeeps, LandsWithin;
    if o.Fired? {
      var d' := if o.debugger then Pause(d, strip) else d;
      WriteMoveWithin(d', o.write, o.moves, cards);
      LandWithin(o.transition, WriteMove(d', o.write, o.moves), callee, cards);
    } else {
      OverWithin(o, d, strip, callee, cards);
    }
  }

  lemma OverWithin(o: Outcome, d: Data, strip: bool, callee: Callee, cards: seq<nat>)
    requires !o.Fired?
    ensures LandsWithin(Perform(o, d, strip, callee), cards)
  {
  }

  lemma BandedFits(rules: seq<Rule>, tuple: seq<nat>, cards: seq<nat>)
    requires RulesFit(rules, cards)
    ensures BandedOutcome(rules, tuple).Fired? ==> WritesFit(BandedOutcome(rules, tuple).write, cards)
  {
    hide WritesFit, FirstKept;
  }

  lemma BackFits(rule: Rule, comp: Composite, remap: Transition -> Transition, cards: seq<nat>)
    requires |rule.write| == |rule.moves| == |comp|
    requires forall i | 0 <= i < |comp| :: comp[i].phys < |cards| && comp[i].hostCard == cards[comp[i].phys]
    ensures var o := Back(rule, comp, |cards|, remap);
            o.Fired? ==> WritesFit(o.write, cards)
  {
    hide MoveBack, Unwritable;
  }

  lemma WalkFits(rules: seq<Rule>, comp: Composite, remap: Transition -> Transition, tuple: seq<nat>, cards: seq<nat>)
    requires AllFit(rules, comp) && Placed(comp, |tuple|) && |tuple| == |cards|
    requires forall i | 0 <= i < |comp| :: comp[i].phys < |cards| && comp[i].hostCard == cards[comp[i].phys]
    ensures var o := BandedWalk(rules, comp, remap, tuple);
            o.Fired? ==> WritesFit(o.write, cards)
  {
    hide Back, WritesFit, FirstKept;
    forall k | 0 <= k < |rules|
      ensures var o := Back(rules[k], comp, |tuple|, remap); o.Fired? ==> WritesFit(o.write, cards)
    {
      BackFits(rules[k], comp, remap, cards);
    }
    KeepsFit(|tuple|, cards);
  }

  lemma KeepsFit(arity: nat, cards: seq<nat>)
    ensures WritesFit(Keeps(arity), cards)
  {
  }

  // ----- the relation -----

  /** An expansion whose grafts are all realised, with the graphs' bodies. */
  ghost predicate Expanded(graphs: Graphs, bodies: map<string, Expansion>, w: World, acc: Acc, cards: seq<nat>)
  {
    && Resolved(graphs, w) && Kept(w, acc, |w.grafts|) && AllRealised(graphs, bodies, w, acc, |w.grafts|)
    && Sized(w, cards) && (forall k | 0 <= k < |w.grafts| :: Keyed(w.grafts[k]))
    && (forall n | n in bodies :: n in graphs && Hygienic(graphs[n], bodies[n]))
    && (forall k | 0 <= k < |w.grafts| && w.grafts[k].target in bodies :: Callless(bodies[w.grafts[k].target]))
  }

  predicate Callless(gx: Expansion)
  {
    FirstCall(gx.states, |gx.states|).None?
  }

  ghost predicate StandsFor(graphs: Graphs, bodies: map<string, Expansion>, w: World, acc: Acc, at: Place, name: string)
  {
    match at
    case Own(n) => name == n && n in NamesOf(w.own)
    case Inside(k, n) => k < |w.grafts| && exists c, names :: InsideAs(graphs, bodies, w, acc, k, n, c, names, name)
  }

  ghost predicate InsideAs(graphs: Graphs, bodies: map<string, Expansion>, w: World, acc: Acc, k: nat, n: string, c: nat,
                           names: map<string, string>, name: string)
    requires k < |w.grafts|
  {
    && Realised(graphs, bodies, w, acc, k, c, names) && w.grafts[k].target in bodies
    && n in NamesOf(bodies[w.grafts[k].target].states) && n in names && names[n] == name
  }

  ghost predicate Rep(graphs: Graphs, bodies: map<string, Expansion>, w: World, acc: Acc, cards: seq<nat>, c: Config, s: Spot)
  {
    c.data == s.data && Within(c.data, cards) && StandsFor(graphs, bodies, w, acc, c.at, s.name)
  }

  /** Both machines stop alike or go on in states that stand for each other. */
  ghost predicate StepsRep(graphs: Graphs, bodies: map<string, Expansion>, w: World, acc: Acc, cards: seq<nat>,
                           a: Step<Config, Ending>, b: Step<Spot, Ending>)
  {
    match (a, b)
    case (Done(e), Done(e')) => e == e'
    case (Next(c), Next(s)) => Rep(graphs, bodies, w, acc, cards, c, s)
    case _ => false
  }

  // ----- names of the host -----

  lemma HostNames(graphs: Graphs, bodies: map<string, Expansion>, w: World, acc: Acc, cards: seq<nat>)
    requires Expanded(graphs, bodies, w, acc, cards)
    ensures NamesOf(acc.states) !! acc.alias.Keys && Elements(w.params) !! NamesOf(acc.states) + acc.alias.Keys
    ensures NamesOf(w.own) <= NamesOf(acc.states) && NamesOf(w.own) !! InstanceNames(w.grafts) && Apart(acc.states)
  {
    hide AllRealised, Sized, Keyed, NamesOf, Reserved, Closed, AllWide, Apart, InstancesPlaced, GraftResolved, Elements,
      InstanceNames, Hygienic, Callless;
  }

  /** The instance a graft's name stands for. */
  lemma InstanceStands(graphs: Graphs, bodies: map<string, Expansion>, w: World, acc: Acc, cards: seq<nat>, k: nat)
    requires Expanded(graphs, bodies, w, acc, cards) && k < |w.grafts|
    ensures w.grafts[k].target in bodies && KeyOf(w.grafts[k]) in acc.dedup
    ensures StandsFor(graphs, bodies, w, acc, Inside(k, bodies[w.grafts[k].target].entry), acc.dedup[KeyOf(w.grafts[k])])
    ensures w.grafts[k].asName.Some? ==> ResolveName(w.grafts[k].asName.value, acc.alias) == acc.dedup[KeyOf(w.grafts[k])]
    ensures acc.dedup[KeyOf(w.grafts[k])] in NamesOf(acc.states)
  {
    hide Resolved, Kept, Sized, Keyed, NamesOf, Callless, KeyOf, Spliced;
    assert IsRealised(graphs, bodies, w, acc, k);
    var c: nat, names: map<string, string> :| Realised(graphs, bodies, w, acc, k, c, names);
    assert Keyed(w.grafts[c]) && Keyed(w.grafts[k]);
    TwinsAlike(w.grafts[c], w.grafts[k]);
    var gx := bodies[w.grafts[k].target];
    HygienicApart(graphs[w.grafts[k].target], gx);
    assert InsideAs(graphs, bodies, w, acc, k, gx.entry, c, names, names[gx.entry]);
    DedupNamed(w, acc, KeyOf(w.grafts[k]));
  }

  lemma DedupNamed(w: World, acc: Acc, key: Bytes)
    requires Kept(w, acc, |w.grafts|) && key in acc.dedup
    ensures acc.dedup[key] in NamesOf(acc.states)
  {
    hide NamesOf, Reserved, Closed, AllWide, Apart, InstancesPlaced;
    assert acc.dedup[key] in acc.dedup.Values;
  }

  /** Going to a name of the host is going to what it resolves to. */
  lemma HostArrives(graphs: Graphs, bodies: map<string, Expansion>, w: World, acc: Acc, cards: seq<nat>, l: Landing)
    requires Expanded(graphs, bodies, w, acc, cards) && LandsWithin(l, cards) && (l.At? ==> l.name in Reserved(w))
    ensures StepsRep(graphs, bodies, w, acc, cards, HostStep(bodies, w, l), Arrive(w.params, ResolveLanding(l, acc.alias)))
  {
    hide Expanded, Within, KeyOf, Apart, NamesOf;
    HostNames(graphs, bodies, w, acc, cards);
    if l.At? {
      var k := InstanceNamed(w.grafts, 0, l.name);
      assert forall x :: x in w.params <==> x in Elements(w.params);
      if l.name in w.params {
      } else if k.Some? {
        InstanceListed(w.grafts, k.value);
        InstanceStands(graphs, bodies, w, acc, cards, k.value);
      } else {
        OwnName(w, l.name);
      }
    }
  }

  lemma OwnName(w: World, name: string)
    requires name in Reserved(w) && name !in w.params && InstanceNamed(w.grafts, 0, name).None?
    ensures name in NamesOf(w.own)
  {
    hide NamesOf, InstanceNamed;
  }

  // ----- one step -----

  /** A state as the finished world holds it. */
  lemma Finished(w: World, acc: Acc, st: State)
    requires Apart(acc.states) && st in acc.states
    ensures FindState(Finish(w, acc).states, 0, st.name) == Some(st.(rules := ResolveRules(st.rules, acc.alias)))
  {
    hide ResolveRules, FindState;
    ResolveKeeps(acc.states, acc.alias);
    var k :| 0 <= k < |acc.states| && acc.states[k] == st;
    assert Finish(w, acc).states[k] == st.(rules := ResolveRules(st.rules, acc.alias));
    Finds(Finish(w, acc).states, st.(rules := ResolveRules(st.rules, acc.alias)));
  }

  lemma OwnTargets(graphs: Graphs, w: World, st: State, tuple: seq<nat>, d: Data, strip: bool, callee: Callee)
    requires Resolved(graphs, w) && st in w.own
    ensures var l := Perform(BandedOutcome(st.rules, tuple), d, strip, callee);
            l.At? ==> l.name in Reserved(w)
  {
    hide Reserved, Apart, AllWide, GraftResolved, NamesOf, FirstKept, WriteMove;
    var k :| 0 <= k < |w.own| && w.own[k] == st;
    assert NamesWithin(w.own[k].rules, Reserved(w));
    var o := BandedOutcome(st.rules, tuple);
    if o.Fired? {
      var m := BandPick(st.rules, tuple).value;
      assert Names(st.rules[m].transition).Some? ==> Names(st.rules[m].transition).value in Reserved(w);
    }
  }

  lemma OwnMatched(graphs: Graphs, bodies: map<string, Expansion>, w: World, acc: Acc, cards: seq<nat>, strip: bool,
                   callee: Callee, c: Config, s: Spot)
    requires Expanded(graphs, bodies, w, acc, cards) && CalleeKeeps(callee, cards)
    requires Rep(graphs, bodies, w, acc, cards, c, s) && c.at.Own?
    ensures StepsRep(graphs, bodies, w, acc, cards, LayeredStep(bodies, w, strip, callee, c),
                     StatesStep(Finish(w, acc).states, w.params, strip, callee, s))
  {
    hide Kept, Within, CalleeKeeps, HostStep, Arrive, StepsRep, Keyed, Perform, BandedOutcome, ResolveRules, Apart, Hygienic,
      Callless, RulesFit, Redirect;
    var d, name := c.data, s.name;
    var k := StateOf(w.own, name);
    var st := w.own[k];
    assert st in w.own && st in acc.states;
    OwnFound(graphs, w, st);
    HostNames(graphs, bodies, w, acc, cards);
    Finished(w, acc, st);
    var o := BandedOutcome(st.rules, Read(d));
    OutcomeResolves(st.rules, acc.alias, Read(d));
    PerformResolves(o, d, strip, callee, acc.alias);
    assert RulesFit(st.rules, cards);
    BandedFits(st.rules, Read(d), cards);
    PerformWithin(o, d, strip, callee, cards);
    OwnTargets(graphs, w, st, Read(d), d, strip, callee);
    HostArrives(graphs, bodies, w, acc, cards, Perform(o, d, strip, callee));
  }

  lemma OwnFound(graphs: Graphs, w: World, st: State)
    requires Resolved(graphs, w) && st in w.own
    ensures FindState(w.own, 0, st.name) == Some(st)
  {
    hide FindState, AllWide, Closed, NamesOf, Reserved, GraftResolved;
    Finds(w.own, st);
  }

  // ----- one step inside a graft -----

  lemma RemapKeepsTraps(cont: seq<Bind>, params: seq<string>, names: map<string, string>)
    requires forall b | b in cont :: !b.1.TrapRead? && !b.1.TrapWrite?
    ensures KeepsTraps(Remapping(cont, params, names))
  {
    hide FindBind;
    forall t ensures Remap(t, cont, params, names) == TrapRead || Remap(t, cont, params, names) == TrapWrite ==>
      Remap(t, cont, params, names) == t {
      if t.Goto? && FindBind(cont, 0, t.name).Some? {
        BoundSomewhere(cont, 0, t.name);
      }
    }
  }

  /** The graph state behind a spot, and what the finished world has for it. */
  lemma InsideState(graphs: Graphs, bodies: map<string, Expansion>, w: World, acc: Acc, cards: seq<nat>, k: nat, n: string,
                    c: nat, names: map<string, string>, name: string) returns (st: State)
    requires Expanded(graphs, bodies, w, acc, cards) && k < |w.grafts| && InsideAs(graphs, bodies, w, acc, k, n, c, names, name)
    ensures c < |w.grafts| && w.grafts[k].target in graphs
    ensures st in bodies[w.grafts[k].target].states && st.name == n
    ensures FindState(bodies[w.grafts[k].target].states, 0, n) == Some(st)
    ensures var g := w.grafts[c];
            var sp := Spliced(st, g.comp, w.arity, g.cont, graphs[w.grafts[k].target].params, names);
            sp in acc.states && sp.name == name
    ensures w.grafts[c].comp == w.grafts[k].comp && w.grafts[c].target == w.grafts[k].target
    ensures forall m :: FindBind(w.grafts[c].cont, 0, m) == FindBind(w.grafts[k].cont, 0, m)
    ensures forall x | x in bodies[w.grafts[k].target].states :: x.name in names && names[x.name] in NamesOf(acc.states)
  {
    hide Resolved, Kept, Sized, Keyed, AllRealised, KeyOf, FindBind, FindState, Hygienic, Callless, SpliceRules;
    assert Keyed(w.grafts[c]) && Keyed(w.grafts[k]);
    TwinsAlike(w.grafts[c], w.grafts[k]);
    var gx := bodies[w.grafts[k].target];
    HygienicApart(graphs[w.grafts[k].target], gx);
    var m := StateOf(gx.states, n);
    st := gx.states[m];
    Finds(gx.states, st);
    forall x | x in gx.states ensures x.name in names && names[x.name] in NamesOf(acc.states) {
      var sp := Spliced(x, w.grafts[c].comp, w.arity, w.grafts[c].cont, graphs[w.grafts[k].target].params, names);
      assert sp in acc.states;
      assert sp.name in NamesOf(acc.states);
    }
  }

  lemma GraftFacts(graphs: Graphs, bodies: map<string, Expansion>, w: World, acc: Acc, cards: seq<nat>, k: nat, st: State)
    requires Expanded(graphs, bodies, w, acc, cards) && k < |w.grafts| && w.grafts[k].target in bodies
    requires st in bodies[w.grafts[k].target].states
    ensures w.grafts[k].target in graphs && GraftResolved(graphs, w, w.grafts[k])
    ensures Wide(st.rules, graphs[w.grafts[k].target].arity)
    ensures forall q | 0 <= q < |st.rules| && st.rules[q].transition.Goto? ::
              st.rules[q].transition.name in NamesOf(bodies[w.grafts[k].target].states) + Elements(graphs[w.grafts[k].target].params)
    ensures forall q | 0 <= q < |st.rules| :: !st.rules[q].transition.Call?
  {
    hide Kept, Sized, Keyed, AllRealised, NamesOf, Apart, AllWide, Closed, Reserved, GraftResolved, Wide, FirstCall, Elements;
    var gx := bodies[w.grafts[k].target];
    var i :| 0 <= i < |gx.states| && gx.states[i] == st;
    GraphRules(graphs[w.grafts[k].target], gx, i);
    NoCalls(gx.states, |gx.states|, i);
    forall q: nat | q < |st.rules| && st.rules[q].transition.Goto?
      ensures st.rules[q].transition.name in NamesOf(gx.states) + Elements(graphs[w.grafts[k].target].params)
    {
      RuleTarget(st.rules, q, NamesOf(gx.states) + Elements(graphs[w.grafts[k].target].params));
    }
  }

  /** What a graph's state fires is one of its rules' transitions, or a trap. */
  lemma WalkFires(rules: seq<Rule>, comp: Composite, tuple: seq<nat>)
    requires AllFit(rules, comp) && Placed(comp, |tuple|)
    ensures var o := BandedWalk(rules, comp, Same, tuple);
            o.Fired? ==> o.transition.TrapRead? || o.transition.TrapWrite?
                         || exists q :: 0 <= q < |rules| && rules[q].transition == o.transition
  {
    hide WriteBack, MoveBack, Unwritable, FirstKept, Readable, ReadTuple;
  }

  /** The two machines land alike from a graph's transition: a bound state parameter goes on where the
      host says, any other name goes on inside. */
  lemma InsideLands(graphs: Graphs, bodies: map<string, Expansion>, w: World, acc: Acc, cards: seq<nat>, callee: Callee,
                    k: nat, n: string, c: nat, names: map<string, string>, name: string, t: Transition, d: Data)
    requires Expanded(graphs, bodies, w, acc, cards) && CalleeKeeps(callee, cards) && Within(d, cards)
    requires k < |w.grafts| && InsideAs(graphs, bodies, w, acc, k, n, c, names, name) && c < |w.grafts| && !t.Call?
    requires w.grafts[k].target in graphs && GraftResolved(graphs, w, w.grafts[k])
    requires forall x | x in bodies[w.grafts[k].target].states :: x.name in names && names[x.name] in NamesOf(acc.states)
    requires forall m :: FindBind(w.grafts[c].cont, 0, m) == FindBind(w.grafts[k].cont, 0, m)
    requires t.Goto? ==>
               t.name in NamesOf(bodies[w.grafts[k].target].states) + Elements(graphs[w.grafts[k].target].params)
    ensures StepsRep(graphs, bodies, w, acc, cards,
                     InsideStep(bodies, w, k, callee, Land(t, d, callee)),
                     Arrive(w.params, ResolveLanding(
                       Land(Remap(t, w.grafts[c].cont, graphs[w.grafts[k].target].params, names), d, callee), acc.alias)))
  {
    hide Expanded, Realised, Within, CalleeKeeps, FindBind, Reserved, Placed, KeyOf, HostStep, Arrive, StepsRep, NamesOf;
    var g, gx := w.grafts[k], bodies[w.grafts[k].target];
    if t.Goto? {
      var bound := FindBind(g.cont, 0, t.name);
      if bound.Some? {
        BoundSomewhere(g.cont, 0, t.name);
        assert (t.name, bound.value) in g.cont;
        LandWithin(bound.value, d, callee, cards);
        HostArrives(graphs, bodies, w, acc, cards, Land(bound.value, d, callee));
      } else {
        ParamsBound(graphs, w, g, t.name);
        StaysInside(graphs, bodies, w, acc, cards, k, n, c, names, name, t.name, d);
      }
    } else {
      EndsBoth(graphs, bodies, w, acc, cards, callee, k, t, d);
    }
  }

  lemma ParamsBound(graphs: Graphs, w: World, g: Graft, name: string)
    requires GraftResolved(graphs, w, g) && FindBind(g.cont, 0, name).None?
    ensures g.target in graphs && name !in Elements(graphs[g.target].params) && name !in graphs[g.target].params
  {
    hide Placed, Reserved, FindBind;
  }

  lemma EndsBoth(graphs: Graphs, bodies: map<string, Expansion>, w: World, acc: Acc, cards: seq<nat>, callee: Callee, k: nat,
                 t: Transition, d: Data)
    requires k < |w.grafts| && !t.Call? && !t.Goto?
    ensures StepsRep(graphs, bodies, w, acc, cards, InsideStep(bodies, w, k, callee, Land(t, d, callee)),
                     Arrive(w.params, ResolveLanding(Land(t, d, callee), acc.alias)))
  {
  }

  lemma StaysInside(graphs: Graphs, bodies: map<string, Expansion>, w: World, acc: Acc, cards: seq<nat>, k: nat, n: string,
                    c: nat, names: map<string, string>, name: string, n': string, d: Data)
    requires Expanded(graphs, bodies, w, acc, cards) && Within(d, cards)
    requires k < |w.grafts| && InsideAs(graphs, bodies, w, acc, k, n, c, names, name)
    requires n' in NamesOf(bodies[w.grafts[k].target].states)
    requires forall x | x in bodies[w.grafts[k].target].states :: x.name in names && names[x.name] in NamesOf(acc.states)
    ensures n' in names
    ensures StepsRep(graphs, bodies, w, acc, cards, Next(Config(Inside(k, n'), d)),
                     Arrive(w.params, ResolveLanding(At(names[n'], d), acc.alias)))
  {
    hide Expanded, Realised, Within, NamesOf;
    HostNames(graphs, bodies, w, acc, cards);
    var i := StateOf(bodies[w.grafts[k].target].states, n');
    assert bodies[w.grafts[k].target].states[i] in bodies[w.grafts[k].target].states;
    assert InsideAs(graphs, bodies, w, acc, k, n', c, names, names[n']);
    assert forall x :: x in w.params <==> x in Elements(w.params);
  }

  /** What a spliced state does in the finished world: the graph's own choice, renamed into the host and
      resolved. */
  lemma SplicedOutcome(rules: seq<Rule>, comp: Composite, line: nat, cont: seq<Bind>, params: seq<string>,
                       names: map<string, string>, alias: map<string, string>, tuple: seq<nat>)
    requires AllFit(rules, comp) && Placed(comp, |tuple|) && InRange(comp, |tuple|, tuple)
    requires forall b | b in cont :: !b.1.TrapRead? && !b.1.TrapWrite?
    ensures BandedOutcome(ResolveRules(SpliceRules(rules, comp, |tuple|, line, Remapping(cont, params, names)), alias), tuple)
         == Redirect(Redirect(BandedWalk(rules, comp, Same, tuple), Remapping(cont, params, names)), Resolving(alias))
  {
    hide BandedOutcome, SpliceRules, BandedWalk, ResolveRules, Remapping, Redirect, KeepsTraps;
    var remap := Remapping(cont, params, names);
    BandedSplice(rules, comp, line, remap, tuple);
    RemapKeepsTraps(cont, params, names);
    WalkRedirects(rules, comp, remap, tuple);
    OutcomeResolves(SpliceRules(rules, comp, |tuple|, line, remap), alias, tuple);
  }

  lemma Bindable(graphs: Graphs, w: World, g: Graft)
    requires GraftResolved(graphs, w, g)
    ensures g.target in graphs && |g.comp| == graphs[g.target].arity && Placed(g.comp, w.arity)
    ensures forall b | b in g.cont :: !b.1.TrapRead? && !b.1.TrapWrite?
  {
    hide Placed, Reserved;
  }

  lemma InSize(w: World, cards: seq<nat>, k: nat, d: Data)
    requires Sized(w, cards) && k < |w.grafts| && Placed(w.grafts[k].comp, w.arity) && Within(d, cards)
    ensures |Read(d)| == w.arity == |cards| && InRange(w.grafts[k].comp, w.arity, Read(d))
    ensures forall i | 0 <= i < |w.grafts[k].comp| ::
              w.grafts[k].comp[i].phys < |cards| && w.grafts[k].comp[i].hostCard == cards[w.grafts[k].comp[i].phys]
  {
    hide RulesFit;
    ReadWithin(d, cards);
  }

  lemma InsideMatched(graphs: Graphs, bodies: map<string, Expansion>, w: World, acc: Acc, cards: seq<nat>, strip: bool,
                      callee: Callee, at: Config, s: Spot)
    requires Expanded(graphs, bodies, w, acc, cards) && CalleeKeeps(callee, cards)
    requires Rep(graphs, bodies, w, acc, cards, at, s) && at.at.Inside?
    ensures StepsRep(graphs, bodies, w, acc, cards, LayeredStep(bodies, w, strip, callee, at),
                     StatesStep(Finish(w, acc).states, w.params, strip, callee, s))
  {
    hide Expanded, Realised, Within, CalleeKeeps, InsideStep, Arrive, StepsRep, Perform, BandedOutcome, ResolveRules, Redirect,
      Finish, BandedWalk, InRange, Placed, FindState, GraftResolved, Wide, AllFit, SpliceRules, NamesOf, Remapping;
    var k, n, d := at.at.graft, at.at.name, at.data;
    var c: nat, names: map<string, string> :| InsideAs(graphs, bodies, w, acc, k, n, c, names, s.name);
    var st := InsideState(graphs, bodies, w, acc, cards, k, n, c, names, s.name);
    GraftFacts(graphs, bodies, w, acc, cards, k, st);
    ResolvedGrafts(graphs, bodies, w, acc, cards, c);
    var g, h := w.grafts[k], w.grafts[c];
    Bindable(graphs, w, g);
    Bindable(graphs, w, h);
    InSize(w, cards, k, d);
    StateFits(st.rules, g.comp, w.arity, graphs[g.target].arity);
    HostNames(graphs, bodies, w, acc, cards);
    var sp := Spliced(st, h.comp, w.arity, h.cont, graphs[g.target].params, names);
    Finished(w, acc, sp);
    SplicedOutcome(st.rules, g.comp, st.line, h.cont, graphs[g.target].params, names, acc.alias, Read(d));
    ChoiceMatched(graphs, bodies, w, acc, cards, strip, callee, k, n, c, names, s.name, st, d);
  }

  lemma ResolvedGrafts(graphs: Graphs, bodies: map<string, Expansion>, w: World, acc: Acc, cards: seq<nat>, k: nat)
    requires Expanded(graphs, bodies, w, acc, cards) && k < |w.grafts|
    ensures GraftResolved(graphs, w, w.grafts[k]) && Sized(w, cards)
  {
    hide Kept, Sized, Keyed, AllRealised, NamesOf, Apart, AllWide, Closed, Reserved, GraftResolved, Hygienic, Callless;
  }

  lemma StateFits(rules: seq<Rule>, comp: Composite, arity: nat, width: nat)
    requires Wide(rules, width) && |comp| == width && Placed(comp, arity)
    ensures AllFit(rules, comp) && Splicable(rules, comp, arity)
  {
  }

  lemma ChoiceMatched(graphs: Graphs, bodies: map<string, Expansion>, w: World, acc: Acc, cards: seq<nat>, strip: bool,
                      callee: Callee, k: nat, n: string, c: nat, names: map<string, string>, name: string, st: State, d: Data)
    requires Expanded(graphs, bodies, w, acc, cards) && CalleeKeeps(callee, cards) && Within(d, cards)
    requires k < |w.grafts| && InsideAs(graphs, bodies, w, acc, k, n, c, names, name) && c < |w.grafts|
    requires st in bodies[w.grafts[k].target].states && |Read(d)| == |cards| == w.arity
    requires AllFit(st.rules, w.grafts[k].comp) && Placed(w.grafts[k].comp, w.arity)
    requires forall i | 0 <= i < |w.grafts[k].comp| ::
               w.grafts[k].comp[i].phys < |cards| && w.grafts[k].comp[i].hostCard == cards[w.grafts[k].comp[i].phys]
    requires forall x | x in bodies[w.grafts[k].target].states :: x.name in names && names[x.name] in NamesOf(acc.states)
    requires forall m :: FindBind(w.grafts[c].cont, 0, m) == FindBind(w.grafts[k].cont, 0, m)
    ensures w.grafts[k].target in graphs
    ensures var o := BandedWalk(st.rules, w.grafts[k].comp, Same, Read(d));
            var remap := Remapping(w.grafts[c].cont, graphs[w.grafts[k].target].params, names);
            StepsRep(graphs, bodies, w, acc, cards,
                     InsideStep(bodies, w, k, callee, Perform(o, d, strip, callee)),
                     Arrive(w.params, Perform(Redirect(Redirect(o, remap), Resolving(acc.alias)), d, strip, callee)))
  {
    hide Expanded, Realised, Within, CalleeKeeps, InsideStep, Arrive, StepsRep, NamesOf, BandedWalk, Placed, AllFit, FindBind,
      GraftResolved, Wide, ResolveLanding, Resolving, WriteMove, Land, Remap, WritesFit;
    GraftFacts(graphs, bodies, w, acc, cards, k, st);
    var g := w.grafts[k];
    var remap := Remapping(w.grafts[c].cont, graphs[g.target].params, names);
    var o := BandedWalk(st.rules, g.comp, Same, Read(d));
    PerformResolves(Redirect(o, remap), d, strip, callee, acc.alias);
    if o.Fired? {
      WalkFires(st.rules, g.comp, Read(d));
      WalkFits(st.rules, g.comp, Same, Read(d), cards);
      var d' := if o.debugger then Pause(d, strip) else d;
      WritesWithin(d, d', o.write, o.moves, cards);
      InsideLands(graphs, bodies, w, acc, cards, callee, k, n, c, names, name, o.transition, WriteMove(d', o.write, o.moves));
    } else {
      TrapsBoth(graphs, bodies, w, acc, cards, strip, callee, k, o, remap, d);
    }
  }

  lemma WritesWithin(d: Data, d': Data, write: seq<WriteOut>, moves: seq<Move>, cards: seq<nat>)
    requires Within(d, cards) && d'.tapes == d.tapes && WritesFit(write, cards)
    ensures Within(WriteMove(d', write, moves), cards)
  {
    hide WriteMove, TapeWithin;
    WriteMoveWithin(d', write, moves, cards);
  }

  lemma TrapsBoth(graphs: Graphs, bodies: map<string, Expansion>, w: World, acc: Acc, cards: seq<nat>, strip: bool,
                  callee: Callee, k: nat, o: Outcome, remap: Transition -> Transition, d: Data)
    requires k < |w.grafts| && !o.Fired?
    ensures StepsRep(graphs, bodies, w, acc, cards, InsideStep(bodies, w, k, callee, Perform(o, d, strip, callee)),
                     Arrive(w.params, ResolveLanding(Perform(Redirect(o, remap), d, strip, callee), acc.alias)))
  {
  }

  /** Two grafts with one key splice a graph's state to rows that make the same choice and act alike; they
      go to the same place too, unless that is another state of the graph, where each goes to its own. */
  lemma TwinsSplice(g: Graft, h: Graft, st: State, params: seq<string>, inG: map<string, string>, inH: map<string, string>,
                    tuple: seq<nat>)
    requires Keyed(g) && Keyed(h) && KeyOf(g) == KeyOf(h)
    requires AllFit(st.rules, g.comp) && Placed(g.comp, |tuple|) && InRange(g.comp, |tuple|, tuple)
    ensures var o := BandedWalk(st.rules, g.comp, Same, tuple);
            && BandedOutcome(Spliced(st, g.comp, |tuple|, g.cont, params, inG).rules, tuple)
                 == Redirect(o, Remapping(g.cont, params, inG))
            && BandedOutcome(Spliced(st, h.comp, |tuple|, h.cont, params, inH).rules, tuple)
                 == Redirect(o, Remapping(h.cont, params, inH))
    ensures forall t: Transition :: !(t.Goto? && FindBind(g.cont, 0, t.name).None? && t.name !in params) ==>
              Remap(t, g.cont, params, inG) == Remap(t, h.cont, params, inH)
  {
    hide BandedOutcome, SpliceRules, BandedWalk, FindBind, KeyOf, Keyed, Redirect, InRange, KeepsTraps;
    TwinsAlike(g, h);
    KeyedBinds(g);
    KeyedBinds(h);
    RemapKeepsTraps(g.cont, params, inG);
    RemapKeepsTraps(h.cont, params, inH);
    BandedSplice(st.rules, g.comp, st.line, Remapping(g.cont, params, inG), tuple);
    BandedSplice(st.rules, g.comp, st.line, Remapping(h.cont, params, inH), tuple);
    WalkRedirects(st.rules, g.comp, Remapping(g.cont, params, inG), tuple);
    WalkRedirects(st.rules, g.comp, Remapping(h.cont, params, inH), tuple);
  }

  lemma KeyedBinds(g: Graft)
    requires Keyed(g)
    ensures forall b | b in g.cont :: !b.1.TrapRead? && !b.1.TrapWrite?
  {
    hide Plain, Encodable;
  }

  // ----- the theorems -----

  ghost function Relation(graphs: Graphs, bodies: map<string, Expansion>, w: World, acc: Acc, cards: seq<nat>): (Config,
      Spot) -> bool
  {
    (c: Config, s: Spot) => Rep(graphs, bodies, w, acc, cards, c, s)
  }

  /** Neither machine ever stands still. */
  function NoRank(): Config -> (nat, nat)
  {
    (_: Config) => (0, 0)
  }

  lemma ExpansionSimulates(graphs: Graphs, bodies: map<string, Expansion>, w: World, acc: Acc, cards: seq<nat>, strip: bool,
                           callee: Callee)
    requires Expanded(graphs, bodies, w, acc, cards) && CalleeKeeps(callee, cards)
    ensures Simulates(LayeredStepper(bodies, w, strip, callee), StatesStepper(Finish(w, acc).states, w.params, strip, callee),
                      Relation(graphs, bodies, w, acc, cards), NoRank())
  {
    hide Expanded, CalleeKeeps, Rep, StepsRep, LayeredStep, StatesStep, Finish;
    var src, dst := LayeredStepper(bodies, w, strip, callee), StatesStepper(Finish(w, acc).states, w.params, strip, callee);
    forall c, s | Relation(graphs, bodies, w, acc, cards)(c, s)
      ensures exists k: nat :: Answers(src, dst, Relation(graphs, bodies, w, acc, cards), NoRank(), c, s, k)
    {
      if c.at.Own? {
        OwnMatched(graphs, bodies, w, acc, cards, strip, callee, c, s);
      } else {
        InsideMatched(graphs, bodies, w, acc, cards, strip, callee, c, s);
      }
      OneAnswer(graphs, bodies, w, acc, cards, strip, callee, c, s);
    }
  }

  lemma OneAnswer(graphs: Graphs, bodies: map<string, Expansion>, w: World, acc: Acc, cards: seq<nat>, strip: bool,
                  callee: Callee, c: Config, s: Spot)
    requires StepsRep(graphs, bodies, w, acc, cards, LayeredStep(bodies, w, strip, callee, c),
                      StatesStep(Finish(w, acc).states, w.params, strip, callee, s))
    ensures Answers(LayeredStepper(bodies, w, strip, callee), StatesStepper(Finish(w, acc).states, w.params, strip, callee),
                    Relation(graphs, bodies, w, acc, cards), NoRank(), c, s, 1)
  {
    hide LayeredStep, StatesStep, Finish, Rep, Run;
    RunOnce(StatesStepper(Finish(w, acc).states, w.params, strip, callee), s);
  }

  /** The entries stand for each other. */
  lemma EntriesStand(graphs: Graphs, bodies: map<string, Expansion>, w: World, acc: Acc, cards: seq<nat>)
    requires Expanded(graphs, bodies, w, acc, cards)
    ensures StandsFor(graphs, bodies, w, acc, Entry(bodies, w), Finish(w, acc).entry)
  {
    hide Expanded, KeyOf, NamesOf, LastEntry, ResolveStates, Realised;
    HostNames(graphs, bodies, w, acc, cards);
    EntryGiven(graphs, bodies, w, acc, cards);
    if w.ownEntry.None? {
      InstanceStands(graphs, bodies, w, acc, cards, LastEntry(w.grafts, |w.grafts|).value);
    }
  }

  lemma EntryGiven(graphs: Graphs, bodies: map<string, Expansion>, w: World, acc: Acc, cards: seq<nat>)
    requires Expanded(graphs, bodies, w, acc, cards)
    ensures w.ownEntry.Some? ==> w.ownEntry.value in NamesOf(w.own)
    ensures w.ownEntry.None? ==>
      (var last := LastEntry(w.grafts, |w.grafts|);
       && last.Some? && KeyOf(w.grafts[last.value]) in acc.dedup
       && acc.entry == Some(acc.dedup[KeyOf(w.grafts[last.value])]))
  {
    hide Kept, Sized, Keyed, NamesOf, Apart, AllWide, Closed, Reserved, GraftResolved, Hygienic, Callless, KeyOf, IsRealised;
  }

  lemma {:induction false} GraftsCallless(graphs: Graphs, order: seq<string>, w: World, r: nat, n: nat)
    requires AllDescend(graphs, order) && Descends(graphs, order, w, r) && n <= |w.grafts|
    requires AddGrafts(graphs, order, w, r, n).Ok?
    ensures forall k | 0 <= k < n
            && w.grafts[k].target in Bodies(graphs, order) :: Callless(Bodies(graphs, order)[w.grafts[k].target])
  {
    hide AddGraft, FirstCall, ExpandGraph, Start;
    if n > 0 {
      GraftsCallless(graphs, order, w, r, n - 1);
    }
  }

  lemma BodiesHygienic(graphs: Graphs, order: seq<string>)
    requires AllDescend(graphs, order) && AllResolved(graphs)
    ensures forall n | n in Bodies(graphs, order) :: n in graphs && Hygienic(graphs[n], Bodies(graphs, order)[n])
  {
    hide ExpandGraph, Hygienic, Resolved;
    forall n | n in Bodies(graphs, order) ensures n in graphs && Hygienic(graphs[n], Bodies(graphs, order)[n]) {
      GraphHygienic(graphs, order, n);
    }
  }

  /** An expanded world runs as its layers do: whatever the data and the routines it calls, it ends the
      same ways with the same data, or runs for ever, as the machine that keeps every graft apart and
      walks each one's graph through its own maps.  In particular sharing identical instances, making up
      names and resolving aliases changes nothing. */
  lemma ExpansionRunsAsLayers(graphs: Graphs, order: seq<string>, w: World, r: nat, cards: seq<nat>, strip: bool,
                              callee: Callee, d: Data)
    requires AllDescend(graphs, order) && Descends(graphs, order, w, r)
    requires AllResolved(graphs) && Resolved(graphs, w) && AddGrafts(graphs, order, w, r, |w.grafts|).Ok?
    requires Sized(w, cards) && (forall k | 0 <= k < |w.grafts| :: Keyed(w.grafts[k]))
    requires CalleeKeeps(callee, cards) && Within(d, cards)
    ensures var bodies := Bodies(graphs, order);
            var gx := Finish(w, AddGrafts(graphs, order, w, r, |w.grafts|).value);
            var layers, states := LayeredStepper(bodies, w, strip, callee), StatesStepper(gx.states, w.params, strip, callee);
            var c, s := Config(Entry(bodies, w), d), Spot(gx.entry, d);
            && (forall e :: Finishes(layers, c, e) <==> Finishes(states, s, e))
            && (Diverges(layers, c) <==> Diverges(states, s))
  {
    hide AddGrafts, Finish, Resolved, Hygienic, Callless, Kept, AllRealised, Sized, Keyed, Within, CalleeKeeps, Finishes,
      Diverges, StandsFor, Simulates, LayeredStep, StatesStep, Bodies, Entry;
    var bodies, acc := Bodies(graphs, order), AddGrafts(graphs, order, w, r, |w.grafts|).value;
    GraftsKept(graphs, order, w, r, |w.grafts|);
    GraftsRealised(graphs, order, w, r, |w.grafts|);
    GraftsCallless(graphs, order, w, r, |w.grafts|);
    BodiesHygienic(graphs, order);
    assert Expanded(graphs, bodies, w, acc, cards);
    ExpansionSimulates(graphs, bodies, w, acc, cards, strip, callee);
    EntriesStand(graphs, bodies, w, acc, cards);
    SameBehaviour(LayeredStepper(bodies, w, strip, callee), StatesStepper(Finish(w, acc).states, w.params, strip, callee),
                  Relation(graphs, bodies, w, acc, cards), NoRank(), Config(Entry(bodies, w), d),
                    Spot(Finish(w, acc).entry, d));
  }
}
