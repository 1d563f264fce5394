/** A graft run and its graph's own run.  On tapes of its own, a graph runs by itself; grafted, it runs on
    the host's tapes through the maps.  As long as every written symbol reads back as itself, the second is
    the first, seen through the maps, until it meets a symbol that has no image. */
module TmOwnTapes {
  import opened Options
  import opened Simulation
  import opened TmMachine
  import opened TmRules
  import opened TmSplice
  import opened TmBands
  import opened TmBandSplice
  import opened TmGrafts
  import opened TmHygiene
  import opened TmSharing
  import opened TmRuns
  import M = TmMaps

  // ----- seeing one tape through another -----

  function CellAt(t: Tape, p: int): nat
  {
    if p in t.cells then t.cells[p] else 0
  }

  /** The graph's tape holds what the host's reads as; where the host's reads as nothing it may hold
      anything. */
  ghost predicate SeenAs(m: TapeMap, host: Tape, own: Tape)
  {
    && host.head == own.head && (forall p :: CellAt(host, p) < m.hostCard)
    && forall p :: ReadImage(m, CellAt(host, p)).Some? ==> ReadImage(m, CellAt(host, p)) == Some(CellAt(own, p))
  }

  ghost predicate Views(comp: Composite, host: Data, own: Data)
    requires Placed(comp, |host.tapes|)
  {
    && |own.tapes| == |comp| && own.pauses == host.pauses
    && forall k | 0 <= k < |comp| :: SeenAs(comp[k], host.tapes[comp[k].phys], own.tapes[k])
  }

  /** A written symbol reads back as itself. */
  ghost predicate ReadsBack(m: TapeMap)
  {
    forall v | 0 <= v < m.graphCard && WriteImage(m, v).Some? :: ReadImage(m, WriteImage(m, v).value) == Some(v)
  }

  /** Every legal map between different alphabets reads back, and one between alphabets of one size if no
      one-way pair really renames. */
  lemma LegalReadsBack(ps: seq<M.IndexPair>, phys: nat, hostCard: nat, graphCard: nat)
    requires M.Legal(ps, hostCard, graphCard) && M.Within(ps, hostCard, graphCard)
    ensures hostCard != graphCard || M.NoRealOneWay(ps) ==> ReadsBack(M.TapeMapOf(ps, phys, hostCard, graphCard))
    ensures hostCard == graphCard && ReadsBack(M.TapeMapOf(ps, phys, hostCard, graphCard)) ==> M.NoRealOneWay(ps)
    ensures ReadImage(M.TapeMapOf(ps, phys, hostCard, graphCard), 0) == Some(0)
  {
    hide M.TapeMapOf, M.Legal, M.Within, M.NoRealOneWay, ReadImage, WriteImage;
    var t := M.TapeMapOf(ps, phys, hostCard, graphCard);
    CardOf(ps, phys, hostCard, graphCard);
    M.BlankPinned(ps, phys, hostCard, graphCard);
    if hostCard == graphCard {
      M.EqualReadsBackExactly(ps, phys, hostCard);
    } else {
      forall v: nat | v < graphCard && WriteImage(t, v).Some? ensures ReadImage(t, WriteImage(t, v).value) == Some(v) {
        M.UnequalReadsBack(ps, phys, hostCard, graphCard, v);
      }
    }
  }

  lemma CardOf(ps: seq<M.IndexPair>, phys: nat, hostCard: nat, graphCard: nat)
    ensures M.TapeMapOf(ps, phys, hostCard, graphCard).graphCard == graphCard
  {
  }

  // ----- one action -----

  lemma ActSeen(m: TapeMap, host: Tape, own: Tape, write: WriteOut, back: WriteOut, move: Move)
    requires SeenAs(m, host, own) && ReadsBack(m)
    requires if write.Keep? then back == Keep
             else write.s < m.graphCard && WriteImage(m, write.s).Some? && back == Put(WriteImage(m, write.s).value)
    ensures SeenAs(m, Act(host, back, move), Act(own, write, move))
  {
    hide ReadImage, WriteImage;
    var h, o := Act(host, back, move), Act(own, write, move);
    if write.Put? {
      ImageBelow(m, write.s);
    }
    forall p ensures CellAt(h, p) < m.hostCard
      && (ReadImage(m, CellAt(h, p)).Some? ==> ReadImage(m, CellAt(h, p)) == Some(CellAt(o, p))) {
      if write.Put? && p == host.head {
        assert CellAt(h, p) == back.s && CellAt(o, p) == write.s;
      } else {
        assert CellAt(h, p) == CellAt(host, p) && CellAt(o, p) == CellAt(own, p);
      }
    }
  }

  lemma ImageBelow(m: TapeMap, v: nat)
    ensures WriteImage(m, v).Some? ==> WriteImage(m, v).value < m.hostCard
  {
  }

  lemma BackOn(comp: Composite, arity: nat, k: nat)
    requires Placed(comp, arity) && k < |comp|
    ensures TapeAt(comp, comp[k].phys) == Some(k)
  {
    var j := TapeAt(comp, comp[k].phys);
  }

  /** The graph's writes are symbols of its own tapes. */
  ghost predicate WritesOwn(rule: Rule, comp: Composite)
  {
    |rule.write| == |comp| && forall k | 0 <= k < |comp| && rule.write[k].Put? :: rule.write[k].s < comp[k].graphCard
  }

  lemma MoveSeen(comp: Composite, host: Data, own: Data, rule: Rule, write: seq<WriteOut>, moves: seq<Move>)
    requires Placed(comp, |host.tapes|) && Views(comp, host, own) && (forall k | 0 <= k < |comp| :: ReadsBack(comp[k]))
    requires |rule.write| == |rule.moves| == |comp| && WritesOwn(rule, comp) && !Unwritable(rule.write, comp)
    requires |write| == |moves| == |host.tapes|
    requires forall h | 0 <= h < |host.tapes| ::
               write[h] == WriteBack(rule.write, comp, h) && moves[h] == MoveBack(rule.moves, comp, h)
    ensures |WriteMove(host, write, moves).tapes| == |host.tapes|
    ensures Views(comp, WriteMove(host, write, moves), WriteMove(own, rule.write, rule.moves))
  {
    hide Act, SeenAs, ReadsBack, WriteImage;
    var h', o' := WriteMove(host, write, moves), WriteMove(own, rule.write, rule.moves);
    forall k: nat | k < |comp| ensures SeenAs(comp[k], h'.tapes[comp[k].phys], o'.tapes[k]) {
      BackOn(comp, |host.tapes|, k);
      var p := comp[k].phys;
      ActSeen(comp[k], host.tapes[p], own.tapes[k], rule.write[k], write[p], rule.moves[k]);
    }
  }

  // ----- one choice -----

  /** The rule the graph picks for what its own tapes hold writes a symbol without image. */
  ghost predicate WriteBlocked(rules: seq<Rule>, comp: Composite, own: Data)
    requires AllFit(rules, comp)
  {
    var m := BandPick(rules, Read(own));
    m.Some? && Unwritable(rules[m.value].write, comp)
  }

  /** The state reads a symbol of the host that the graph has none for. */
  ghost predicate ReadBlocked(rules: seq<Rule>, comp: Composite, host: Data)
    requires Placed(comp, |host.tapes|)
  {
    StateReads(rules) && !Readable(comp, Read(host))
  }

  /** The rule the graft picks on the host. */
  ghost function HostPick(rules: seq<Rule>, comp: Composite, host: Data): (r: Option<nat>)
    requires Placed(comp, |host.tapes|) && !ReadBlocked(rules, comp, host)
    ensures r.Some? ==> r.value < |rules|
  {
    if !StateReads(rules) then Some(0)
    else
      var g := ReadTuple(comp, Read(host));
      if Covers(comp, |host.tapes|) then BandPick(rules, g) else WidePick(rules, g)
  }

  /** Both machines do the same, seen through the maps. */
  ghost predicate SameDeed(comp: Composite, host: Data, strip: bool, own: Data, a: Outcome, b: Outcome)
    requires Placed(comp, |host.tapes|)
  {
    || (a == NoMatch && b == NoMatch)
    || (&& a.Fired? && b.Fired? && a.transition == b.transition && a.debugger == b.debugger
        && var d := if a.debugger then Pause(host, strip) else host;
           var e := if a.debugger then Pause(own, strip) else own;
           |WriteMove(d, a.write, a.moves).tapes| == |host.tapes|
           && Views(comp, WriteMove(d, a.write, a.moves), WriteMove(e, b.write, b.moves)))
  }

  lemma BackDoes(comp: Composite, host: Data, own: Data, strip: bool, rule: Rule)
    requires Placed(comp, |host.tapes|) && Views(comp, host, own) && (forall k | 0 <= k < |comp| :: ReadsBack(comp[k]))
    requires |rule.write| == |rule.moves| == |comp| && WritesOwn(rule, comp) && !Unwritable(rule.write, comp)
    ensures SameDeed(comp, host, strip, own, Back(rule, comp, |host.tapes|, Same), OutcomeOf(rule))
  {
    hide WriteMove, WriteBack, MoveBack, SeenAs, ReadsBack;
    var a := Back(rule, comp, |host.tapes|, Same);
    var d := if a.debugger then Pause(host, strip) else host;
    var e := if a.debugger then Pause(own, strip) else own;
    MoveSeen(comp, d, e, rule, a.write, a.moves);
  }

  lemma TupleSeen(comp: Composite, host: Data, own: Data)
    requires Placed(comp, |host.tapes|) && Views(comp, host, own) && Readable(comp, Read(host))
    ensures ReadTuple(comp, Read(host)) == Read(own)
  {
    hide ReadImage;
    var a, b := ReadTuple(comp, Read(host)), Read(own);
    forall k | 0 <= k < |comp| ensures a[k] == b[k] {
      var t := host.tapes[comp[k].phys];
      assert Read(host)[comp[k].phys] == CellAt(t, t.head);
      assert SeenAs(comp[k], t, own.tapes[k]);
      assert b[k] == CellAt(own.tapes[k], own.tapes[k].head);
    }
  }

  /** The walk takes the rule that the graft picks. */
  lemma WalkPicks(rules: seq<Rule>, comp: Composite, host: Data)
    requires Placed(comp, |host.tapes|) && AllFit(rules, comp)
    ensures ReadBlocked(rules, comp, host) ==> BandedWalk(rules, comp, Same, Read(host)) == ReadTrap(|host.tapes|)
    ensures !ReadBlocked(rules, comp, host) ==>
              BandedWalk(rules, comp, Same, Read(host)) ==
                match HostPick(rules, comp, host)
                case None => NoMatch
                case Some(k) => Back(rules[k], comp, |host.tapes|, Same)
  {
    hide Back, Readable, ReadTuple, FirstKept, Covers;
  }

  lemma ChoiceSeen(rules: seq<Rule>, comp: Composite, host: Data, own: Data, strip: bool)
    requires Placed(comp, |host.tapes|) && Views(comp, host, own) && (forall k | 0 <= k < |comp| :: ReadsBack(comp[k]))
    requires AllFit(rules, comp) && forall k | 0 <= k < |rules| :: WritesOwn(rules[k], comp)
    requires !ReadBlocked(rules, comp, host) && HostPick(rules, comp, host) == BandPick(rules, Read(own))
    ensures var a, b := BandedWalk(rules, comp, Same, Read(host)), BandedOutcome(rules, Read(own));
            if WriteBlocked(rules, comp, own) then exists debugger :: a == Quiet(debugger, |host.tapes|, TrapWrite)
            else SameDeed(comp, host, strip, own, a, b)
  {
    hide HostPick, ReadBlocked, OutcomeOf, ReadsBack, WritesOwn, BandPick, BandedWalk, SameDeed, SeenAs, WriteBack, MoveBack;
    WalkPicks(rules, comp, host);
    NeitherMatches(comp, host, strip, own);
    var m := BandPick(rules, Read(own));
    if m.Some? && !Unwritable(rules[m.value].write, comp) {
      BackDoes(comp, host, own, strip, rules[m.value]);
    }
  }

  /** A host that the graph covers keeps the graph's choice; any other keeps it for every tuple it can show
      if no partial rule stands before an exact one it overlaps. */
  ghost predicate KeepsChoice(rules: seq<Rule>, comp: Composite, arity: nat)
  {
    Covers(comp, arity) || !exists i: nat, j: nat :: Inverted(rules, comp, i, j)
  }

  /** What the graph's tapes hold under the heads is what some host symbol reads as. */
  lemma SeenVisible(comp: Composite, host: Data, own: Data)
    requires Placed(comp, |host.tapes|) && Views(comp, host, own) && Readable(comp, Read(host))
    ensures Visible(comp, Read(own))
  {
    hide ReadImage, Preimage;
    TupleSeen(comp, host, own);
    var g := Read(own);
    forall k | 0 <= k < |comp| ensures Preimage(comp[k], g[k]) != [] {
      var t := host.tapes[comp[k].phys];
      assert SeenAs(comp[k], t, own.tapes[k]);
      assert Read(host)[comp[k].phys] == CellAt(t, t.head) < comp[k].hostCard;
      PreimageHolds(comp[k], g[k], Read(host)[comp[k].phys]);
    }
  }

  lemma PreimageHolds(m: TapeMap, v: nat, p: nat)
    requires m.hostCard < SYMBOL_LIMIT && p < m.hostCard && ReadImage(m, p) == Some(v)
    ensures Preimage(m, v) != []
  {
    hide ReadImage, PreimageBelow;
    PreimageExact(m, v, m.hostCard, p);
  }

  lemma PickKept(rules: seq<Rule>, comp: Composite, host: Data, own: Data)
    requires Placed(comp, |host.tapes|) && Views(comp, host, own) && AllFit(rules, comp) && !ReadBlocked(rules, comp, host)
    requires KeepsChoice(rules, comp, |host.tapes|)
    ensures HostPick(rules, comp, host) == BandPick(rules, Read(own))
  {
    hide Readable, ReadTuple, BandPick, WidePick, Covers, SeenAs, Visible, Inverted;
    if !StateReads(rules) {
      WildFirst(rules, Read(own));
    } else {
      TupleSeen(comp, host, own);
      SeenVisible(comp, host, own);
      if !Covers(comp, |host.tapes|) {
        WideHostAgrees(rules, comp);
      }
    }
  }

  lemma NeitherMatches(comp: Composite, host: Data, strip: bool, own: Data)
    requires Placed(comp, |host.tapes|)
    ensures SameDeed(comp, host, strip, own, NoMatch, NoMatch)
  {
  }

  lemma WildFirst(rules: seq<Rule>, tuple: seq<nat>)
    requires !StateReads(rules) && |rules[0].pattern| == |tuple|
    ensures BandPick(rules, tuple) == Some(0)
  {
    hide FirstKept;
    assert Matches(rules[0].pattern, tuple);
    if IsExact(rules[0].pattern) {
      KeptIs(rules, IsExact, tuple, 0);
    } else {
      KeptIs(rules, IsCatchAll, tuple, 0);
      var e, p := FirstKept(rules, IsExact, 1, tuple), FirstKept(rules, IsPartial, 1, tuple);
    }
  }

  // ----- one step -----

  /** A graft whose maps read back, of a graph that writes symbols of its own tapes and is continued at its
      state parameters only. */
  ghost predicate Faithful(graphs: Graphs, bodies: map<string, Expansion>, w: World, k: nat)
  {
    && k < |w.grafts| && w.grafts[k].target in graphs && w.grafts[k].target in bodies
    && GraftResolved(graphs, w, w.grafts[k])
    && Hygienic(graphs[w.grafts[k].target], bodies[w.grafts[k].target]) && Callless(bodies[w.grafts[k].target])
    && (forall i | 0 <= i < |w.grafts[k].comp| :: ReadsBack(w.grafts[k].comp[i]))
    && (forall b | b in w.grafts[k].cont :: b.0 in graphs[w.grafts[k].target].params)
    && (forall st, i | st in bodies[w.grafts[k].target].states && 0 <= i < |st.rules| ::
          WritesOwn(st.rules[i], w.grafts[k].comp))
  }

  /** Every state of the graft keeps the graph's choice. */
  ghost predicate KeepsChoices(bodies: map<string, Expansion>, w: World, k: nat)
    requires k < |w.grafts|
  {
    w.grafts[k].target in bodies
    && forall st | st in bodies[w.grafts[k].target].states :: KeepsChoice(st.rules, w.grafts[k].comp, w.arity)
  }

  /** The host is in the graft's state of this name, and its tapes look like the graph's. */
  ghost predicate Along(w: World, k: nat, c: Config, s: Spot)
    requires k < |w.grafts|
  {
    && c.at == Inside(k, s.name) && |c.data.tapes| == w.arity
    && Placed(w.grafts[k].comp, w.arity) && Views(w.grafts[k].comp, c.data, s.data)
  }

  ghost predicate DataAlong(w: World, k: nat, host: Data, own: Data)
    requires k < |w.grafts|
  {
    |host.tapes| == w.arity && Placed(w.grafts[k].comp, w.arity) && Views(w.grafts[k].comp, host, own)
  }

  /** The same kind of ending, with data that look alike. */
  ghost predicate EndsAlong(w: World, k: nat, a: Ending, b: Ending)
    requires k < |w.grafts|
  {
    match (a, b)
    case (Stopped(x), Stopped(y)) => DataAlong(w, k, x, y)
    case (Halted(x), Halted(y)) => DataAlong(w, k, x, y)
    case (Returned(x), Returned(y)) => DataAlong(w, k, x, y)
    case (Trapped(s, x), Trapped(t, y)) => s == t && DataAlong(w, k, x, y)
    case (Wrong, Wrong) => true
    case _ => false
  }

  /** The host's step is the graph's own: on inside the graft, out by the continuation of the state
      parameter the graph leaves for, or over in the same way. */
  ghost predicate StepAlong(bodies: map<string, Expansion>, w: World, k: nat, callee: Callee, a: Step<Config, Ending>,
                            b: Step<Spot, Ending>)
    requires k < |w.grafts|
  {
    match b
    case Next(s) => a.Next? && Along(w, k, a.state, s)
    case Done(e) =>
      if e.LeftFor? then
        exists host :: && DataAlong(w, k, host, e.data) && FindBind(w.grafts[k].cont, 0, e.routine).Some?
          && a == HostStep(bodies, w, Land(FindBind(w.grafts[k].cont, 0, e.routine).value, host, callee))
      else a.Done? && EndsAlong(w, k, a.outcome, e)
  }

  /** The graph's state meets a symbol that has no image: one it would read, or one it would write. */
  ghost predicate Blocked(bodies: map<string, Expansion>, w: World, k: nat, c: Config, s: Spot)
    requires k < |w.grafts|
  {
    && w.grafts[k].target in bodies && Placed(w.grafts[k].comp, |c.data.tapes|)
    && match FindState(bodies[w.grafts[k].target].states, 0, s.name)
       case None => false
       case Some(st) =>
         ReadBlocked(st.rules, w.grafts[k].comp, c.data)
         || (AllFit(st.rules, w.grafts[k].comp) && WriteBlocked(st.rules, w.grafts[k].comp, s.data))
  }

  lemma LandAlong(graphs: Graphs, bodies: map<string, Expansion>, w: World, k: nat, callee: Callee, t: Transition,
                  host: Data, own: Data)
    requires Faithful(graphs, bodies, w, k) && !t.Call? && DataAlong(w, k, host, own)
    ensures StepAlong(bodies, w, k, callee, InsideStep(bodies, w, k, callee, Land(t, host, callee)),
                      Arrive(graphs[w.grafts[k].target].params, Land(t, own, callee)))
  {
    hide Views, Placed, Hygienic, Callless, ReadsBack, WritesOwn, FindBind, HostStep, Reserved;
    if t.Goto? {
      var g := w.grafts[k];
      BoundSomewhere(g.cont, 0, t.name);
    }
  }

  lemma DeedAlong(graphs: Graphs, bodies: map<string, Expansion>, w: World, k: nat, strip: bool, callee: Callee, a: Outcome,
                  b: Outcome, host: Data, own: Data)
    requires Faithful(graphs, bodies, w, k) && DataAlong(w, k, host, own) && (a.Fired? ==> !a.transition.Call?)
    requires SameDeed(w.grafts[k].comp, host, strip, own, a, b)
    ensures StepAlong(bodies, w, k, callee, InsideStep(bodies, w, k, callee, Perform(a, host, strip, callee)),
                      Arrive(graphs[w.grafts[k].target].params, Perform(b, own, strip, callee)))
  {
    hide Faithful, Views, Placed, FindBind, HostStep, Land, WriteMove;
    if a.Fired? {
      var d := if a.debugger then Pause(host, strip) else host;
      var e := if a.debugger then Pause(own, strip) else own;
      LandAlong(graphs, bodies, w, k, callee, a.transition, WriteMove(d, a.write, a.moves), WriteMove(e, b.write, b.moves));
    }
  }

  /** The facts of the graph's state. */
  lemma StateAlong(graphs: Graphs, bodies: map<string, Expansion>, w: World, k: nat, st: State)
    requires Faithful(graphs, bodies, w, k) && st in bodies[w.grafts[k].target].states
    ensures Placed(w.grafts[k].comp, w.arity) && AllFit(st.rules, w.grafts[k].comp)
    ensures forall i | 0 <= i < |st.rules| :: WritesOwn(st.rules[i], w.grafts[k].comp) && !st.rules[i].transition.Call?
    ensures forall i | 0 <= i < |w.grafts[k].comp| :: ReadsBack(w.grafts[k].comp[i])
  {
    hide ReadsBack, WritesOwn, NamesWithin, FirstCall, Reserved, Apart;
    var gx := bodies[w.grafts[k].target];
    var i :| 0 <= i < |gx.states| && gx.states[i] == st;
    GraphRules(graphs[w.grafts[k].target], gx, i);
    NoCalls(gx.states, |gx.states|, i);
    Bindable(graphs, w, w.grafts[k]);
  }

  /** A trap of a binding leaves the tapes as they are. */
  lemma QuietTraps(debugger: bool, arity: nat, t: Transition, d: Data, strip: bool, callee: Callee)
    requires |d.tapes| == arity && (t.TrapRead? || t.TrapWrite?)
    ensures var l := Perform(Quiet(debugger, arity, t), d, strip, callee);
            && l.Over? && l.ending.Trapped? && l.ending.data.tapes == d.tapes
            && l.ending.kind == (if t.TrapRead? then UnmappedRead else UnmappedWrite)
            && (!debugger ==> l.ending.data == d)
  {
    var d' := if debugger then Pause(d, strip) else d;
    var after := WriteMove(d', Keeps(arity), Stays(arity));
    assert after.tapes == d'.tapes;
  }

  /** The trap at a symbol without an image. */
  ghost predicate Trap(a: Step<Config, Ending>, d: Data)
  {
    a.Done? && a.outcome.Trapped? && a.outcome.kind in {UnmappedRead, UnmappedWrite} && a.outcome.data.tapes == d.tapes
  }

  lemma StepFollows(graphs: Graphs, bodies: map<string, Expansion>, w: World, k: nat, strip: bool, callee: Callee, c: Config,
                    s: Spot)
    requires k < |w.grafts| && Faithful(graphs, bodies, w, k) && Along(w, k, c, s) && KeepsChoices(bodies, w, k)
    ensures Blocked(bodies, w, k, c, s) ==> Trap(LayeredStep(bodies, w, strip, callee, c), c.data)
    ensures !Blocked(bodies, w, k, c, s) ==>
              StepAlong(bodies, w, k, callee, LayeredStep(bodies, w, strip, callee, c),
                        StatesStep(bodies[w.grafts[k].target].states, graphs[w.grafts[k].target].params, strip, callee, s))
  {
    hide Faithful, Views, Placed, FindState, BandedWalk, BandedOutcome, AllFit, SameDeed, StepAlong, ReadBlocked, WriteBlocked,
      ReadsBack, WritesOwn, HostStep, HostPick, BandPick, KeepsChoice, Quiet, Perform;
    var g := w.grafts[k];
    Target(graphs, bodies, w, k);
    var found := FindState(bodies[g.target].states, 0, s.name);
    if found.Some? {
      var st := found.value;
      StateAlong(graphs, bodies, w, k, st);
      var a, b := BandedWalk(st.rules, g.comp, Same, Read(c.data)), BandedOutcome(st.rules, Read(s.data));
      WalkPicks(st.rules, g.comp, c.data);
      if ReadBlocked(st.rules, g.comp, c.data) {
        QuietRead(w.arity);
        QuietTraps(false, w.arity, TrapRead, c.data, strip, callee);
      } else {
        PickKept(st.rules, g.comp, c.data, s.data);
        ChoiceSeen(st.rules, g.comp, c.data, s.data, strip);
        if WriteBlocked(st.rules, g.comp, s.data) {
          var debugger :| a == Quiet(debugger, w.arity, TrapWrite);
          QuietTraps(debugger, w.arity, TrapWrite, c.data, strip, callee);
        } else {
          WalkCalls(st.rules, g.comp, Read(c.data));
          DeedAlong(graphs, bodies, w, k, strip, callee, a, b, c.data, s.data);
        }
      }
    } else {
      BothWrong(bodies, w, k, callee);
    }
  }

  lemma QuietRead(arity: nat)
    ensures ReadTrap(arity) == Quiet(false, arity, TrapRead)
  {
  }

  lemma WalkCalls(rules: seq<Rule>, comp: Composite, tuple: seq<nat>)
    requires AllFit(rules, comp) && Placed(comp, |tuple|) && forall k | 0 <= k < |rules| :: !rules[k].transition.Call?
    ensures var o := BandedWalk(rules, comp, Same, tuple); o.Fired? ==> !o.transition.Call?
  {
    hide BandedWalk;
    WalkFires(rules, comp, tuple);
  }

  lemma BothWrong(bodies: map<string, Expansion>, w: World, k: nat, callee: Callee)
    requires k < |w.grafts|
    ensures StepAlong(bodies, w, k, callee, Done(Wrong), Done(Wrong))
  {
  }

  lemma Target(graphs: Graphs, bodies: map<string, Expansion>, w: World, k: nat)
    requires Faithful(graphs, bodies, w, k)
    ensures w.grafts[k].target in graphs && w.grafts[k].target in bodies
  {
  }

  // ----- the run -----

  /** After n steps the host is where the graph alone is, or it has stopped, before that, at a symbol
      without an image. */
  ghost predicate RunsAlong(bodies: map<string, Expansion>, w: World, k: nat, a: Config -> Step<Config, Ending>,
                            b: Spot -> Step<Spot, Ending>, c: Config, s: Spot, n: nat)
    requires k < |w.grafts|
  {
    || (Run(a, c, n).Next? && Run(b, s, n).Next? && Along(w, k, Run(a, c, n).state, Run(b, s, n).state))
    || exists m: nat :: m < n && StopsAt(bodies, w, k, a, b, c, s, m)
  }

  ghost predicate StopsAt(bodies: map<string, Expansion>, w: World, k: nat, a: Config -> Step<Config, Ending>,
                          b: Spot -> Step<Spot, Ending>, c: Config, s: Spot, m: nat)
    requires k < |w.grafts|
  {
    && Run(a, c, m).Next? && Run(b, s, m).Next?
    && Along(w, k, Run(a, c, m).state, Run(b, s, m).state)
    && Blocked(bodies, w, k, Run(a, c, m).state, Run(b, s, m).state)
    && Trap(Run(a, c, m + 1), Run(a, c, m).state.data)
  }

  /** A graft runs as its graph does on tapes of its own, seen through the maps: for as long as the graph
      alone goes on, the host is in the same state of the graft and its tapes look the same, unless the
      graph met a symbol without an image, where the host traps; and the step that ends the graph's own run
      ends the graft's alike or leaves it by the bound continuation. */
  lemma {:induction false} GraftRunsAsGraph(graphs: Graphs, bodies: map<string, Expansion>, w: World, k: nat, strip: bool,
                                            callee: Callee, c: Config, s: Spot, n: nat)
    requires k < |w.grafts| && Faithful(graphs, bodies, w, k) && Along(w, k, c, s) && KeepsChoices(bodies, w, k)
    ensures w.grafts[k].target in graphs && w.grafts[k].target in bodies
    ensures var a := LayeredStepper(bodies, w, strip, callee);
            var b := StatesStepper(bodies[w.grafts[k].target].states, graphs[w.grafts[k].target].params, strip, callee);
            Run(b, s, n).Next? ==>
              && RunsAlong(bodies, w, k, a, b, c, s, n)
              && (Run(a, c, n).Next? && Along(w, k, Run(a, c, n).state, Run(b, s, n).state)
                  && !Blocked(bodies, w, k, Run(a, c, n).state, Run(b, s, n).state) ==>
                    StepAlong(bodies, w, k, callee, a(Run(a, c, n).state), b(Run(b, s, n).state)))
  {
    hide Faithful, Along, Blocked, StepAlong, KeepsChoices, Trap, LayeredStep, StatesStep, Run;
    Target(graphs, bodies, w, k);
    var a := LayeredStepper(bodies, w, strip, callee);
    var b := StatesStepper(bodies[w.grafts[k].target].states, graphs[w.grafts[k].target].params, strip, callee);
    if n == 0 {
      RunNothing(a, c);
      RunNothing(b, s);
    } else {
      Further(a, c, n - 1);
      Further(b, s, n - 1);
      GraftRunsAsGraph(graphs, bodies, w, k, strip, callee, c, s, n - 1);
      if Run(b, s, n).Next? && Run(a, c, n - 1).Next? && Along(w, k, Run(a, c, n - 1).state, Run(b, s, n - 1).state) {
        StepFollows(graphs, bodies, w, k, strip, callee, Run(a, c, n - 1).state, Run(b, s, n - 1).state);
        NextAlong(bodies, w, k, callee, a(Run(a, c, n - 1).state), b(Run(b, s, n - 1).state));
        if Blocked(bodies, w, k, Run(a, c, n - 1).state, Run(b, s, n - 1).state) {
          assert StopsAt(bodies, w, k, a, b, c, s, n - 1);
        }
      } else if Run(b, s, n).Next? {
        var m: nat :| m < n - 1 && StopsAt(bodies, w, k, a, b, c, s, m);
      }
    }
    if Run(b, s, n).Next? && Run(a, c, n).Next? && Along(w, k, Run(a, c, n).state, Run(b, s, n).state) {
      StepFollows(graphs, bodies, w, k, strip, callee, Run(a, c, n).state, Run(b, s, n).state);
    }
  }

  lemma NextAlong(bodies: map<string, Expansion>, w: World, k: nat, callee: Callee, a: Step<Config, Ending>, b: Step<Spot,
                  Ending>)
    requires k < |w.grafts|
    ensures b.Next? && StepAlong(bodies, w, k, callee, a, b) ==> a.Next? && Along(w, k, a.state, b.state)
  {
  }

  // ----- exactly when a graft follows its graph -----

  /** At these states, unless it traps, the graft picks the rule its graph picks. */
  ghost predicate PicksAlike(bodies: map<string, Expansion>, w: World, k: nat, c: Config, s: Spot)
    requires k < |w.grafts|
  {
    && w.grafts[k].target in bodies && Placed(w.grafts[k].comp, |c.data.tapes|)
    && match FindState(bodies[w.grafts[k].target].states, 0, s.name)
       case None => true
       case Some(st) =>
         !ReadBlocked(st.rules, w.grafts[k].comp, c.data) ==>
           HostPick(st.rules, w.grafts[k].comp, c.data) == BandPick(st.rules, Read(s.data))
  }

  /** While both runs go on they stay together and pick the same rules. */
  ghost predicate Together(bodies: map<string, Expansion>, w: World, k: nat, a: Config -> Step<Config, Ending>,
                           b: Spot -> Step<Spot, Ending>, c: Config, s: Spot, n: nat)
    requires k < |w.grafts|
  {
    Run(a, c, n).Next? && Run(b, s, n).Next? ==>
      Along(w, k, Run(a, c, n).state, Run(b, s, n).state) && PicksAlike(bodies, w, k, Run(a, c, n).state, Run(b, s, n).state)
  }

  ghost predicate Follows(bodies: map<string, Expansion>, w: World, k: nat, a: Config -> Step<Config, Ending>,
                          b: Spot -> Step<Spot, Ending>)
    requires k < |w.grafts|
  {
    forall c, s, n: nat | Along(w, k, c, s) :: Together(bodies, w, k, a, b, c, s, n)
  }

  /** A host whose blank reads as the graph's. */
  ghost predicate BlankReads(comp: Composite)
  {
    forall i | 0 <= i < |comp| :: 0 < comp[i].hostCard && ReadImage(comp[i], 0) == Some(0)
  }

  function OneCell(v: nat): Tape
  {
    Tape(map[0 := v], 0)
  }

  /** Tapes that show the graph a visible tuple. */
  lemma DataFor(comp: Composite, arity: nat, g: seq<nat>) returns (host: Data, own: Data)
    requires Placed(comp, arity) && Visible(comp, g) && BlankReads(comp)
    ensures |host.tapes| == arity && Views(comp, host, own) && Read(own) == g && Readable(comp, Read(host))
  {
    hide ReadImage, Preimage;
    own := Data(seq(|g|, (h: nat) requires h < |g| => OneCell(g[h])), 0);
    var tapes := seq(arity, (h: nat) => var k := TapeAt(comp, h);
                                         if k.Some? && k.value < |g| && |comp| == |g|
                                           && Preimage(comp[k.value], g[k.value]) != []
                                         then OneCell(Preimage(comp[k.value], g[k.value])[0]) else OneCell(0));
    host := Data(tapes, 0);
    forall k: nat | k < |comp|
      ensures SeenAs(comp[k], host.tapes[comp[k].phys], own.tapes[k])
      ensures ReadImage(comp[k], Read(host)[comp[k].phys]).Some?
    {
      BackOn(comp, arity, k);
      var p := Preimage(comp[k], g[k])[0];
      assert host.tapes[comp[k].phys] == OneCell(p);
      PreimageReads(comp[k], g[k]);
      CellSeen(comp[k], p, g[k]);
    }
    assert Read(own) == g;
  }

  lemma PreimageReads(m: TapeMap, v: nat)
    requires m.hostCard < SYMBOL_LIMIT && Preimage(m, v) != []
    ensures Preimage(m, v)[0] < m.hostCard && ReadImage(m, Preimage(m, v)[0]) == Some(v)
  {
    hide ReadImage, PreimageBelow;
    assert Preimage(m, v)[0] in Preimage(m, v);
    PreimageExact(m, v, m.hostCard, Preimage(m, v)[0]);
  }

  lemma CellSeen(m: TapeMap, p: nat, v: nat)
    requires p < m.hostCard && ReadImage(m, p) == Some(v) && ReadImage(m, 0) == Some(0)
    ensures SeenAs(m, OneCell(p), OneCell(v)) && Under(OneCell(p)) == p
  {
    hide ReadImage;
  }

  /** An inverted pair on a host with an unbound tape shows: from the right tapes the graft picks another
      rule than its graph. */
  lemma InvertedShows(graphs: Graphs, bodies: map<string, Expansion>, w: World, k: nat, st: State, i: nat, j: nat)
    returns (c: Config, s: Spot)
    requires Faithful(graphs, bodies, w, k) && BlankReads(w.grafts[k].comp)
    requires st in bodies[w.grafts[k].target].states && !Covers(w.grafts[k].comp, w.arity)
    requires Inverted(st.rules, w.grafts[k].comp, i, j)
    ensures Along(w, k, c, s) && s.name == st.name && FindState(bodies[w.grafts[k].target].states, 0, s.name) == Some(st)
    ensures !ReadBlocked(st.rules, w.grafts[k].comp, c.data) && Read(s.data) == SymsOf(st.rules[j].pattern)
    ensures BandPick(st.rules, Read(s.data)) == Some(j)
    ensures HostPick(st.rules, w.grafts[k].comp, c.data) == WidePick(st.rules, Read(s.data))
    ensures WidePick(st.rules, Read(s.data)) != BandPick(st.rules, Read(s.data))
  {
    hide ReadsBack, WritesOwn, FirstKept, Covers, Inverted, Callless, NamesWithin, Reserved, WidePick, BandPick, ReadImage,
      Visible, FindState, SeenAs;
    TwoRules(st.rules, w.grafts[k].comp, i, j);
    var g := SymsOf(st.rules[j].pattern);
    StateAlong(graphs, bodies, w, k, st);
    InvertedMisleads(st.rules, w.grafts[k].comp, i, j);
    var host, own := DataFor(w.grafts[k].comp, w.arity, g);
    c, s := Config(Inside(k, st.name), host), Spot(st.name, own);
    HygienicApart(graphs[w.grafts[k].target], bodies[w.grafts[k].target]);
    Finds(bodies[w.grafts[k].target].states, st);
    TupleSeen(w.grafts[k].comp, host, own);
  }

  lemma TwoRules(rules: seq<Rule>, comp: Composite, i: nat, j: nat)
    requires Inverted(rules, comp, i, j)
    ensures i < j < |rules| && StateReads(rules)
  {
  }

  /** A graft follows its graph for all tapes, rule for rule, if and only if the host has no unbound tape or
      no state of the graph has a partial rule before an exact one it overlaps. */
  lemma FollowsExactly(graphs: Graphs, bodies: map<string, Expansion>, w: World, k: nat, strip: bool, callee: Callee)
    requires k < |w.grafts| && Faithful(graphs, bodies, w, k) && BlankReads(w.grafts[k].comp)
    ensures w.grafts[k].target in graphs && w.grafts[k].target in bodies
    ensures Follows(bodies, w, k, LayeredStepper(bodies, w, strip, callee),
                    StatesStepper(bodies[w.grafts[k].target].states, graphs[w.grafts[k].target].params, strip, callee))
       <==> KeepsChoices(bodies, w, k)
  {
    hide Faithful, Along, PicksAlike, LayeredStep, StatesStep, Run, KeepsChoice, BlankReads;
    Target(graphs, bodies, w, k);
    var a := LayeredStepper(bodies, w, strip, callee);
    var b := StatesStepper(bodies[w.grafts[k].target].states, graphs[w.grafts[k].target].params, strip, callee);
    if KeepsChoices(bodies, w, k) {
      forall c, s, n: nat | Along(w, k, c, s) ensures Together(bodies, w, k, a, b, c, s, n) {
        StaysTogether(graphs, bodies, w, k, strip, callee, c, s, n);
      }
    } else {
      var st :| st in bodies[w.grafts[k].target].states && !KeepsChoice(st.rules, w.grafts[k].comp, w.arity);
      LeavesGraph(graphs, bodies, w, k, st, a, b);
    }
  }

  lemma StaysTogether(graphs: Graphs, bodies: map<string, Expansion>, w: World, k: nat, strip: bool, callee: Callee, c: Config,
                      s: Spot, n: nat)
    requires k < |w.grafts| && Faithful(graphs, bodies, w, k) && Along(w, k, c, s) && KeepsChoices(bodies, w, k)
    ensures w.grafts[k].target in graphs && w.grafts[k].target in bodies
    ensures Together(bodies, w, k, LayeredStepper(bodies, w, strip, callee),
                     StatesStepper(bodies[w.grafts[k].target].states, graphs[w.grafts[k].target].params, strip, callee), c, s,
                       n)
  {
    hide Faithful, Along, Blocked, StepAlong, LayeredStep, StatesStep, Run, KeepsChoices, PicksAlike;
    Target(graphs, bodies, w, k);
    var a := LayeredStepper(bodies, w, strip, callee);
    var b := StatesStepper(bodies[w.grafts[k].target].states, graphs[w.grafts[k].target].params, strip, callee);
    if Run(a, c, n).Next? && Run(b, s, n).Next? {
      GraftRunsAsGraph(graphs, bodies, w, k, strip, callee, c, s, n);
      NotStopped(bodies, w, k, a, b, c, s, n);
      PicksTogether(graphs, bodies, w, k, Run(a, c, n).state, Run(b, s, n).state);
    }
  }

  lemma NotStopped(bodies: map<string, Expansion>, w: World, k: nat, a: Config -> Step<Config, Ending>,
                   b: Spot -> Step<Spot, Ending>, c: Config, s: Spot, n: nat)
    requires k < |w.grafts| && RunsAlong(bodies, w, k, a, b, c, s, n) && Run(a, c, n).Next?
    ensures Run(b, s, n).Next? && Along(w, k, Run(a, c, n).state, Run(b, s, n).state)
  {
    hide Run, Along, Blocked;
    if m: nat :| m < n && StopsAt(bodies, w, k, a, b, c, s, m) {
      RunDoneStays(a, c, m + 1, n);
    }
  }

  lemma PicksTogether(graphs: Graphs, bodies: map<string, Expansion>, w: World, k: nat, c: Config, s: Spot)
    requires k < |w.grafts| && Faithful(graphs, bodies, w, k) && Along(w, k, c, s) && KeepsChoices(bodies, w, k)
    ensures PicksAlike(bodies, w, k, c, s)
  {
    hide Faithful, Views, Placed, FindState, ReadBlocked, HostPick, BandPick, KeepsChoice, ReadsBack, WritesOwn;
    Target(graphs, bodies, w, k);
    var found := FindState(bodies[w.grafts[k].target].states, 0, s.name);
    if found.Some? {
      StateAlong(graphs, bodies, w, k, found.value);
      if !ReadBlocked(found.value.rules, w.grafts[k].comp, c.data) {
        PickKept(found.value.rules, w.grafts[k].comp, c.data, s.data);
      }
    }
  }

  lemma LeavesGraph(graphs: Graphs, bodies: map<string, Expansion>, w: World, k: nat, st: State, a: Config -> Step<Config,
                    Ending>, b: Spot -> Step<Spot, Ending>)
    requires k < |w.grafts| && Faithful(graphs, bodies, w, k) && BlankReads(w.grafts[k].comp)
    requires st in bodies[w.grafts[k].target].states && !KeepsChoice(st.rules, w.grafts[k].comp, w.arity)
    ensures !Follows(bodies, w, k, a, b)
  {
    hide Faithful, Along, Run, Covers, Inverted, FindState, ReadBlocked, HostPick, BandPick, WidePick;
    Target(graphs, bodies, w, k);
    var i: nat, j: nat :| Inverted(st.rules, w.grafts[k].comp, i, j);
    var c, s := InvertedShows(graphs, bodies, w, k, st, i, j);
    RunNothing(a, c);
    RunNothing(b, s);
    assert !Together(bodies, w, k, a, b, c, s, 0);
  }

  /** The run that leaves: where the two rules go to different states of the graph, the very next states
      differ. */
  lemma GoesAstray(graphs: Graphs, bodies: map<string, Expansion>, w: World, k: nat, st: State, i: nat, j: nat, h: nat,
                   x: string, y: string, strip: bool, callee: Callee) returns (c: Config, s: Spot)
    requires Faithful(graphs, bodies, w, k) && BlankReads(w.grafts[k].comp)
    requires st in bodies[w.grafts[k].target].states && !Covers(w.grafts[k].comp, w.arity)
    requires Inverted(st.rules, w.grafts[k].comp, i, j) && WidePick(st.rules, SymsOf(st.rules[j].pattern)) == Some(h)
    requires h < |st.rules| && st.rules[h].transition == Goto(x) && st.rules[j].transition == Goto(y) && x != y
    requires x !in graphs[w.grafts[k].target].params && y !in graphs[w.grafts[k].target].params
    requires |st.rules[h].write| == |w.grafts[k].comp| && !Unwritable(st.rules[h].write, w.grafts[k].comp)
    ensures Along(w, k, c, s)
    ensures var a := LayeredStep(bodies, w, strip, callee, c);
            var b := StatesStep(bodies[w.grafts[k].target].states, graphs[w.grafts[k].target].params, strip, callee, s);
            && a.Next? && a.state.at == Inside(k, x) && b.Next? && b.state.name == y
            && !StepAlong(bodies, w, k, callee, a, b)
  {
    hide Views, ReadsBack, WritesOwn, Covers, Inverted, FindState, ReadBlocked, HostPick, BandPick, WidePick, BandedWalk,
      Hygienic, Callless, WriteMove, WriteBack, MoveBack, BlankReads, Reserved;
    c, s := InvertedShows(graphs, bodies, w, k, st, i, j);
    StateAlong(graphs, bodies, w, k, st);
    WalkPicks(st.rules, w.grafts[k].comp, c.data);
    var g := w.grafts[k];
    BoundSomewhere(g.cont, 0, x);
  }

  // ----- a graft that leaves its graph -----

  /** A graph with the rows [1, *] to "a" and [1, 2] to "b", on two of the three tapes of its host. */
  function ForkBody(): Expansion
  {
    Expansion([State("s", 0, PartialFirst()), State("a", 0, []), State("b", 0, [])], "s")
  }

  function ForkGraphs(): Graphs
  {
    map["g" := World(2, ForkBody().states, Some("s"), [], [])]
  }

  function ForkHost(): World
  {
    World(3, [], None, [Graft("g", None, true, TwoOfThree(), [])], [])
  }

  lemma ForkStates()
    ensures forall st | st in ForkBody().states :: st.rules == [] || st.rules == PartialFirst()
    ensures NamesOf(ForkBody().states) == {"s", "a", "b"} && Apart(ForkBody().states)
    ensures ForkBody().states[0] in ForkBody().states
  {
    var states := ForkBody().states;
    assert states[0] in states && states[1] in states && states[2] in states;
    assert "s"[0] != "a"[0] && "s"[0] != "b"[0] && "a"[0] != "b"[0];
  }

  lemma ForkHygienic()
    ensures Hygienic(ForkGraphs()["g"], ForkBody()) && Callless(ForkBody())
  {
    ForkStates();
    var states := ForkBody().states;
    forall i | 0 <= i < |states|
      ensures Wide(states[i].rules, 2) && NamesWithin(states[i].rules, {"s", "a", "b"})
    {
      assert states[i] in states;
    }
    assert FirstCall(states, 1).None? && FirstCall(states, 2).None?;
  }

  lemma UntouchedReadsBack(m: TapeMap)
    requires m.rmap == Untouched() && m.wmap == Untouched() && m.hostCard == m.graphCard == 3
    ensures ReadsBack(m) && ReadImage(m, 0) == Some(0)
  {
  }

  lemma ForkFaithful()
    ensures Faithful(ForkGraphs(), map["g" := ForkBody()], ForkHost(), 0) && BlankReads(TwoOfThree())
  {
    hide Hygienic, Callless, ReadsBack, ReadImage;
    ForkHygienic();
    ForkStates();
    UntouchedReadsBack(TwoOfThree()[0]);
    UntouchedReadsBack(TwoOfThree()[1]);
  }

  /** Its run: there are tapes from which the graph alone goes to "b" and the graft to "a". */
  lemma ForkGoesAstray(strip: bool, callee: Callee) returns (c: Config, s: Spot)
    ensures Along(ForkHost(), 0, c, s)
    ensures var a := LayeredStep(map["g" := ForkBody()], ForkHost(), strip, callee, c);
            var b := StatesStep(ForkBody().states, [], strip, callee, s);
            && a.Next? && a.state.at == Inside(0, "a") && b.Next? && b.state.name == "b"
            && !StepAlong(map["g" := ForkBody()], ForkHost(), 0, callee, a, b)
  {
    hide Faithful, BlankReads, Covers, Inverted, WidePick, LayeredStep, StatesStep, StepAlong, Along;
    ForkFaithful();
    ForkStates();
    PartialFirstInverted();
    assert "a"[0] != "b"[0];
    c, s := GoesAstray(ForkGraphs(), map["g" := ForkBody()], ForkHost(), 0, ForkBody().states[0], 0, 1, 0, "a", "b", strip,
                       callee);
  }
}
