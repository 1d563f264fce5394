/** One step of a program as it is written: the rule that is taken, what it does to the tapes, and where its
    transition leads, in the terms the rule is written in. */
module TmStep {
  import opened Options
  import opened Simulation
  import opened TmMachine
  import opened TmRules
  import opened TmSplice
  import opened TmBandSplice
  import opened TmGrafts
  import opened TmGraftGraph
  import opened TmHygiene
  import opened TmInside
  import opened TmRanges
  import opened TmMeaning
  import opened TmWritten
  import Calls = TmCalls
  import D = TmDeep
  import TmModes
  import Runs = TmRuns
  import S = TmSource

  // ----- the action -----

  /** Moves as a rule writes them: none leaves every head where it is. */
  predicate MovesAs(r: Calls.WrittenRule, arity: nat, moves: seq<Move>)
  {
    |moves| == arity && forall k | 0 <= k < arity :: moves[k] == if r.moves.Some?
      && k < |r.moves.value| then r.moves.value[k] else Stay
  }

  /** Every name that the rule's pattern binds is what its last binder reads. */
  ghost predicate Environment(r: Calls.WrittenRule, tapes: seq<Glyphs>, tuple: seq<nat>, env: Env)
  {
    && |r.pattern| == |tapes| == |tuple|
    && forall name ::
         match Lookup(env, |env|, name)
         case Some(b) => Given(r.pattern, tapes, tuple, |tapes|, name, b)
         case None => forall k | 0 <= k < |tapes| :: !Binder(r.pattern[k], name)
  }

  /** A rule's write vector on a tuple. */
  ghost predicate WritesAs(r: Calls.WrittenRule, tapes: seq<Glyphs>, tuple: seq<nat>, write: seq<WriteOut>)
  {
    exists env :: Environment(r, tapes, tuple, env) && WritesAll(r.write, tapes, env, write)
  }

  /** The data after a rule's own action. */
  function Acted(r: Calls.WrittenRule, write: seq<WriteOut>, moves: seq<Move>, d: Data, strip: bool): Data
  {
    WriteMove(if r.debugger && !strip then d.(pauses := d.pauses + 1) else d, write, moves)
  }

  // ----- the transition -----

  /** Where a name leads from an own state: an own state, out by a state parameter, or into an instance. */
  ghost predicate NameLeads(graphs: Graphs, order: seq<string>, w: World, r: nat, name: string, d: Data, step: Step<D.Config,
                            Ending>)
    requires AllDescend(graphs, order) && Descends(graphs, order, w, r)
  {
    && (name in w.params ==> step == Done(LeftFor(name, d)))
    && (name in NamesOf(w.own) ==> step == Next(D.Config(D.Top(name), d)))
    && forall k: nat | k < |w.grafts| && w.grafts[k].asName == Some(name) ::
         step == Next(D.Config(D.Nested(k, D.GraftEntry(graphs, order, w, r, k)), d))
  }

  /** Where a call resumes. */
  ghost predicate Resumes(graphs: Graphs, order: seq<string>, w: World, r: nat, resume: Continuation, d: Data,
                          step: Step<D.Config, Ending>)
    requires AllDescend(graphs, order) && Descends(graphs, order, w, r)
  {
    match resume
    case ToState(name) => NameLeads(graphs, order, w, r, name, d, step)
    case ByReturn => step == Done(Returned(d))
    case ByStop => step == Done(Stopped(d))
    case ByHalt => step == Done(Halted(d))
  }

  /** Where a written transition leads, once the rule has acted. */
  ghost predicate LeadsAs(graphs: Graphs, order: seq<string>, w: World, r: nat, names: Calls.Names, callee: Runs.Callee,
                          state: string, t: Calls.Written, d: Data, step: Step<D.Config, Ending>)
    requires AllDescend(graphs, order) && Descends(graphs, order, w, r)
  {
    match t
    case ToStop => step == Done(Stopped(d))
    case ToHalt => step == Done(Halted(d))
    case BackToCaller => step == Done(Returned(d))
    case Omitted => step == Next(D.Config(D.Top(state), d))
    case ToState(name) => NameLeads(graphs, order, w, r, name, d, step)
    case CallTo(_, _, _) =>
      var call := names.put(Calls.RecordOf(names, t));
      call.Call? ==>
        match callee(call.target, call.tag, d)
        case Ends(e) => step == Done(e)
        case Comes(d') => Resumes(graphs, order, w, r, call.resume, d', step)
  }

  // ----- the step -----

  /** What a rule that reads a tuple does: its write and moves, and its transition lowered. */
  lemma DeedMeans(names: Calls.Names, state: string, r: Calls.WrittenRule, tapes: seq<Glyphs>, tuple: seq<nat>)
    requires Calls.Rows(names, state, r, tapes).Ok? && OfAlphabets(tapes, tuple) && Reads(r, tapes, tuple)
    ensures var o := Deed(names, state, r, tapes, tuple);
            && o.Fired? && o.debugger == r.debugger && WritesAs(r, tapes, tuple, o.write) && MovesAs(r, |tapes|, o.moves)
            && o.transition == Calls.Lower(names, state, r.transition)
  {
    hide Expanded, Matches, Denoted, Denotes, BoundBy, WriteVector, IsAlphabet, Calls.Lower, Lookup, Given, Stands, WritesAll;
    var rule := Calls.RuleWith(r, Calls.Lower(names, state, r.transition));
    ExpansionExact(rule, tapes, tuple);
    ExpandedWidths(rule, tapes);
    ReadsAccepts(r, rule.transition, tapes, tuple);
    var env := BoundBy(rule, tapes, tuple, |tapes|);
    AcceptsEach(rule, tapes, tuple);
    forall name
      ensures match Lookup(env, |env|, name)
              case Some(b) => Given(r.pattern, tapes, tuple, |tapes|, name, b)
              case None => forall k | 0 <= k < |tapes| :: !Binder(r.pattern[k], name)
    {
      LookupGiven(rule, tapes, tuple, |tapes|, name);
    }
    VectorMeans(rule.write, tapes, env);
    assert Environment(r, tapes, tuple, env);
  }

  lemma AcceptsEach(rule: SourceRule, tapes: seq<Glyphs>, tuple: seq<nat>)
    requires OfAlphabets(tapes, tuple) && |rule.pattern| == |tapes| && Accepts(rule, tapes, tuple)
    ensures forall k | 0 <= k < |tapes| :: Denotes(rule.pattern[k], tapes[k][tuple[k]])
  {
    hide Denotes, IsAlphabet;
  }

  lemma {:induction false} FirstIs(rules: seq<Calls.WrittenRule>, kind: Kind, tapes: seq<Glyphs>, tuple: seq<nat>, n: nat)
    requires n <= |rules|
    ensures var r := FirstOf(rules, kind, tapes, tuple, n); r.Some? ==> r.value in rules && Reads(r.value, tapes, tuple)
  {
    hide Reads;
    if n > 0 {
      FirstIs(rules, kind, tapes, tuple, n - 1);
    }
  }

  lemma TakenIs(rules: seq<Calls.WrittenRule>, tapes: seq<Glyphs>, tuple: seq<nat>, wide: bool)
    ensures var r := Taken(rules, tapes, tuple, wide); r.Some? ==> r.value in rules && Reads(r.value, tapes, tuple)
  {
    hide FirstOf, Reads;
    FirstIs(rules, Calls.IsWildRule, tapes, tuple, |rules|);
    FirstIs(rules, Exact, tapes, tuple, |rules|);
    FirstIs(rules, Partial, tapes, tuple, |rules|);
    FirstIs(rules, Selective, tapes, tuple, |rules|);
  }

  lemma {:induction false} EachExpands(names: Calls.Names, state: string, rules: seq<Calls.WrittenRule>, tapes: seq<Glyphs>,
                                       n: nat)
    requires n <= |rules| && Calls.AllRows(names, state, rules, tapes, n).Ok?
    ensures forall k | 0 <= k < n :: Calls.Rows(names, state, rules[k], tapes).Ok?
  {
    hide Calls.Rows;
    if n > 0 {
      EachExpands(names, state, rules, tapes, n - 1);
    }
  }

  /** The rule that is taken reads the tuple, and expands. */
  lemma TakenExpands(names: Calls.Names, st: Calls.SourceState, tapes: seq<Glyphs>, tuple: seq<nat>, wide: bool)
    requires OfAlphabets(tapes, tuple)
    requires Calls.AllRows(names, st.name, Calls.Pruned(st).rules, tapes, |Calls.Pruned(st).rules|).Ok?
    ensures var r := Taken(st.rules, tapes, tuple, wide);
            r.Some? ==> Calls.Rows(names, st.name, r.value, tapes).Ok? && Reads(r.value, tapes, tuple)
  {
    hide Calls.AllRows, Calls.Rows, Calls.Survivors, Reads, OfAlphabets, Taken;
    var left := Calls.Pruned(st).rules;
    TakenSurvives(names, st, tapes, tuple, wide);
    TakenIs(left, tapes, tuple, wide);
    EachExpands(names, st.name, left, tapes, |left|);
  }

  /** What a place's own state does. */
  lemma StepAt(graphs: Graphs, order: seq<string>, w: World, r: nat, names: Calls.Names, callee: Runs.Callee, strip: bool,
               p: D.Place, state: string, rule: Calls.WrittenRule, o: Outcome, d: Data)
    requires AllDescend(graphs, order) && Descends(graphs, order, w, r) && p == D.Top(state)
    requires o.Fired? && o.debugger == rule.debugger && o.transition == Calls.Lower(names, state, rule.transition)
    requires state in NamesOf(w.own) && NamesOf(w.own) + InstanceNames(w.grafts) !! Elements(w.params)
    requires NamesOf(w.own) !! InstanceNames(w.grafts)
    requires forall i, k | 0 <= i < k < |w.grafts| && w.grafts[i].asName.Some? :: w.grafts[i].asName != w.grafts[k].asName
    ensures var step := D.DeepArrive(graphs, order, w, r, p, callee, Runs.Perform(o, d, strip, callee));
            LeadsAs(graphs, order, w, r, names, callee, state, rule.transition, Acted(rule, o.write, o.moves, d, strip), step)
  {
    hide AllDescend, Descends, WriteMove, NamesOf, D.GraftEntry, D.Enter, NameLeads, Calls.RecordOf;
    forall name, d' ensures NameLeads(graphs, order, w, r, name, d',
                                      D.DeepArrive(graphs, order, w, r, p, callee, Runs.At(name, d'))) {
      NameArrives(graphs, order, w, r, callee, p, name, d');
    }
    OwnArrives(graphs, order, w, r, callee, p, state, Acted(rule, o.write, o.moves, d, strip));
  }

  lemma NameArrives(graphs: Graphs, order: seq<string>, w: World, r: nat, callee: Runs.Callee, p: D.Place, name: string,
                    d: Data)
    requires AllDescend(graphs, order) && Descends(graphs, order, w, r) && p.Top?
    requires NamesOf(w.own) + InstanceNames(w.grafts) !! Elements(w.params) && NamesOf(w.own) !! InstanceNames(w.grafts)
    requires forall i, k | 0 <= i < k < |w.grafts| && w.grafts[i].asName.Some? :: w.grafts[i].asName != w.grafts[k].asName
    ensures NameLeads(graphs, order, w, r, name, d, D.DeepArrive(graphs, order, w, r, p, callee, Runs.At(name, d)))
  {
    hide AllDescend, Descends, NamesOf, D.GraftEntry, Runs.InstanceNamed;
    assert name in w.params <==> name in Elements(w.params);
    forall k: nat | k < |w.grafts| && w.grafts[k].asName == Some(name)
      ensures name in InstanceNames(w.grafts) && Runs.InstanceNamed(w.grafts, 0, name) == Some(k)
    {
      InstanceListed(w.grafts, k);
    }
    var found := Runs.InstanceNamed(w.grafts, 0, name);
    if found.Some? {
      InstanceListed(w.grafts, found.value);
    }
  }

  lemma OwnArrives(graphs: Graphs, order: seq<string>, w: World, r: nat, callee: Runs.Callee, p: D.Place, name: string, d: Data)
    requires AllDescend(graphs, order) && Descends(graphs, order, w, r)
    requires NameLeads(graphs, order, w, r, name, d, D.DeepArrive(graphs, order, w, r, p, callee, Runs.At(name, d)))
    requires name in NamesOf(w.own)
    ensures D.DeepArrive(graphs, order, w, r, p, callee, Runs.At(name, d)) == Next(D.Config(D.Top(name), d))
  {
    hide AllDescend, Descends, NamesOf, D.DeepArrive;
  }

  /** One step in an own state of the world, as it is written.  Without a rule that reads the tapes it traps;
      else the rule taken - of the first band, without wildcards, with some, with nothing else, the first one -
      writes and moves as it says, and goes where it says. */
  lemma WrittenStep(sources: S.Sources, order: seq<string>, top: S.SourceWorld, r: nat, strip: bool, callee: Runs.Callee,
                    st: Calls.SourceState, d: Data)
    requires S.SourceSound(sources, top) && S.Own(top).Ok? && st in top.states
    requires AllDescend(S.GraphsOf(sources), order) && Descends(S.GraphsOf(sources), order, S.WorldOf(top), r)
    requires Within(d, Sizes(top.tapes))
    ensures var graphs, w := S.GraphsOf(sources), S.WorldOf(top);
            var step := D.DeepStep(graphs, order, S.Meaning(sources, top), w, r, strip, callee, D.Config(D.Top(st.name), d));
            match Taken(st.rules, top.tapes, Read(d), false)
            case None => step == Done(Trapped(NoTransition, d))
            case Some(rule) =>
              exists write, moves :: WritesAs(rule, top.tapes, Read(d), write) && MovesAs(rule, |top.tapes|, moves)
                && LeadsAs(graphs, order, w, r, top.names, callee, st.name, rule.transition,
                           Acted(rule, write, moves, d, strip), step)
  {
    hide S.SourceSound, S.Own, AllDescend, Descends, Within, Taken, Deed, LeadsAs, WritesAs, MovesAs, S.GraphsOf, S.WorldOf,
      D.DeepArrive, S.FindWritten, Acted, Calls.Lower, OfAlphabets, Calls.Survivors, Calls.AllRows, Calls.Rows, Reads;
    var k :| 0 <= k < |top.states| && top.states[k] == st;
    S.FrameApart(sources, top);
    S.StatesApart(top);
    S.FindsWritten(top.states, 0, k);
    S.OwnRows(top, k);
    TopTuple(sources, top, d);
    TakenExpands(top.names, st, top.tapes, Read(d), false);
    TopMeans(sources, top, S.WorldOf(top), st, Read(d));
    var taken := Taken(st.rules, top.tapes, Read(d), false);
    if taken.Some? {
      DeedMeans(top.names, st.name, taken.value, top.tapes, Read(d));
      var o := Deed(top.names, st.name, taken.value, top.tapes, Read(d));
      TopNames(sources, top, st);
      StepAt(S.GraphsOf(sources), order, S.WorldOf(top), r, top.names, callee, strip, D.Top(st.name), st.name, taken.value, o,
             d);
      assert WritesAs(taken.value, top.tapes, Read(d), o.write) && MovesAs(taken.value, |top.tapes|, o.moves);
    } else {
      NothingTaken(S.GraphsOf(sources), order, S.WorldOf(top), r, callee, strip, D.Top(st.name), d);
    }
  }

  lemma TopMeans(sources: S.Sources, top: S.SourceWorld, w: World, st: Calls.SourceState, tuple: seq<nat>)
    requires S.FindWritten(top.states, 0, st.name) == Some(st)
    ensures D.DeepOutcome(S.GraphsOf(sources), S.Meaning(sources, top), None, w, D.Top(st.name), tuple, false)
         == match Taken(st.rules, top.tapes, tuple, false)
            case None => NoMatch
            case Some(rule) => Deed(top.names, st.name, rule, top.tapes, tuple)
  {
    hide Taken, Deed, S.FindWritten, S.GraphsOf;
    var mean := S.Meaning(sources, top);
    assert mean(None, st.name, tuple, false) == WrittenOutcome(top.names, st, top.tapes, tuple, false);
    assert D.DeepOutcome(S.GraphsOf(sources), mean, None, w, D.Top(st.name), tuple, false) == mean(None, st.name, tuple, false);
  }

  lemma NothingTaken(graphs: Graphs, order: seq<string>, w: World, r: nat, callee: Runs.Callee, strip: bool, p: D.Place,
                     d: Data)
    requires AllDescend(graphs, order) && Descends(graphs, order, w, r)
    ensures D.DeepArrive(graphs, order, w, r, p, callee, Runs.Perform(NoMatch, d, strip, callee))
              == Done(Trapped(NoTransition, d))
  {
  }

  lemma TopTuple(sources: S.Sources, top: S.SourceWorld, d: Data)
    requires S.SourceSound(sources, top) && Within(d, Sizes(top.tapes))
    ensures OfAlphabets(top.tapes, Read(d))
  {
    hide Resolved, D.Fitting, S.AllKnown, S.GraphsOf, IsAlphabet, Within;
    ReadWithin(d, Sizes(top.tapes));
    WithinSize(d, Sizes(top.tapes));
  }

  lemma WithinSize(d: Data, cards: seq<nat>)
    requires Within(d, cards)
    ensures |Read(d)| == |cards|
  {
    hide TapeWithin;
  }

  lemma TopNames(sources: S.Sources, top: S.SourceWorld, st: Calls.SourceState)
    requires S.SourceSound(sources, top) && st in top.states
    ensures var w := S.WorldOf(top);
            && st.name in NamesOf(w.own) && NamesOf(w.own) + InstanceNames(w.grafts) !! Elements(w.params)
            && NamesOf(w.own) !! InstanceNames(w.grafts)
            && forall i, k | 0 <= i < k < |w.grafts| && w.grafts[i].asName.Some? :: w.grafts[i].asName != w.grafts[k].asName
  {
    hide S.Own, AllWide, Closed, Reserved, GraftResolved, Apart, D.Fitting, S.AllKnown, NamesOf, Lettered, S.GraphsOf;
    S.SameNames(top);
    var k :| 0 <= k < |top.states| && top.states[k] == st;
    NameOf(S.NamedOnly(top), k);
  }

  // ----- below grafts -----

  /** The graph that a place's own state belongs to - the world itself, without grafts - and its name there. */
  function Innermost(w: World, key: Option<string>, graphs: Graphs, p: D.Place): (Option<string>, string)
    decreases p
  {
    match p
    case Top(name) => (key, name)
    case Nested(k, inner) =>
      if k < |w.grafts| && w.grafts[k].target in graphs then
        Innermost(graphs[w.grafts[k].target], Some(w.grafts[k].target), graphs, inner)
      else (key, "")
  }

  /** Unless a graft's maps trap, what is done at a place comes from its own state. */
  lemma {:induction false} CarriedOut(graphs: Graphs, mean: D.Meaning, key: Option<string>, w: World, p: D.Place,
                                      tuple: seq<nat>, wide: bool) returns (seen: seq<nat>, mode: bool)
    ensures var o := D.DeepOutcome(graphs, mean, key, w, p, tuple, wide);
            var at := Innermost(w, key, graphs, p);
            o.Fired? && !o.transition.TrapRead? && !o.transition.TrapWrite? ==>
              var own := mean(at.0, at.1, seen, mode);
              own.Fired? && own.transition == o.transition && own.debugger == o.debugger
    decreases p
  {
    hide WriteBack, MoveBack, Unwritable, Readable, D.Look, Covers, Placed;
    seen, mode := tuple, wide;
    if p.Nested? && p.graft < |w.grafts| && w.grafts[p.graft].target in graphs && Placed(w.grafts[p.graft].comp, |tuple|) {
      var g := w.grafts[p.graft];
      seen, mode := CarriedOut(graphs, mean, Some(g.target), graphs[g.target], p.inner, TmModes.Seen(g.comp, tuple), wide
                               || !Covers(g.comp, |tuple|));
    }
  }

  /** What a rule's transition makes of a run, if it ends it. */
  predicate EndsAs(t: Calls.Written, step: Step<D.Config, Ending>)
  {
    && (t.ToStop? ==> step.Done? && step.outcome.Stopped?)
    && (t.ToHalt? ==> step.Done? && step.outcome.Halted?)
    && (t.BackToCaller? ==> step.Done? && step.outcome.Returned?)
  }

  /** At any depth of grafts, a step that neither lacks a rule nor traps on a graft's maps takes a written
      rule of the innermost state, and ends the run as that rule says. */
  lemma WrittenEnds(sources: S.Sources, order: seq<string>, top: S.SourceWorld, r: nat, strip: bool, callee: Runs.Callee,
                    c: D.Config)
    requires AllDescend(S.GraphsOf(sources), order) && Descends(S.GraphsOf(sources), order, S.WorldOf(top), r)
    ensures var graphs, w, mean := S.GraphsOf(sources), S.WorldOf(top), S.Meaning(sources, top);
            var o := D.DeepOutcome(graphs, mean, None, w, c.at, Read(c.data), false);
            var at := Innermost(w, None, graphs, c.at);
            var s := if at.0.Some? && at.0.value in sources then sources[at.0.value] else top;
            var st := S.FindWritten(s.states, 0, at.1);
            o.Fired? && !o.transition.TrapRead? && !o.transition.TrapWrite? ==>
              && st.Some?
              && exists rule :: rule in st.value.rules
                   && EndsAs(rule.transition, D.DeepStep(graphs, order, mean, w, r, strip, callee, c))
  {
    hide AllDescend, Descends, S.GraphsOf, S.WorldOf, Taken, Deed, D.DeepOutcome, S.FindWritten, Innermost, D.DeepArrive,
      Runs.Perform, EndsAs;
    var graphs, w, mean := S.GraphsOf(sources), S.WorldOf(top), S.Meaning(sources, top);
    var seen, mode := CarriedOut(graphs, mean, None, w, c.at, Read(c.data), false);
    var o := D.DeepOutcome(graphs, mean, None, w, c.at, Read(c.data), false);
    var at := Innermost(w, None, graphs, c.at);
    if o.Fired? && !o.transition.TrapRead? && !o.transition.TrapWrite? {
      var s := if at.0.Some? && at.0.value in sources then sources[at.0.value] else top;
      MeaningIs(sources, top, at.0, at.1, s, seen, mode);
      var st := S.FindWritten(s.states, 0, at.1).value;
      TakenIs(st.rules, s.tapes, seen, mode);
      var rule := Taken(st.rules, s.tapes, seen, mode).value;
      DeedLeads(s.names, st.name, rule, s.tapes, seen);
      DoneAs(graphs, order, w, r, s.names, st.name, c.at, rule.transition, o, c.data, strip, callee);
    }
  }

  lemma MeaningIs(sources: S.Sources, top: S.SourceWorld, key: Option<string>, name: string, s: S.SourceWorld, tuple: seq<nat>,
                  wide: bool)
    requires s == (if key.Some? && key.value in sources then sources[key.value] else top)
    ensures var found, o := S.FindWritten(s.states, 0, name), S.Meaning(sources, top)(key, name, tuple, wide);
            && (found.None? ==> o == NoMatch)
            && (found.Some? && Taken(found.value.rules, s.tapes, tuple, wide).None? ==> o == NoMatch)
            && (found.Some? && Taken(found.value.rules, s.tapes, tuple, wide).Some? ==>
                  o == Deed(s.names, found.value.name, Taken(found.value.rules, s.tapes, tuple, wide).value, s.tapes, tuple))
  {
    hide Taken, Deed, S.FindWritten;
    var mean, found := S.Meaning(sources, top), S.FindWritten(s.states, 0, name);
    if found.Some? {
      assert mean(key, name, tuple, wide) == WrittenOutcome(s.names, found.value, s.tapes, tuple, wide);
    }
  }

  lemma DeedLeads(names: Calls.Names, state: string, r: Calls.WrittenRule, tapes: seq<Glyphs>, tuple: seq<nat>)
    ensures var o := Deed(names, state, r, tapes, tuple); o.Fired? ==> o.transition == Calls.Lower(names, state, r.transition)
  {
    hide Denoted, BoundBy, WriteVector;
  }

  lemma DoneAs(graphs: Graphs, order: seq<string>, w: World, r: nat, names: Calls.Names, state: string, p: D.Place,
               t: Calls.Written, o: Outcome, d: Data, strip: bool, callee: Runs.Callee)
    requires AllDescend(graphs, order) && Descends(graphs, order, w, r) && o.Fired?
             && o.transition == Calls.Lower(names, state, t)
    ensures EndsAs(t, D.DeepArrive(graphs, order, w, r, p, callee, Runs.Perform(o, d, strip, callee)))
  {
    hide AllDescend, Descends, WriteMove, D.Follow;
  }
}
