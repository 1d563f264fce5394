/** Expansion is hygienic: state names stay distinct, every target is a present state or a state
    parameter, and one alias step reaches an instance that was really spliced. */
module TmHygiene {
  import opened Options
  import opened TmRules
  import opened TmSplice
  import opened TmGraftGraph
  import opened TmGraftKey
  import opened FreshNames
  import opened TmGrafts

  // ----- what is to be kept -----

  /** The state a transition names. */
  function Names(t: Transition): Option<string>
  {
    if t.Goto? then Some(t.name)
    else if t.Call? && t.resume.ToState? then Some(t.resume.name)
    else None
  }

  ghost predicate NamesWithin(rules: seq<Rule>, names: set<string>)
  {
    forall k | 0 <= k < |rules| && Names(rules[k].transition).Some? :: Names(rules[k].transition).value in names
  }

  /** Every target of every state is one of some names. */
  ghost predicate Closed(states: seq<State>, names: set<string>)
  {
    forall i | 0 <= i < |states| :: NamesWithin(states[i].rules, names)
  }

  ghost predicate Wide(rules: seq<Rule>, arity: nat)
  {
    forall k | 0 <= k < |rules| :: |rules[k].pattern| == |rules[k].write| == |rules[k].moves| == arity
  }

  ghost predicate AllWide(states: seq<State>, arity: nat)
  {
    forall i | 0 <= i < |states| :: Wide(states[i].rules, arity)
  }

  ghost predicate Apart(states: seq<State>)
  {
    forall i, k | 0 <= i < k < |states| :: states[i].name != states[k].name
  }

  /** A graft as name resolution leaves it: placed on the host, every parameter bound, and bound to
      a name of the host or to an ending. */
  ghost predicate GraftResolved(graphs: Graphs, w: World, g: Graft)
  {
    && g.target in graphs && |g.comp| == graphs[g.target].arity && Placed(g.comp, w.arity)
    && (forall p | p in graphs[g.target].params :: FindBind(g.cont, 0, p).Some?)
    && forall b | b in g.cont :: IsEnding(b.1) || (b.1.Goto? && b.1.name in Reserved(w))
  }

  predicate IsEnding(t: Transition)
  {
    t.Return? || t.Stop? || t.Halt?
  }

  /** A world as name resolution leaves it. */
  ghost predicate Resolved(graphs: Graphs, w: World)
  {
    && AllWide(w.own, w.arity) && Apart(w.own) && Closed(w.own, Reserved(w))
    && NamesOf(w.own) !! InstanceNames(w.grafts) && NamesOf(w.own) + InstanceNames(w.grafts) !! Elements(w.params)
    && (forall i, k | 0 <= i < k < |w.grafts| && w.grafts[i].asName.Some? :: w.grafts[i].asName != w.grafts[k].asName)
    && (forall k | 0 <= k < |w.grafts| :: GraftResolved(graphs, w, w.grafts[k]))
    && (if w.ownEntry.Some? then w.ownEntry.value in NamesOf(w.own) else exists k :: 0 <= k < |w.grafts| && w.grafts[k].entry)
  }

  /** What expansion promises. */
  ghost predicate Hygienic(w: World, gx: Expansion)
  {
    && Apart(gx.states) && AllWide(gx.states, w.arity)
    && Closed(gx.states, NamesOf(gx.states) + Elements(w.params))
    && NamesOf(gx.states) !! Elements(w.params) && gx.entry in NamesOf(gx.states)
  }

  // ----- spliced rows -----

  lemma TrapRowsQuiet(comp: Composite, arity: nat, line: nat, n: nat)
    requires n <= |comp| && forall k | 0 <= k < |comp| :: comp[k].phys < arity
    ensures Wide(TrapRows(comp, arity, line, n), arity)
    ensures forall j | 0 <= j < |TrapRows(comp, arity, line, n)| :: TrapRows(comp, arity, line, n)[j].transition == TrapRead
  {
    hide Holes;
    if n > 0 {
      TrapRowsQuiet(comp, arity, line, n - 1);
    }
  }

  /** A rule's host rows have the host's width; they trap or go where the remapped rule goes. */
  lemma MapRuleShape(rule: Rule, comp: Composite, arity: nat, remap: Transition -> Transition)
    requires |rule.pattern| == |rule.write| == |rule.moves| == |comp|
    ensures Wide(MapRule(rule, comp, arity, remap), arity)
    ensures forall j | 0 <= j < |MapRule(rule, comp, arity, remap)| ::
              MapRule(rule, comp, arity, remap)[j].transition in {TrapWrite, remap(rule.transition)}
  {
    hide Cartesian, Choices, WriteHole, HostWrite, HostMoves, PatternOf;
  }

  lemma {:induction false} MapRulesShape(rules: seq<Rule>, comp: Composite, arity: nat, remap: Transition -> Transition, n: nat,
                                         names: set<string>)
    requires n <= |rules| && forall k | 0 <= k < |rules| :: |rules[k].pattern| == |rules[k].write| == |rules[k].moves| == |comp|
    requires forall k | 0 <= k < n
             && Names(remap(rules[k].transition)).Some? :: Names(remap(rules[k].transition)).value in names
    ensures Wide(MapRules(rules, comp, arity, remap, n), arity)
    ensures NamesWithin(MapRules(rules, comp, arity, remap, n), names)
  {
    hide MapRule;
    if n > 0 {
      MapRulesShape(rules, comp, arity, remap, n - 1, names);
      MapRuleShape(rules[n - 1], comp, arity, remap);
    }
  }

  lemma SpliceShape(rules: seq<Rule>, comp: Composite, arity: nat, line: nat, remap: Transition -> Transition,
                    names: set<string>)
    requires Splicable(rules, comp, arity)
    requires forall k | 0 <= k < |rules|
             && Names(remap(rules[k].transition)).Some? :: Names(remap(rules[k].transition)).value in names
    ensures Wide(SpliceRules(rules, comp, arity, line, remap), arity)
    ensures NamesWithin(SpliceRules(rules, comp, arity, line, remap), names)
  {
    hide MapRules, TrapRows, StateReads;
    TrapRowsQuiet(comp, arity, line, |comp|);
    MapRulesShape(rules, comp, arity, remap, |rules|, names);
  }

  // ----- host names -----

  ghost predicate Named(states: seq<State>, entry: string, instance: string, used: set<string>, naming: Naming, n: nat)
    requires n <= |states|
  {
    && used <= naming.used && naming.names.Keys == NamesOf(states[..n])
    && (forall k | 0 <= k < n :: states[k].name in naming.names && naming.names[states[k].name] in naming.used
          && (if states[k].name == entry then naming.names[states[k].name] == instance
              else naming.names[states[k].name] !in used))
    && forall i, k | 0 <= i < k < n && states[i].name in naming.names && states[k].name in naming.names ::
         naming.names[states[i].name] != naming.names[states[k].name]
  }

  lemma NamesOfPrefix(states: seq<State>, n: nat)
    requires n < |states|
    ensures NamesOf(states[..n + 1]) == NamesOf(states[..n]) + {states[n].name}
  {
    assert states[..n + 1] == states[..n] + [states[n]];
    NamesOfAppend(states[..n], [states[n]]);
    NamesOfOne(states[n]);
  }

  lemma NamedGrows(states: seq<State>, entry: string, instance: string, used: set<string>, before: Naming, n: nat,
                   hostName: string, used': set<string>)
    requires n < |states| && Apart(states) && instance in used && Named(states, entry, instance, used, before, n)
    requires if states[n].name == entry then hostName == instance && used' == before.used
             else hostName !in before.used && used' == before.used + {hostName}
    ensures Named(states, entry, instance, used, Naming(before.names[states[n].name := hostName], used'), n + 1)
  {
    hide NamesOf;
    NamesOfPrefix(states, n);
    var after := Naming(before.names[states[n].name := hostName], used');
    forall k | 0 <= k < n ensures after.names[states[k].name] == before.names[states[k].name] {
      assert states[k].name != states[n].name;
    }
  }

  /** Host names are apart; only the entry's was in use before. */
  lemma {:induction false} NamingSound(states: seq<State>, entry: string, instance: string, used: set<string>, n: nat)
    requires n <= |states| && Apart(states) && instance in used
    ensures Named(states, entry, instance, used, NameStates(states, entry, instance, used, n), n)
  {
    hide Named, FreshName, Apart;
    if n > 0 {
      NamingSound(states, entry, instance, used, n - 1);
      var before := NameStates(states, entry, instance, used, n - 1);
      var after := NameStates(states, entry, instance, used, n);
      NamedGrows(states, entry, instance, used, before, n - 1,
                 if states[n - 1].name == entry then instance
                 else FreshName(before.used, instance + "__" + states[n - 1].name), after.used);
    } else {
      NothingNamed(states, entry, instance, used);
    }
  }

  lemma NothingNamed(states: seq<State>, entry: string, instance: string, used: set<string>)
    ensures Named(states, entry, instance, used, Naming(map[], used), 0)
  {
    NamesOfNone();
  }

  lemma NamesOfAppend(a: seq<State>, b: seq<State>)
    ensures NamesOf(a + b) == NamesOf(a) + NamesOf(b)
  {
    forall s | s in NamesOf(a) + NamesOf(b) ensures s in NamesOf(a + b) {
      if s in NamesOf(a) {
        var x :| x in a && x.name == s;
        assert x in a + b;
      } else {
        var x :| x in b && x.name == s;
        assert x in a + b;
      }
    }
  }

  lemma NamesOfOne(st: State)
    ensures NamesOf([st]) == {st.name}
  {
    assert st in [st];
  }

  lemma NamesOfNone()
    ensures NamesOf([]) == {}
  {
  }

  lemma NameOf(states: seq<State>, k: nat)
    requires k < |states|
    ensures states[k].name in NamesOf(states)
  {
    assert states[k] in states;
  }

  lemma StateOf(states: seq<State>, name: string) returns (k: nat)
    requires name in NamesOf(states)
    ensures k < |states| && states[k].name == name
  {
    var s :| s in states && s.name == name;
    k :| 0 <= k < |states| && states[k] == s;
  }

  // ----- the accumulated world -----

  /** What a world under expansion keeps: after n grafts every name belongs to a state, an alias or
      a graft still to come. */
  ghost predicate Kept(w: World, acc: Acc, n: nat)
    requires n <= |w.grafts|
  {
    && Reserved(w) + NamesOf(acc.states) + acc.alias.Keys <= acc.used
    && Apart(acc.states) && AllWide(acc.states, w.arity)
    && Closed(acc.states, NamesOf(acc.states) + acc.alias.Keys + Reserved(w))
    && acc.alias.Keys !! NamesOf(acc.states) && acc.alias.Values <= NamesOf(acc.states)
    && acc.dedup.Values <= NamesOf(acc.states) && NamesOf(w.own) <= NamesOf(acc.states)
    && Elements(w.params) !! NamesOf(acc.states) + acc.alias.Keys
    && InstancesPlaced(w, acc, n)
    && (acc.entry.Some? ==> acc.entry.value in NamesOf(acc.states))
    && ((exists k :: 0 <= k < n && w.grafts[k].entry) ==> acc.entry.Some?)
  }

  ghost predicate InstancesPlaced(w: World, acc: Acc, n: nat)
    requires n <= |w.grafts|
  {
    forall k | 0 <= k < |w.grafts| && w.grafts[k].asName.Some? ::
      (w.grafts[k].asName.value in NamesOf(acc.states) + acc.alias.Keys) <==> k < n
  }

  lemma StartKept(graphs: Graphs, w: World)
    requires Resolved(graphs, w)
    ensures Kept(w, Start(w), 0)
  {
    hide AllWide, NamesOf, GraftResolved, Apart;
    ClosedMore(w.own, Reserved(w), NamesOf(w.own) + Reserved(w));
    forall k | 0 <= k < |w.grafts| && w.grafts[k].asName.Some? ensures w.grafts[k].asName.value !in NamesOf(w.own) {
      InstanceListed(w.grafts, k);
    }
  }

  lemma InstanceListed(grafts: seq<Graft>, k: nat)
    requires k < |grafts| && grafts[k].asName.Some?
    ensures grafts[k].asName.value in InstanceNames(grafts)
  {
    assert grafts[k] in grafts;
  }

  lemma ClosedMore(states: seq<State>, names: set<string>, more: set<string>)
    requires Closed(states, names) && names <= more
    ensures Closed(states, more)
  {
    hide Names;
    forall i | 0 <= i < |states| ensures NamesWithin(states[i].rules, more) {
      assert NamesWithin(states[i].rules, names);
    }
  }

  lemma ClosedAppend(a: seq<State>, b: seq<State>, names: set<string>)
    requires Closed(a, names) && Closed(b, names)
    ensures Closed(a + b, names)
  {
    hide NamesWithin;
  }

  lemma WideAppend(a: seq<State>, b: seq<State>, arity: nat)
    requires AllWide(a, arity) && AllWide(b, arity)
    ensures AllWide(a + b, arity)
  {
    hide Wide;
  }

  lemma ApartAppend(a: seq<State>, b: seq<State>)
    requires Apart(a) && Apart(b) && NamesOf(a) !! NamesOf(b)
    ensures Apart(a + b)
  {
    forall i, k | 0 <= i < k < |a + b| ensures (a + b)[i].name != (a + b)[k].name {
      if i < |a| <= k {
        NameOf(a, i);
        NameOf(b, k - |a|);
      }
    }
  }

  // ----- a fresh splice -----

  /** A graph's states after their names and targets are put in host terms. */
  lemma SplicedFacts(graphs: Graphs, w: World, g: Graft, gx: Expansion, naming: Naming, instance: string, used: set<string>)
    requires Resolved(graphs, w) && GraftResolved(graphs, w, g) && Hygienic(graphs[g.target], gx)
    requires FirstCall(gx.states, |gx.states|).None?
    requires instance in used && naming == NameStates(gx.states, gx.entry, instance, used, |gx.states|)
    ensures var more := SplicedStates(gx.states, g.comp, w.arity, g.cont, graphs[g.target].params, naming.names);
            && Apart(more) && AllWide(more, w.arity) && Closed(more, NamesOf(more) + Reserved(w))
            && used <= naming.used && NamesOf(more) <= naming.used
            && instance in NamesOf(more)
            && forall name | name in NamesOf(more) :: name == instance || name !in used
  {
    hide Resolved, GraftResolved, Hygienic, FirstCall, NameStates, NamesOf, Spliced, NamesWithin, Wide, Apart, Reserved;
    TargetKnown(graphs, w, g);
    var params := graphs[g.target].params;
    var more := SplicedStates(gx.states, g.comp, w.arity, g.cont, params, naming.names);
    HygienicApart(graphs[g.target], gx);
    NamingSound(gx.states, gx.entry, instance, used, |gx.states|);
    assert gx.states[..|gx.states|] == gx.states;
    SplicedNames(gx.states, g.comp, w.arity, g.cont, params, naming, gx.entry, instance, used);
    forall k | 0 <= k < |more|
      ensures Wide(more[k].rules, w.arity) && NamesWithin(more[k].rules, NamesOf(more) + Reserved(w))
    {
      SplicedState(graphs, w, g, gx, naming, instance, used, k);
    }
  }

  lemma TargetKnown(graphs: Graphs, w: World, g: Graft)
    requires GraftResolved(graphs, w, g)
    ensures g.target in graphs
  {
  }

  lemma HygienicApart(w: World, gx: Expansion)
    requires Hygienic(w, gx)
    ensures Apart(gx.states) && gx.entry in NamesOf(gx.states)
  {
  }

  lemma SplicedNames(states: seq<State>, comp: Composite, arity: nat, cont: seq<Bind>, params: seq<string>, naming: Naming,
                     entry: string, instance: string, used: set<string>)
    requires Named(states, entry, instance, used, naming, |states|) && entry in NamesOf(states)
    ensures var more := SplicedStates(states, comp, arity, cont, params, naming.names);
            && Apart(more) && NamesOf(more) <= naming.used && used <= naming.used
            && instance in NamesOf(more)
            && (forall name | name in NamesOf(more) :: name == instance || name !in used)
            && forall k | 0 <= k < |states| :: naming.names[states[k].name] in NamesOf(more)
  {
    hide SpliceRules, NamesOf, Remapping, Splicable;
    var more := SplicedStates(states, comp, arity, cont, params, naming.names);
    forall k | 0 <= k < |states| ensures more[k].name == naming.names[states[k].name] {
    }
    forall k | 0 <= k < |states| ensures naming.names[states[k].name] in NamesOf(more) {
      NameOf(more, k);
    }
    var e := StateOf(states, entry);
    forall name | name in NamesOf(more) ensures name in naming.used && (name == instance || name !in used) {
      var k := StateOf(more, name);
    }
  }

  lemma {:induction false} CallInRules(rules: seq<Rule>, n: nat) returns (k: nat)
    requires n <= |rules| && RuleCall(rules, n).Some?
    ensures k < n && rules[k].transition.Call? && rules[k].transition.target == RuleCall(rules, n).value
    ensures RuleCall(rules, k).None?
  {
    k := n - 1;
    if RuleCall(rules, n - 1).Some? {
      k := CallInRules(rules, n - 1);
    }
  }

  /** The call a refused graft is blamed on is the first of its graph's, in state order and then in rule
      order. */
  lemma {:induction false} CallInStates(states: seq<State>, n: nat) returns (i: nat, k: nat)
    requires n <= |states| && FirstCall(states, n).Some?
    ensures i < n && k < |states[i].rules| && states[i].rules[k].transition.Call?
    ensures states[i].rules[k].transition.target == FirstCall(states, n).value
    ensures FirstCall(states, i).None? && RuleCall(states[i].rules, k).None?
  {
    hide RuleCall;
    i := n - 1;
    if FirstCall(states, n - 1).Some? {
      i, k := CallInStates(states, n - 1);
    } else {
      k := CallInRules(states[i].rules, |states[i].rules|);
    }
  }

  lemma {:induction false} NoRuleCalls(rules: seq<Rule>, n: nat, k: nat)
    requires k < n <= |rules| && RuleCall(rules, n).None?
    ensures !rules[k].transition.Call?
  {
    if k < n - 1 {
      NoRuleCalls(rules, n - 1, k);
    }
  }

  lemma {:induction false} NoCalls(states: seq<State>, n: nat, i: nat)
    requires i < n <= |states| && FirstCall(states, n).None?
    ensures forall k | 0 <= k < |states[i].rules| :: !states[i].rules[k].transition.Call?
  {
    hide RuleCall;
    if i < n - 1 {
      NoCalls(states, n - 1, i);
    } else {
      forall k | 0 <= k < |states[i].rules| ensures !states[i].rules[k].transition.Call? {
        NoRuleCalls(states[i].rules, |states[i].rules|, k);
      }
    }
  }

  lemma {:induction false} BindFound(cont: seq<Bind>, i: nat, name: string)
    requires i <= |cont| && FindBind(cont, i, name).Some?
    ensures exists b :: b in cont && b.1 == FindBind(cont, i, name).value
    decreases |cont| - i
  {
    if cont[i].0 != name {
      BindFound(cont, i + 1, name);
    } else {
      assert cont[i] in cont;
    }
  }

  /** A remapped target is a host name or the host name of a graph state. */
  lemma RemapTarget(graphs: Graphs, w: World, g: Graft, t: Transition, names: map<string, string>, inside: set<string>)
    requires GraftResolved(graphs, w, g) && !t.Call?
    requires t.Goto? ==> t.name in names || t.name in graphs[g.target].params
    requires forall n | n in names :: names[n] in inside
    ensures var r := Remap(t, g.cont, graphs[g.target].params, names);
            Names(r).Some? ==> Names(r).value in inside + Reserved(w)
  {
    hide Reserved, Placed;
    if t.Goto? {
      if FindBind(g.cont, 0, t.name).Some? {
        BindFound(g.cont, 0, t.name);
      }
    }
  }

  /** One spliced state: wide enough, and closed over the spliced names and the host's. */
  lemma SplicedState(graphs: Graphs, w: World, g: Graft, gx: Expansion, naming: Naming, instance: string, used: set<string>,
                     k: nat)
    requires GraftResolved(graphs, w, g) && Hygienic(graphs[g.target], gx) && FirstCall(gx.states, |gx.states|).None?
    requires Named(gx.states, gx.entry, instance, used, naming, |gx.states|) && k < |gx.states|
    ensures var more := SplicedStates(gx.states, g.comp, w.arity, g.cont, graphs[g.target].params, naming.names);
            Wide(more[k].rules, w.arity) && NamesWithin(more[k].rules, NamesOf(more) + Reserved(w))
  {
    hide NamesOf, Reserved, FirstCall, Remap, SpliceRules, Wide, NamesWithin, Apart, Names;
    var params := graphs[g.target].params;
    var more := SplicedStates(gx.states, g.comp, w.arity, g.cont, params, naming.names);
    var rules := gx.states[k].rules;
    SplicedNames(gx.states, g.comp, w.arity, g.cont, params, naming, gx.entry, instance, used);
    NoCalls(gx.states, |gx.states|, k);
    GraphRules(graphs[g.target], gx, k);
    CanSplice(graphs, w, g, rules);
    assert gx.states[..|gx.states|] == gx.states;
    forall n | n in naming.names ensures naming.names[n] in NamesOf(more) {
      var m := StateOf(gx.states, n);
    }
    forall q | 0 <= q < |rules| && Names(Remapping(g.cont, params, naming.names)(rules[q].transition)).Some?
      ensures Names(Remapping(g.cont, params, naming.names)(rules[q].transition)).value in NamesOf(more) + Reserved(w)
    {
      RuleTarget(rules, q, NamesOf(gx.states) + Elements(params));
      RemapTarget(graphs, w, g, rules[q].transition, naming.names, NamesOf(more));
    }
    SpliceShape(rules, g.comp, w.arity, gx.states[k].line, Remapping(g.cont, params, naming.names),
                NamesOf(more) + Reserved(w));
  }

  lemma GraphRules(w: World, gx: Expansion, k: nat)
    requires Hygienic(w, gx) && k < |gx.states|
    ensures Wide(gx.states[k].rules, w.arity) && NamesWithin(gx.states[k].rules, NamesOf(gx.states) + Elements(w.params))
  {
    hide NamesOf, Wide, NamesWithin;
  }

  lemma RuleTarget(rules: seq<Rule>, q: nat, names: set<string>)
    requires NamesWithin(rules, names) && q < |rules|
    ensures rules[q].transition.Goto? ==> rules[q].transition.name in names
  {
  }

  lemma CanSplice(graphs: Graphs, w: World, g: Graft, rules: seq<Rule>)
    requires GraftResolved(graphs, w, g) && Wide(rules, graphs[g.target].arity)
    ensures Splicable(rules, g.comp, w.arity)
  {
  }

  // ----- one more instance -----

  /** An instance's name is in use and belongs to no state or alias yet. */
  lemma InstanceFree(graphs: Graphs, w: World, acc: Acc, n: nat)
    requires Resolved(graphs, w) && n < |w.grafts| && Kept(w, acc, n)
    ensures var g := w.grafts[n];
            var instance := InstanceName(g, acc.used);
            && acc.used <= UsedBy(g, acc.used) && instance in UsedBy(g, acc.used)
            && instance !in NamesOf(acc.states) + acc.alias.Keys + Elements(w.params)
            && (g.asName.None? ==> instance !in Reserved(w))
            && (g.asName.None? ==> instance !in acc.used)
  {
    hide AllWide, Closed, Apart, NamesOf, GraftResolved;
    if w.grafts[n].asName.Some? {
      InstanceListed(w.grafts, n);
    }
  }

  /** No graft still to come has this instance's name. */
  lemma LaterApart(graphs: Graphs, w: World, acc: Acc, n: nat, k: nat)
    requires Resolved(graphs, w) && n < |w.grafts| && Kept(w, acc, n)
    requires k < |w.grafts| && w.grafts[k].asName.Some?
    ensures w.grafts[k].asName.value == InstanceName(w.grafts[n], acc.used) ==> k == n
    ensures w.grafts[k].asName.value in Reserved(w)
  {
    hide AllWide, Closed, Apart, NamesOf, GraftResolved;
    InstanceFree(graphs, w, acc, n);
    InstanceListed(w.grafts, k);
  }

  /** An identical instance becomes an alias. */
  lemma AliasKept(graphs: Graphs, w: World, gx: Expansion, acc: Acc, n: nat)
    requires Resolved(graphs, w) && n < |w.grafts| && Kept(w, acc, n) && KeyOf(w.grafts[n]) in acc.dedup
    requires w.grafts[n].target in graphs
    ensures Kept(w, AddGraft(w, w.grafts[n], graphs[w.grafts[n].target].params, gx, acc), n + 1)
  {
    hide AllWide, Closed, Apart, NamesOf, Resolved, Reserved, KeyOf, InstanceName, UsedBy;
    var g := w.grafts[n];
    var instance := InstanceName(g, acc.used);
    var canonical := acc.dedup[KeyOf(g)];
    var acc' := AddGraft(w, g, graphs[g.target].params, gx, acc);
    InstanceFree(graphs, w, acc, n);
    ClosedMore(acc.states, NamesOf(acc.states) + acc.alias.Keys + Reserved(w),
               NamesOf(acc'.states) + acc'.alias.Keys + Reserved(w));
    assert canonical in acc.dedup.Values;
    assert acc'.alias.Values <= acc.alias.Values + {canonical};
    forall k | 0 <= k < |w.grafts| && w.grafts[k].asName.Some?
      ensures (w.grafts[k].asName.value in NamesOf(acc'.states) + acc'.alias.Keys) <==> k < n + 1
    {
      LaterApart(graphs, w, acc, n, k);
      NamedInstance(w.grafts, n, acc.used);
    }
  }

  lemma NamedInstance(grafts: seq<Graft>, n: nat, used: set<string>)
    requires n < |grafts|
    ensures grafts[n].asName.Some? ==> InstanceName(grafts[n], used) == grafts[n].asName.value
  {
  }

  /** The new states of a fresh splice. */
  ghost predicate FreshStates(w: World, more: seq<State>, instance: string, used: set<string>, used': set<string>)
  {
    && Apart(more) && AllWide(more, w.arity) && Closed(more, NamesOf(more) + Reserved(w))
    && used <= used' && NamesOf(more) <= used' && instance in NamesOf(more)
    && forall name | name in NamesOf(more) :: name == instance || name !in used
  }

  lemma SpliceKept(graphs: Graphs, w: World, acc: Acc, n: nat, more: seq<State>, used': set<string>)
    requires Resolved(graphs, w) && n < |w.grafts| && Kept(w, acc, n)
    requires FreshStates(w, more, InstanceName(w.grafts[n], acc.used), UsedBy(w.grafts[n], acc.used), used')
    ensures var g := w.grafts[n];
            var instance := InstanceName(g, acc.used);
            Kept(w, Acc(acc.states + more, acc.alias, acc.dedup[KeyOf(g) := instance], used',
                        if g.entry then Some(instance) else acc.entry), n + 1)
  {
    hide AllWide, Closed, Apart, NamesOf, Resolved, KeyOf, InstanceName, UsedBy;
    var g := w.grafts[n];
    var instance := InstanceName(g, acc.used);
    var states := acc.states + more;
    InstanceFree(graphs, w, acc, n);
    NamesOfAppend(acc.states, more);
    ApartAppend(acc.states, more);
    WideAppend(acc.states, more, w.arity);
    var names := NamesOf(states) + acc.alias.Keys + Reserved(w);
    ClosedMore(acc.states, NamesOf(acc.states) + acc.alias.Keys + Reserved(w), names);
    ClosedMore(more, NamesOf(more) + Reserved(w), names);
    ClosedAppend(acc.states, more, names);
    var dedup := acc.dedup[KeyOf(g) := instance];
    assert dedup.Values <= acc.dedup.Values + {instance};
    forall k | 0 <= k < |w.grafts| && w.grafts[k].asName.Some?
      ensures (w.grafts[k].asName.value in NamesOf(states) + acc.alias.Keys) <==> k < n + 1
    {
      LaterApart(graphs, w, acc, n, k);
      NamedInstance(w.grafts, n, acc.used);
    }
  }

  lemma AddGraftKept(graphs: Graphs, w: World, gx: Expansion, acc: Acc, n: nat)
    requires Resolved(graphs, w) && n < |w.grafts| && Kept(w, acc, n)
    requires w.grafts[n].target in graphs
    requires Hygienic(graphs[w.grafts[n].target], gx) && FirstCall(gx.states, |gx.states|).None?
    ensures Kept(w, AddGraft(w, w.grafts[n], graphs[w.grafts[n].target].params, gx, acc), n + 1)
  {
    hide Kept, Hygienic, FirstCall, KeyOf, InstanceName, UsedBy, NameStates, SplicedStates, Reserved, NamesOf, Apart, Closed,
      AllWide, GraftResolved;
    var g := w.grafts[n];
    if KeyOf(g) in acc.dedup {
      AliasKept(graphs, w, gx, acc, n);
    } else {
      var instance, used := InstanceName(g, acc.used), UsedBy(g, acc.used);
      var naming := NameStates(gx.states, gx.entry, instance, used, |gx.states|);
      InstanceFree(graphs, w, acc, n);
      SplicedFacts(graphs, w, g, gx, naming, instance, used);
      SpliceKept(graphs, w, acc, n,
                 SplicedStates(gx.states, g.comp, w.arity, g.cont, graphs[g.target].params, naming.names), naming.used);
    }
  }

  // ----- aliases -----

  lemma ResolvedRules(rules: seq<Rule>, alias: map<string, string>, names: set<string>, targets: set<string>)
    requires NamesWithin(rules, names)
    requires forall n | n in names :: ResolveName(n, alias) in targets
    ensures NamesWithin(ResolveRules(rules, alias), targets)
  {
    hide ResolveName;
    var out := ResolveRules(rules, alias);
    forall k | 0 <= k < |out| && Names(out[k].transition).Some? ensures Names(out[k].transition).value in targets {
      ResolvedName(rules[k].transition, alias);
    }
  }

  lemma ResolvedName(t: Transition, alias: map<string, string>)
    ensures Names(ResolveTransition(t, alias)).Some? <==> Names(t).Some?
    ensures Names(t).Some? ==> Names(ResolveTransition(t, alias)).value == ResolveName(Names(t).value, alias)
  {
  }

  lemma ResolveKeeps(states: seq<State>, alias: map<string, string>)
    ensures NamesOf(ResolveStates(states, alias)) == NamesOf(states)
    ensures Apart(states) ==> Apart(ResolveStates(states, alias))
  {
    hide ResolveRules;
    var out := ResolveStates(states, alias);
    forall n ensures n in NamesOf(out) <==> n in NamesOf(states) {
      if n in NamesOf(out) {
        var k := StateOf(out, n);
        NameOf(states, k);
      }
      if n in NamesOf(states) {
        var k := StateOf(states, n);
        NameOf(out, k);
      }
    }
  }

  /** One alias step reaches a spliced instance, and aliases are gone for good. */
  lemma OneStep(w: World, acc: Acc, n: nat, name: string)
    requires n <= |w.grafts| && Kept(w, acc, n) && name in acc.alias
    ensures ResolveName(name, acc.alias) in NamesOf(acc.states)
    ensures ResolveName(name, acc.alias) !in acc.alias
    ensures ResolveName(ResolveName(name, acc.alias), acc.alias) == ResolveName(name, acc.alias)
  {
    hide NamesOf, Reserved, Apart, Closed, AllWide, InstancesPlaced;
    assert acc.alias[name] in acc.alias.Values;
  }

  lemma TargetResolved(w: World, acc: Acc, name: string)
    requires Kept(w, acc, |w.grafts|) && name in NamesOf(acc.states) + acc.alias.Keys + Reserved(w)
    ensures ResolveName(name, acc.alias) in NamesOf(acc.states) + Elements(w.params)
  {
    hide Apart, Closed, AllWide, NamesOf;
    if name in acc.alias {
      OneStep(w, acc, |w.grafts|, name);
    } else if name in InstanceNames(w.grafts) {
      var g :| g in w.grafts && g.asName == Some(name);
      var k :| 0 <= k < |w.grafts| && w.grafts[k] == g;
    }
  }

  lemma FinishHygienic(graphs: Graphs, w: World, acc: Acc)
    requires Resolved(graphs, w) && Kept(w, acc, |w.grafts|)
    ensures Hygienic(w, Finish(w, acc))
  {
    hide NamesOf, Reserved, Wide, NamesWithin, ResolveRules, ResolveName, GraftResolved;
    var gx := Finish(w, acc);
    ResolveKeeps(acc.states, acc.alias);
    var names := NamesOf(acc.states) + acc.alias.Keys + Reserved(w);
    forall n | n in names ensures ResolveName(n, acc.alias) in NamesOf(acc.states) + Elements(w.params) {
      TargetResolved(w, acc, n);
    }
    forall k | 0 <= k < |gx.states|
      ensures Wide(gx.states[k].rules, w.arity)
      ensures NamesWithin(gx.states[k].rules, NamesOf(gx.states) + Elements(w.params))
    {
      ResolvedRules(acc.states[k].rules, acc.alias, names, NamesOf(gx.states) + Elements(w.params));
      ResolveWide(acc.states[k].rules, acc.alias, w.arity);
    }
    EntryPresent(graphs, w, acc);
  }

  lemma ResolveWide(rules: seq<Rule>, alias: map<string, string>, arity: nat)
    requires Wide(rules, arity)
    ensures Wide(ResolveRules(rules, alias), arity)
  {
    hide ResolveTransition;
  }

  lemma EntryPresent(graphs: Graphs, w: World, acc: Acc)
    requires Resolved(graphs, w) && Kept(w, acc, |w.grafts|)
    ensures Finish(w, acc).entry in NamesOf(acc.states)
  {
    hide NamesOf, Reserved, AllWide, Closed, Apart, GraftResolved, InstancesPlaced, ResolveStates;
  }

  // ----- the theorems -----

  ghost predicate AllResolved(graphs: Graphs)
  {
    forall n | n in graphs :: Resolved(graphs, graphs[n])
  }

  lemma {:induction false} GraftsKept(graphs: Graphs, order: seq<string>, w: World, r: nat, n: nat)
    requires AllDescend(graphs, order) && Descends(graphs, order, w, r) && n <= |w.grafts|
    requires AllResolved(graphs) && Resolved(graphs, w)
    ensures AddGrafts(graphs, order, w, r, n).Ok? ==> Kept(w, AddGrafts(graphs, order, w, r, n).value, n)
    decreases r, 0, n
  {
    hide Kept, Resolved, AddGraft, FirstCall, Finish, Start, Hygienic;
    if n == 0 {
      StartKept(graphs, w);
    } else {
      GraftsKept(graphs, order, w, r, n - 1);
      GraphHygienic(graphs, order, w.grafts[n - 1].target);
      if AddGrafts(graphs, order, w, r, n).Ok? {
        AddGraftKept(graphs, w, ExpandGraph(graphs, order, w.grafts[n - 1].target).value,
                     AddGrafts(graphs, order, w, r, n - 1).value, n - 1);
      }
    }
  }

  /** Every graph expands hygienically. */
  lemma {:induction false} GraphHygienic(graphs: Graphs, order: seq<string>, name: string)
    requires AllDescend(graphs, order) && name in graphs && AllResolved(graphs)
    ensures ExpandGraph(graphs, order, name).Ok? ==> Hygienic(graphs[name], ExpandGraph(graphs, order, name).value)
    decreases Rank(order, 0, name), 1, 0
  {
    hide Kept, Resolved, AddGrafts, Finish, Hygienic;
    var w, r := graphs[name], Rank(order, 0, name);
    GraftsKept(graphs, order, w, r, |w.grafts|);
    var acc := AddGrafts(graphs, order, w, r, |w.grafts|);
    if acc.Ok? {
      FinishHygienic(graphs, w, acc.value);
    }
  }
}
