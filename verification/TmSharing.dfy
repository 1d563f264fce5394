/** Sharing instances.  Every graft of an expanded world is realised by the states of one splice, its own
    or an identical earlier graft's; which one makes no difference to what it does. */
module TmSharing {
  import opened Options
  import opened TmGraftKey
  import opened TmGrafts
  import opened TmHygiene

  // ----- states by name -----

  function FindState(states: seq<State>, i: nat, name: string): (r: Option<State>)
    requires i <= |states|
    ensures r.Some? ==> r.value in states && r.value.name == name
    ensures r.None? ==> forall k | i <= k < |states| :: states[k].name != name
    decreases |states| - i
  {
    if i == |states| then None
    else if states[i].name == name then Some(states[i])
    else FindState(states, i + 1, name)
  }

  lemma Finds(states: seq<State>, st: State)
    requires Apart(states) && st in states
    ensures FindState(states, 0, st.name) == Some(st)
  {
    var k :| 0 <= k < |states| && states[k] == st;
    var found := FindState(states, 0, st.name);
    if found.Some? {
      var j :| 0 <= j < |states| && states[j] == found.value;
    }
  }

  // ----- what an instance is made of -----

  /** The graphs that expand, expanded. */
  ghost function Bodies(graphs: Graphs, order: seq<string>): map<string, Expansion>
    requires AllDescend(graphs, order)
  {
    map n | n in graphs && ExpandGraph(graphs, order, n).Ok? :: ExpandGraph(graphs, order, n).value
  }

  /** `names` puts every state of a graph body into the host as this graft splices it. */
  ghost predicate Spreads(states: seq<State>, arity: nat, g: Graft, params: seq<string>, gx: Expansion, names: map<string, string>)
  {
    && gx.entry in names
    && forall st | st in gx.states :: st.name in names && Spliced(st, g.comp, arity, g.cont, params, names) in states
  }

  /** Graft k is realised by graft c's splice, whose entry has the name k's instance stands for. */
  ghost predicate Realised(graphs: Graphs, bodies: map<string, Expansion>, w: World, acc: Acc, k: nat, c: nat,
                           names: map<string, string>)
    requires k < |w.grafts|
  {
    && c < |w.grafts| && KeyOf(w.grafts[c]) == KeyOf(w.grafts[k])
    && w.grafts[c].target in graphs && w.grafts[c].target in bodies
    && Spreads(acc.states, w.arity, w.grafts[c], graphs[w.grafts[c].target].params, bodies[w.grafts[c].target], names)
    && KeyOf(w.grafts[k]) in acc.dedup && names[bodies[w.grafts[c].target].entry] == acc.dedup[KeyOf(w.grafts[k])]
    && (w.grafts[k].asName.Some? ==> ResolveName(w.grafts[k].asName.value, acc.alias) == acc.dedup[KeyOf(w.grafts[k])])
  }

  ghost predicate IsRealised(graphs: Graphs, bodies: map<string, Expansion>, w: World, acc: Acc, k: nat)
    requires k < |w.grafts|
  {
    exists c, names :: Realised(graphs, bodies, w, acc, k, c, names)
  }

  /** The last entry graft of the first n. */
  function LastEntry(grafts: seq<Graft>, n: nat): (r: Option<nat>)
    requires n <= |grafts|
    ensures r.Some? ==> r.value < n && grafts[r.value].entry
    ensures r.None? ==> forall k | 0 <= k < n :: !grafts[k].entry
  {
    if n == 0 then None else if grafts[n - 1].entry then Some(n - 1) else LastEntry(grafts, n - 1)
  }

  /** What the first n grafts keep. */
  ghost predicate AllRealised(graphs: Graphs, bodies: map<string, Expansion>, w: World, acc: Acc, n: nat)
    requires n <= |w.grafts|
  {
    && (forall st | st in w.own :: st in acc.states)
    && (forall k: nat | k < n :: IsRealised(graphs, bodies, w, acc, k))
    && (forall key | key in acc.dedup :: KeyUsed(w, key, n))
    && (match LastEntry(w.grafts, n)
        case None => acc.entry.None?
        case Some(k) => KeyOf(w.grafts[k]) in acc.dedup && acc.entry == Some(acc.dedup[KeyOf(w.grafts[k])]))
  }

  ghost predicate KeyUsed(w: World, key: Bytes, n: nat)
    requires n <= |w.grafts|
  {
    exists k: nat :: k < n && KeyOf(w.grafts[k]) == key
  }

  // ----- every graft is realised -----

  /** An expansion step keeps what was realised. */
  ghost predicate Grows(w: World, acc: Acc, acc': Acc, n: nat)
    requires n <= |w.grafts|
  {
    && (forall st | st in acc.states :: st in acc'.states)
    && (forall key | key in acc.dedup :: key in acc'.dedup && acc'.dedup[key] == acc.dedup[key])
    && (forall k: nat | k < n && w.grafts[k].asName.Some? ::
          ResolveName(w.grafts[k].asName.value, acc'.alias) == ResolveName(w.grafts[k].asName.value, acc.alias))
  }

  lemma RealisedGrows(graphs: Graphs, bodies: map<string, Expansion>, w: World, acc: Acc, acc': Acc, n: nat, k: nat)
    requires n <= |w.grafts| && k < n && Grows(w, acc, acc', n) && IsRealised(graphs, bodies, w, acc, k)
    ensures IsRealised(graphs, bodies, w, acc', k)
  {
    hide KeyOf, ResolveName, Spliced;
    var c, names :| Realised(graphs, bodies, w, acc, k, c, names);
    assert Realised(graphs, bodies, w, acc', k, c, names);
  }

  lemma StepGrows(graphs: Graphs, w: World, gx: Expansion, acc: Acc, n: nat)
    requires Resolved(graphs, w) && n < |w.grafts| && Kept(w, acc, n) && w.grafts[n].target in graphs
    ensures Grows(w, acc, AddGraft(w, w.grafts[n], graphs[w.grafts[n].target].params, gx, acc), n)
  {
    hide Resolved, NamesOf, Apart, AllWide, Closed, Reserved, KeyOf, InstanceName, UsedBy, NameStates, SplicedStates;
    InstanceFree(graphs, w, acc, n);
    forall k: nat | k < n && w.grafts[k].asName.Some?
      ensures w.grafts[k].asName.value != InstanceName(w.grafts[n], acc.used)
    {
      LaterApart(graphs, w, acc, n, k);
    }
  }

  lemma AliasRealised(graphs: Graphs, bodies: map<string, Expansion>, w: World, gx: Expansion, acc: Acc, n: nat)
    requires Resolved(graphs, w) && n < |w.grafts| && Kept(w, acc, n) && w.grafts[n].target in graphs
    requires AllRealised(graphs, bodies, w, acc, n) && KeyOf(w.grafts[n]) in acc.dedup
    ensures IsRealised(graphs, bodies, w, AddGraft(w, w.grafts[n], graphs[w.grafts[n].target].params, gx, acc), n)
  {
    hide Resolved, Kept, KeyOf, Spreads, UsedBy;
    var acc' := AddGraft(w, w.grafts[n], graphs[w.grafts[n].target].params, gx, acc);
    assert KeyUsed(w, KeyOf(w.grafts[n]), n);
    var k: nat :| k < n && KeyOf(w.grafts[k]) == KeyOf(w.grafts[n]);
    assert IsRealised(graphs, bodies, w, acc, k);
    var c, names :| Realised(graphs, bodies, w, acc, k, c, names);
    NamedInstance(w.grafts, n, acc.used);
    assert Realised(graphs, bodies, w, acc', n, c, names);
  }

  lemma FreshRealised(graphs: Graphs, bodies: map<string, Expansion>, w: World, acc: Acc, n: nat)
    requires Resolved(graphs, w) && n < |w.grafts| && Kept(w, acc, n) && w.grafts[n].target in graphs
    requires w.grafts[n].target in bodies && Hygienic(graphs[w.grafts[n].target], bodies[w.grafts[n].target])
    requires KeyOf(w.grafts[n]) !in acc.dedup
    ensures IsRealised(graphs, bodies, w,
                       AddGraft(w, w.grafts[n], graphs[w.grafts[n].target].params, bodies[w.grafts[n].target], acc), n)
  {
    hide Resolved, KeyOf, Apart, AllWide, Closed, Reserved, NameStates, Spliced, NamesOf, InstancesPlaced;
    var g := w.grafts[n];
    var gx, params := bodies[g.target], graphs[g.target].params;
    var acc' := AddGraft(w, g, params, gx, acc);
    var instance, used := InstanceName(g, acc.used), UsedBy(g, acc.used);
    var naming := NameStates(gx.states, gx.entry, instance, used, |gx.states|);
    InstanceFree(graphs, w, acc, n);
    HygienicApart(graphs[g.target], gx);
    NamingSound(gx.states, gx.entry, instance, used, |gx.states|);
    NamedInstance(w.grafts, n, acc.used);
    assert gx.states[..|gx.states|] == gx.states;
    forall st | st in gx.states
      ensures st.name in naming.names && Spliced(st, g.comp, w.arity, g.cont, params, naming.names) in acc'.states
    {
      var k :| 0 <= k < |gx.states| && gx.states[k] == st;
      assert SplicedStates(gx.states, g.comp, w.arity, g.cont, params, naming.names)[k] in acc'.states;
    }
    var e := StateOf(gx.states, gx.entry);
    assert Spreads(acc'.states, w.arity, g, params, gx, naming.names);
    assert Realised(graphs, bodies, w, acc', n, n, naming.names);
  }

  lemma StepRealised(graphs: Graphs, bodies: map<string, Expansion>, w: World, acc: Acc, n: nat)
    requires Resolved(graphs, w) && n < |w.grafts| && Kept(w, acc, n) && w.grafts[n].target in graphs
    requires w.grafts[n].target in bodies && Hygienic(graphs[w.grafts[n].target], bodies[w.grafts[n].target])
    requires AllRealised(graphs, bodies, w, acc, n)
    ensures AllRealised(graphs, bodies, w,
                        AddGraft(w, w.grafts[n], graphs[w.grafts[n].target].params, bodies[w.grafts[n].target], acc), n + 1)
  {
    hide Resolved, Kept, KeyOf, IsRealised, Hygienic, InstanceName, UsedBy, NameStates, SplicedStates;
    var g := w.grafts[n];
    var acc' := AddGraft(w, g, graphs[g.target].params, bodies[g.target], acc);
    StepGrows(graphs, w, bodies[g.target], acc, n);
    forall k: nat | k < n + 1 ensures IsRealised(graphs, bodies, w, acc', k) {
      if k < n {
        RealisedGrows(graphs, bodies, w, acc, acc', n, k);
      } else if KeyOf(g) in acc.dedup {
        AliasRealised(graphs, bodies, w, bodies[g.target], acc, n);
      } else {
        FreshRealised(graphs, bodies, w, acc, n);
      }
    }
    forall key | key in acc'.dedup ensures KeyUsed(w, key, n + 1) {
      if key in acc.dedup {
        assert KeyUsed(w, key, n);
      }
    }
  }

  lemma StartRealised(graphs: Graphs, bodies: map<string, Expansion>, w: World)
    ensures AllRealised(graphs, bodies, w, Start(w), 0)
  {
  }

  /** After n grafts each of them is realised. */
  lemma {:induction false} GraftsRealised(graphs: Graphs, order: seq<string>, w: World, r: nat, n: nat)
    requires AllDescend(graphs, order) && Descends(graphs, order, w, r) && n <= |w.grafts|
    requires AllResolved(graphs) && Resolved(graphs, w)
    ensures AddGrafts(graphs, order, w, r, n).Ok? ==>
              AllRealised(graphs, Bodies(graphs, order), w, AddGrafts(graphs, order, w, r, n).value, n)
  {
    hide AllRealised, Kept, Resolved, AddGraft, FirstCall, Finish, Start, Hygienic, ExpandGraph;
    if n == 0 {
      StartRealised(graphs, Bodies(graphs, order), w);
    } else {
      GraftsRealised(graphs, order, w, r, n - 1);
      GraftsKept(graphs, order, w, r, n - 1);
      GraphHygienic(graphs, order, w.grafts[n - 1].target);
      if AddGrafts(graphs, order, w, r, n).Ok? {
        StepRealised(graphs, Bodies(graphs, order), w, AddGrafts(graphs, order, w, r, n - 1).value, n - 1);
      }
    }
  }

  // ----- which splice makes no difference -----

  /** What the key needs to tell grafts apart: names hold no separator, numbers fit their fields, and no
      state parameter is bound twice. */
  ghost predicate Keyed(g: Graft)
  {
    && Plain(g.target) && Encodable(g.comp) && (forall j | 0 <= j < |g.cont| :: IsBinding(g.cont[j]))
    && forall i, j | 0 <= i < j < |g.cont| :: g.cont[i].0 != g.cont[j].0
  }

  lemma {:induction false} BindAt(cont: seq<Bind>, i: nat, j: nat)
    requires i <= j < |cont| && forall m | 0 <= m < j :: cont[m].0 != cont[j].0
    ensures FindBind(cont, i, cont[j].0) == Some(cont[j].1)
    decreases j - i
  {
    if i < j {
      BindAt(cont, i + 1, j);
    }
  }

  lemma {:induction false} BoundSomewhere(cont: seq<Bind>, i: nat, name: string)
    requires i <= |cont|
    ensures FindBind(cont, i, name).Some? ==> (name, FindBind(cont, i, name).value) in cont
    decreases |cont| - i
  {
    if i < |cont| {
      if cont[i].0 == name {
        assert cont[i] in cont;
      } else {
        BoundSomewhere(cont, i + 1, name);
      }
    }
  }

  lemma BoundOnce(a: seq<Bind>, b: seq<Bind>, name: string)
    requires multiset(a) == multiset(b) && forall i, j | 0 <= i < j < |b| :: b[i].0 != b[j].0
    ensures FindBind(a, 0, name).Some? ==> FindBind(b, 0, name) == FindBind(a, 0, name)
  {
    hide FindBind;
    if FindBind(a, 0, name).Some? {
      BoundSomewhere(a, 0, name);
      var bind := (name, FindBind(a, 0, name).value);
      assert bind in multiset(a) && bind in multiset(b);
      var j :| 0 <= j < |b| && b[j] == bind;
      BindAt(b, 0, j);
    }
  }

  /** Grafts with one key graft the same graph, onto the same tapes through the same maps, and continue
      every state parameter alike. */
  lemma TwinsAlike(g: Graft, h: Graft)
    requires Keyed(g) && Keyed(h) && KeyOf(g) == KeyOf(h)
    ensures g.target == h.target && g.comp == h.comp && forall name :: FindBind(g.cont, 0, name) == FindBind(h.cont, 0, name)
  {
    hide Plain, Encodable, IsBinding, Key, FindBind;
    KeyInjective(g.target, g.comp, g.cont, h.target, h.comp, h.cont);
    forall name ensures FindBind(g.cont, 0, name) == FindBind(h.cont, 0, name) {
      BoundOnce(g.cont, h.cont, name);
      BoundOnce(h.cont, g.cont, name);
    }
  }
}
