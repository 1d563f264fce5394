/** World expansion: own states, then every graft instance spliced in, identical instances shared,
    graphs expanded once and remembered. */
module TmGrafts {
  import opened Options
  import opened TmRules
  import opened TmSplice
  import opened TmGraftGraph
  import opened TmGraftKey
  import opened FreshNames

  datatype State = State(name: string, line: nat, rules: seq<Rule>)

  /** An instantiation of a graph: its tapes placed on the host, its state parameters bound. */
  datatype Graft = Graft(target: string, asName: Option<string>, entry: bool, comp: Composite, cont: seq<Bind>)

  datatype World = World(
    arity: nat, own: seq<State>, ownEntry: Option<string>, grafts: seq<Graft>, params: seq<string>)

  type Graphs = map<string, World>

  datatype Expansion = Expansion(states: seq<State>, entry: string)

  datatype Result<T> = Ok(value: T) | GraftCall(target: string)

  // ----- one instance -----

  /** The callee of a rule that calls, if one of the first n does. */
  function RuleCall(rules: seq<Rule>, n: nat): Option<string>
    requires n <= |rules|
  {
    if n == 0 then None
    else if RuleCall(rules, n - 1).Some? then RuleCall(rules, n - 1)
    else if rules[n - 1].transition.Call? then Some(rules[n - 1].transition.target)
    else None
  }

  /** The first call in a graph's expanded body. */
  function FirstCall(states: seq<State>, n: nat): Option<string>
    requires n <= |states|
  {
    if n == 0 then None
    else if FirstCall(states, n - 1).Some? then FirstCall(states, n - 1)
    else RuleCall(states[n - 1].rules, |states[n - 1].rules|)
  }

  function FindBind(cont: seq<Bind>, i: nat, name: string): Option<Transition>
    requires i <= |cont|
    decreases |cont| - i
  {
    if i == |cont| then None
    else if cont[i].0 == name then Some(cont[i].1)
    else FindBind(cont, i + 1, name)
  }

  /** A graph's transition in host terms. */
  function Remap(t: Transition, cont: seq<Bind>, params: seq<string>, names: map<string, string>): Transition
  {
    if !t.Goto? then t
    else if FindBind(cont, 0, t.name).Some? then FindBind(cont, 0, t.name).value
    else if t.name in params then t
    else Goto(if t.name in names then names[t.name] else t.name)
  }

  function Remapping(cont: seq<Bind>, params: seq<string>, names: map<string, string>): Transition -> Transition
  {
    (t: Transition) => Remap(t, cont, params, names)
  }

  /** Host names under construction: the map so far and the names in use. */
  datatype Naming = Naming(names: map<string, string>, used: set<string>)

  /** The entry state takes the instance's name, every other state a fresh one. */
  function NameStates(states: seq<State>, entry: string, instance: string, used: set<string>, n: nat): Naming
    requires n <= |states|
  {
    if n == 0 then Naming(map[], used)
    else
      var before := NameStates(states, entry, instance, used, n - 1);
      var name := states[n - 1].name;
      if name == entry then before.(names := before.names[name := instance])
      else
        var hostName := FreshName(before.used, instance + "__" + name);
        Naming(before.names[name := hostName], before.used + {hostName})
  }

  predicate Splicable(rules: seq<Rule>, comp: Composite, arity: nat)
  {
    && (forall k | 0 <= k < |comp| :: comp[k].phys < arity)
    && (forall k | 0 <= k < |rules| :: |rules[k].pattern| == |rules[k].write| == |rules[k].moves| == |comp|)
  }

  function Spliced(st: State, comp: Composite, arity: nat, cont: seq<Bind>, params: seq<string>,
                   names: map<string, string>): State
  {
    State(if st.name in names then names[st.name] else st.name, st.line,
          if Splicable(st.rules, comp, arity)
          then SpliceRules(st.rules, comp, arity, st.line, Remapping(cont, params, names)) else [])
  }

  function SplicedStates(states: seq<State>, comp: Composite, arity: nat, cont: seq<Bind>, params: seq<string>,
                         names: map<string, string>): seq<State>
  {
    seq(|states|, (k: nat) requires k < |states| => Spliced(states[k], comp, arity, cont, params, names))
  }

  // ----- a world's instances -----

  /** A world under expansion: its states, the shared instances' names, and the names in use. */
  datatype Acc = Acc(
    states: seq<State>, alias: map<string, string>, dedup: map<Bytes, string>, used: set<string>, entry: Option<string>)

  function NamesOf(states: seq<State>): set<string>
  {
    set s | s in states :: s.name
  }

  function InstanceNames(grafts: seq<Graft>): set<string>
  {
    set g | g in grafts && g.asName.Some? :: g.asName.value
  }

  function Elements<T>(s: seq<T>): set<T>
  {
    set x | x in s
  }

  /** The names a world's author used. */
  function Reserved(w: World): set<string>
  {
    NamesOf(w.own) + InstanceNames(w.grafts) + Elements(w.params)
  }

  function Start(w: World): Acc
  {
    Acc(w.own, map[], map[], Reserved(w), None)
  }

  /** A synthetic name's base: the graph's name without colons and dots. */
  function Sanitize(name: string, i: nat): string
    requires i <= |name|
    decreases |name| - i
  {
    if i == |name| then ""
    else if name[i] == ':' && i + 1 < |name| && name[i + 1] == ':' then "_" + Sanitize(name, i + 2)
    else if name[i] == ':' || name[i] == '.' then "_" + Sanitize(name, i + 1)
    else [name[i]] + Sanitize(name, i + 1)
  }

  function InstanceName(g: Graft, used: set<string>): string
  {
    if g.asName.Some? then g.asName.value else FreshName(used, Sanitize(g.target, 0) + "__entry")
  }

  function UsedBy(g: Graft, used: set<string>): set<string>
  {
    if g.asName.Some? then used else used + {InstanceName(g, used)}
  }

  function KeyOf(g: Graft): Bytes
  {
    Key(g.target, g.comp, g.cont)
  }

  /** One more instance: an alias of an identical earlier one, or a fresh splice. */
  function AddGraft(host: World, g: Graft, params: seq<string>, gx: Expansion, acc: Acc): Acc
  {
    var instance := InstanceName(g, acc.used);
    var used := UsedBy(g, acc.used);
    if KeyOf(g) in acc.dedup then
      var canonical := acc.dedup[KeyOf(g)];
      acc.(alias := acc.alias[instance := canonical], used := used,
           entry := if g.entry then Some(canonical) else acc.entry)
    else
      var naming := NameStates(gx.states, gx.entry, instance, used, |gx.states|);
      Acc(acc.states + SplicedStates(gx.states, g.comp, host.arity, g.cont, params, naming.names),
          acc.alias, acc.dedup[KeyOf(g) := instance], naming.used, if g.entry then Some(instance) else acc.entry)
  }

  function ResolveName(name: string, alias: map<string, string>): string
  {
    if name in alias then alias[name] else name
  }

  function ResolveTransition(t: Transition, alias: map<string, string>): Transition
  {
    match t
    case Goto(name) => Goto(ResolveName(name, alias))
    case Call(target, tag, ToState(name)) => Call(target, tag, ToState(ResolveName(name, alias)))
    case _ => t
  }

  function ResolveRules(rules: seq<Rule>, alias: map<string, string>): seq<Rule>
  {
    seq(|rules|, (k: nat) requires k < |rules| => rules[k].(transition := ResolveTransition(rules[k].transition, alias)))
  }

  /** Every target rewritten to the shared instance. */
  function ResolveStates(states: seq<State>, alias: map<string, string>): seq<State>
  {
    seq(|states|, (k: nat) requires k < |states| => states[k].(rules := ResolveRules(states[k].rules, alias)))
  }

  function Finish(w: World, acc: Acc): Expansion
  {
    var entry := if w.ownEntry.Some? then w.ownEntry.value else if acc.entry.Some? then acc.entry.value else "";
    Expansion(ResolveStates(acc.states, acc.alias), ResolveName(entry, acc.alias))
  }

  // ----- expansion without a memo -----

  function TargetsOf(w: World): seq<string>
  {
    seq(|w.grafts|, (k: nat) requires k < |w.grafts| => w.grafts[k].target)
  }

  function DepsOf(graphs: Graphs): Deps
  {
    map n | n in graphs :: TargetsOf(graphs[n])
  }

  /** The world grafts graphs that rank below r. */
  ghost predicate Descends(graphs: Graphs, order: seq<string>, w: World, r: nat)
  {
    forall k | 0 <= k < |w.grafts| :: w.grafts[k].target in graphs && Rank(order, 0, w.grafts[k].target) < r
  }

  /** Every graph grafts only graphs that rank below itself. */
  ghost predicate AllDescend(graphs: Graphs, order: seq<string>)
  {
    forall n | n in graphs :: Descends(graphs, order, graphs[n], Rank(order, 0, n))
  }

  ghost function AddGrafts(graphs: Graphs, order: seq<string>, w: World, r: nat, n: nat): Result<Acc>
    requires AllDescend(graphs, order) && Descends(graphs, order, w, r) && n <= |w.grafts|
    decreases r, 0, n
  {
    if n == 0 then Ok(Start(w))
    else
      var before := AddGrafts(graphs, order, w, r, n - 1);
      if before.GraftCall? then before
      else
        var g := w.grafts[n - 1];
        var gx := ExpandGraph(graphs, order, g.target);
        if gx.GraftCall? then GraftCall(gx.target)
        else if FirstCall(gx.value.states, |gx.value.states|).Some?
          then GraftCall(FirstCall(gx.value.states, |gx.value.states|).value)
        else Ok(AddGraft(w, g, graphs[g.target].params, gx.value, before.value))
  }

  /** A graph in its own terms: nested grafts spliced, aliases resolved. */
  ghost function ExpandGraph(graphs: Graphs, order: seq<string>, name: string): Result<Expansion>
    requires AllDescend(graphs, order) && name in graphs
    decreases Rank(order, 0, name), 1, 0
  {
    var acc := AddGrafts(graphs, order, graphs[name], Rank(order, 0, name), |graphs[name].grafts|);
    if acc.GraftCall? then GraftCall(acc.target) else Ok(Finish(graphs[name], acc.value))
  }

  // ----- expansion with one -----

  type Memo = map<string, Expansion>

  ghost predicate Remembers(graphs: Graphs, order: seq<string>, memo: Memo)
    requires AllDescend(graphs, order)
  {
    forall n | n in memo :: n in graphs && ExpandGraph(graphs, order, n) == Ok(memo[n])
  }

  method NameAll(gx: Expansion, instance: string, used: set<string>) returns (names: map<string, string>, used': set<string>)
    ensures Naming(names, used') == NameStates(gx.states, gx.entry, instance, used, |gx.states|)
  {
    names, used' := map[], used;
    for k := 0 to |gx.states|
      invariant Naming(names, used') == NameStates(gx.states, gx.entry, instance, used, k)
    {
      var name := gx.states[k].name;
      var hostName := instance;
      if name != gx.entry {
        hostName := Fresh(used', instance + "__" + name);
        used' := used' + {hostName};
      }
      names := names[name := hostName];
    }
  }

  method ExpandGraftsInto(graphs: Graphs, ghost order: seq<string>, w: World, ghost r: nat, memo: Memo)
    returns (res: Result<Acc>, memo': Memo)
    requires AllDescend(graphs, order) && Descends(graphs, order, w, r) && Remembers(graphs, order, memo)
    ensures res == AddGrafts(graphs, order, w, r, |w.grafts|)
    ensures Remembers(graphs, order, memo')
    decreases r, 0
  {
    hide AddGraft, FirstCall, Finish, Start;
    var acc := Start(w);
    memo' := memo;
    for k := 0 to |w.grafts|
      invariant AddGrafts(graphs, order, w, r, k) == Ok(acc) && Remembers(graphs, order, memo')
    {
      var g := w.grafts[k];
      var gx;
      gx, memo' := ExpandGraphMemo(graphs, order, g.target, memo');
      if gx.GraftCall? {
        StaysFailed(graphs, order, w, r, k + 1, |w.grafts|);
        return GraftCall(gx.target), memo';
      }
      var call := FirstCall(gx.value.states, |gx.value.states|);
      if call.Some? {
        StaysFailed(graphs, order, w, r, k + 1, |w.grafts|);
        return GraftCall(call.value), memo';
      }
      acc := AddInstance(w, g, graphs[g.target].params, gx.value, acc);
    }
    res := Ok(acc);
  }

  lemma {:induction false} StaysFailed(graphs: Graphs, order: seq<string>, w: World, r: nat, k: nat, n: nat)
    requires AllDescend(graphs, order) && Descends(graphs, order, w, r) && k <= n <= |w.grafts|
    requires AddGrafts(graphs, order, w, r, k).GraftCall?
    ensures AddGrafts(graphs, order, w, r, n) == AddGrafts(graphs, order, w, r, k)
  {
    hide AddGraft, FirstCall, Finish, Start;
    if k < n {
      StaysFailed(graphs, order, w, r, k, n - 1);
    }
  }

  method AddInstance(host: World, g: Graft, params: seq<string>, gx: Expansion, acc: Acc) returns (acc': Acc)
    ensures acc' == AddGraft(host, g, params, gx, acc)
  {
    hide NameStates, SplicedStates, KeyOf, Sanitize;
    var instance, used := "", acc.used;
    if g.asName.Some? {
      instance := g.asName.value;
    } else {
      instance := Fresh(used, Sanitize(g.target, 0) + "__entry");
      used := used + {instance};
    }
    var key := KeyOf(g);
    if key in acc.dedup {
      var canonical := acc.dedup[key];
      return acc.(alias := acc.alias[instance := canonical], used := used,
                  entry := if g.entry then Some(canonical) else acc.entry);
    }
    var names;
    names, used := NameAll(gx, instance, used);
    acc' := Acc(acc.states + SplicedStates(gx.states, g.comp, host.arity, g.cont, params, names),
                acc.alias, acc.dedup[key := instance], used, if g.entry then Some(instance) else acc.entry);
  }

  /** The memo never changes what a graph expands to. */
  method ExpandGraphMemo(graphs: Graphs, ghost order: seq<string>, name: string, memo: Memo)
    returns (res: Result<Expansion>, memo': Memo)
    requires AllDescend(graphs, order) && name in graphs && Remembers(graphs, order, memo)
    ensures res == ExpandGraph(graphs, order, name) && Remembers(graphs, order, memo')
    decreases Rank(order, 0, name), 1
  {
    hide Finish, AddGrafts;
    if name in memo {
      return Ok(memo[name]), memo;
    }
    var acc;
    acc, memo' := ExpandGraftsInto(graphs, order, graphs[name], Rank(order, 0, name), memo);
    if acc.GraftCall? {
      return GraftCall(acc.target), memo';
    }
    var gx := Finish(graphs[name], acc.value);
    memo' := memo'[name := gx];
    res := Ok(gx);
  }
}
