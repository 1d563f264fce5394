/** The expansion stage: reject cyclic graft graphs, then expand every world. */
module TmExpand {
  import opened Options
  import opened TmRules
  import opened TmSplice
  import opened TmBands
  import opened TmBandSplice
  import opened TmGraftGraph
  import opened TmGrafts
  import opened TmHygiene

  datatype Outcome =
    | Expanded(worlds: seq<Expansion>)
    | Cycle(target: string)
    | CallInGraph(target: string)
    | ExactRowConflict(world: nat, state: string)

  /** No state of an expansion has two identical exact rows. */
  ghost predicate RowsChecked(gx: Expansion)
  {
    forall st | st in gx.states :: NoExactConflict(st.rules)
  }

  lemma {:induction false} RankBound(order: seq<string>, i: nat, v: string)
    requires i <= |order|
    ensures Rank(order, i, v) <= |order|
    decreases |order| - i
  {
    if i < |order| && order[i] != v {
      RankBound(order, i + 1, v);
    }
  }

  /** The rank of an accepted graft graph is one that expansion can descend. */
  lemma RankedDescends(graphs: Graphs, order: seq<string>)
    requires AllResolved(graphs) && Ranked(DepsOf(graphs), order)
    ensures AllDescend(graphs, order)
  {
    hide Rank, AllWide, Closed, Apart, Reserved;
    var deps := DepsOf(graphs);
    forall n, k | n in graphs && 0 <= k < |graphs[n].grafts|
      ensures graphs[n].grafts[k].target in graphs
      ensures Rank(order, 0, graphs[n].grafts[k].target) < Rank(order, 0, n)
    {
      assert Resolved(graphs, graphs[n]) && GraftResolved(graphs, graphs[n], graphs[n].grafts[k]);
      assert TargetsOf(graphs[n])[k] == graphs[n].grafts[k].target;
      assert Grafts(deps, n, graphs[n].grafts[k].target);
    }
  }

  lemma WorldDescends(graphs: Graphs, order: seq<string>, w: World)
    requires Resolved(graphs, w)
    ensures Descends(graphs, order, w, |order| + 1)
  {
    hide Rank, AllWide, Closed, Apart, Reserved;
    forall k | 0 <= k < |w.grafts| ensures w.grafts[k].target in graphs && Rank(order, 0, w.grafts[k].target) < |order| + 1 {
      assert GraftResolved(graphs, w, w.grafts[k]);
      RankBound(order, 0, w.grafts[k].target);
    }
  }

  /** A world that expands, with every row in order. */
  ghost predicate Expands(graphs: Graphs, order: seq<string>, w: World)
    requires AllDescend(graphs, order) && Descends(graphs, order, w, |order| + 1)
  {
    var acc := AddGrafts(graphs, order, w, |order| + 1, |w.grafts|);
    acc.Ok? && RowsChecked(Finish(w, acc.value))
  }

  /** The row check of a world's expanded states, in their order. */
  method CheckRows(gx: Expansion) returns (conflict: Option<string>)
    ensures conflict.None? <==> RowsChecked(gx)
    ensures conflict.Some? ==> exists st :: st in gx.states && st.name == conflict.value && !NoExactConflict(st.rules)
  {
    hide NoExactConflict;
    for k := 0 to |gx.states|
      invariant forall j | 0 <= j < k :: NoExactConflict(gx.states[j].rules)
    {
      var ok, _ := CheckStateRows(gx.states[k].rules);
      if !ok {
        assert gx.states[k] in gx.states;
        return Some(gx.states[k].name);
      }
    }
    conflict := None;
  }

  /** Fails exactly on a cyclic graft graph, or at the first world with a call inside a grafted graph or
      with two identical exact rows; otherwise every world comes out hygienic and in order, the same
      whether or not graphs are remembered. */
  method Expand(graphs: Graphs, worlds: seq<World>) returns (r: Outcome, ghost order: seq<string>)
    requires AllResolved(graphs) && forall k | 0 <= k < |worlds| :: Resolved(graphs, worlds[k])
    ensures r.Cycle? <==> Cyclic(DepsOf(graphs))
    ensures !r.Cycle? ==> AllDescend(graphs, order)
    ensures !r.Cycle? ==> forall k | 0 <= k < |worlds| :: Descends(graphs, order, worlds[k], |order| + 1)
    ensures !r.Cycle? ==> (r.Expanded? <==> forall k | 0 <= k < |worlds| :: Expands(graphs, order, worlds[k]))
    ensures r.Expanded? ==> |r.worlds| == |worlds| && forall k | 0 <= k < |worlds| ::
              var acc := AddGrafts(graphs, order, worlds[k], |order| + 1, |worlds[k].grafts|);
              acc.Ok? && r.worlds[k] == Finish(worlds[k], acc.value) && Hygienic(worlds[k], r.worlds[k])
    ensures r.CallInGraph? ==> exists k ::
              && 0 <= k < |worlds| && (forall i | 0 <= i < k :: Expands(graphs, order, worlds[i]))
              && AddGrafts(graphs, order, worlds[k], |order| + 1, |worlds[k].grafts|) == GraftCall(r.target)
    ensures r.ExactRowConflict? ==>
              && r.world < |worlds| && (forall i | 0 <= i < r.world :: Expands(graphs, order, worlds[i]))
              && var acc := AddGrafts(graphs, order, worlds[r.world], |order| + 1, |worlds[r.world].grafts|);
                 acc.Ok? && exists st :: st in Finish(worlds[r.world], acc.value).states && st.name == r.state
                                         && !NoExactConflict(st.rules)
  {
    hide AddGrafts, Finish, Hygienic, Resolved, Kept, Cyclic, Ranked, Descends, NoExactConflict;
    var cycle;
    cycle, order := CheckAcyclicity(DepsOf(graphs));
    if cycle.Some? {
      return Cycle(cycle.value), order;
    }
    RankedDescends(graphs, order);
    forall k | 0 <= k < |worlds| ensures Descends(graphs, order, worlds[k], |order| + 1) {
      WorldDescends(graphs, order, worlds[k]);
    }
    var memo: Memo := map[];
    var out: seq<Expansion> := [];
    for i := 0 to |worlds|
      invariant |out| == i && Remembers(graphs, order, memo)
      invariant forall k | 0 <= k < i :: Expands(graphs, order, worlds[k])
      invariant forall k | 0 <= k < i ::
                  var acc := AddGrafts(graphs, order, worlds[k], |order| + 1, |worlds[k].grafts|);
                  acc.Ok? && out[k] == Finish(worlds[k], acc.value) && Hygienic(worlds[k], out[k])
    {
      var acc;
      acc, memo := ExpandGraftsInto(graphs, order, worlds[i], |order| + 1, memo);
      if acc.GraftCall? {
        assert !Expands(graphs, order, worlds[i]);
        return CallInGraph(acc.target), order;
      }
      GraftsKept(graphs, order, worlds[i], |order| + 1, |worlds[i].grafts|);
      FinishHygienic(graphs, worlds[i], acc.value);
      var gx := Finish(worlds[i], acc.value);
      var conflict := CheckRows(gx);
      if conflict.Some? {
        assert !Expands(graphs, order, worlds[i]);
        return ExactRowConflict(i, conflict.value), order;
      }
      out := out + [gx];
    }
    r := Expanded(out);
  }

  /** Each state of an instance does on the host's tapes what the graph's state does on its own: the
      tuple is read through the binding, the graph's rule is taken, its action carried back and its target
      put in host terms - choosing by bands, as a compiled state does, and in source order. */
  lemma InstanceMeaning(graphs: Graphs, w: World, g: Graft, st: State, names: map<string, string>, tuple: seq<nat>)
    requires GraftResolved(graphs, w, g) && Wide(st.rules, graphs[g.target].arity)
    requires |tuple| == w.arity && InRange(g.comp, w.arity, tuple)
    ensures AllFit(st.rules, g.comp)
    ensures var rows, remap := Spliced(st, g.comp, w.arity, g.cont, graphs[g.target].params, names).rules,
                               Remapping(g.cont, graphs[g.target].params, names);
            && BandedOutcome(rows, tuple) == BandedWalk(st.rules, g.comp, remap, tuple)
            && FirstOutcome(rows, tuple) == Walk(st.rules, g.comp, remap, tuple)
  {
    hide SpliceRules, FirstOutcome, BandedOutcome, BandedWalk, Walk, Remapping, Reserved;
    CanSplice(graphs, w, g, st.rules);
    BandedSplice(st.rules, g.comp, st.line, Remapping(g.cont, graphs[g.target].params, names), tuple);
    SplicePreservesMeaning(st.rules, g.comp, st.line, Remapping(g.cont, graphs[g.target].params, names), tuple);
  }
}
