/** The graft-dependency graph: which graph definitions graft which.  Expansion only ends if it has
    no cycle; the three-colour search decides that and gives the rank that expansion descends. */
module TmGraftGraph {
  import opened Options

  /** The graft targets of every graph definition. */
  type Deps = map<string, seq<string>>

  /** Graph v grafts graph w; a target that is no graph definition is passed over. */
  predicate Grafts(deps: Deps, v: string, w: string)
  {
    v in deps && w in deps && w in deps[v]
  }

  ghost predicate IsWalk(deps: Deps, p: seq<string>)
  {
    forall i | 0 <= i < |p| - 1 :: Grafts(deps, p[i], p[i + 1])
  }

  ghost predicate Cyclic(deps: Deps)
  {
    exists p :: IsCycle(deps, p)
  }

  ghost predicate IsCycle(deps: Deps, p: seq<string>)
  {
    |p| >= 2 && IsWalk(deps, p) && p[0] == p[|p| - 1]
  }

  datatype Color = Grey | Black

  /** Every graph's targets stand before it. */
  ghost predicate Topological(deps: Deps, order: seq<string>)
  {
    forall i, w | 0 <= i < |order| && Grafts(deps, order[i], w) :: w in order[..i]
  }

  /** Grey graphs are the current path, black ones are done and listed targets first. */
  ghost predicate Searching(deps: Deps, color: map<string, Color>, path: seq<string>, order: seq<string>)
  {
    && color.Keys <= deps.Keys && IsWalk(deps, path) && Topological(deps, order)
    && (forall v :: v in path <==> v in color && color[v] == Grey)
    && (forall v :: v in order <==> v in color && color[v] == Black)
  }

  /** A grey target closes a cycle. */
  lemma GreyCloses(deps: Deps, path: seq<string>, target: string)
    requires path != [] && IsWalk(deps, path) && target in path && Grafts(deps, path[|path| - 1], target)
    ensures Cyclic(deps)
  {
    var i :| 0 <= i < |path| && path[i] == target;
    var p := path[i..] + [target];
    assert forall k | 0 <= k < |p| - 1 :: p[k] == path[i + k];
    assert IsCycle(deps, p);
  }

  method Search(deps: Deps, name: string, color: map<string, Color>, ghost path: seq<string>, ghost order: seq<string>)
    returns (cycle: Option<string>, color': map<string, Color>, ghost order': seq<string>)
    requires Searching(deps, color, path, order) && name in deps && name !in color
    requires path != [] ==> Grafts(deps, path[|path| - 1], name)
    ensures cycle.Some? ==> Cyclic(deps)
    ensures cycle.None? ==> Searching(deps, color', path, order') && name in order'
    ensures color.Keys <= color'.Keys && forall v | v in order :: v in order'
    decreases deps.Keys - color.Keys
  {
    color' := color[name := Grey];
    order' := order;
    ghost var here := path + [name];
    Enter(deps, name, color, path, order);
    for k := 0 to |deps[name]|
      invariant Searching(deps, color', here, order')
      invariant color.Keys + {name} <= color'.Keys
      invariant forall v | v in order :: v in order'
      invariant forall m | 0 <= m < k && deps[name][m] in deps :: deps[name][m] in order'
    {
      var target := deps[name][k];
      if target in deps {
        if target in color' && color'[target] == Grey {
          GreyCloses(deps, here, target);
          return Some(target), color', order';
        }
        if target !in color' {
          cycle, color', order' := Search(deps, target, color', here, order');
          if cycle.Some? {
            return;
          }
        }
      }
    }
    Leave(deps, name, color', path, order');
    color' := color'[name := Black];
    order' := order' + [name];
    cycle := None;
  }

  lemma Enter(deps: Deps, name: string, color: map<string, Color>, path: seq<string>, order: seq<string>)
    requires Searching(deps, color, path, order) && name in deps && name !in color
    requires path != [] ==> Grafts(deps, path[|path| - 1], name)
    ensures Searching(deps, color[name := Grey], path + [name], order)
  {
  }

  lemma Leave(deps: Deps, name: string, color: map<string, Color>, path: seq<string>, order: seq<string>)
    requires Searching(deps, color, path + [name], order) && name in deps && name !in path
    requires forall w | Grafts(deps, name, w) :: w in order
    ensures Searching(deps, color[name := Black], path, order + [name])
  {
    var longer := order + [name];
    assert (path + [name])[|path|] == name;
    forall i, w | 0 <= i < |longer| && Grafts(deps, longer[i], w) ensures w in longer[..i] {
      if i < |order| {
        assert longer[..i] == order[..i];
      } else {
        assert longer[..i] == order;
      }
    }
    forall i | 0 <= i < |path| - 1 ensures Grafts(deps, path[i], path[i + 1]) {
      assert Grafts(deps, (path + [name])[i], (path + [name])[i + 1]);
    }
    forall v ensures v in path <==> v in color[name := Black] && color[name := Black][v] == Grey {
      assert v in path + [name] <==> v in path || v == name;
    }
  }

  function Rank(order: seq<string>, i: nat, v: string): nat
    requires i <= |order|
    decreases |order| - i
  {
    if i == |order| || order[i] == v then i else Rank(order, i + 1, v)
  }

  lemma {:induction false} RankFirst(order: seq<string>, i: nat, k: nat)
    requires i <= k < |order|
    ensures Rank(order, i, order[k]) <= k
    decreases k - i
  {
    if i < k && order[i] != order[k] {
      RankFirst(order, i + 1, k);
    }
  }

  lemma {:induction false} RankAt(order: seq<string>, i: nat, v: string)
    requires i <= |order| && v in order[i..]
    ensures Rank(order, i, v) < |order| && order[Rank(order, i, v)] == v
    decreases |order| - i
  {
    if order[i] != v {
      assert order[i..] == [order[i]] + order[i + 1..];
      RankAt(order, i + 1, v);
    }
  }

  /** Every graph ranks above the graphs it grafts. */
  ghost predicate Ranked(deps: Deps, order: seq<string>)
  {
    forall v, w | Grafts(deps, v, w) :: Rank(order, 0, w) < Rank(order, 0, v)
  }

  lemma TopologicalRanks(deps: Deps, order: seq<string>)
    requires Topological(deps, order) && forall v | v in deps :: v in order
    ensures Ranked(deps, order)
  {
    forall v, w | Grafts(deps, v, w) ensures Rank(order, 0, w) < Rank(order, 0, v) {
      assert order[0..] == order;
      RankAt(order, 0, v);
      var i := Rank(order, 0, v);
      assert w in order[..i];
      var k :| 0 <= k < i && order[k] == w;
      RankFirst(order, 0, k);
    }
  }

  lemma {:induction false} WalkDescends(deps: Deps, order: seq<string>, p: seq<string>, i: nat)
    requires Ranked(deps, order) && IsWalk(deps, p) && 0 < i < |p|
    ensures Rank(order, 0, p[i]) < Rank(order, 0, p[0])
  {
    assert Grafts(deps, p[i - 1], p[i]);
    if i > 1 {
      WalkDescends(deps, order, p, i - 1);
    }
  }

  lemma RankedIsAcyclic(deps: Deps, order: seq<string>)
    requires Ranked(deps, order)
    ensures !Cyclic(deps)
  {
    forall p ensures !IsCycle(deps, p) {
      if |p| >= 2 && IsWalk(deps, p) {
        WalkDescends(deps, order, p, |p| - 1);
      }
    }
  }

  /** Accepts exactly the acyclic graft graphs, with a rank that falls along every graft. */
  method CheckAcyclicity(deps: Deps) returns (cycle: Option<string>, ghost order: seq<string>)
    ensures cycle.None? <==> !Cyclic(deps)
    ensures cycle.None? ==> Ranked(deps, order)
  {
    var color: map<string, Color> := map[];
    order := [];
    var todo := deps.Keys;
    while todo != {}
      invariant Searching(deps, color, [], order) && todo <= deps.Keys
      invariant forall v | v in deps && v !in todo :: v in order
      decreases |todo|
    {
      var name :| name in todo;
      todo := todo - {name};
      if name !in color {
        cycle, color, order := Search(deps, name, color, [], order);
        if cycle.Some? {
          return;
        }
      } else {
        assert name !in [];
      }
    }
    cycle := None;
    TopologicalRanks(deps, order);
    RankedIsAcyclic(deps, order);
  }
}
