/** Reachability in a directed graph given by its successor function. */
module Graphs {

  ghost predicate Path<V(!new)>(succ: V -> seq<V>, p: seq<V>)
  {
    p != [] && forall i | 0 <= i < |p| - 1 :: p[i + 1] in succ(p[i])
  }

  ghost predicate Reachable<V(!new)>(succ: V -> seq<V>, roots: seq<V>, v: V)
  {
    exists p :: Path(succ, p) && p[0] in roots && p[|p| - 1] == v
  }

  lemma RootReachable<V(!new)>(succ: V -> seq<V>, roots: seq<V>, v: V)
    requires v in roots
    ensures Reachable(succ, roots, v)
  {
    assert Path(succ, [v]) && [v][0] in roots && [v][|[v]| - 1] == v;
  }

  lemma StepReachable<V(!new)>(succ: V -> seq<V>, roots: seq<V>, v: V, w: V)
    requires Reachable(succ, roots, v)
    requires w in succ(v)
    ensures Reachable(succ, roots, w)
  {
    var p :| Path(succ, p) && p[0] in roots && p[|p| - 1] == v;
    var q := p + [w];
    assert Path(succ, q) && q[0] in roots && q[|q| - 1] == w;
  }

  /** A set that holds the roots and every successor of its members holds all that is reachable. */
  lemma ReachableInClosed<V(!new)>(succ: V -> seq<V>, roots: seq<V>, closed: set<V>, v: V)
    requires forall r | r in roots :: r in closed
    requires forall u, w | u in closed && w in succ(u) :: w in closed
    requires Reachable(succ, roots, v)
    ensures v in closed
  {
    var p :| Path(succ, p) && p[0] in roots && p[|p| - 1] == v;
    PathInClosed(succ, closed, p, |p| - 1);
  }

  lemma {:induction false} PathInClosed<V(!new)>(succ: V -> seq<V>, closed: set<V>, p: seq<V>, i: nat)
    requires Path(succ, p) && i < |p|
    requires p[0] in closed
    requires forall u, w | u in closed && w in succ(u) :: w in closed
    ensures p[i] in closed
  {
    if i > 0 {
      PathInClosed(succ, closed, p, i - 1);
    }
  }
}
