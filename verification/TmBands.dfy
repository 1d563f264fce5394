/** Row bands: code generation puts exact rows first, then partial ones, then catch-alls.  Which
    rule a state then picks, and when that agrees with splicing. */
module TmBands {
  import opened Options
  import opened TmRules

  predicate IsExact(pattern: seq<Cell>)
  {
    forall k | 0 <= k < |pattern| :: pattern[k].Sym?
  }

  predicate IsCatchAll(pattern: seq<Cell>)
  {
    !IsExact(pattern) && IsAllWild(pattern)
  }

  predicate IsPartial(pattern: seq<Cell>)
  {
    !IsExact(pattern) && !IsAllWild(pattern)
  }

  predicate IsSelective(pattern: seq<Cell>)
  {
    !IsCatchAll(pattern)
  }

  // ----- the emitted order -----

  /** The indices below n of the rules whose pattern is in a band, ascending. */
  function Indices(rules: seq<Rule>, keep: seq<Cell> -> bool, n: nat): seq<nat>
    requires n <= |rules|
  {
    if n == 0 then []
    else if keep(rules[n - 1].pattern) then Indices(rules, keep, n - 1) + [n - 1]
    else Indices(rules, keep, n - 1)
  }

  /** Lexicographic order on exact rows; wildcards sort last. */
  predicate RowLeq(a: seq<Cell>, b: seq<Cell>, i: nat)
    decreases |a| - i
  {
    if i >= |a| || i >= |b| then true
    else if a[i] == b[i] then RowLeq(a, b, i + 1)
    else b[i].Wild? || (a[i].Sym? && a[i].s < b[i].s)
  }

  /** Inserts rule k behind the rules that do not come after it. */
  function Insert(rules: seq<Rule>, sorted: seq<nat>, k: nat): seq<nat>
    requires k < |rules| && forall j | 0 <= j < |sorted| :: sorted[j] < |rules|
  {
    if sorted == [] then [k]
    else
      var last := sorted[|sorted| - 1];
      if RowLeq(rules[last].pattern, rules[k].pattern, 0) then sorted + [k]
      else Insert(rules, sorted[..|sorted| - 1], k) + [last]
  }

  function Sort(rules: seq<Rule>, idx: seq<nat>, n: nat): (r: seq<nat>)
    requires n <= |idx| && forall j | 0 <= j < |idx| :: idx[j] < |rules|
    ensures multiset(r) == multiset(idx[..n])
    ensures forall j | 0 <= j < |r| :: r[j] < |rules|
  {
    if n == 0 then []
    else
      assert idx[..n] == idx[..n - 1] + [idx[n - 1]];
      var shorter := Sort(rules, idx, n - 1);
      InsertKeeps(rules, shorter, idx[n - 1]);
      Insert(rules, shorter, idx[n - 1])
  }

  lemma {:induction false} InsertKeeps(rules: seq<Rule>, sorted: seq<nat>, k: nat)
    requires k < |rules| && forall j | 0 <= j < |sorted| :: sorted[j] < |rules|
    ensures multiset(Insert(rules, sorted, k)) == multiset(sorted) + multiset{k}
    ensures forall j | 0 <= j < |Insert(rules, sorted, k)| :: Insert(rules, sorted, k)[j] < |rules|
  {
    hide RowLeq;
    if sorted != [] {
      var front, last := sorted[..|sorted| - 1], sorted[|sorted| - 1];
      InsertKeeps(rules, front, k);
      LastCounts(sorted);
      LastCounts(Insert(rules, front, k) + [last]);
    }
  }

  lemma LastCounts(s: seq<nat>)
    requires s != []
    ensures multiset(s) == multiset(s[..|s| - 1]) + multiset{s[|s| - 1]}
  {
    assert s == s[..|s| - 1] + [s[|s| - 1]];
  }

  lemma {:induction false} IndicesExact(rules: seq<Rule>, keep: seq<Cell> -> bool, n: nat)
    requires n <= |rules|
    ensures forall k: nat :: k in Indices(rules, keep, n) <==> k < n && keep(rules[k].pattern)
    ensures forall a, b | 0 <= a < b < |Indices(rules, keep, n)| ::
              Indices(rules, keep, n)[a] < Indices(rules, keep, n)[b]
  {
    if n > 0 {
      IndicesExact(rules, keep, n - 1);
      var shorter := Indices(rules, keep, n - 1);
      forall a | 0 <= a < |shorter| ensures shorter[a] < n - 1 {
        assert shorter[a] in shorter;
      }
    }
  }

  lemma IndicesBelow(rules: seq<Rule>, keep: seq<Cell> -> bool)
    ensures forall j | 0 <= j < |Indices(rules, keep, |rules|)| :: Indices(rules, keep, |rules|)[j] < |rules|
  {
    hide Indices;
    IndicesExact(rules, keep, |rules|);
    forall j | 0 <= j < |Indices(rules, keep, |rules|)| ensures Indices(rules, keep, |rules|)[j] < |rules| {
      assert Indices(rules, keep, |rules|)[j] in Indices(rules, keep, |rules|);
    }
  }

  /** The order the match table lists a state's rows in. */
  function EmittedRowOrder(rules: seq<Rule>): seq<nat>
  {
    IndicesBelow(rules, IsExact);
    var exact := Indices(rules, IsExact, |rules|);
    Sort(rules, exact, |exact|)
    + Indices(rules, IsPartial, |rules|)
    + Indices(rules, IsCatchAll, |rules|)
  }

  method ComputeRowOrder(rules: seq<Rule>) returns (order: seq<nat>)
    ensures order == EmittedRowOrder(rules)
  {
    var exact: seq<nat>, partial: seq<nat>, catchAll: seq<nat> := [], [], [];
    for k := 0 to |rules|
      invariant exact == Indices(rules, IsExact, k)
      invariant partial == Indices(rules, IsPartial, k)
      invariant catchAll == Indices(rules, IsCatchAll, k)
    {
      if IsExact(rules[k].pattern) {
        exact := exact + [k];
      } else if IsAllWild(rules[k].pattern) {
        catchAll := catchAll + [k];
      } else {
        partial := partial + [k];
      }
    }
    IndicesBelow(rules, IsExact);
    order := Sort(rules, exact, |exact|) + partial + catchAll;
  }

  /** The order lists every rule once. */
  lemma OrderIsPermutation(rules: seq<Rule>)
    ensures forall k: nat :: multiset(EmittedRowOrder(rules))[k] == if k < |rules| then 1 else 0
  {
    hide Sort, IsExact, IsAllWild;
    IndicesBelow(rules, IsExact);
    var exact := Indices(rules, IsExact, |rules|);
    var partial := Indices(rules, IsPartial, |rules|);
    var catchAll := Indices(rules, IsCatchAll, |rules|);
    assert exact[..|exact|] == exact;
    forall k: nat
      ensures multiset(EmittedRowOrder(rules))[k] == if k < |rules| then 1 else 0
    {
      IndicesOnce(rules, IsExact, |rules|, k);
      IndicesOnce(rules, IsPartial, |rules|, k);
      IndicesOnce(rules, IsCatchAll, |rules|, k);
    }
  }

  lemma {:induction false} IndicesOnce(rules: seq<Rule>, keep: seq<Cell> -> bool, n: nat, k: nat)
    requires n <= |rules|
    ensures multiset(Indices(rules, keep, n))[k] == if k < n && keep(rules[k].pattern) then 1 else 0
  {
    if n > 0 {
      IndicesOnce(rules, keep, n - 1, k);
    }
  }

  // ----- the discipline of the emitted table -----

  lemma {:induction false} RowLeqTotal(a: seq<Cell>, b: seq<Cell>, i: nat)
    ensures RowLeq(a, b, i) || RowLeq(b, a, i)
    decreases |a| - i
  {
    if i < |a| && i < |b| && a[i] == b[i] {
      RowLeqTotal(a, b, i + 1);
    }
  }

  lemma {:induction false} RowLeqTransitive(a: seq<Cell>, b: seq<Cell>, c: seq<Cell>, i: nat)
    requires |a| == |b| == |c| && RowLeq(a, b, i) && RowLeq(b, c, i)
    ensures RowLeq(a, c, i)
    decreases |a| - i
  {
    if i < |a| && a[i] == b[i] && b[i] == c[i] {
      RowLeqTransitive(a, b, c, i + 1);
    }
  }

  ghost predicate InOrder(rules: seq<Rule>, sorted: seq<nat>)
  {
    forall i, k | 0 <= i < k < |sorted| && sorted[i] < |rules| && sorted[k] < |rules| ::
      RowLeq(rules[sorted[i]].pattern, rules[sorted[k]].pattern, 0)
  }

  ghost predicate SameWidth(rules: seq<Rule>)
  {
    forall i, k | 0 <= i < |rules| && 0 <= k < |rules| :: |rules[i].pattern| == |rules[k].pattern|
  }

  lemma {:induction false} InsertOrders(rules: seq<Rule>, sorted: seq<nat>, k: nat)
    requires SameWidth(rules) && k < |rules| && forall j | 0 <= j < |sorted| :: sorted[j] < |rules|
    requires InOrder(rules, sorted)
    ensures InOrder(rules, Insert(rules, sorted, k))
  {
    hide RowLeq;
    if sorted != [] {
      var last := sorted[|sorted| - 1];
      var front := sorted[..|sorted| - 1];
      if RowLeq(rules[last].pattern, rules[k].pattern, 0) {
        forall j | 0 <= j < |sorted| ensures RowLeq(rules[sorted[j]].pattern, rules[k].pattern, 0) {
          if j < |sorted| - 1 {
            RowLeqTransitive(rules[sorted[j]].pattern, rules[last].pattern, rules[k].pattern, 0);
          }
        }
      } else {
        RowLeqTotal(rules[last].pattern, rules[k].pattern, 0);
        InsertOrders(rules, front, k);
        InsertKeeps(rules, front, k);
        var r := Insert(rules, front, k);
        forall j | 0 <= j < |r| ensures RowLeq(rules[r[j]].pattern, rules[last].pattern, 0) {
          assert r[j] in multiset(r);
          if r[j] != k {
            assert r[j] in front;
          }
        }
      }
    }
  }

  lemma {:induction false} SortOrders(rules: seq<Rule>, idx: seq<nat>, n: nat)
    requires SameWidth(rules) && n <= |idx| && forall j | 0 <= j < |idx| :: idx[j] < |rules|
    ensures InOrder(rules, Sort(rules, idx, n))
  {
    hide RowLeq, Insert;
    if n > 0 {
      SortOrders(rules, idx, n - 1);
      InsertOrders(rules, Sort(rules, idx, n - 1), idx[n - 1]);
    }
  }

  ghost predicate AllIn(rules: seq<Rule>, rows: seq<nat>, keep: seq<Cell> -> bool)
  {
    forall k | 0 <= k < |rows| :: rows[k] < |rules| && keep(rules[rows[k]].pattern)
  }

  /** The table discipline: the exact rows, ascending and pairwise different, then the partial rows
      in source order, then the catch-alls. */
  ghost predicate Disciplined(rules: seq<Rule>, exact: seq<nat>, partial: seq<nat>, catchAll: seq<nat>)
  {
    && AllIn(rules, exact, IsExact) && AllIn(rules, partial, IsPartial) && AllIn(rules, catchAll, IsCatchAll)
    && InOrder(rules, exact)
    && (forall i, k | 0 <= i < k < |exact| :: rules[exact[i]].pattern != rules[exact[k]].pattern)
    && (forall i, k | 0 <= i < k < |partial| :: partial[i] < partial[k])
  }

  lemma OrderDisciplined(rules: seq<Rule>)
    requires SameWidth(rules) && NoExactConflict(rules) && forall k | 0 <= k < |rules| :: rules[k].pattern != []
    ensures exists exact, partial, catchAll ::
              Disciplined(rules, exact, partial, catchAll) && EmittedRowOrder(rules) == exact + partial + catchAll
  {
    hide RowLeq, Insert, Sort, Indices, IsExact, IsAllWild, IsLoose;
    IndicesBelow(rules, IsExact);
    var idx := Indices(rules, IsExact, |rules|);
    assert idx[..|idx|] == idx;
    var exact := Sort(rules, idx, |idx|);
    var partial := Indices(rules, IsPartial, |rules|);
    var catchAll := Indices(rules, IsCatchAll, |rules|);
    IndicesAllIn(rules, IsExact);
    IndicesAllIn(rules, IsPartial);
    IndicesAllIn(rules, IsCatchAll);
    IndicesExact(rules, IsPartial, |rules|);
    SortOrders(rules, idx, |idx|);
    forall k | 0 <= k < |exact| ensures exact[k] < |rules| && IsExact(rules[exact[k]].pattern) {
      assert exact[k] in multiset(exact) && exact[k] in multiset(idx);
    }
    forall i, k | 0 <= i < k < |exact| ensures rules[exact[i]].pattern != rules[exact[k]].pattern {
      SortDistinct(rules, i, k);
      ApartRows(rules, exact[i], exact[k]);
    }
    assert Disciplined(rules, exact, partial, catchAll);
  }

  lemma IndicesAllIn(rules: seq<Rule>, keep: seq<Cell> -> bool)
    ensures AllIn(rules, Indices(rules, keep, |rules|), keep)
  {
    hide Indices;
    IndicesExact(rules, keep, |rules|);
    var idx := Indices(rules, keep, |rules|);
    forall k | 0 <= k < |idx| ensures idx[k] < |rules| && keep(rules[idx[k]].pattern) {
      assert idx[k] in idx;
    }
  }

  lemma ApartRows(rules: seq<Rule>, i: nat, k: nat)
    requires NoExactConflict(rules) && i < |rules| && k < |rules| && i != k
    requires IsExact(rules[i].pattern) && IsExact(rules[k].pattern) && rules[i].pattern != [] && rules[k].pattern != []
    ensures rules[i].pattern != rules[k].pattern
  {
    ExactIsTight(rules[i].pattern);
    ExactIsTight(rules[k].pattern);
    hide IsExact, IsLoose;
    if i < k {
    } else {
    }
  }

  lemma SortDistinct(rules: seq<Rule>, i: nat, k: nat)
    requires forall j | 0 <= j < |Indices(rules, IsExact, |rules|)| :: Indices(rules, IsExact, |rules|)[j] < |rules|
    requires i < k < |Sort(rules, Indices(rules, IsExact, |rules|), |Indices(rules, IsExact, |rules|)|)|
    ensures var exact := Sort(rules, Indices(rules, IsExact, |rules|), |Indices(rules, IsExact, |rules|)|);
            exact[i] != exact[k]
  {
    hide Sort, Indices, IsExact;
    var idx := Indices(rules, IsExact, |rules|);
    var exact := Sort(rules, idx, |idx|);
    assert idx[..|idx|] == idx;
    IndicesOnce(rules, IsExact, |rules|, exact[i]);
    if exact[i] == exact[k] {
      Twice(exact, i, k);
    }
  }

  lemma Twice(s: seq<nat>, i: nat, k: nat)
    requires i < k < |s| && s[i] == s[k]
    ensures multiset(s)[s[i]] >= 2
  {
    assert s == s[..i] + [s[i]] + s[i + 1..k] + [s[k]] + s[k + 1..];
  }

  // ----- what the order picks -----

  /** The first of the first n rules that is in a band and matches. */
  ghost function FirstKept(rules: seq<Rule>, keep: seq<Cell> -> bool, n: nat, tuple: seq<nat>): (r: Option<nat>)
    requires n <= |rules|
    ensures r.Some? ==> r.value < n && keep(rules[r.value].pattern) && Matches(rules[r.value].pattern, tuple)
    ensures forall k | 0 <= k < (if r.Some? then r.value else n) && keep(rules[k].pattern) ::
              !Matches(rules[k].pattern, tuple)
  {
    if n == 0 then None
    else
      var earlier := FirstKept(rules, keep, n - 1, tuple);
      if earlier.Some? then earlier
      else if keep(rules[n - 1].pattern) && Matches(rules[n - 1].pattern, tuple) then Some(n - 1)
      else None
  }

  function OrElse(a: Option<nat>, b: Option<nat>): Option<nat>
  {
    if a.Some? then a else b
  }

  /** The matching exact rule, else the first matching partial one, else the first catch-all. */
  ghost function BandPick(rules: seq<Rule>, tuple: seq<nat>): Option<nat>
  {
    OrElse(FirstKept(rules, IsExact, |rules|, tuple),
           OrElse(FirstKept(rules, IsPartial, |rules|, tuple),
                  FirstKept(rules, IsCatchAll, |rules|, tuple)))
  }

  /** The first rule of an order that matches. */
  ghost function OrderPick(rules: seq<Rule>, order: seq<nat>, i: nat, tuple: seq<nat>): (r: Option<nat>)
    requires i <= |order| && forall j | 0 <= j < |order| :: order[j] < |rules|
    ensures r.Some? ==> r.value in order && r.value < |rules| && Matches(rules[r.value].pattern, tuple)
    decreases |order| - i
  {
    if i == |order| then None
    else if Matches(rules[order[i]].pattern, tuple) then Some(order[i])
    else OrderPick(rules, order, i + 1, tuple)
  }

  /** Rows that are allowed to repeat an earlier one: those with a wildcard. */
  predicate IsLoose(pattern: seq<Cell>)
  {
    IsAllWild(pattern) || exists k :: 0 <= k < |pattern| && pattern[k] == Wild
  }

  /** No two exact rows are the same. */
  ghost predicate NoExactConflict(rules: seq<Rule>)
  {
    forall i, j | 0 <= i < j < |rules| && !IsLoose(rules[j].pattern) :: rules[i].pattern != rules[j].pattern
  }

  /** Distinct exact rows match distinct tuples. */
  lemma ExactUnique(rules: seq<Rule>, i: nat, j: nat, tuple: seq<nat>)
    requires NoExactConflict(rules) && tuple != [] && i < |rules| && j < |rules|
    requires IsExact(rules[i].pattern) && IsExact(rules[j].pattern)
    requires Matches(rules[i].pattern, tuple) && Matches(rules[j].pattern, tuple)
    ensures i == j
  {
    SameTuple(rules[i].pattern, rules[j].pattern, tuple);
    ExactIsTight(rules[i].pattern);
    hide IsExact, IsLoose;
    if i < j {
    } else if j < i {
    }
  }

  lemma ExactIsTight(pattern: seq<Cell>)
    requires IsExact(pattern) && pattern != []
    ensures !IsLoose(pattern)
  {
    assert pattern[0].Sym?;
  }

  lemma SameTuple(a: seq<Cell>, b: seq<Cell>, tuple: seq<nat>)
    requires IsExact(a) && IsExact(b) && Matches(a, tuple) && Matches(b, tuple)
    ensures a == b
  {
    forall k | 0 <= k < |tuple| ensures a[k] == b[k] {
      assert CellMatches(a[k], tuple[k]) && CellMatches(b[k], tuple[k]);
    }
  }

  lemma {:induction false} OrderPickSplit(rules: seq<Rule>, a: seq<nat>, b: seq<nat>, i: nat, tuple: seq<nat>)
    requires i <= |a|
    requires forall j | 0 <= j < |a| :: a[j] < |rules|
    requires forall j | 0 <= j < |b| :: b[j] < |rules|
    ensures forall j | 0 <= j < |a + b| :: (a + b)[j] < |rules|
    ensures OrderPick(rules, a + b, i, tuple)
         == OrElse(OrderPick(rules, a, i, tuple), OrderPick(rules, b, 0, tuple))
    decreases |a| - i
  {
    hide Matches;
    if i < |a| {
      OrderPickSplit(rules, a, b, i + 1, tuple);
    } else {
      OrderPickShift(rules, a, b, 0, tuple);
    }
  }

  lemma {:induction false} OrderPickShift(rules: seq<Rule>, a: seq<nat>, b: seq<nat>, i: nat, tuple: seq<nat>)
    requires i <= |b|
    requires forall j | 0 <= j < |a| :: a[j] < |rules|
    requires forall j | 0 <= j < |b| :: b[j] < |rules|
    ensures forall j | 0 <= j < |a + b| :: (a + b)[j] < |rules|
    ensures OrderPick(rules, a + b, |a| + i, tuple) == OrderPick(rules, b, i, tuple)
    decreases |b| - i
  {
    hide Matches;
    if i < |b| {
      OrderPickShift(rules, a, b, i + 1, tuple);
    }
  }

  lemma {:induction false} OrderPickFacts(rules: seq<Rule>, order: seq<nat>, i: nat, tuple: seq<nat>)
    requires i <= |order| && forall j | 0 <= j < |order| :: order[j] < |rules|
    ensures var r := OrderPick(rules, order, i, tuple);
            && (r.Some? ==> exists j :: i <= j < |order| && order[j] == r.value
                              && Matches(rules[r.value].pattern, tuple)
                              && forall k | i <= k < j :: !Matches(rules[order[k]].pattern, tuple))
            && (r.None? ==> forall k | i <= k < |order| :: !Matches(rules[order[k]].pattern, tuple))
    decreases |order| - i
  {
    hide Matches;
    if i < |order| {
      OrderPickFacts(rules, order, i + 1, tuple);
    }
  }

  /** Over one band in source order, the order picks the band's first matching rule. */
  lemma BandInOrder(rules: seq<Rule>, keep: seq<Cell> -> bool, tuple: seq<nat>)
    ensures forall j | 0 <= j < |Indices(rules, keep, |rules|)| :: Indices(rules, keep, |rules|)[j] < |rules|
    ensures OrderPick(rules, Indices(rules, keep, |rules|), 0, tuple) == FirstKept(rules, keep, |rules|, tuple)
  {
    hide Matches, Indices, FirstKept, OrderPick;
    IndicesBelow(rules, keep);
    IndicesExact(rules, keep, |rules|);
    var idx := Indices(rules, keep, |rules|);
    OrderPickFacts(rules, idx, 0, tuple);
    var a, b := OrderPick(rules, idx, 0, tuple), FirstKept(rules, keep, |rules|, tuple);
    if b.Some? {
      assert b.value in idx;
      var m :| 0 <= m < |idx| && idx[m] == b.value;
      assert a.Some?;
    }
  }

  /** Among exact rows without duplicates any order picks the same rule. */
  lemma ExactInOrder(rules: seq<Rule>, order: seq<nat>, tuple: seq<nat>)
    requires NoExactConflict(rules) && tuple != [] && forall j | 0 <= j < |order| :: order[j] < |rules|
    requires forall k: nat :: k in order <==> k < |rules| && IsExact(rules[k].pattern)
    ensures OrderPick(rules, order, 0, tuple) == FirstKept(rules, IsExact, |rules|, tuple)
  {
    hide Matches, FirstKept, OrderPick, IsExact, NoExactConflict;
    OrderPickFacts(rules, order, 0, tuple);
    var a, b := OrderPick(rules, order, 0, tuple), FirstKept(rules, IsExact, |rules|, tuple);
    if b.Some? {
      assert b.value in order;
      assert a.Some?;
      ExactUnique(rules, a.value, b.value, tuple);
    }
  }

  /** When the row check accepts a state, the emitted order picks the unique matching exact row,
      else the first partial one, else the first catch-all. */
  lemma BandOrderSound(rules: seq<Rule>, tuple: seq<nat>)
    requires NoExactConflict(rules) && tuple != []
    ensures forall j | 0 <= j < |EmittedRowOrder(rules)| :: EmittedRowOrder(rules)[j] < |rules|
    ensures OrderPick(rules, EmittedRowOrder(rules), 0, tuple) == BandPick(rules, tuple)
  {
    hide Matches, FirstKept, OrderPick, IsExact, IsPartial, IsCatchAll, NoExactConflict, Indices, Sort;
    IndicesBelow(rules, IsExact);
    IndicesBelow(rules, IsPartial);
    IndicesBelow(rules, IsCatchAll);
    var exact := Indices(rules, IsExact, |rules|);
    var sorted := Sort(rules, exact, |exact|);
    var partial := Indices(rules, IsPartial, |rules|);
    var catchAll := Indices(rules, IsCatchAll, |rules|);
    assert exact[..|exact|] == exact;
    IndicesExact(rules, IsExact, |rules|);
    forall k: nat ensures k in sorted <==> k < |rules| && IsExact(rules[k].pattern) {
      assert k in sorted <==> k in multiset(sorted);
      assert k in exact <==> k in multiset(exact);
    }
    ExactInOrder(rules, sorted, tuple);
    BandInOrder(rules, IsPartial, tuple);
    BandInOrder(rules, IsCatchAll, tuple);
    OrderPickSplit(rules, sorted + partial, catchAll, 0, tuple);
    OrderPickSplit(rules, sorted, partial, 0, tuple);
  }

  // ----- the row check -----

  /** A later row with a wildcard that repeats an earlier one can never be picked. */
  ghost predicate Shadowed(rules: seq<Rule>, j: nat)
    requires j < |rules|
  {
    IsLoose(rules[j].pattern) && exists i :: 0 <= i < j && rules[i].pattern == rules[j].pattern
  }

  /** Rejects two identical exact rows; reports every later row a non-exact one shadows. */
  method CheckStateRows(rules: seq<Rule>) returns (ok: bool, shadowed: seq<nat>)
    ensures ok <==> NoExactConflict(rules)
    ensures ok ==> forall j: nat :: j in shadowed <==> j < |rules| && Shadowed(rules, j)
  {
    shadowed := [];
    for j := 0 to |rules|
      invariant forall a, b | 0 <= a < b < j && !IsLoose(rules[b].pattern) :: rules[a].pattern != rules[b].pattern
      invariant forall k: nat :: k in shadowed <==> k < j && Shadowed(rules, k)
    {
      var pj := rules[j].pattern;
      var i := 0;
      while i < j && rules[i].pattern != pj
        invariant 0 <= i <= j
        invariant forall k | 0 <= k < i :: rules[k].pattern != pj
      {
        i := i + 1;
      }
      if i < j {
        if IsLoose(pj) {
          shadowed := shadowed + [j];
        } else {
          return false, shadowed;
        }
      }
    }
    ok := true;
  }
}
