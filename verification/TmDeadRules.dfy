/** What dropping rules that can never fire does to a world: expansion commutes with it, every state
    picks the same row as before, and at most one catch-all row is left. */
module TmDeadRules {
  import opened Options
  import opened TmRules
  import opened TmBands
  import opened TmRanges
  import opened TmCalls
  import G = TmGrafts

  predicate CatchAllBefore(rows: seq<Rule>, n: nat)
    requires n <= |rows|
  {
    exists k :: 0 <= k < n && IsCatchAll(rows[k].pattern)
  }

  /** The first n rows without the catch-alls behind another one. */
  function KeptRows(rows: seq<Rule>, n: nat): seq<Rule>
    requires n <= |rows|
  {
    if n == 0 then []
    else if IsCatchAll(rows[n - 1].pattern) && CatchAllBefore(rows, n - 1) then KeptRows(rows, n - 1)
    else KeptRows(rows, n - 1) + [rows[n - 1]]
  }

  // ----- picking a row -----

  /** The rule a choice names. */
  function Chosen(rows: seq<Rule>, pick: Option<nat>): Option<Rule>
    requires pick.Some? ==> pick.value < |rows|
  {
    if pick.Some? then Some(rows[pick.value]) else None
  }

  lemma {:induction false} FirstKeptPrefix(a: seq<Rule>, b: seq<Rule>, keep: seq<Cell> -> bool, n: nat, tuple: seq<nat>)
    requires n <= |a|
    ensures FirstKept(a + b, keep, n, tuple) == FirstKept(a, keep, n, tuple)
  {
    hide Matches;
    if n > 0 {
      FirstKeptPrefix(a, b, keep, n - 1, tuple);
    }
  }

  lemma FirstKeptOneMore(a: seq<Rule>, row: Rule, keep: seq<Cell> -> bool, tuple: seq<nat>)
    ensures var earlier := FirstKept(a, keep, |a|, tuple);
            FirstKept(a + [row], keep, |a| + 1, tuple)
              == OrElse(earlier, if keep(row.pattern) && Matches(row.pattern, tuple) then Some(|a|) else None)
  {
    hide Matches;
    FirstKeptPrefix(a, [row], keep, |a|, tuple);
    assert (a + [row])[|a|] == row;
  }

  ghost predicate OfWidth(rows: seq<Rule>, width: nat)
  {
    forall k | 0 <= k < |rows| :: |rows[k].pattern| == width
  }

  /** A band holds all catch-alls or none. */
  ghost predicate WholeBand(keep: seq<Cell> -> bool)
  {
    forall a, b | IsCatchAll(a) && IsCatchAll(b) && |a| == |b| :: keep(a) == keep(b)
  }

  /** The catch-alls that go never were the first choice. */
  lemma {:induction false} KeptPick(rows: seq<Rule>, keep: seq<Cell> -> bool, n: nat, tuple: seq<nat>)
    requires n <= |rows| && OfWidth(rows, |tuple|) && WholeBand(keep)
    ensures var kept := KeptRows(rows, n);
            Chosen(kept, FirstKept(kept, keep, |kept|, tuple)) == Chosen(rows, FirstKept(rows, keep, n, tuple))
  {
    hide Matches, IsCatchAll, WholeBand, FirstKept;
    FirstKeptNext(rows, keep, n, tuple);
    if n > 0 {
      KeptPick(rows, keep, n - 1, tuple);
      var kept, row := KeptRows(rows, n - 1), rows[n - 1];
      if IsCatchAll(row.pattern) && CatchAllBefore(rows, n - 1) {
        CatchAllSeen(rows, keep, n - 1, tuple);
      } else {
        FirstKeptOneMore(kept, row, keep, tuple);
      }
    } else {
      FirstKeptNext([], keep, 0, tuple);
    }
  }

  lemma FirstKeptNext(rows: seq<Rule>, keep: seq<Cell> -> bool, n: nat, tuple: seq<nat>)
    requires n <= |rows|
    ensures n == 0 ==> FirstKept(rows, keep, n, tuple) == None
    ensures n > 0 ==>
      (var here := keep(rows[n - 1].pattern) && Matches(rows[n - 1].pattern, tuple);
       FirstKept(rows, keep, n, tuple) == OrElse(FirstKept(rows, keep, n - 1, tuple), if here then Some(n - 1) else None))
  {
    hide Matches;
  }

  lemma CatchAllSeen(rows: seq<Rule>, keep: seq<Cell> -> bool, n: nat, tuple: seq<nat>)
    requires n < |rows| && OfWidth(rows, |tuple|) && WholeBand(keep)
    requires IsCatchAll(rows[n].pattern) && CatchAllBefore(rows, n)
    ensures keep(rows[n].pattern) ==> FirstKept(rows, keep, n, tuple).Some?
  {
    var k :| 0 <= k < n && IsCatchAll(rows[k].pattern);
    assert Matches(rows[k].pattern, tuple);
  }

  lemma BandsWhole()
    ensures WholeBand(IsExact) && WholeBand(IsPartial) && WholeBand(IsCatchAll) && WholeBand(_ => true)
  {
    hide IsExact;
  }

  lemma {:induction false} FirstMatchIsFirstKept(rows: seq<Rule>, tuple: seq<nat>)
    ensures FirstMatch(rows, 0, tuple) == FirstKept(rows, _ => true, |rows|, tuple)
  {
    hide Matches, FirstMatch, FirstKept;
    var a, b := FirstMatch(rows, 0, tuple), FirstKept(rows, _ => true, |rows|, tuple);
    if a.Some? && b.Some? {
      assert !(a.value < b.value) && !(b.value < a.value);
    }
  }

  /** Every state picks the same row without them, by bands and in source order. */
  lemma SameChoice(rows: seq<Rule>, tuple: seq<nat>)
    requires OfWidth(rows, |tuple|)
    ensures var kept := KeptRows(rows, |rows|);
            && Chosen(kept, BandPick(kept, tuple)) == Chosen(rows, BandPick(rows, tuple))
            && Chosen(kept, FirstMatch(kept, 0, tuple)) == Chosen(rows, FirstMatch(rows, 0, tuple))
  {
    hide Matches, FirstKept, FirstMatch, KeptRows, IsExact, IsPartial, IsCatchAll, OfWidth, WholeBand;
    BandsWhole();
    KeptPick(rows, IsExact, |rows|, tuple);
    KeptPick(rows, IsPartial, |rows|, tuple);
    KeptPick(rows, IsCatchAll, |rows|, tuple);
    KeptPick(rows, _ => true, |rows|, tuple);
    FirstMatchIsFirstKept(rows, tuple);
    FirstMatchIsFirstKept(KeptRows(rows, |rows|), tuple);
  }

  /** At most one catch-all row is left, so the one that the emitted order puts last is the last row. */
  lemma {:induction false} OneCatchAll(rows: seq<Rule>, n: nat)
    requires n <= |rows|
    ensures CatchAllBefore(KeptRows(rows, n), |KeptRows(rows, n)|) <==> CatchAllBefore(rows, n)
    ensures var kept := KeptRows(rows, n);
            forall i, k | 0 <= i < k < |kept| :: !(IsCatchAll(kept[i].pattern) && IsCatchAll(kept[k].pattern))
  {
    hide IsCatchAll;
    if n > 0 {
      OneCatchAll(rows, n - 1);
      var kept, row := KeptRows(rows, n - 1), rows[n - 1];
      JoinCatchAll(kept, [row]);
      assert CatchAllBefore([row], 1) <==> IsCatchAll([row][0].pattern);
      assert CatchAllBefore(rows, n) <==> CatchAllBefore(rows, n - 1) || IsCatchAll(row.pattern);
    }
  }

  // ----- expansion commutes with dropping -----

  lemma {:induction false} KeptPrefix(a: seq<Rule>, b: seq<Rule>, n: nat)
    requires n <= |a|
    ensures KeptRows(a + b, n) == KeptRows(a, n)
  {
    hide IsCatchAll;
    if n > 0 {
      KeptPrefix(a, b, n - 1);
      CatchAllPrefix(a, b, n - 1);
      assert (a + b)[n - 1] == a[n - 1];
    }
  }

  lemma CatchAllPrefix(a: seq<Rule>, b: seq<Rule>, n: nat)
    requires n <= |a|
    ensures CatchAllBefore(a + b, n) <==> CatchAllBefore(a, n)
  {
    hide IsCatchAll;
    assert forall k | 0 <= k < n :: (a + b)[k] == a[k];
    if CatchAllBefore(a, n) {
      var k :| 0 <= k < n && IsCatchAll(a[k].pattern);
      assert IsCatchAll((a + b)[k].pattern);
    }
  }

  lemma {:induction false} KeptAppend(a: seq<Rule>, b: seq<Rule>, n: nat)
    requires n <= |b| && forall k | 0 <= k < |b| :: !IsCatchAll(b[k].pattern)
    ensures KeptRows(a + b, |a| + n) == KeptRows(a, |a|) + b[..n]
  {
    hide IsCatchAll;
    if n == 0 {
      KeptPrefix(a, b, |a|);
    } else {
      KeptAppend(a, b, n - 1);
      assert (a + b)[|a| + n - 1] == b[n - 1];
      assert b[..n] == b[..n - 1] + [b[n - 1]];
    }
  }

  lemma KeptOneMore(a: seq<Rule>, row: Rule)
    requires IsCatchAll(row.pattern)
    ensures KeptRows(a + [row], |a| + 1) == if CatchAllBefore(a, |a|) then KeptRows(a, |a|) else KeptRows(a, |a|) + [row]
  {
    hide IsCatchAll, CatchAllBefore;
    KeptPrefix(a, [row], |a|);
    CatchAllPrefix(a, [row], |a|);
    assert (a + [row])[|a|] == row;
  }

  lemma {:induction false} SingleProduct<T>(opts: seq<seq<T>>, n: nat)
    requires n <= |opts| && forall k | 0 <= k < n :: |opts[k]| == 1
    ensures |Product(opts, n)| == 1
  {
    if n > 0 {
      SingleProduct(opts, n - 1);
      var shorter := Product(opts, n - 1);
      ExtendByExact(shorter[0], opts[n - 1], 1);
      assert ExtendEach(shorter, opts[n - 1], 0) == [];
    }
  }

  /** An all-wildcard rule has one row, a catch-all; the rows of any other rule are none. */
  lemma RowsShape(names: Names, state: string, r: WrittenRule, tapes: seq<Glyphs>)
    requires Rows(names, state, r, tapes).Ok?
    ensures var rows := Rows(names, state, r, tapes).value;
            && OfWidth(rows, |tapes|) && (CatchAllBefore(rows, |rows|) <==> IsWildRule(r))
            && (IsWildRule(r) ==> |rows| == 1 && IsCatchAll(rows[0].pattern))
            && (!IsWildRule(r) ==> forall i | 0 <= i < |rows| :: !IsCatchAll(rows[i].pattern))
  {
    hide AllOptions, RowsOf, RowOf, Product, Lower, CellOptions, IsCatchAll;
    var rule: SourceRule := RuleWith(r, Lower(names, state, r.transition));
    var opts: seq<seq<Alternative>> := AllOptions(rule.pattern, tapes, |tapes|).value;
    var combos := Product(opts, |opts|);
    var rows := Rows(names, state, r, tapes).value;
    OptionsAt(rule.pattern, tapes, |tapes|);
    RowsAt(rule, tapes, combos, |combos|);
    ProductExact(opts, |opts|);
    forall k | 0 <= k < |tapes|
      ensures r.pattern[k].kind.Any? ==> opts[k] == [(Wild, None)]
      ensures !r.pattern[k].kind.Any? ==> forall o: Alternative | o in opts[k] :: o.0 != Wild
    {
      OptionsWild(r.pattern[k], tapes[k]);
    }
    forall i | 0 <= i < |rows|
      ensures |rows[i].pattern| == |tapes| && (IsWildRule(r) <==> IsCatchAll(rows[i].pattern))
    {
      assert combos[i] in combos;
      RowPattern(rule, tapes, combos[i]);
      ComboCatchAll(r, opts, combos[i]);
    }
    if IsWildRule(r) {
      SingleProduct(opts, |opts|);
      assert IsCatchAll(rows[0].pattern);
    }
  }

  lemma OptionsWild(c: PatternCell, glyphs: Glyphs)
    requires CellOptions(c, glyphs).Ok?
    ensures c.kind.Any? ==> CellOptions(c, glyphs).value == [(Wild, None)]
    ensures !c.kind.Any? ==> forall o | o in CellOptions(c, glyphs).value :: o.0 != Wild
  {
    hide Denoted, IndexOf;
    if !c.kind.Any? {
      OnTapeSymbols(Denoted(c.kind).value, |Denoted(c.kind).value|, glyphs, c.binding);
    }
  }

  lemma {:induction false} OnTapeSymbols(ms: seq<Member>, n: nat, glyphs: Glyphs, binding: Option<string>)
    requires n <= |ms|
    ensures forall o | o in OnTape(ms, n, glyphs, binding) :: o.0 != Wild
  {
    hide IndexOf;
    if n > 0 {
      OnTapeSymbols(ms, n - 1, glyphs, binding);
    }
  }

  lemma ComboCatchAll(r: WrittenRule, opts: seq<seq<Alternative>>, combo: seq<Alternative>)
    requires |r.pattern| == |opts| && PicksFrom(opts, |opts|, combo)
    requires forall k | 0 <= k < |opts| && r.pattern[k].kind.Any? :: opts[k] == [(Wild, None)]
    requires forall k | 0 <= k < |opts| && !r.pattern[k].kind.Any? :: forall o | o in opts[k] :: o.0 != Wild
    ensures IsWildRule(r) <==> IsCatchAll(CellsOf(combo))
  {
    forall k | 0 <= k < |opts| ensures r.pattern[k].kind.Any? <==> CellsOf(combo)[k] == Wild {
      assert combo[k] in opts[k];
    }
    if IsWildRule(r) {
      assert CellsOf(combo)[0] == Wild;
    }
    if IsCatchAll(CellsOf(combo)) {
      assert forall k | 0 <= k < |opts| :: CellsOf(combo)[k] == Wild;
    }
  }

  lemma {:induction false} AllRowsPrefix(
    names: Names, state: string, a: seq<WrittenRule>, b: seq<WrittenRule>, tapes: seq<Glyphs>, n: nat)
    requires n <= |a|
    ensures AllRows(names, state, a + b, tapes, n) == AllRows(names, state, a, tapes, n)
  {
    hide Rows;
    if n > 0 {
      AllRowsPrefix(names, state, a, b, tapes, n - 1);
    }
  }

  lemma AllRowsOneMore(names: Names, state: string, a: seq<WrittenRule>, r: WrittenRule, tapes: seq<Glyphs>)
    ensures var before, more, all := AllRows(names, state, a, tapes, |a|), Rows(names, state, r, tapes),
                                     AllRows(names, state, a + [r], tapes, |a| + 1);
            && (all.Ok? <==> before.Ok? && more.Ok?)
            && (all.Ok? ==> all.value == before.value + more.value)
  {
    hide Rows;
    AllRowsPrefix(names, state, a, [r], tapes, |a|);
    assert (a + [r])[|a|] == r;
  }

  lemma {:induction false} RowsCommute(names: Names, state: string, rules: seq<WrittenRule>, tapes: seq<Glyphs>, n: nat)
    requires n <= |rules| && AllRows(names, state, rules, tapes, n).Ok?
    ensures var rows, left := AllRows(names, state, rules, tapes, n).value, Survivors(rules, n);
            && OfWidth(rows, |tapes|)
            && (CatchAllBefore(rows, |rows|) <==> WildBefore(rules, n))
            && AllRows(names, state, left, tapes, |left|) == Ok(KeptRows(rows, |rows|))
  {
    hide Rows, IsCatchAll, IsWildRule, KeptRows, CatchAllBefore;
    if n > 0 {
      RowsCommute(names, state, rules, tapes, n - 1);
      var r, left := rules[n - 1], Survivors(rules, n - 1);
      var before, more := AllRows(names, state, rules, tapes, n - 1).value, Rows(names, state, r, tapes).value;
      RowsShape(names, state, r, tapes);
      JoinCatchAll(before, more);
      assert WildBefore(rules, n) <==> WildBefore(rules, n - 1) || IsWildRule(r);
      if IsWildRule(r) {
        KeptOneMore(before, more[0]);
        assert more == [more[0]];
      } else {
        KeptAppend(before, more, |more|);
        assert more[..|more|] == more;
      }
      AllRowsOneMore(names, state, left, r, tapes);
    } else {
      NoRows();
    }
  }

  lemma NoRows()
    ensures KeptRows([], 0) == [] && !CatchAllBefore([], 0)
  {
  }

  lemma JoinCatchAll(a: seq<Rule>, b: seq<Rule>)
    ensures CatchAllBefore(a + b, |a + b|) <==> CatchAllBefore(a, |a|) || CatchAllBefore(b, |b|)
  {
    hide IsCatchAll;
    if CatchAllBefore(a, |a|) {
      var k :| 0 <= k < |a| && IsCatchAll(a[k].pattern);
      assert (a + b)[k] == a[k];
    }
    if CatchAllBefore(b, |b|) {
      var k :| 0 <= k < |b| && IsCatchAll(b[k].pattern);
      assert (a + b)[|a| + k] == b[k];
    }
  }

  /** A state expands exactly when it expands with its dead rules dropped and each dead rule would have
      expanded by itself. */
  lemma {:induction false} ExpandsIff(names: Names, state: string, rules: seq<WrittenRule>, tapes: seq<Glyphs>, n: nat)
    requires n <= |rules|
    ensures AllRows(names, state, rules, tapes, n).Ok?
       <==> && AllRows(names, state, Survivors(rules, n), tapes, |Survivors(rules, n)|).Ok?
            && forall k | 0 <= k < n && Dead(rules, k) :: Rows(names, state, rules[k], tapes).Ok?
  {
    hide Rows, Dead;
    if n > 0 {
      ExpandsIff(names, state, rules, tapes, n - 1);
      var left := Survivors(rules, n - 1);
      AllRowsOneMore(names, state, left, rules[n - 1], tapes);
    }
  }

  // ----- the theorem -----

  /** One state with and without its dead rules: the same name, and on every tuple the same row, picked
      by bands or in source order. */
  ghost predicate SameState(full: G.State, left: G.State, width: nat)
  {
    && left.name == full.name && OfWidth(full.rules, width) && left.rules == KeptRows(full.rules, |full.rules|)
    && (forall i, k | 0 <= i < k < |left.rules| ::
          !(IsCatchAll(left.rules[i].pattern) && IsCatchAll(left.rules[k].pattern)))
    && (forall tuple: seq<nat> | |tuple| == width :: SameOn(full.rules, left.rules, tuple))
  }

  ghost predicate SameOn(full: seq<Rule>, left: seq<Rule>, tuple: seq<nat>)
  {
    && Chosen(left, BandPick(left, tuple)) == Chosen(full, BandPick(full, tuple))
    && Chosen(left, FirstMatch(left, 0, tuple)) == Chosen(full, FirstMatch(full, 0, tuple))
  }

  /** If a world expands, it expands without its dead rules too, and every state does on every tuple
      what it did with them: each surviving call with the record it had. */
  lemma {:induction false} DroppingKeepsMeaning(names: Names, states: seq<SourceState>, tapes: seq<Glyphs>, n: nat)
    requires n <= |states| && OwnStates(names, states, tapes, n).Ok?
    ensures var full, left := OwnStates(names, states, tapes, n), OwnStates(names, PrunedStates(states), tapes, n);
            && left.Ok? && |left.value| == |full.value|
            && forall k | 0 <= k < |left.value| :: SameState(full.value[k], left.value[k], |tapes|)
  {
    hide AllRows, Survivors, SameState;
    if n > 0 {
      DroppingKeepsMeaning(names, states, tapes, n - 1);
      StateKeeps(names, states[n - 1], tapes);
    }
  }

  lemma StateKeeps(names: Names, st: SourceState, tapes: seq<Glyphs>)
    requires AllRows(names, st.name, st.rules, tapes, |st.rules|).Ok?
    ensures var left := AllRows(names, st.name, Pruned(st).rules, tapes, |Pruned(st).rules|);
            && left.Ok?
            && SameState(G.State(st.name, st.line, AllRows(names, st.name, st.rules, tapes, |st.rules|).value),
                         G.State(st.name, st.line, left.value), |tapes|)
  {
    hide AllRows, Survivors, KeptRows, BandPick, FirstMatch, CatchAllBefore, WildBefore;
    RowsCommute(names, st.name, st.rules, tapes, |st.rules|);
    var rows := AllRows(names, st.name, st.rules, tapes, |st.rules|).value;
    OneCatchAll(rows, |rows|);
    forall tuple: seq<nat> | |tuple| == |tapes| ensures SameOn(rows, KeptRows(rows, |rows|), tuple) {
      SameChoice(rows, tuple);
    }
  }
}
