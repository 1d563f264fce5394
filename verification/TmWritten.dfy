/** What a state's rules mean as they are written - patterns of glyphs, ranges and bindings, folded writes,
    rules that can never fire among them - and that its expanded rows mean the same. */
module TmWritten {
  import opened Options
  import opened TmRules
  import opened TmBands
  import opened TmBandSplice
  import opened TmModes
  import opened TmRanges
  import opened TmMeaning
  import opened TmCalls
  import D = TmDeadRules
  import I = TmInside

  // ----- choosing among written rules -----

  type Kind = WrittenRule -> bool

  predicate Exact(r: WrittenRule)
  {
    forall k | 0 <= k < |r.pattern| :: !r.pattern[k].kind.Any?
  }

  predicate Partial(r: WrittenRule)
  {
    !Exact(r) && !IsWildRule(r)
  }

  predicate Selective(r: WrittenRule)
  {
    !IsWildRule(r)
  }

  /** The pattern stands for the glyphs under the heads. */
  ghost predicate Reads(r: WrittenRule, tapes: seq<Glyphs>, tuple: seq<nat>)
  {
    && |r.pattern| == |tapes| == |tuple|
    && forall k | 0 <= k < |tapes| :: tuple[k] < |tapes[k]| && Stands(r.pattern[k].kind, tapes[k][tuple[k]])
  }

  /** The first rule of a kind that reads as the tuple. */
  ghost function FirstOf(rules: seq<WrittenRule>, kind: Kind, tapes: seq<Glyphs>, tuple: seq<nat>, n: nat): Option<WrittenRule>
    requires n <= |rules|
  {
    if n == 0 then None
    else
      var earlier := FirstOf(rules, kind, tapes, tuple, n - 1);
      if earlier.Some? then earlier
      else if kind(rules[n - 1]) && Reads(rules[n - 1], tapes, tuple) then Some(rules[n - 1])
      else None
  }

  function Else<T>(a: Option<T>, b: Option<T>): Option<T>
  {
    if a.Some? then a else b
  }

  /** The rule a state takes: by bands - without wildcards, then with some, then with nothing else - or
      widely. */
  ghost function Taken(rules: seq<WrittenRule>, tapes: seq<Glyphs>, tuple: seq<nat>, wide: bool): Option<WrittenRule>
  {
    var catchAll := FirstOf(rules, IsWildRule, tapes, tuple, |rules|);
    if wide then Else(FirstOf(rules, Selective, tapes, tuple, |rules|), catchAll)
    else
      Else(Else(FirstOf(rules, Exact, tapes, tuple, |rules|), FirstOf(rules, Partial, tapes, tuple, |rules|)), catchAll)
  }

  /** What a rule does once it is taken: its write folded over what its pattern binds. */
  ghost function Deed(names: Names, state: string, r: WrittenRule, tapes: seq<Glyphs>, tuple: seq<nat>): Outcome
  {
    var t := Lower(names, state, r.transition);
    if !(WidthsFit(RuleWith(r, t), |tapes|) && |tapes| == |tuple|
         && forall k | 0 <= k < |tapes| :: tuple[k] < |tapes[k]| && Denoted(r.pattern[k].kind).Ok?) then NoMatch
    else
      match WriteVector(r.write, tapes, BoundBy(RuleWith(r, t), tapes, tuple, |tapes|))
      case Err(_) => NoMatch
      case Ok(write) => Fired(r.debugger, write, MoveVector(r.moves, |tapes|), t)
  }

  ghost function WrittenOutcome(names: Names, st: SourceState, tapes: seq<Glyphs>, tuple: seq<nat>, wide: bool): Outcome
  {
    match Taken(st.rules, tapes, tuple, wide)
    case None => NoMatch
    case Some(r) => Deed(names, st.name, r, tapes, tuple)
  }

  // ----- rows against rules -----

  /** What the first row of a band does. */
  ghost function FirstDeed(rows: seq<Rule>, keep: seq<Cell> -> bool, tuple: seq<nat>, n: nat): Option<Outcome>
    requires n <= |rows|
  {
    match FirstKept(rows, keep, n, tuple)
    case None => None
    case Some(k) => Some(OutcomeOf(rows[k]))
  }

  lemma {:induction false} DeedsAppend(a: seq<Rule>, b: seq<Rule>, keep: seq<Cell> -> bool, tuple: seq<nat>, n: nat)
    requires n <= |b|
    ensures FirstDeed(a + b, keep, tuple, |a| + n) == Else(FirstDeed(a, keep, tuple, |a|), FirstDeed(b, keep, tuple, n))
  {
    hide Matches, FirstKept, OutcomeOf;
    D.FirstKeptPrefix(a, b, keep, |a|, tuple);
    D.FirstKeptNext(b, keep, n, tuple);
    if n > 0 {
      DeedsAppend(a, b, keep, tuple, n - 1);
      D.FirstKeptNext(a + b, keep, |a| + n, tuple);
      assert (a + b)[|a| + n - 1] == b[n - 1];
    } else {
      assert a + b[..0] == a;
    }
  }

  // ----- one rule's rows -----

  /** A row has a wildcard where its rule has one, and does what the rule says. */
  lemma RowFacts(names: Names, state: string, r: WrittenRule, tapes: seq<Glyphs>, i: nat)
    requires Rows(names, state, r, tapes).Ok? && i < |Rows(names, state, r, tapes).value|
    ensures var row := Rows(names, state, r, tapes).value[i];
            && |row.pattern| == |r.pattern| == |tapes|
            && (forall k | 0 <= k < |tapes| :: row.pattern[k] == Wild <==> r.pattern[k].kind.Any?)
            && row.debugger == r.debugger && row.moves == MoveVector(r.moves, |tapes|)
            && row.transition == Lower(names, state, r.transition)
  {
    hide AllOptions, RowsOf, Product, Lower, CellOptions, WriteVector, MoveVector, Earlier;
    var rule: SourceRule := RuleWith(r, Lower(names, state, r.transition));
    var opts: seq<seq<Alternative>> := AllOptions(rule.pattern, tapes, |tapes|).value;
    var combos := Product(opts, |opts|);
    OptionsAt(rule.pattern, tapes, |tapes|);
    RowsAt(rule, tapes, combos, |combos|);
    ProductExact(opts, |opts|);
    assert combos[i] in combos;
    forall k | 0 <= k < |tapes| ensures combos[i][k].0 == Wild <==> r.pattern[k].kind.Any? {
      D.OptionsWild(r.pattern[k], tapes[k]);
      assert combos[i][k] in opts[k];
    }
  }

  lemma RowKinds(names: Names, state: string, r: WrittenRule, tapes: seq<Glyphs>, i: nat)
    requires Rows(names, state, r, tapes).Ok? && i < |Rows(names, state, r, tapes).value|
    ensures var p := Rows(names, state, r, tapes).value[i].pattern;
            && (IsExact(p) <==> Exact(r)) && (IsCatchAll(p) <==> IsWildRule(r))
            && (IsPartial(p) <==> Partial(r)) && (IsSelective(p) <==> Selective(r))
  {
    hide Rows;
    RowFacts(names, state, r, tapes, i);
    var p := Rows(names, state, r, tapes).value[i].pattern;
    if r.pattern != [] {
      assert p[0] == Wild <==> r.pattern[0].kind.Any?;
    }
    assert forall k | 0 <= k < |p| :: p[k] == Wild <==> r.pattern[k].kind.Any?;
    assert IsExact(p) <==> Exact(r);
    assert IsAllWild(p) <==> forall k | 0 <= k < |p| :: r.pattern[k].kind.Any?;
  }

  /** Tapes of legal alphabets. */
  predicate Lettered(tapes: seq<Glyphs>)
  {
    forall k | 0 <= k < |tapes| :: IsAlphabet(tapes[k])
  }

  /** The kind of a rule is the band of its rows. */
  ghost predicate Bands(kind: Kind, keep: seq<Cell> -> bool, r: WrittenRule, rows: seq<Rule>)
  {
    forall i | 0 <= i < |rows| :: keep(rows[i].pattern) <==> kind(r)
  }

  /** A rule's rows do what the rule does where it reads as the tuple, and nothing elsewhere. */
  lemma RuleDeed(names: Names, state: string, r: WrittenRule, tapes: seq<Glyphs>, kind: Kind, keep: seq<Cell> -> bool,
                 tuple: seq<nat>)
    requires Rows(names, state, r, tapes).Ok? && OfAlphabets(tapes, tuple)
             && Bands(kind, keep, r, Rows(names, state, r, tapes).value)
    ensures var rows := Rows(names, state, r, tapes).value;
            FirstDeed(rows, keep, tuple, |rows|)
              == if kind(r) && Reads(r, tapes, tuple) then Some(Deed(names, state, r, tapes, tuple)) else None
  {
    hide Expanded, FirstKept, Matches, Denoted, Denotes, BoundBy, WriteVector, MoveVector, IsAlphabet, Lower;
    var rule := RuleWith(r, Lower(names, state, r.transition));
    var rows := Rows(names, state, r, tapes).value;
    ExpansionExact(rule, tapes, tuple);
    ExpandedWidths(rule, tapes);
    ReadsAccepts(r, rule.transition, tapes, tuple);
    forall i | 0 <= i < |rows|
      ensures rows[i].debugger == r.debugger && rows[i].moves == MoveVector(r.moves, |tapes|)
      ensures rows[i].transition == Lower(names, state, r.transition)
    {
      RowFacts(names, state, r, tapes, i);
    }
  }

  /** Reading a tuple is being expanded to a row that matches it. */
  lemma ReadsAccepts(r: WrittenRule, t: Transition, tapes: seq<Glyphs>, tuple: seq<nat>)
    requires OfAlphabets(tapes, tuple) && |r.pattern| == |tapes| && forall k | 0 <= k < |tapes| :: Denoted(r.pattern[k].kind).Ok?
    ensures Reads(r, tapes, tuple) <==> Accepts(RuleWith(r, t), tapes, tuple)
  {
    hide Denoted, Denotes, Stands, IsAlphabet;
    forall k | 0 <= k < |tapes|
      ensures Stands(r.pattern[k].kind, tapes[k][tuple[k]]) <==> Denotes(r.pattern[k], tapes[k][tuple[k]])
    {
      DenotesStands(r.pattern[k], tapes[k][tuple[k]]);
    }
  }

  lemma ExpandedWidths(rule: SourceRule, tapes: seq<Glyphs>)
    requires Expanded(rule, tapes).Ok?
    ensures WidthsFit(rule, |tapes|)
  {
    hide AllOptions, RowsOf, Product;
  }

  // ----- a state's rows -----

  /** The first row of a band does what the first rule of its kind does. */
  lemma {:induction false} FirstAgrees(names: Names, state: string, rules: seq<WrittenRule>, tapes: seq<Glyphs>, kind: Kind,
                                       keep: seq<Cell> -> bool, tuple: seq<nat>, n: nat)
    requires n <= |rules| && AllRows(names, state, rules, tapes, n).Ok? && OfAlphabets(tapes, tuple)
    requires forall k | 0 <= k < n && Rows(names, state, rules[k], tapes).Ok? ::
               Bands(kind, keep, rules[k], Rows(names, state, rules[k], tapes).value)
    ensures var rows := AllRows(names, state, rules, tapes, n).value;
            var first := FirstOf(rules, kind, tapes, tuple, n);
            FirstDeed(rows, keep, tuple, |rows|)
              == if first.Some? then Some(Deed(names, state, first.value, tapes, tuple)) else None
  {
    hide Rows, Bands, FirstDeed, Deed, Reads, OfAlphabets;
    if n == 0 {
      NoDeed(keep, tuple);
    } else {
      FirstAgrees(names, state, rules, tapes, kind, keep, tuple, n - 1);
      var before, more := AllRows(names, state, rules, tapes, n - 1).value, Rows(names, state, rules[n - 1], tapes).value;
      RuleDeed(names, state, rules[n - 1], tapes, kind, keep, tuple);
      DeedsAppend(before, more, keep, tuple, |more|);
      assert |before + more| == |before| + |more|;
    }
  }

  lemma NoDeed(keep: seq<Cell> -> bool, tuple: seq<nat>)
    ensures FirstDeed([], keep, tuple, 0) == None
  {
  }

  /** A state's expanded rows mean what its rules mean, choosing either way. */
  lemma RowsMean(names: Names, st: SourceState, tapes: seq<Glyphs>, tuple: seq<nat>, wide: bool)
    requires AllRows(names, st.name, st.rules, tapes, |st.rules|).Ok? && OfAlphabets(tapes, tuple)
    ensures ModeOutcome(AllRows(names, st.name, st.rules, tapes, |st.rules|).value, tuple, wide)
              == WrittenOutcome(names, st, tapes, tuple, wide)
  {
    hide AllRows, Rows, FirstOf, Deed, FirstKept, OfAlphabets, IsExact, IsCatchAll, IsPartial, IsSelective, Exact, Partial,
      Selective, IsWildRule;
    forall k | 0 <= k < |st.rules| && Rows(names, st.name, st.rules[k], tapes).Ok?
      ensures var rows := Rows(names, st.name, st.rules[k], tapes).value;
              && Bands(Exact, IsExact, st.rules[k], rows) && Bands(Partial, IsPartial, st.rules[k], rows)
              && Bands(Selective, IsSelective, st.rules[k], rows) && Bands(IsWildRule, IsCatchAll, st.rules[k], rows)
    {
      forall i | 0 <= i < |Rows(names, st.name, st.rules[k], tapes).value| {
        RowKinds(names, st.name, st.rules[k], tapes, i);
      }
    }
    FirstAgrees(names, st.name, st.rules, tapes, Exact, IsExact, tuple, |st.rules|);
    FirstAgrees(names, st.name, st.rules, tapes, Partial, IsPartial, tuple, |st.rules|);
    FirstAgrees(names, st.name, st.rules, tapes, Selective, IsSelective, tuple, |st.rules|);
    FirstAgrees(names, st.name, st.rules, tapes, IsWildRule, IsCatchAll, tuple, |st.rules|);
  }

  // ----- rules that can never fire -----

  lemma {:induction false} SurvivorWild(rules: seq<WrittenRule>, n: nat)
    requires n <= |rules| && WildBefore(rules, n)
    ensures exists k :: 0 <= k < |Survivors(rules, n)| && IsWildRule(Survivors(rules, n)[k])
  {
    hide IsWildRule;
    var left := Survivors(rules, n);
    if WildBefore(rules, n - 1) {
      SurvivorWild(rules, n - 1);
      var k :| 0 <= k < |Survivors(rules, n - 1)| && IsWildRule(Survivors(rules, n - 1)[k]);
      assert IsWildRule(left[k]);
    } else {
      assert IsWildRule(left[|left| - 1]);
    }
  }

  lemma {:induction false} FirstWild(rules: seq<WrittenRule>, tapes: seq<Glyphs>, tuple: seq<nat>, k: nat, n: nat)
    requires k < n <= |rules| && IsWildRule(rules[k]) && |rules[k].pattern| == |tapes| && OfAlphabets(tapes, tuple)
    ensures FirstOf(rules, IsWildRule, tapes, tuple, n).Some?
  {
    hide IsAlphabet;
    if k < n - 1 {
      FirstWild(rules, tapes, tuple, k, n - 1);
    }
  }

  lemma {:induction false} FirstPrefix(a: seq<WrittenRule>, r: WrittenRule, kind: Kind, tapes: seq<Glyphs>, tuple: seq<nat>,
                                       n: nat)
    requires n <= |a|
    ensures FirstOf(a + [r], kind, tapes, tuple, n) == FirstOf(a, kind, tapes, tuple, n)
  {
    hide Reads;
    if n > 0 {
      FirstPrefix(a, r, kind, tapes, tuple, n - 1);
    }
  }

  /** Dropping the rules that can never fire changes no choice. */
  lemma {:induction false} FirstSurvives(rules: seq<WrittenRule>, kind: Kind, tapes: seq<Glyphs>, tuple: seq<nat>, n: nat)
    requires n <= |rules| && OfAlphabets(tapes, tuple)
    requires kind == IsWildRule || forall r | kind(r) :: !IsWildRule(r)
    requires forall k | 0 <= k < |Survivors(rules, n)| :: |Survivors(rules, n)[k].pattern| == |tapes|
    ensures var left := Survivors(rules, n); FirstOf(left, kind, tapes, tuple, |left|) == FirstOf(rules, kind, tapes, tuple, n)
  {
    hide IsWildRule, Reads, OfAlphabets;
    if n > 0 {
      var left := Survivors(rules, n - 1);
      if Dead(rules, n - 1) {
        assert Survivors(rules, n) == left;
        FirstSurvives(rules, kind, tapes, tuple, n - 1);
        SurvivorWild(rules, n - 1);
        var k :| 0 <= k < |left| && IsWildRule(left[k]);
        FirstWild(left, tapes, tuple, k, |left|);
      } else {
        forall k | 0 <= k < |left| ensures |left[k].pattern| == |tapes| {
          assert Survivors(rules, n)[k] == left[k];
        }
        FirstSurvives(rules, kind, tapes, tuple, n - 1);
        FirstPrefix(left, rules[n - 1], kind, tapes, tuple, |left|);
      }
    }
  }

  lemma {:induction false} RulesWide(names: Names, state: string, rules: seq<WrittenRule>, tapes: seq<Glyphs>, n: nat)
    requires n <= |rules| && AllRows(names, state, rules, tapes, n).Ok?
    ensures forall k | 0 <= k < n :: |rules[k].pattern| == |tapes|
  {
    hide Expanded;
    if n > 0 {
      RulesWide(names, state, rules, tapes, n - 1);
      ExpandedWidths(RuleWith(rules[n - 1], Lower(names, state, rules[n - 1].transition)), tapes);
    }
  }

  /** What is left of a state after its dead rules are dropped, expanded, means what the whole state means
      as it was written. */
  lemma SurvivingRowsMean(names: Names, st: SourceState, tapes: seq<Glyphs>, tuple: seq<nat>, wide: bool)
    requires AllRows(names, st.name, Pruned(st).rules, tapes, |Pruned(st).rules|).Ok? && OfAlphabets(tapes, tuple)
    ensures ModeOutcome(AllRows(names, st.name, Pruned(st).rules, tapes, |Pruned(st).rules|).value, tuple, wide)
         == WrittenOutcome(names, st, tapes, tuple, wide)
  {
    hide AllRows, Taken, Deed, ModeOutcome, OfAlphabets, Survivors;
    TakenSurvives(names, st, tapes, tuple, wide);
    RowsMean(names, Pruned(st), tapes, tuple, wide);
  }

  /** The rule taken among what is left is the one taken among all. */
  lemma TakenSurvives(names: Names, st: SourceState, tapes: seq<Glyphs>, tuple: seq<nat>, wide: bool)
    requires AllRows(names, st.name, Pruned(st).rules, tapes, |Pruned(st).rules|).Ok? && OfAlphabets(tapes, tuple)
    ensures Taken(Pruned(st).rules, tapes, tuple, wide) == Taken(st.rules, tapes, tuple, wide)
  {
    hide AllRows, FirstOf, OfAlphabets, Survivors, Exact, Partial, Selective, IsWildRule;
    RulesWide(names, st.name, Pruned(st).rules, tapes, |Pruned(st).rules|);
    KindsApart();
    FirstSurvives(st.rules, Exact, tapes, tuple, |st.rules|);
    FirstSurvives(st.rules, Partial, tapes, tuple, |st.rules|);
    FirstSurvives(st.rules, Selective, tapes, tuple, |st.rules|);
    FirstSurvives(st.rules, IsWildRule, tapes, tuple, |st.rules|);
  }

  lemma KindsApart()
    ensures forall r | Exact(r) :: !IsWildRule(r)
    ensures forall r | Partial(r) || Selective(r) :: !IsWildRule(r)
  {
    forall r: WrittenRule | Exact(r) ensures !IsWildRule(r) {
      if r.pattern != [] {
        assert !r.pattern[0].kind.Any?;
      }
    }
  }
}
