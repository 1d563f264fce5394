/** Banding and splicing together: a spliced state is re-banded on the host, and on a host with
    tapes the graph does not bind every exact graph row turns into a partial one. */
module TmBandSplice {
  import opened Options
  import opened TmRules
  import opened TmSplice
  import opened TmBands

  /** What the emitted order of a state's rows does on a tuple. */
  ghost function OrderOutcome(rules: seq<Rule>, tuple: seq<nat>): Outcome
    requires NoExactConflict(rules) && tuple != []
  {
    BandOrderSound(rules, tuple);
    match OrderPick(rules, EmittedRowOrder(rules), 0, tuple)
    case None => NoMatch
    case Some(k) => OutcomeOf(rules[k])
  }

  /** What first-exact, then-partial, then-catch-all does on a tuple. */
  ghost function BandedOutcome(rules: seq<Rule>, tuple: seq<nat>): Outcome
  {
    match BandPick(rules, tuple)
    case None => NoMatch
    case Some(k) => OutcomeOf(rules[k])
  }

  /** The choice left on a host with unbound tapes: the first rule that is not a catch-all. */
  ghost function WidePick(rules: seq<Rule>, tuple: seq<nat>): Option<nat>
  {
    OrElse(FirstKept(rules, IsSelective, |rules|, tuple), FirstKept(rules, IsCatchAll, |rules|, tuple))
  }

  ghost predicate Bound(comp: Composite, h: nat)
  {
    exists k :: 0 <= k < |comp| && comp[k].phys == h
  }

  /** Every host tape is bound. */
  ghost predicate Covers(comp: Composite, arity: nat)
  {
    forall h: nat | h < arity :: Bound(comp, h)
  }

  /** Reading through the maps, choosing among the graph's rules by band, and carrying back. */
  ghost function BandedWalk(rules: seq<Rule>, comp: Composite, remap: Transition -> Transition, tuple: seq<nat>): Outcome
    requires AllFit(rules, comp) && Placed(comp, |tuple|)
  {
    if !StateReads(rules) then Back(rules[0], comp, |tuple|, remap)
    else if !Readable(comp, tuple) then ReadTrap(|tuple|)
    else
      var g := ReadTuple(comp, tuple);
      match if Covers(comp, |tuple|) then BandPick(rules, g) else WidePick(rules, g)
      case None => NoMatch
      case Some(k) => Back(rules[k], comp, |tuple|, remap)
  }

  // ----- one band of rows -----

  function Select(rows: seq<Rule>, keep: seq<Cell> -> bool, n: nat): seq<Rule>
    requires n <= |rows|
  {
    if n == 0 then []
    else if keep(rows[n - 1].pattern) then Select(rows, keep, n - 1) + [rows[n - 1]]
    else Select(rows, keep, n - 1)
  }

  function Band(rows: seq<Rule>, keep: seq<Cell> -> bool): seq<Rule>
  {
    Select(rows, keep, |rows|)
  }

  lemma {:induction false} SelectAppend(a: seq<Rule>, b: seq<Rule>, keep: seq<Cell> -> bool, n: nat)
    requires n <= |b|
    ensures Select(a + b, keep, |a| + n) == Band(a, keep) + Select(b, keep, n)
  {
    if n == 0 {
      SelectPrefix(a, b, keep, |a|);
    } else {
      SelectAppend(a, b, keep, n - 1);
      assert (a + b)[|a| + n - 1] == b[n - 1];
    }
  }

  lemma {:induction false} SelectPrefix(a: seq<Rule>, b: seq<Rule>, keep: seq<Cell> -> bool, n: nat)
    requires n <= |a|
    ensures Select(a + b, keep, n) == Select(a, keep, n)
  {
    if n > 0 {
      SelectPrefix(a, b, keep, n - 1);
    }
  }

  lemma {:induction false} SelectUniform(rows: seq<Rule>, keep: seq<Cell> -> bool, kept: bool, n: nat)
    requires n <= |rows| && forall k | 0 <= k < |rows| :: keep(rows[k].pattern) == kept
    ensures Select(rows, keep, n) == if kept then rows[..n] else []
  {
    if n > 0 {
      SelectUniform(rows, keep, kept, n - 1);
    }
  }

  /** The first matching row of a band acts as the first matching row of its selection. */
  lemma {:induction false} SelectOutcome(rows: seq<Rule>, keep: seq<Cell> -> bool, tuple: seq<nat>, n: nat)
    requires n <= |rows|
    ensures var r := FirstKept(rows, keep, n, tuple);
            var selected := Select(rows, keep, n);
            && (SomeRowMatches(selected, tuple) <==> r.Some?)
            && FirstOutcome(selected, tuple) == (match r case None => NoMatch case Some(k) => OutcomeOf(rows[k]))
  {
    hide FirstOutcome, SomeRowMatches, Matches, OutcomeOf;
    if n == 0 {
      NoRows(tuple);
      NoneMatch(tuple);
    } else {
      SelectOutcome(rows, keep, tuple, n - 1);
      if keep(rows[n - 1].pattern) {
        OneRow(rows[n - 1], tuple);
        FirstOutcomeAppend(Select(rows, keep, n - 1), [rows[n - 1]], tuple);
      }
    }
  }

  lemma OneRow(row: Rule, tuple: seq<nat>)
    ensures SomeRowMatches([row], tuple) <==> Matches(row.pattern, tuple)
    ensures FirstOutcome([row], tuple) == if Matches(row.pattern, tuple) then OutcomeOf(row) else NoMatch
  {
    hide Matches, OutcomeOf;
    assert [row][0] == row;
  }

  /** The outcome by bands, one band after the other. */
  lemma BandsInTurn(rows: seq<Rule>, tuple: seq<nat>)
    ensures BandedOutcome(rows, tuple) ==
            if SomeRowMatches(Band(rows, IsExact), tuple) then FirstOutcome(Band(rows, IsExact), tuple)
            else if SomeRowMatches(Band(rows, IsPartial), tuple) then FirstOutcome(Band(rows, IsPartial), tuple)
            else FirstOutcome(Band(rows, IsCatchAll), tuple)
  {
    hide FirstOutcome, SomeRowMatches, FirstKept, Select, OutcomeOf, IsExact, IsPartial, IsCatchAll;
    SelectOutcome(rows, IsExact, tuple, |rows|);
    SelectOutcome(rows, IsPartial, tuple, |rows|);
    SelectOutcome(rows, IsCatchAll, tuple, |rows|);
  }

  // ----- the bands of mapped rows -----

  /** The rows of the rules among the first n whose pattern is kept. */
  function MapKept(rules: seq<Rule>, keep: seq<Cell> -> bool, comp: Composite, arity: nat,
                   remap: Transition -> Transition, n: nat): seq<Rule>
    requires n <= |rules|
    requires forall k | 0 <= k < n :: |rules[k].pattern| == |rules[k].write| == |rules[k].moves| == |comp|
  {
    if n == 0 then []
    else if keep(rules[n - 1].pattern)
      then MapKept(rules, keep, comp, arity, remap, n - 1) + MapRule(rules[n - 1], comp, arity, remap)
    else MapKept(rules, keep, comp, arity, remap, n - 1)
  }

  /** The first of the first n rules that is kept and whose pattern, read through, matches. */
  ghost function FirstReads(rules: seq<Rule>, keep: seq<Cell> -> bool, comp: Composite, tuple: seq<nat>, n: nat): (r: Option<nat>)
    requires n <= |rules| && AllFit(rules, comp) && Placed(comp, |tuple|)
    ensures r.Some? ==> r.value < n && keep(rules[r.value].pattern) && ReadsAs(rules[r.value].pattern, comp, tuple)
    ensures forall k | 0 <= k < (if r.Some? then r.value else n) && keep(rules[k].pattern) ::
              !ReadsAs(rules[k].pattern, comp, tuple)
  {
    if n == 0 then None
    else
      var earlier := FirstReads(rules, keep, comp, tuple, n - 1);
      if earlier.Some? then earlier
      else if keep(rules[n - 1].pattern) && ReadsAs(rules[n - 1].pattern, comp, tuple) then Some(n - 1)
      else None
  }

  lemma {:induction false} MapKeptOutcome(rules: seq<Rule>, keep: seq<Cell> -> bool, comp: Composite,
                                          remap: Transition -> Transition, tuple: seq<nat>, n: nat)
    requires n <= |rules| && AllFit(rules, comp) && Placed(comp, |tuple|) && InRange(comp, |tuple|, tuple)
    ensures var rows := MapKept(rules, keep, comp, |tuple|, remap, n);
            var r := FirstReads(rules, keep, comp, tuple, n);
            && (SomeRowMatches(rows, tuple) <==> r.Some?)
            && FirstOutcome(rows, tuple)
               == (match r case None => NoMatch case Some(k) => Back(rules[k], comp, |tuple|, remap))
  {
    hide MapRule, ReadsAs, Back, Placed, InRange, FirstOutcome, SomeRowMatches;
    if n == 0 {
      NoRows(tuple);
      NoneMatch(tuple);
    } else {
      MapKeptOutcome(rules, keep, comp, remap, tuple, n - 1);
      if keep(rules[n - 1].pattern) {
        MapRuleOutcome(rules[n - 1], comp, remap, tuple);
        FirstOutcomeAppend(MapKept(rules, keep, comp, |tuple|, remap, n - 1),
                           MapRule(rules[n - 1], comp, |tuple|, remap), tuple);
      }
    }
  }

  /** Rows of one rule fall into the band that the rule's own pattern is kept for. */
  ghost predicate Tracks(rowKeep: seq<Cell> -> bool, keep: seq<Cell> -> bool, rules: seq<Rule>, comp: Composite,
                         arity: nat, remap: Transition -> Transition)
    requires AllFit(rules, comp)
  {
    forall k, j | 0 <= k < |rules| && 0 <= j < |MapRule(rules[k], comp, arity, remap)| ::
      rowKeep(MapRule(rules[k], comp, arity, remap)[j].pattern) == keep(rules[k].pattern)
  }

  lemma {:induction false} MappedBand(rowKeep: seq<Cell> -> bool, keep: seq<Cell> -> bool, rules: seq<Rule>,
                                      comp: Composite, arity: nat, remap: Transition -> Transition, n: nat)
    requires n <= |rules| && AllFit(rules, comp) && Tracks(rowKeep, keep, rules, comp, arity, remap)
    ensures Band(MapRules(rules, comp, arity, remap, n), rowKeep) == MapKept(rules, keep, comp, arity, remap, n)
  {
    hide MapRule, Select;
    if n == 0 {
      NoSelection(rowKeep);
    } else {
      MappedBand(rowKeep, keep, rules, comp, arity, remap, n - 1);
      var front := MapRules(rules, comp, arity, remap, n - 1);
      var rows := MapRule(rules[n - 1], comp, arity, remap);
      SelectAppend(front, rows, rowKeep, |rows|);
      SelectUniform(rows, rowKeep, keep(rules[n - 1].pattern), |rows|);
      assert rows[..|rows|] == rows;
    }
  }

  lemma NoSelection(keep: seq<Cell> -> bool)
    ensures Band([], keep) == []
  {
  }

  // ----- which band a mapped row is in -----

  /** Bound tapes keep wildcards and symbols; unbound tapes get wildcards. */
  lemma RowCells(rule: Rule, comp: Composite, arity: nat, remap: Transition -> Transition, j: nat)
    requires |rule.pattern| == |rule.write| == |rule.moves| == |comp| && Placed(comp, arity)
    requires j < |MapRule(rule, comp, arity, remap)|
    ensures var p := MapRule(rule, comp, arity, remap)[j].pattern;
            && |p| == arity
            && (forall k | 0 <= k < |comp| :: p[comp[k].phys] == Wild <==> rule.pattern[k] == Wild)
            && (forall h | 0 <= h < arity && (forall k | 0 <= k < |comp| :: comp[k].phys != h) :: p[h] == Wild)
  {
    hide Cartesian, ChoiceOf, PatternOf, WriteHole, HostWrite, HostMoves;
    var opts := Choices(rule, comp);
    var combo := Cartesian(opts, |opts|)[j];
    InCartesian(opts, |opts|, combo);
    forall k | 0 <= k < |comp|
      ensures opts[k].pos == comp[k].phys
      ensures forall c | c in opts[k].cells :: c == Wild <==> rule.pattern[k] == Wild
    {
      ChoiceKind(comp[k], rule.pattern[k]);
    }
    PatternAt(combo, arity, |combo|);
    assert forall k | 0 <= k < |comp| :: combo[k].0 == comp[k].phys;
  }

  lemma ChoiceKind(t: TapeMap, c: Cell)
    ensures ChoiceOf(t, c).pos == t.phys
    ensures forall x | x in ChoiceOf(t, c).cells :: x == Wild <==> c == Wild
  {
  }

  lemma RowBand(rule: Rule, comp: Composite, arity: nat, remap: Transition -> Transition, j: nat)
    requires |rule.pattern| == |rule.write| == |rule.moves| == |comp| && Placed(comp, arity)
    requires j < |MapRule(rule, comp, arity, remap)|
    ensures var p := MapRule(rule, comp, arity, remap)[j].pattern;
            && (IsAllWild(p) <==> IsAllWild(rule.pattern))
            && (IsExact(p) <==> IsExact(rule.pattern) && Covers(comp, arity))
  {
    hide MapRule;
    RowCells(rule, comp, arity, remap, j);
    BandOfCells(MapRule(rule, comp, arity, remap)[j].pattern, rule.pattern, comp);
  }

  lemma BandOfCells(p: seq<Cell>, pattern: seq<Cell>, comp: Composite)
    requires |pattern| == |comp| && Placed(comp, |p|)
    requires forall k | 0 <= k < |comp| :: p[comp[k].phys] == Wild <==> pattern[k] == Wild
    requires forall h | 0 <= h < |p| && (forall k | 0 <= k < |comp| :: comp[k].phys != h) :: p[h] == Wild
    ensures IsAllWild(p) <==> IsAllWild(pattern)
    ensures IsExact(p) <==> IsExact(pattern) && Covers(comp, |p|)
  {
    forall h: nat | h < |p| && !Bound(comp, h) ensures p[h] == Wild {
    }
    forall k | 0 <= k < |comp| ensures Bound(comp, comp[k].phys) {
    }
    if IsAllWild(pattern) {
      forall h: nat | h < |p| ensures p[h] == Wild {
        if Bound(comp, h) {
          var k :| 0 <= k < |comp| && comp[k].phys == h;
        }
      }
    }
    if IsExact(pattern) && Covers(comp, |p|) {
      forall h: nat | h < |p| ensures p[h].Sym? {
        assert Bound(comp, h);
        var k :| 0 <= k < |comp| && comp[k].phys == h;
        assert pattern[k].Sym?;
      }
    }
    if IsExact(p) {
      forall h: nat | h < |p| ensures Bound(comp, h) {
        assert p[h].Sym?;
      }
      forall k | 0 <= k < |comp| ensures pattern[k].Sym? {
        assert p[comp[k].phys].Sym?;
      }
    }
  }

  lemma TracksCovered(rules: seq<Rule>, comp: Composite, arity: nat, remap: Transition -> Transition)
    requires AllFit(rules, comp) && Placed(comp, arity) && Covers(comp, arity)
    ensures Tracks(IsExact, IsExact, rules, comp, arity, remap)
    ensures Tracks(IsPartial, IsPartial, rules, comp, arity, remap)
    ensures Tracks(IsCatchAll, IsCatchAll, rules, comp, arity, remap)
  {
    hide MapRule, Covers, Placed, IsExact, IsAllWild;
    forall k, j | 0 <= k < |rules| && 0 <= j < |MapRule(rules[k], comp, arity, remap)|
      ensures var p := MapRule(rules[k], comp, arity, remap)[j].pattern;
              && IsExact(p) == IsExact(rules[k].pattern)
              && IsPartial(p) == IsPartial(rules[k].pattern)
              && IsCatchAll(p) == IsCatchAll(rules[k].pattern)
    {
      RowBand(rules[k], comp, arity, remap, j);
    }
  }

  predicate Nothing(pattern: seq<Cell>)
  {
    false
  }

  lemma TracksWide(rules: seq<Rule>, comp: Composite, arity: nat, remap: Transition -> Transition)
    requires AllFit(rules, comp) && Placed(comp, arity) && !Covers(comp, arity) && comp != []
    ensures Tracks(IsExact, Nothing, rules, comp, arity, remap)
    ensures Tracks(IsPartial, IsSelective, rules, comp, arity, remap)
    ensures Tracks(IsCatchAll, IsCatchAll, rules, comp, arity, remap)
  {
    hide MapRule, Covers, Placed, IsExact, IsAllWild;
    forall k, j | 0 <= k < |rules| && 0 <= j < |MapRule(rules[k], comp, arity, remap)|
      ensures var p := MapRule(rules[k], comp, arity, remap)[j].pattern;
              && !IsExact(p)
              && IsPartial(p) == IsSelective(rules[k].pattern)
              && IsCatchAll(p) == IsCatchAll(rules[k].pattern)
    {
      RowBand(rules[k], comp, arity, remap, j);
      WildNotExact(rules[k].pattern);
    }
  }

  lemma WildNotExact(pattern: seq<Cell>)
    requires pattern != []
    ensures !(IsExact(pattern) && IsAllWild(pattern))
  {
    assert pattern[0] == Wild || pattern[0].Sym?;
  }

  // ----- which band a trap row is in -----

  /** A trap row is exact on a one-tape host and partial on any other. */
  lemma {:induction false} TrapBand(comp: Composite, arity: nat, line: nat, n: nat)
    requires n <= |comp| && Placed(comp, arity)
    ensures forall k | 0 <= k < |TrapRows(comp, arity, line, n)| ::
              var p := TrapRows(comp, arity, line, n)[k].pattern;
              IsExact(p) == (arity == 1) && !IsAllWild(p)
  {
    hide TapeTraps, IsExact, IsAllWild;
    if n > 0 {
      TrapBand(comp, arity, line, n - 1);
      TapeTrapBand(comp[n - 1], arity, line);
    }
  }

  lemma TapeTrapBand(t: TapeMap, arity: nat, line: nat)
    requires t.phys < arity
    ensures forall k | 0 <= k < |TapeTraps(t, arity, line)| ::
              var p := TapeTraps(t, arity, line)[k].pattern;
              IsExact(p) == (arity == 1) && !IsAllWild(p)
  {
    hide Holes;
    forall k | 0 <= k < |TapeTraps(t, arity, line)|
      ensures var p := TapeTraps(t, arity, line)[k].pattern;
              IsExact(p) == (arity == 1) && !IsAllWild(p)
    {
      var p := TapeTraps(t, arity, line)[k].pattern;
      assert p[t.phys].Sym?;
      if arity > 1 {
        assert p[if t.phys == 0 then 1 else 0] == Wild;
      }
    }
  }

  // ----- the theorem -----

  /** The picked rule carried back, if any. */
  ghost function CarriedBack(r: Option<nat>, rules: seq<Rule>, comp: Composite, arity: nat,
                             remap: Transition -> Transition): Outcome
    requires AllFit(rules, comp) && (r.Some? ==> r.value < |rules|)
  {
    match r
    case None => NoMatch
    case Some(k) => Back(rules[k], comp, arity, remap)
  }

  /** One band of the spliced rows: its trap rows, if it has them, then the rules it keeps. */
  lemma SplicedBand(rules: seq<Rule>, comp: Composite, line: nat, remap: Transition -> Transition, tuple: seq<nat>,
                    rowKeep: seq<Cell> -> bool, keep: seq<Cell> -> bool, traps: bool)
    requires AllFit(rules, comp) && Placed(comp, |tuple|) && InRange(comp, |tuple|, tuple)
    requires Tracks(rowKeep, keep, rules, comp, |tuple|, remap)
    requires forall k | 0 <= k < |TrapRows(comp, |tuple|, line, |comp|)| ::
               rowKeep(TrapRows(comp, |tuple|, line, |comp|)[k].pattern) == traps
    ensures var band := Band(SpliceRules(rules, comp, |tuple|, line, remap), rowKeep);
            var trapped := traps && StateReads(rules) && !Readable(comp, tuple);
            var r := FirstReads(rules, keep, comp, tuple, |rules|);
            && (SomeRowMatches(band, tuple) <==> trapped || r.Some?)
            && FirstOutcome(band, tuple) == if trapped then ReadTrap(|tuple|) else CarriedBack(r, rules, comp, |tuple|, remap)
  {
    hide TrapRows, MapRules, MapKept, Select, FirstOutcome, SomeRowMatches, FirstReads, Back, Tracks, ReadImage,
      StateReads;
    var rows := MapRules(rules, comp, |tuple|, remap, |rules|);
    var trapRows := if StateReads(rules) then TrapRows(comp, |tuple|, line, |comp|) else [];
    SelectAppend(trapRows, rows, rowKeep, |rows|);
    SelectUniform(trapRows, rowKeep, traps, |trapRows|);
    assert trapRows[..|trapRows|] == trapRows;
    MappedBand(rowKeep, keep, rules, comp, |tuple|, remap, |rules|);
    MapKeptOutcome(rules, keep, comp, remap, tuple, |rules|);
    TrapRowsMatch(comp, line, tuple, |comp|);
    NoneMatch(tuple);
    FirstOutcomeAppend(if traps then trapRows else [], Band(rows, rowKeep), tuple);
  }

  /** The spliced rows by band, given the rules whose rows make up each band. */
  lemma SplicedByBand(rules: seq<Rule>, comp: Composite, line: nat, remap: Transition -> Transition, tuple: seq<nat>,
                      exact: seq<Cell> -> bool, partial: seq<Cell> -> bool, catchAll: seq<Cell> -> bool)
    requires AllFit(rules, comp) && Placed(comp, |tuple|) && InRange(comp, |tuple|, tuple)
    requires Tracks(IsExact, exact, rules, comp, |tuple|, remap)
    requires Tracks(IsPartial, partial, rules, comp, |tuple|, remap)
    requires Tracks(IsCatchAll, catchAll, rules, comp, |tuple|, remap)
    requires FirstReads(rules, exact, comp, tuple, |rules|).Some? ==> Readable(comp, tuple)
    ensures BandedOutcome(SpliceRules(rules, comp, |tuple|, line, remap), tuple) ==
            if StateReads(rules) && !Readable(comp, tuple) then ReadTrap(|tuple|)
            else CarriedBack(OrElse(FirstReads(rules, exact, comp, tuple, |rules|),
                                    OrElse(FirstReads(rules, partial, comp, tuple, |rules|),
                                           FirstReads(rules, catchAll, comp, tuple, |rules|))),
                             rules, comp, |tuple|, remap)
  {
    hide TrapRows, SpliceRules, Select, FirstOutcome, SomeRowMatches, FirstReads, Back, Tracks, Readable,
      StateReads, IsExact, IsAllWild, BandedOutcome, InRange;
    TrapBand(comp, |tuple|, line, |comp|);
    SplicedBand(rules, comp, line, remap, tuple, IsExact, exact, |tuple| == 1);
    SplicedBand(rules, comp, line, remap, tuple, IsPartial, partial, |tuple| != 1);
    SplicedBand(rules, comp, line, remap, tuple, IsCatchAll, catchAll, false);
    BandsInTurn(SpliceRules(rules, comp, |tuple|, line, remap), tuple);
  }

  /** An exact pattern is only read where no bound tape holds a hole. */
  lemma {:induction false} ExactReadsReadable(rules: seq<Rule>, comp: Composite, tuple: seq<nat>)
    requires AllFit(rules, comp) && Placed(comp, |tuple|)
    requires FirstReads(rules, IsExact, comp, tuple, |rules|).Some?
    ensures Readable(comp, tuple)
  {
    hide ReadImage;
    var r := FirstReads(rules, IsExact, comp, tuple, |rules|).value;
    forall k | 0 <= k < |comp| ensures ReadImage(comp[k], tuple[comp[k].phys]).Some? {
      assert rules[r].pattern[k].Sym? && CellReads(rules[r].pattern[k], comp[k], tuple[comp[k].phys]);
    }
  }

  lemma {:induction false} NothingReads(rules: seq<Rule>, comp: Composite, tuple: seq<nat>, n: nat)
    requires n <= |rules| && AllFit(rules, comp) && Placed(comp, |tuple|)
    ensures FirstReads(rules, Nothing, comp, tuple, n).None?
  {
    hide ReadsAs, Placed;
    if n > 0 {
      NothingReads(rules, comp, tuple, n - 1);
    }
  }

  lemma {:induction false} ReadsIsKept(rules: seq<Rule>, keep: seq<Cell> -> bool, comp: Composite, tuple: seq<nat>, n: nat)
    requires n <= |rules| && AllFit(rules, comp) && Placed(comp, |tuple|) && Readable(comp, tuple)
    ensures FirstReads(rules, keep, comp, tuple, n) == FirstKept(rules, keep, n, ReadTuple(comp, tuple))
  {
    hide ReadsAs, Matches, Placed, Readable;
    if n > 0 {
      ReadsIsKept(rules, keep, comp, tuple, n - 1);
      ReadsAsMatches(rules[n - 1].pattern, comp, tuple);
    }
  }

  /** A state that does not look has one catch-all rule. */
  lemma {:induction false} BlindReads(rules: seq<Rule>, comp: Composite, tuple: seq<nat>)
    requires AllFit(rules, comp) && Placed(comp, |tuple|) && !StateReads(rules) && comp != []
    ensures FirstReads(rules, IsExact, comp, tuple, |rules|).None?
    ensures FirstReads(rules, IsPartial, comp, tuple, |rules|).None?
    ensures FirstReads(rules, IsSelective, comp, tuple, |rules|).None?
    ensures FirstReads(rules, IsCatchAll, comp, tuple, |rules|) == Some(0)
  {
    hide ReadImage, Placed;
    WildNotExact(rules[0].pattern);
    assert ReadsAs(rules[0].pattern, comp, tuple);
  }

  predicate Anything(pattern: seq<Cell>)
  {
    true
  }

  /** A graph without tapes: every rule of it matches, and every row of it is in one band. */
  lemma TracksUnbound(rules: seq<Rule>, comp: Composite, arity: nat, remap: Transition -> Transition)
    requires AllFit(rules, comp) && comp == []
    ensures Tracks(IsExact, if arity == 0 then Anything else Nothing, rules, comp, arity, remap)
    ensures Tracks(IsPartial, Nothing, rules, comp, arity, remap)
    ensures Tracks(IsCatchAll, if arity == 0 then Nothing else Anything, rules, comp, arity, remap)
  {
    hide MapRule, IsExact, IsAllWild;
    forall k, j | 0 <= k < |rules| && 0 <= j < |MapRule(rules[k], comp, arity, remap)|
      ensures var p := MapRule(rules[k], comp, arity, remap)[j].pattern; IsAllWild(p) && (IsExact(p) <==> arity == 0)
    {
      RowCells(rules[k], comp, arity, remap, j);
      WildRow(MapRule(rules[k], comp, arity, remap)[j].pattern);
    }
  }

  lemma WildRow(p: seq<Cell>)
    requires forall h | 0 <= h < |p| :: p[h] == Wild
    ensures IsAllWild(p) && (IsExact(p) <==> |p| == 0)
  {
    if |p| > 0 {
      assert p[0] == Wild;
    }
  }

  lemma {:induction false} UnboundReads(rules: seq<Rule>, keep: seq<Cell> -> bool, comp: Composite, tuple: seq<nat>, n: nat)
    requires n <= |rules| && AllFit(rules, comp) && Placed(comp, |tuple|) && comp == []
    ensures FirstReads(rules, keep, comp, tuple, n) == if n > 0 && keep([]) then Some(0) else None
    ensures Readable(comp, tuple) && FirstKept(rules, keep, n, ReadTuple(comp, tuple)) == FirstReads(rules, keep, comp, tuple, n)
  {
    hide Placed, ReadImage;
    if n > 0 {
      UnboundReads(rules, keep, comp, tuple, n - 1);
      assert rules[n - 1].pattern == [];
    }
  }

  lemma UnboundSplice(rules: seq<Rule>, comp: Composite, line: nat, remap: Transition -> Transition, tuple: seq<nat>)
    requires AllFit(rules, comp) && Placed(comp, |tuple|) && InRange(comp, |tuple|, tuple) && comp == []
    ensures BandedOutcome(SpliceRules(rules, comp, |tuple|, line, remap), tuple)
         == BandedWalk(rules, comp, remap, tuple)
  {
    hide SpliceRules, FirstReads, FirstKept, Back, Tracks, Readable, StateReads, BandedOutcome, AllFit, Placed, InRange;
    TracksUnbound(rules, comp, |tuple|, remap);
    var exact := if |tuple| == 0 then Anything else Nothing;
    var catchAll := if |tuple| == 0 then Nothing else Anything;
    UnboundReads(rules, exact, comp, tuple, |rules|);
    UnboundReads(rules, Nothing, comp, tuple, |rules|);
    UnboundReads(rules, catchAll, comp, tuple, |rules|);
    SplicedByBand(rules, comp, line, remap, tuple, exact, Nothing, catchAll);
    UnboundReads(rules, IsExact, comp, tuple, |rules|);
    UnboundReads(rules, IsPartial, comp, tuple, |rules|);
    UnboundReads(rules, IsSelective, comp, tuple, |rules|);
    UnboundReads(rules, IsCatchAll, comp, tuple, |rules|);
    Blind(rules);
  }

  lemma Blind(rules: seq<Rule>)
    ensures !StateReads(rules) ==> |rules| == 1
  {
  }

  lemma BoundSplice(rules: seq<Rule>, comp: Composite, line: nat, remap: Transition -> Transition, tuple: seq<nat>)
    requires AllFit(rules, comp) && Placed(comp, |tuple|) && InRange(comp, |tuple|, tuple) && comp != []
    ensures BandedOutcome(SpliceRules(rules, comp, |tuple|, line, remap), tuple)
         == BandedWalk(rules, comp, remap, tuple)
  {
    hide SpliceRules, FirstReads, FirstKept, Back, Tracks, Readable, StateReads, IsExact, IsAllWild, BandedOutcome,
      AllFit, Placed, InRange, Covers;
    if Covers(comp, |tuple|) {
      TracksCovered(rules, comp, |tuple|, remap);
      if FirstReads(rules, IsExact, comp, tuple, |rules|).Some? {
        ExactReadsReadable(rules, comp, tuple);
      }
      SplicedByBand(rules, comp, line, remap, tuple, IsExact, IsPartial, IsCatchAll);
    } else {
      TracksWide(rules, comp, |tuple|, remap);
      NothingReads(rules, comp, tuple, |rules|);
      SplicedByBand(rules, comp, line, remap, tuple, Nothing, IsSelective, IsCatchAll);
    }
    if !StateReads(rules) {
      BlindReads(rules, comp, tuple);
    } else if Readable(comp, tuple) {
      ReadsIsKept(rules, IsExact, comp, tuple, |rules|);
      ReadsIsKept(rules, IsPartial, comp, tuple, |rules|);
      ReadsIsKept(rules, IsSelective, comp, tuple, |rules|);
      ReadsIsKept(rules, IsCatchAll, comp, tuple, |rules|);
    }
  }

  /** Banding after splicing: the emitted rows of a spliced state do what choosing among the
      graph's own rules does - by band when the graph covers the host, and otherwise by the
      first rule that is not a catch-all, because no spliced row is exact any more. */
  lemma BandedSplice(rules: seq<Rule>, comp: Composite, line: nat, remap: Transition -> Transition, tuple: seq<nat>)
    requires AllFit(rules, comp) && Placed(comp, |tuple|) && InRange(comp, |tuple|, tuple)
    ensures BandedOutcome(SpliceRules(rules, comp, |tuple|, line, remap), tuple)
         == BandedWalk(rules, comp, remap, tuple)
  {
    hide SpliceRules, FirstReads, FirstKept, Back, Tracks, Readable, StateReads, IsExact, IsAllWild, BandedOutcome,
      AllFit, Placed, InRange, Covers;
    if comp == [] {
      UnboundSplice(rules, comp, line, remap, tuple);
    } else {
      BoundSplice(rules, comp, line, remap, tuple);
    }
  }

  /** What the first rule that is not a catch-all does, else the first catch-all. */
  ghost function WideOutcome(rules: seq<Rule>, tuple: seq<nat>): Outcome
  {
    match WidePick(rules, tuple)
    case None => NoMatch
    case Some(k) => OutcomeOf(rules[k])
  }

  ghost function WideWalk(rules: seq<Rule>, comp: Composite, remap: Transition -> Transition, tuple: seq<nat>): Outcome
    requires AllFit(rules, comp) && Placed(comp, |tuple|)
  {
    if !StateReads(rules) then Back(rules[0], comp, |tuple|, remap)
    else if !Readable(comp, tuple) then ReadTrap(|tuple|)
    else
      match WidePick(rules, ReadTuple(comp, tuple))
      case None => NoMatch
      case Some(k) => Back(rules[k], comp, |tuple|, remap)
  }

  lemma WideInTurn(rows: seq<Rule>, tuple: seq<nat>)
    ensures WideOutcome(rows, tuple) ==
            if SomeRowMatches(Band(rows, IsSelective), tuple) then FirstOutcome(Band(rows, IsSelective), tuple)
            else FirstOutcome(Band(rows, IsCatchAll), tuple)
  {
    hide FirstOutcome, SomeRowMatches, FirstKept, Select, OutcomeOf, IsSelective, IsCatchAll;
    SelectOutcome(rows, IsSelective, tuple, |rows|);
    SelectOutcome(rows, IsCatchAll, tuple, |rows|);
  }

  lemma TracksSelective(rules: seq<Rule>, comp: Composite, arity: nat, remap: Transition -> Transition)
    requires AllFit(rules, comp) && Placed(comp, arity) && comp != []
    ensures Tracks(IsSelective, IsSelective, rules, comp, arity, remap)
    ensures Tracks(IsCatchAll, IsCatchAll, rules, comp, arity, remap)
  {
    hide MapRule, Covers, IsExact, IsAllWild;
    assert comp[0].phys < arity;
    forall k, j | 0 <= k < |rules| && 0 <= j < |MapRule(rules[k], comp, arity, remap)|
      ensures var p := MapRule(rules[k], comp, arity, remap)[j].pattern;
              IsCatchAll(p) == IsCatchAll(rules[k].pattern)
    {
      RowBand(rules[k], comp, arity, remap, j);
      WildNotExact(rules[k].pattern);
      RowCells(rules[k], comp, arity, remap, j);
      WildNotExact(MapRule(rules[k], comp, arity, remap)[j].pattern);
    }
  }

  lemma SplicedWide(rules: seq<Rule>, comp: Composite, line: nat, remap: Transition -> Transition, tuple: seq<nat>,
                    selective: seq<Cell> -> bool, catchAll: seq<Cell> -> bool)
    requires AllFit(rules, comp) && Placed(comp, |tuple|) && InRange(comp, |tuple|, tuple)
    requires Tracks(IsSelective, selective, rules, comp, |tuple|, remap)
    requires Tracks(IsCatchAll, catchAll, rules, comp, |tuple|, remap)
    ensures WideOutcome(SpliceRules(rules, comp, |tuple|, line, remap), tuple) ==
            if StateReads(rules) && !Readable(comp, tuple) then ReadTrap(|tuple|)
            else CarriedBack(OrElse(FirstReads(rules, selective, comp, tuple, |rules|),
                                    FirstReads(rules, catchAll, comp, tuple, |rules|)),
                             rules, comp, |tuple|, remap)
  {
    hide TrapRows, SpliceRules, Select, FirstOutcome, SomeRowMatches, FirstReads, Back, Tracks, Readable,
      StateReads, IsExact, IsAllWild, WideOutcome, InRange;
    TrapBand(comp, |tuple|, line, |comp|);
    SplicedBand(rules, comp, line, remap, tuple, IsSelective, selective, true);
    SplicedBand(rules, comp, line, remap, tuple, IsCatchAll, catchAll, false);
    WideInTurn(SpliceRules(rules, comp, |tuple|, line, remap), tuple);
  }

  /** Splicing keeps the wide choice: where rows are already picked by the first that is not a catch-all,
      so are the graph's rules. */
  lemma WideSplice(rules: seq<Rule>, comp: Composite, line: nat, remap: Transition -> Transition, tuple: seq<nat>)
    requires AllFit(rules, comp) && Placed(comp, |tuple|) && InRange(comp, |tuple|, tuple)
    ensures WideOutcome(SpliceRules(rules, comp, |tuple|, line, remap), tuple) == WideWalk(rules, comp, remap, tuple)
  {
    hide SpliceRules, FirstReads, FirstKept, Back, Tracks, Readable, StateReads, IsExact, IsAllWild, WideOutcome,
      AllFit, Placed, InRange, Covers;
    if comp == [] {
      UnboundWide(rules, comp, line, remap, tuple);
    } else {
      TracksSelective(rules, comp, |tuple|, remap);
      SplicedWide(rules, comp, line, remap, tuple, IsSelective, IsCatchAll);
      if !StateReads(rules) {
        BlindReads(rules, comp, tuple);
      } else if Readable(comp, tuple) {
        ReadsIsKept(rules, IsSelective, comp, tuple, |rules|);
        ReadsIsKept(rules, IsCatchAll, comp, tuple, |rules|);
      }
    }
  }

  lemma UnboundWide(rules: seq<Rule>, comp: Composite, line: nat, remap: Transition -> Transition, tuple: seq<nat>)
    requires AllFit(rules, comp) && Placed(comp, |tuple|) && InRange(comp, |tuple|, tuple) && comp == []
    ensures WideOutcome(SpliceRules(rules, comp, |tuple|, line, remap), tuple) == WideWalk(rules, comp, remap, tuple)
  {
    hide SpliceRules, FirstReads, FirstKept, Back, Tracks, Readable, StateReads, WideOutcome, AllFit, Placed, InRange;
    var selective := if |tuple| == 0 then Anything else Nothing;
    var catchAll := if |tuple| == 0 then Nothing else Anything;
    TracksUnbound(rules, comp, |tuple|, remap);
    UnboundSelective(rules, comp, |tuple|, remap);
    UnboundReads(rules, selective, comp, tuple, |rules|);
    UnboundReads(rules, catchAll, comp, tuple, |rules|);
    SplicedWide(rules, comp, line, remap, tuple, selective, catchAll);
    UnboundReads(rules, IsSelective, comp, tuple, |rules|);
    UnboundReads(rules, IsCatchAll, comp, tuple, |rules|);
    Blind(rules);
  }

  lemma UnboundSelective(rules: seq<Rule>, comp: Composite, arity: nat, remap: Transition -> Transition)
    requires AllFit(rules, comp) && comp == []
    ensures Tracks(IsSelective, if arity == 0 then Anything else Nothing, rules, comp, arity, remap)
  {
    hide MapRule, IsExact, IsAllWild;
    forall k, j | 0 <= k < |rules| && 0 <= j < |MapRule(rules[k], comp, arity, remap)|
      ensures IsSelective(MapRule(rules[k], comp, arity, remap)[j].pattern) <==> arity == 0
    {
      RowCells(rules[k], comp, arity, remap, j);
      WildRow(MapRule(rules[k], comp, arity, remap)[j].pattern);
    }
  }

  /** So do the rows in the order the match table lists them, once the row check accepts them. */
  lemma EmittedSplice(rules: seq<Rule>, comp: Composite, line: nat, remap: Transition -> Transition, tuple: seq<nat>)
    requires AllFit(rules, comp) && Placed(comp, |tuple|) && InRange(comp, |tuple|, tuple) && tuple != []
    requires NoExactConflict(SpliceRules(rules, comp, |tuple|, line, remap))
    ensures OrderOutcome(SpliceRules(rules, comp, |tuple|, line, remap), tuple)
         == BandedWalk(rules, comp, remap, tuple)
  {
    hide SpliceRules, BandedWalk, OrderPick, EmittedRowOrder, BandPick, NoExactConflict;
    BandOrderSound(SpliceRules(rules, comp, |tuple|, line, remap), tuple);
    BandedSplice(rules, comp, line, remap, tuple);
  }

  // ----- when an uncovered tape changes the choice -----

  /** The symbols of an exact pattern. */
  function SymsOf(pattern: seq<Cell>): (g: seq<nat>)
    ensures |g| == |pattern|
  {
    seq(|pattern|, (k: nat) requires k < |pattern| => if pattern[k].Sym? then pattern[k].s else 0)
  }

  /** A graph tuple that some host tuple reads as. */
  ghost predicate Visible(comp: Composite, g: seq<nat>)
  {
    |g| == |comp| && forall k | 0 <= k < |comp| :: Preimage(comp[k], g[k]) != []
  }

  /** A partial rule that stands before an exact one, the first of its pattern, and also matches the
      exact one's tuple. */
  ghost predicate Inverted(rules: seq<Rule>, comp: Composite, i: nat, j: nat)
  {
    && i < j < |rules|
    && IsPartial(rules[i].pattern) && IsExact(rules[j].pattern)
    && (forall m | 0 <= m < j :: rules[m].pattern != rules[j].pattern)
    && Matches(rules[i].pattern, SymsOf(rules[j].pattern))
    && Visible(comp, SymsOf(rules[j].pattern))
  }

  lemma ExactMatches(pattern: seq<Cell>, g: seq<nat>)
    requires IsExact(pattern)
    ensures Matches(pattern, g) <==> g == SymsOf(pattern)
  {
    if Matches(pattern, g) {
      forall k | 0 <= k < |g| ensures g[k] == SymsOf(pattern)[k] {
        assert CellMatches(pattern[k], g[k]);
      }
    }
  }

  lemma SelectiveBands(pattern: seq<Cell>)
    ensures IsSelective(pattern) <==> IsExact(pattern) || IsPartial(pattern)
    ensures !(IsExact(pattern) && IsPartial(pattern))
  {
  }

  lemma KeptIs(rules: seq<Rule>, keep: seq<Cell> -> bool, g: seq<nat>, k: nat)
    requires k < |rules| && keep(rules[k].pattern) && Matches(rules[k].pattern, g)
    requires forall i | 0 <= i < k && keep(rules[i].pattern) :: !Matches(rules[i].pattern, g)
    ensures FirstKept(rules, keep, |rules|, g) == Some(k)
  {
    hide Matches, FirstKept;
  }

  /** Where no exact rule matches, or it is the first to match, the two choices agree. */
  lemma AgreeOn(rules: seq<Rule>, g: seq<nat>)
    ensures WidePick(rules, g) == BandPick(rules, g) <==>
            var e := FirstKept(rules, IsExact, |rules|, g);
            e.None? || forall i | 0 <= i < e.value && IsPartial(rules[i].pattern) :: !Matches(rules[i].pattern, g)
  {
    hide Matches, FirstKept, IsExact, IsAllWild;
    forall k | 0 <= k < |rules|
      ensures IsSelective(rules[k].pattern) <==> IsExact(rules[k].pattern) || IsPartial(rules[k].pattern)
    {
      SelectiveBands(rules[k].pattern);
    }
    var e := FirstKept(rules, IsExact, |rules|, g);
    var p := FirstKept(rules, IsPartial, |rules|, g);
    if e.Some? {
      if forall i | 0 <= i < e.value && IsPartial(rules[i].pattern) :: !Matches(rules[i].pattern, g) {
        KeptIs(rules, IsSelective, g, e.value);
      }
    } else if p.Some? {
      KeptIs(rules, IsSelective, g, p.value);
    }
  }

  /** On a host with an unbound tape the emitted rows keep the graph's own choice for every tuple
      exactly when no partial rule stands before an exact one it overlaps. */
  lemma WideHostAgrees(rules: seq<Rule>, comp: Composite)
    requires AllFit(rules, comp)
    ensures (forall g | Visible(comp, g) :: WidePick(rules, g) == BandPick(rules, g))
        <==> !exists i: nat, j: nat :: Inverted(rules, comp, i, j)
  {
    hide Matches, FirstKept, IsExact, IsAllWild, WidePick, BandPick, Preimage;
    forall i: nat, j: nat | Inverted(rules, comp, i, j)
      ensures exists g :: Visible(comp, g) && WidePick(rules, g) != BandPick(rules, g)
    {
      InvertedMisleads(rules, comp, i, j);
    }
    forall g | Visible(comp, g) && WidePick(rules, g) != BandPick(rules, g)
      ensures exists i: nat, j: nat :: Inverted(rules, comp, i, j)
    {
      AgreeOn(rules, g);
      var j := FirstKept(rules, IsExact, |rules|, g).value;
      var i: nat :| i < j && IsPartial(rules[i].pattern) && Matches(rules[i].pattern, g);
      ExactMatches(rules[j].pattern, g);
      assert Inverted(rules, comp, i, j);
    }
  }

  /** An inverted pair's exact tuple tells the two choices apart. */
  lemma InvertedMisleads(rules: seq<Rule>, comp: Composite, i: nat, j: nat)
    requires Inverted(rules, comp, i, j)
    ensures var g := SymsOf(rules[j].pattern);
            Visible(comp, g) && BandPick(rules, g) == Some(j) && WidePick(rules, g) != BandPick(rules, g)
  {
    hide Matches, FirstKept, IsExact, IsAllWild, Preimage, WidePick;
    var g := SymsOf(rules[j].pattern);
    ExactMatches(rules[j].pattern, g);
    var e := FirstKept(rules, IsExact, |rules|, g).value;
    SameTuple(rules[e].pattern, rules[j].pattern, g);
    AgreeOn(rules, g);
  }

  function Untouched(): SymMap
  {
    SymMap(map[], {})
  }

  function TwoOfThree(): Composite
  {
    [TapeMap(0, 3, 3, Untouched(), Untouched()), TapeMap(1, 3, 3, Untouched(), Untouched())]
  }

  function PartialFirst(): seq<Rule>
  {
    [Rule([Sym(1), Wild], false, [Keep, Keep], [Right, Stay], Goto("a"), 1),
     Rule([Sym(1), Sym(2)], false, [Keep, Keep], [Left, Stay], Goto("b"), 2)]
  }

  /** Both rows match 1, 2: the exact one, and the first selective one. */
  lemma BothRowsMatch()
    ensures FirstKept(PartialFirst(), IsExact, 2, [1, 2]) == Some(1)
    ensures FirstKept(PartialFirst(), IsSelective, 2, [1, 2]) == Some(0)
  {
    hide FirstKept;
    var rules, g := PartialFirst(), [1, 2];
    assert rules[0].pattern[1] == Wild && rules[0].pattern[0].Sym?;
    assert CellMatches(rules[0].pattern[0], g[0]) && CellMatches(rules[0].pattern[1], g[1]);
    assert CellMatches(rules[1].pattern[0], g[0]) && CellMatches(rules[1].pattern[1], g[1]);
    KeptIs(rules, IsExact, g, 1);
    KeptIs(rules, IsSelective, g, 0);
  }

  /** Rows [1, *] then [1, 2], spliced onto the first two of three host tapes: on 1, 2 the graph
      alone takes the exact row, the host takes the partial one. */
  lemma WideHostExample(remap: Transition -> Transition)
    ensures BandPick(PartialFirst(), [1, 2]) == Some(1)
    ensures BandedOutcome(SpliceRules(PartialFirst(), TwoOfThree(), 3, 0, remap), [1, 2, 0])
         == Back(PartialFirst()[0], TwoOfThree(), 3, remap)
  {
    hide FirstKept, BandedOutcome, Back, MapRules, TrapRows, Matches;
    var tuple := [1, 2, 0];
    BandedSplice(PartialFirst(), TwoOfThree(), 0, remap, tuple);
    assert ReadTuple(TwoOfThree(), tuple) == [1, 2];
    BothRowsMatch();
    assert !Bound(TwoOfThree(), 2);
  }

  /** These rows are an inverted pair. */
  lemma PartialFirstInverted()
    ensures Inverted(PartialFirst(), TwoOfThree(), 0, 1) && !Covers(TwoOfThree(), 3)
    ensures SymsOf(PartialFirst()[1].pattern) == [1, 2] && WidePick(PartialFirst(), [1, 2]) == Some(0)
  {
    hide FirstKept, PreimageBelow;
    BothRowsMatch();
    var rules, comp, g := PartialFirst(), TwoOfThree(), [1, 2];
    assert rules[0].pattern[0].Sym? && rules[0].pattern[1] == Wild;
    assert SymsOf(rules[1].pattern) == g;
    assert CellMatches(rules[0].pattern[0], g[0]) && CellMatches(rules[0].pattern[1], g[1]);
    forall k | 0 <= k < 2 ensures Preimage(comp[k], g[k]) != [] {
      PreimageExact(comp[k], g[k], 3, g[k]);
    }
    assert !Bound(comp, 2);
  }
}
