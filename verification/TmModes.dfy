/** One step through one graft, in the form that nests: whichever way the host's rows are chosen, a spliced
    state's rows do what the graph's own choice does, carried back and renamed; and their patterns come from
    the graph's patterns alone. */
module TmModes {
  import opened Options
  import opened TmRules
  import opened TmSplice
  import opened TmBands
  import opened TmBandSplice
  import opened TmGrafts
  import Runs = TmRuns

  // ----- choosing by bands, or widely -----

  /** By bands, or where the rows no longer have exact ones, by the first that is not a catch-all. */
  ghost function ModeOutcome(rules: seq<Rule>, tuple: seq<nat>, wide: bool): Outcome
  {
    if wide then WideOutcome(rules, tuple) else BandedOutcome(rules, tuple)
  }

  /** The tuple as a graph sees it; blanks, where it does not look. */
  ghost function Seen(comp: Composite, tuple: seq<nat>): (g: seq<nat>)
    requires Placed(comp, |tuple|)
    ensures |g| == |comp|
  {
    if Readable(comp, tuple) then ReadTuple(comp, tuple) else seq(|comp|, _ => 0)
  }

  /** What was done inside a graft, done to its host. */
  ghost function CarryBack(o: Outcome, comp: Composite, arity: nat): Outcome
  {
    if o.NoMatch? || |o.write| != |comp| || |o.moves| != |comp| then NoMatch
    else Back(Rule([], o.debugger, o.write, o.moves, o.transition, 0), comp, arity, Runs.Same)
  }

  lemma RuleCarried(rule: Rule, comp: Composite, arity: nat, remap: Transition -> Transition)
    requires Fits(rule, comp) && Runs.KeepsTraps(remap)
    ensures Back(rule, comp, arity, remap) == Runs.Redirect(CarryBack(OutcomeOf(rule), comp, arity), remap)
  {
    hide WriteBack, MoveBack, Unwritable;
    var bare := Rule([], rule.debugger, rule.write, rule.moves, rule.transition, 0);
    Runs.BackRedirects(rule, comp, arity, remap);
    var x, y := Back(rule, comp, arity, Runs.Same), Back(bare, comp, arity, Runs.Same);
    if !Unwritable(rule.write, comp) {
      var a := seq(arity, (h: nat) requires |rule.write| == |comp| => WriteBack(rule.write, comp, h));
      var b := seq(arity, (h: nat) requires |rule.moves| == |comp| => MoveBack(rule.moves, comp, h));
      assert x.write == a == y.write && x.moves == b == y.moves;
    }
  }

  /** A state that does not look runs its one rule. */
  lemma BlindOutcome(rules: seq<Rule>, tuple: seq<nat>, wide: bool)
    requires !StateReads(rules) && |rules[0].pattern| == |tuple|
    ensures ModeOutcome(rules, tuple, wide) == OutcomeOf(rules[0])
  {
    hide FirstKept, Matches;
    OnlyRule(rules, tuple, IsExact);
    OnlyRule(rules, tuple, IsPartial);
    OnlyRule(rules, tuple, IsCatchAll);
    OnlyRule(rules, tuple, IsSelective);
  }

  lemma OnlyRule(rules: seq<Rule>, tuple: seq<nat>, keep: seq<Cell> -> bool)
    requires !StateReads(rules) && |rules[0].pattern| == |tuple|
    ensures FirstKept(rules, keep, |rules|, tuple) == if keep(rules[0].pattern) then Some(0) else None
  {
    assert Matches(rules[0].pattern, tuple);
    assert FirstKept(rules, keep, 0, tuple) == None;
  }

  /** What a spliced state's rows do: the graph's own choice, carried back and renamed. */
  lemma ModeSplice(rules: seq<Rule>, comp: Composite, line: nat, remap: Transition -> Transition, tuple: seq<nat>, wide: bool)
    requires AllFit(rules, comp) && Placed(comp, |tuple|) && InRange(comp, |tuple|, tuple) && Runs.KeepsTraps(remap)
    ensures ModeOutcome(SpliceRules(rules, comp, |tuple|, line, remap), tuple, wide) ==
            if StateReads(rules) && !Readable(comp, tuple) then ReadTrap(|tuple|)
            else Runs.Redirect(CarryBack(ModeOutcome(rules, Seen(comp, tuple), wide || !Covers(comp, |tuple|)), comp, |tuple|),
                               remap)
  {
    hide SpliceRules, Back, CarryBack, FirstKept, Readable, ReadTuple, StateReads, BandedOutcome, WideOutcome, Covers, InRange,
      Placed, Runs.KeepsTraps;
    var g := Seen(comp, tuple);
    if wide {
      WideSplice(rules, comp, line, remap, tuple);
    } else {
      BandedSplice(rules, comp, line, remap, tuple);
    }
    if !StateReads(rules) {
      Blind(rules);
      BlindOutcome(rules, g, wide || !Covers(comp, |tuple|));
      RuleCarried(rules[0], comp, |tuple|, remap);
    } else if Readable(comp, tuple) {
      WalkCarried(rules, comp, remap, tuple, wide);
    }
  }

  lemma WalkCarried(rules: seq<Rule>, comp: Composite, remap: Transition -> Transition, tuple: seq<nat>, wide: bool)
    requires AllFit(rules, comp) && Placed(comp, |tuple|) && Runs.KeepsTraps(remap)
    requires StateReads(rules) && Readable(comp, tuple)
    ensures (if wide then WideWalk(rules, comp, remap, tuple) else BandedWalk(rules, comp, remap, tuple)) ==
            Runs.Redirect(CarryBack(ModeOutcome(rules, ReadTuple(comp, tuple), wide || !Covers(comp, |tuple|)), comp, |tuple|),
                          remap)
  {
    hide Back, CarryBack, FirstKept, Readable, ReadTuple, StateReads, Covers, Runs.KeepsTraps;
    forall k | 0 <= k < |rules|
      ensures Back(rules[k], comp, |tuple|, remap) == Runs.Redirect(CarryBack(OutcomeOf(rules[k]), comp, |tuple|), remap)
    {
      RuleCarried(rules[k], comp, |tuple|, remap);
    }
    NothingCarried(comp, |tuple|, remap);
  }

  lemma NothingCarried(comp: Composite, arity: nat, remap: Transition -> Transition)
    ensures Runs.Redirect(CarryBack(NoMatch, comp, arity), remap) == NoMatch
  {
  }

  lemma ModeResolves(rules: seq<Rule>, alias: map<string, string>, tuple: seq<nat>, wide: bool)
    ensures ModeOutcome(ResolveRules(rules, alias), tuple, wide)
         == Runs.Redirect(ModeOutcome(rules, tuple, wide), Runs.Resolving(alias))
  {
    hide FirstKept, ResolveTransition, IsExact, IsPartial, IsCatchAll, BandedOutcome;
    Runs.OutcomeResolves(rules, alias, tuple);
    Runs.KeptResolves(rules, alias, IsSelective, |rules|, tuple);
    Runs.KeptResolves(rules, alias, IsCatchAll, |rules|, tuple);
  }

  // ----- patterns alone -----

  function Patterns(rules: seq<Rule>): (p: seq<seq<Cell>>)
    ensures |p| == |rules|
  {
    seq(|rules|, (k: nat) requires k < |rules| => rules[k].pattern)
  }

  /** A row with a pattern that does nothing. */
  function Idle(pattern: seq<Cell>): Rule
  {
    Rule(pattern, false, Keeps(|pattern|), Stays(|pattern|), Stop, 0)
  }

  function IdleRows(patterns: seq<seq<Cell>>): (rules: seq<Rule>)
    ensures |rules| == |patterns|
  {
    seq(|patterns|, (k: nat) requires k < |patterns| => Idle(patterns[k]))
  }

  lemma PatternsAppend(a: seq<Rule>, b: seq<Rule>)
    ensures Patterns(a + b) == Patterns(a) + Patterns(b)
  {
  }

  lemma IdleReads(rules: seq<Rule>)
    ensures StateReads(IdleRows(Patterns(rules))) <==> StateReads(rules)
  {
    if |rules| == 1 {
      assert IdleRows(Patterns(rules))[0].pattern == rules[0].pattern;
    }
  }

  lemma MapRulePatterns(rule: Rule, comp: Composite, arity: nat, remap: Transition -> Transition)
    requires Fits(rule, comp)
    ensures Patterns(MapRule(rule, comp, arity, remap)) == Patterns(MapRule(Idle(rule.pattern), comp, arity, Runs.Same))
  {
    hide Cartesian, PatternOf, WriteHole, HostWrite, HostMoves, ChoiceOf;
    var opts := Choices(rule, comp);
    assert Choices(Idle(rule.pattern), comp) == opts;
  }

  lemma {:induction false} MapRulesPatterns(rules: seq<Rule>, comp: Composite, arity: nat, remap: Transition -> Transition,
                                            n: nat)
    requires n <= |rules| && AllFit(rules, comp)
    ensures Patterns(MapRules(rules, comp, arity, remap, n))
         == Patterns(MapRules(IdleRows(Patterns(rules)), comp, arity, Runs.Same, n))
  {
    hide MapRule;
    if n > 0 {
      var idle := IdleRows(Patterns(rules));
      MapRulesPatterns(rules, comp, arity, remap, n - 1);
      MapRulePatterns(rules[n - 1], comp, arity, remap);
      PatternsAppend(MapRules(rules, comp, arity, remap, n - 1), MapRule(rules[n - 1], comp, arity, remap));
      PatternsAppend(MapRules(idle, comp, arity, Runs.Same, n - 1), MapRule(idle[n - 1], comp, arity, Runs.Same));
    }
  }

  lemma {:induction false} TrapPatterns(comp: Composite, arity: nat, line: nat, n: nat)
    requires n <= |comp| && forall k | 0 <= k < |comp| :: comp[k].phys < arity
    ensures Patterns(TrapRows(comp, arity, line, n)) == Patterns(TrapRows(comp, arity, 0, n))
  {
    hide Holes;
    if n > 0 {
      TrapPatterns(comp, arity, line, n - 1);
      PatternsAppend(TrapRows(comp, arity, line, n - 1), TapeTraps(comp[n - 1], arity, line));
      PatternsAppend(TrapRows(comp, arity, 0, n - 1), TapeTraps(comp[n - 1], arity, 0));
      assert Patterns(TapeTraps(comp[n - 1], arity, line)) == Patterns(TapeTraps(comp[n - 1], arity, 0));
    }
  }

  /** The patterns of spliced rows come from the patterns alone. */
  lemma SplicePatterns(rules: seq<Rule>, comp: Composite, arity: nat, line: nat, remap: Transition -> Transition)
    requires Splicable(rules, comp, arity)
    ensures Splicable(IdleRows(Patterns(rules)), comp, arity)
    ensures Patterns(SpliceRules(rules, comp, arity, line, remap))
         == Patterns(SpliceRules(IdleRows(Patterns(rules)), comp, arity, 0, Runs.Same))
  {
    hide StateReads, TrapRows, MapRules;
    var idle := IdleRows(Patterns(rules));
    IdleReads(rules);
    TrapPatterns(comp, arity, line, |comp|);
    MapRulesPatterns(rules, comp, arity, remap, |rules|);
    PatternsAppend(if StateReads(rules) then TrapRows(comp, arity, line, |comp|) else [],
                   MapRules(rules, comp, arity, remap, |rules|));
    PatternsAppend(if StateReads(idle) then TrapRows(comp, arity, 0, |comp|) else [],
                   MapRules(idle, comp, arity, Runs.Same, |idle|));
  }

  lemma ResolvedPatterns(rules: seq<Rule>, alias: map<string, string>)
    ensures Patterns(ResolveRules(rules, alias)) == Patterns(rules)
  {
    hide ResolveTransition;
  }
}
