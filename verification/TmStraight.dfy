/** Which states look at their tapes before they act.  A state whose one rule has wildcards only runs
    without looking: no hole of a graft's maps can stop it, and code generation emits no match for it.
    Every other state looks, and a symbol that reads as nothing traps it. */
module TmStraight {
  import opened Options
  import opened TmRules
  import opened TmSplice
  import opened TmBandSplice
  import opened TmGrafts
  import opened TmLowering
  import I = TmIr

  /** One rule, and nothing but wildcards in it. */
  predicate OneWildRule(rules: seq<Rule>)
  {
    |rules| == 1 && forall k | 0 <= k < |rules[0].pattern| :: rules[0].pattern[k] == Wild
  }

  /** A bound tape holds a symbol that the graph has none for. */
  ghost predicate Unreadable(comp: Composite, tuple: seq<nat>)
  {
    exists k :: 0 <= k < |comp| && comp[k].phys < |tuple| && ReadImage(comp[k], tuple[comp[k].phys]).None?
  }

  /** A state of one wildcard rule does what the rule does on every tuple, unreadable ones too, however the
      host's rows are chosen. */
  lemma WildRuleFires(rules: seq<Rule>, comp: Composite, line: nat, remap: Transition -> Transition, tuple: seq<nat>)
    requires OneWildRule(rules) && AllFit(rules, comp) && Placed(comp, |tuple|) && InRange(comp, |tuple|, tuple)
    ensures var rows := SpliceRules(rules, comp, |tuple|, line, remap);
            FirstOutcome(rows, tuple) == BandedOutcome(rows, tuple) == WideOutcome(rows, tuple)
              == Back(rules[0], comp, |tuple|, remap)
  {
    hide SpliceRules, FirstOutcome, BandedOutcome, WideOutcome, Back, Readable, InRange, Placed;
    SplicePreservesMeaning(rules, comp, line, remap, tuple);
    BandedSplice(rules, comp, line, remap, tuple);
    WideSplice(rules, comp, line, remap, tuple);
  }

  /** Any other state traps on an unreadable tuple, however the host's rows are chosen. */
  lemma OthersTrap(rules: seq<Rule>, comp: Composite, line: nat, remap: Transition -> Transition, tuple: seq<nat>)
    requires !OneWildRule(rules) && AllFit(rules, comp) && Placed(comp, |tuple|) && InRange(comp, |tuple|, tuple)
    requires Unreadable(comp, tuple)
    ensures var rows := SpliceRules(rules, comp, |tuple|, line, remap);
            FirstOutcome(rows, tuple) == BandedOutcome(rows, tuple) == WideOutcome(rows, tuple) == ReadTrap(|tuple|)
  {
    hide SpliceRules, FirstOutcome, BandedOutcome, WideOutcome, Back, InRange, ReadImage;
    SplicePreservesMeaning(rules, comp, line, remap, tuple);
    BandedSplice(rules, comp, line, remap, tuple);
    WideSplice(rules, comp, line, remap, tuple);
  }

  lemma {:induction false} LoweredPatterns(gx: Expansion, params: seq<string>, calls: Calls, rules: seq<Rule>, n: nat)
    requires n <= |rules| && LowerRules(gx, params, calls, rules, n).Fine?
    ensures var out := LowerRules(gx, params, calls, rules, n).value;
            |out| == n && forall k | 0 <= k < n :: out[k].pattern == rules[k].pattern
  {
    hide LowerTransition;
    if n > 0 {
      LoweredPatterns(gx, params, calls, rules, n - 1);
    }
  }

  /** Splicing puts the read traps before a state exactly when code generation has it match: when the state,
      lowered, is no straight-line state. */
  lemma TrapsUnlessStraight(rules: seq<Rule>, comp: Composite, arity: nat, line: nat, remap: Transition -> Transition,
                            gx: Expansion, params: seq<string>, calls: Calls)
    requires AllFit(rules, comp) && Placed(comp, arity) && LowerRules(gx, params, calls, rules, |rules|).Fine?
    ensures var straight := I.IsStraight(LowerRules(gx, params, calls, rules, |rules|).value);
            SpliceRules(rules, comp, arity, line, remap)
              == (if straight then [] else TrapRows(comp, arity, line, |comp|)) + MapRules(rules, comp, arity, remap, |rules|)
  {
    hide LowerRules, TrapRows, MapRules;
    LoweredPatterns(gx, params, calls, rules, |rules|);
  }
}
