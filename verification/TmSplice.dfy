/** Splicing a graph's rules into a wider host through partial symbol maps. */
module TmSplice {
  import opened Options
  import opened TmRules

  /** A partial symbol map: identity for unlisted symbols, undefined on its holes. */
  datatype SymMap = SymMap(pairs: map<nat, nat>, holes: set<nat>)

  function Apply(m: SymMap, s: nat): Option<nat>
  {
    if s in m.holes then None
    else if s in m.pairs then Some(m.pairs[s])
    else Some(s)
  }

  /** One graph tape placed on a host tape, with its read and write directions. */
  datatype TapeMap = TapeMap(phys: nat, hostCard: nat, graphCard: nat, rmap: SymMap, wmap: SymMap)

  /** The graph symbol a host symbol reads as. */
  function ReadImage(t: TapeMap, p: nat): Option<nat>
  {
    match Apply(t.rmap, p)
    case Some(v) => if v < t.graphCard then Some(v) else None
    case None => None
  }

  /** The host symbol a graph symbol writes as. */
  function WriteImage(t: TapeMap, v: nat): Option<nat>
  {
    match Apply(t.wmap, v)
    case Some(p) => if p < t.hostCard then Some(p) else None
    case None => None
  }

  const SYMBOL_LIMIT: nat := 0x1_0000

  /** Symbols are 16 bits wide: the host symbols the splice enumerates. */
  function SymbolCount(card: nat): nat
  {
    card % SYMBOL_LIMIT
  }

  /** The host symbols below n that read as v, ascending. */
  function PreimageBelow(t: TapeMap, v: nat, n: nat): seq<nat>
  {
    if n == 0 then []
    else PreimageBelow(t, v, n - 1) + (if ReadImage(t, n - 1) == Some(v) then [n - 1] else [])
  }

  function Preimage(t: TapeMap, v: nat): seq<nat>
  {
    PreimageBelow(t, v, SymbolCount(t.hostCard))
  }

  /** The host symbols below n that read as nothing, ascending. */
  function HolesBelow(t: TapeMap, n: nat): seq<nat>
  {
    if n == 0 then []
    else HolesBelow(t, n - 1) + (if ReadImage(t, n - 1).None? then [n - 1] else [])
  }

  function Holes(t: TapeMap): seq<nat>
  {
    HolesBelow(t, SymbolCount(t.hostCard))
  }

  type Composite = seq<TapeMap>

  // ----- the splice -----

  /** One position's alternatives. */
  datatype Choice = Choice(pos: nat, cells: seq<Cell>)

  type Combo = seq<(nat, Cell)>

  /** Every combo extended by every cell, in order. */
  function ExtendOne(combo: Combo, pos: nat, cells: seq<Cell>, n: nat): seq<Combo>
    requires n <= |cells|
  {
    if n == 0 then [] else ExtendOne(combo, pos, cells, n - 1) + [combo + [(pos, cells[n - 1])]]
  }

  function ExtendAll(combos: seq<Combo>, choice: Choice, n: nat): seq<Combo>
    requires n <= |combos|
  {
    if n == 0 then []
    else ExtendAll(combos, choice, n - 1) + ExtendOne(combos[n - 1], choice.pos, choice.cells, |choice.cells|)
  }

  /** The cartesian product of the first n positions, the last one varying fastest. */
  function Cartesian(opts: seq<Choice>, n: nat): seq<Combo>
    requires n <= |opts|
  {
    if n == 0 then [[]]
    else
      var shorter := Cartesian(opts, n - 1);
      ExtendAll(shorter, opts[n - 1], |shorter|)
  }

  /** The pattern that has the first n cells of a combo at their positions. */
  function PatternOf(combo: Combo, arity: nat, n: nat): (r: seq<Cell>)
    requires n <= |combo|
    ensures |r| == arity
  {
    if n == 0 then seq(arity, _ => Wild)
    else
      var p := PatternOf(combo, arity, n - 1);
      if combo[n - 1].0 < arity then p[combo[n - 1].0 := combo[n - 1].1] else p
  }

  function WriteHole(rule: Rule, comp: Composite, n: nat): bool
    requires n <= |comp| && |rule.write| == |comp|
  {
    n > 0 && (WriteHole(rule, comp, n - 1)
              || (rule.write[n - 1].Put? && WriteImage(comp[n - 1], rule.write[n - 1].s).None?))
  }

  function Keeps(arity: nat): seq<WriteOut>
  {
    seq(arity, _ => Keep)
  }

  function Stays(arity: nat): seq<Move>
  {
    seq(arity, _ => Stay)
  }

  function HostWrite(rule: Rule, comp: Composite, arity: nat, n: nat): (r: seq<WriteOut>)
    requires n <= |comp| && |rule.write| == |comp|
    ensures |r| == arity
  {
    if n == 0 then Keeps(arity)
    else
      var w := HostWrite(rule, comp, arity, n - 1);
      var t := comp[n - 1];
      if rule.write[n - 1].Put? && t.phys < arity then
        match WriteImage(t, rule.write[n - 1].s)
        case Some(p) => w[t.phys := Put(p)]
        case None => w
      else w
  }

  function HostMoves(rule: Rule, comp: Composite, arity: nat, n: nat): (r: seq<Move>)
    requires n <= |comp| && |rule.moves| == |comp|
    ensures |r| == arity
  {
    if n == 0 then Stays(arity)
    else
      var m := HostMoves(rule, comp, arity, n - 1);
      if comp[n - 1].phys < arity then m[comp[n - 1].phys := rule.moves[n - 1]] else m
  }

  function Symbols(ss: seq<nat>): seq<Cell>
  {
    seq(|ss|, (k: nat) requires k < |ss| => Sym(ss[k]))
  }

  function ChoiceOf(t: TapeMap, c: Cell): Choice
  {
    Choice(t.phys, match c case Wild => [Wild] case Sym(v) => Symbols(Preimage(t, v)))
  }

  function Choices(rule: Rule, comp: Composite): seq<Choice>
    requires |rule.pattern| == |comp|
  {
    seq(|comp|, (k: nat) requires k < |comp| && |rule.pattern| == |comp| => ChoiceOf(comp[k], rule.pattern[k]))
  }

  ghost predicate Fits(rule: Rule, comp: Composite)
  {
    |rule.pattern| == |rule.write| == |rule.moves| == |comp|
  }

  function RowOf(rule: Rule, comp: Composite, arity: nat, remap: Transition -> Transition,
                 pattern: seq<Cell>): Rule
    requires |rule.write| == |rule.moves| == |comp|
  {
    if WriteHole(rule, comp, |comp|) then
      Rule(pattern, rule.debugger, Keeps(arity), Stays(arity), TrapWrite, rule.line)
    else
      Rule(pattern, rule.debugger, HostWrite(rule, comp, arity, |comp|), HostMoves(rule, comp, arity, |comp|),
           remap(rule.transition), rule.line)
  }

  function RowsOf(combos: seq<Combo>, rule: Rule, comp: Composite, arity: nat,
                  remap: Transition -> Transition): seq<Rule>
    requires |rule.write| == |rule.moves| == |comp|
  {
    seq(|combos|, (k: nat) requires k < |combos| && |rule.write| == |rule.moves| == |comp| =>
      RowOf(rule, comp, arity, remap, PatternOf(combos[k], arity, |combos[k]|)))
  }

  /** A graph rule's host rows: one for each combination of preimages, none when some pattern
      cell has no preimage; all of them write traps when some write has no host image. */
  function MapRule(rule: Rule, comp: Composite, arity: nat, remap: Transition -> Transition): seq<Rule>
    requires |rule.pattern| == |rule.write| == |rule.moves| == |comp|
  {
    var opts := Choices(rule, comp);
    RowsOf(Cartesian(opts, |opts|), rule, comp, arity, remap)
  }

  function TrapRow(t: TapeMap, arity: nat, hole: nat, line: nat): Rule
    requires t.phys < arity
  {
    Rule(seq(arity, _ => Wild)[t.phys := Sym(hole)], false, Keeps(arity), Stays(arity),
         TrapRead, line)
  }

  function TapeTraps(t: TapeMap, arity: nat, line: nat): seq<Rule>
    requires t.phys < arity
  {
    var holes := Holes(t);
    seq(|holes|, (k: nat) requires k < |holes| && t.phys < arity => TrapRow(t, arity, holes[k], line))
  }

  /** The read-trap rows of the first n tapes, in tape order then ascending. */
  function TrapRows(comp: Composite, arity: nat, line: nat, n: nat): seq<Rule>
    requires n <= |comp| && forall k | 0 <= k < n :: comp[k].phys < arity
  {
    if n == 0 then [] else TrapRows(comp, arity, line, n - 1) + TapeTraps(comp[n - 1], arity, line)
  }

  function MapRules(rules: seq<Rule>, comp: Composite, arity: nat, remap: Transition -> Transition, n: nat): seq<Rule>
    requires n <= |rules|
    requires forall k | 0 <= k < n ::
               |rules[k].pattern| == |rules[k].write| == |rules[k].moves| == |comp|
  {
    if n == 0 then [] else MapRules(rules, comp, arity, remap, n - 1) + MapRule(rules[n - 1], comp, arity, remap)
  }

  function SpliceRules(rules: seq<Rule>, comp: Composite, arity: nat, line: nat,
                       remap: Transition -> Transition): seq<Rule>
    requires forall k | 0 <= k < |comp| :: comp[k].phys < arity
    requires forall k | 0 <= k < |rules| ::
               |rules[k].pattern| == |rules[k].write| == |rules[k].moves| == |comp|
  {
    (if StateReads(rules) then TrapRows(comp, arity, line, |comp|) else [])
    + MapRules(rules, comp, arity, remap, |rules|)
  }

  // ----- what the splice promises -----

  /** A composite that places each graph tape on a host tape of its own. */
  ghost predicate Placed(comp: Composite, arity: nat)
  {
    && (forall k | 0 <= k < |comp| :: comp[k].phys < arity && comp[k].hostCard < SYMBOL_LIMIT)
    && (forall i, k | 0 <= i < k < |comp| :: comp[i].phys != comp[k].phys)
  }

  ghost predicate AllFit(rules: seq<Rule>, comp: Composite)
  {
    forall k | 0 <= k < |rules| :: |rules[k].pattern| == |rules[k].write| == |rules[k].moves| == |comp|
  }

  /** A host tuple whose bound tapes hold symbols of their alphabets. */
  ghost predicate InRange(comp: Composite, arity: nat, tuple: seq<nat>)
    requires Placed(comp, arity)
  {
    |tuple| == arity && forall k | 0 <= k < |comp| :: tuple[comp[k].phys] < comp[k].hostCard
  }

  ghost predicate Readable(comp: Composite, tuple: seq<nat>)
    requires Placed(comp, |tuple|)
  {
    forall k | 0 <= k < |comp| :: ReadImage(comp[k], tuple[comp[k].phys]).Some?
  }

  /** The tuple as the graph sees it. */
  ghost function ReadTuple(comp: Composite, tuple: seq<nat>): (g: seq<nat>)
    requires Placed(comp, |tuple|) && Readable(comp, tuple)
    ensures |g| == |comp|
    ensures forall k | 0 <= k < |comp| :: ReadImage(comp[k], tuple[comp[k].phys]) == Some(g[k])
  {
    seq(|comp|, (k: nat) requires k < |comp| && Placed(comp, |tuple|) && Readable(comp, tuple) =>
      ReadImage(comp[k], tuple[comp[k].phys]).value)
  }

  /** The graph tape placed on host tape h. */
  ghost function TapeAt(comp: Composite, h: nat): (r: Option<nat>)
    ensures r.Some? ==> r.value < |comp| && comp[r.value].phys == h
    ensures r.None? ==> forall k | 0 <= k < |comp| :: comp[k].phys != h
  {
    if k: nat :| k < |comp| && comp[k].phys == h then Some(k) else None
  }

  /** What the host writes on tape h when the graph writes `write`: nothing on an unbound tape. */
  ghost function WriteBack(write: seq<WriteOut>, comp: Composite, h: nat): WriteOut
    requires |write| == |comp|
  {
    match TapeAt(comp, h)
    case None => Keep
    case Some(k) =>
      if write[k].Put? && WriteImage(comp[k], write[k].s).Some?
      then Put(WriteImage(comp[k], write[k].s).value) else Keep
  }

  ghost function MoveBack(moves: seq<Move>, comp: Composite, h: nat): Move
    requires |moves| == |comp|
  {
    match TapeAt(comp, h)
    case None => Stay
    case Some(k) => moves[k]
  }

  ghost predicate Unwritable(write: seq<WriteOut>, comp: Composite)
    requires |write| == |comp|
  {
    exists k :: 0 <= k < |comp| && write[k].Put? && WriteImage(comp[k], write[k].s).None?
  }

  /** A trap that leaves the tapes alone. */
  function Quiet(debugger: bool, arity: nat, trap: Transition): Outcome
  {
    Fired(debugger, Keeps(arity), Stays(arity), trap)
  }

  function ReadTrap(arity: nat): Outcome
  {
    Quiet(false, arity, TrapRead)
  }

  /** A graph rule's action carried back to the host; a symbol without a host image traps. */
  ghost function Back(rule: Rule, comp: Composite, arity: nat, remap: Transition -> Transition): Outcome
    requires |rule.write| == |rule.moves| == |comp|
  {
    if Unwritable(rule.write, comp) then Quiet(rule.debugger, arity, TrapWrite)
    else
      Fired(rule.debugger,
            seq(arity, (h: nat) requires |rule.write| == |comp| => WriteBack(rule.write, comp, h)),
            seq(arity, (h: nat) requires |rule.moves| == |comp| => MoveBack(rule.moves, comp, h)),
            remap(rule.transition))
  }

  /** The meaning a spliced state must have: read the tuple through the maps (a hole traps, but
      only in a state that reads), take the graph's first matching rule, carry it back. */
  ghost function Walk(rules: seq<Rule>, comp: Composite, remap: Transition -> Transition, tuple: seq<nat>): Outcome
    requires AllFit(rules, comp) && Placed(comp, |tuple|)
  {
    if !StateReads(rules) then Back(rules[0], comp, |tuple|, remap)
    else if !Readable(comp, tuple) then ReadTrap(|tuple|)
    else
      match FirstMatch(rules, 0, ReadTuple(comp, tuple))
      case None => NoMatch
      case Some(k) => Back(rules[k], comp, |tuple|, remap)
  }

  // ----- symbols -----

  lemma {:induction false} PreimageExact(t: TapeMap, v: nat, n: nat, p: nat)
    ensures p in PreimageBelow(t, v, n) <==> p < n && ReadImage(t, p) == Some(v)
  {
    hide ReadImage;
    if n > 0 {
      PreimageExact(t, v, n - 1, p);
    }
  }

  lemma {:induction false} HolesExact(t: TapeMap, n: nat, p: nat)
    ensures p in HolesBelow(t, n) <==> p < n && ReadImage(t, p).None?
  {
    hide ReadImage;
    if n > 0 {
      HolesExact(t, n - 1, p);
    }
  }

  /** Every host symbol is a hole or in exactly one preimage. */
  lemma SymbolsPartition(t: TapeMap, p: nat)
    requires t.hostCard < SYMBOL_LIMIT && p < t.hostCard
    ensures p in Holes(t) <==> !exists v: nat :: p in Preimage(t, v)
    ensures forall v: nat, w: nat | p in Preimage(t, v) && p in Preimage(t, w) :: v == w
    ensures forall v: nat | p in Preimage(t, v) :: v < t.graphCard
  {
    HolesExact(t, t.hostCard, p);
    forall v: nat ensures p in Preimage(t, v) <==> ReadImage(t, p) == Some(v) {
      PreimageExact(t, v, t.hostCard, p);
    }
    if ReadImage(t, p).Some? {
      assert p in Preimage(t, ReadImage(t, p).value);
    }
  }

  // ----- the product -----

  lemma {:induction false} InExtendOne(combo: Combo, pos: nat, cells: seq<Cell>, n: nat, c: Combo)
    requires n <= |cells|
    ensures c in ExtendOne(combo, pos, cells, n) <==>
            exists k :: 0 <= k < n && c == combo + [(pos, cells[k])]
  {
    if n > 0 {
      InExtendOne(combo, pos, cells, n - 1, c);
    }
  }

  lemma {:induction false} InExtendAll(combos: seq<Combo>, choice: Choice, n: nat, c: Combo)
    requires n <= |combos|
    ensures c in ExtendAll(combos, choice, n) <==>
            exists m, k :: 0 <= m < n && 0 <= k < |choice.cells| && c == combos[m] + [(choice.pos, choice.cells[k])]
  {
    if n > 0 {
      hide ExtendOne;
      InExtendAll(combos, choice, n - 1, c);
      InExtendOne(combos[n - 1], choice.pos, choice.cells, |choice.cells|, c);
    }
  }

  ghost predicate Picks(opts: seq<Choice>, n: nat, combo: Combo)
    requires n <= |opts|
  {
    |combo| == n && forall k | 0 <= k < n :: combo[k].0 == opts[k].pos && combo[k].1 in opts[k].cells
  }

  /** The product holds exactly the combos that pick one alternative for every position. */
  lemma {:induction false} InCartesian(opts: seq<Choice>, n: nat, combo: Combo)
    requires n <= |opts|
    ensures combo in Cartesian(opts, n) <==> Picks(opts, n, combo)
  {
    hide ExtendAll;
    if n > 0 {
      var shorter := Cartesian(opts, n - 1);
      InExtendAll(shorter, opts[n - 1], |shorter|, combo);
      if combo in Cartesian(opts, n) {
        var m, k :| 0 <= m < |shorter| && 0 <= k < |opts[n - 1].cells|
                    && combo == shorter[m] + [(opts[n - 1].pos, opts[n - 1].cells[k])];
        InCartesian(opts, n - 1, shorter[m]);
      }
      if Picks(opts, n, combo) {
        InCartesian(opts, n - 1, combo[..n - 1]);
        var m, k := LastPick(opts, n, combo);
      }
    }
  }

  lemma LastPick(opts: seq<Choice>, n: nat, combo: Combo) returns (m: nat, k: nat)
    requires 0 < n <= |opts| && Picks(opts, n, combo)
    requires combo[..n - 1] in Cartesian(opts, n - 1)
    ensures m < |Cartesian(opts, n - 1)| && k < |opts[n - 1].cells|
    ensures combo == Cartesian(opts, n - 1)[m] + [(opts[n - 1].pos, opts[n - 1].cells[k])]
  {
    hide Cartesian;
    var shorter := Cartesian(opts, n - 1);
    m :| 0 <= m < |shorter| && shorter[m] == combo[..n - 1];
    k :| 0 <= k < |opts[n - 1].cells| && opts[n - 1].cells[k] == combo[n - 1].1;
    assert combo == combo[..n - 1] + [combo[n - 1]];
  }

  // ----- host rows -----

  ghost predicate Distinct(combo: Combo, arity: nat)
  {
    && (forall k | 0 <= k < |combo| :: combo[k].0 < arity)
    && (forall i, k | 0 <= i < k < |combo| :: combo[i].0 != combo[k].0)
  }

  lemma {:induction false} PatternAt(combo: Combo, arity: nat, n: nat)
    requires n <= |combo| && Distinct(combo, arity)
    ensures forall k | 0 <= k < n :: PatternOf(combo, arity, n)[combo[k].0] == combo[k].1
    ensures forall h | 0 <= h < arity && (forall k | 0 <= k < n :: combo[k].0 != h) ::
              PatternOf(combo, arity, n)[h] == Wild
  {
    if n > 0 {
      PatternAt(combo, arity, n - 1);
    }
  }

  lemma PatternMatches(combo: Combo, tuple: seq<nat>)
    requires Distinct(combo, |tuple|)
    ensures Matches(PatternOf(combo, |tuple|, |combo|), tuple) <==>
            forall k | 0 <= k < |combo| :: CellMatches(combo[k].1, tuple[combo[k].0])
  {
    hide PatternOf;
    PatternAt(combo, |tuple|, |combo|);
    var p := PatternOf(combo, |tuple|, |combo|);
    if forall k | 0 <= k < |combo| :: CellMatches(combo[k].1, tuple[combo[k].0]) {
      forall h | 0 <= h < |p| ensures CellMatches(p[h], tuple[h]) {
        if k :| 0 <= k < |combo| && combo[k].0 == h {
        }
      }
    }
    if Matches(p, tuple) {
      forall k | 0 <= k < |combo| ensures CellMatches(combo[k].1, tuple[combo[k].0]) {
        assert CellMatches(p[combo[k].0], tuple[combo[k].0]);
      }
    }
  }

  /** Reading the tuple through the maps, every cell of a graph pattern is met. */
  ghost predicate ReadsAs(pattern: seq<Cell>, comp: Composite, tuple: seq<nat>)
    requires |pattern| == |comp| && Placed(comp, |tuple|)
  {
    forall k | 0 <= k < |comp| :: CellReads(pattern[k], comp[k], tuple[comp[k].phys])
  }

  ghost predicate CellReads(c: Cell, t: TapeMap, p: nat)
  {
    c == Wild || (c.Sym? && ReadImage(t, p) == Some(c.s))
  }

  ghost predicate Offers(choice: Choice, p: nat)
  {
    exists c :: c in choice.cells && CellMatches(c, p)
  }

  lemma OffersExactly(t: TapeMap, c: Cell, p: nat)
    requires t.hostCard < SYMBOL_LIMIT && p < t.hostCard
    ensures Offers(ChoiceOf(t, c), p) <==> CellReads(c, t, p)
  {
    hide ReadImage, PreimageBelow;
    match c
    case Wild => assert Wild in ChoiceOf(t, c).cells && CellMatches(Wild, p);
    case Sym(v) =>
      PreimageExact(t, v, t.hostCard, p);
      var pre := Preimage(t, v);
      var cells := ChoiceOf(t, c).cells;
      if p in pre {
        var k :| 0 <= k < |pre| && pre[k] == p;
        assert cells[k] == Sym(p) && CellMatches(Sym(p), p);
      }
      if Offers(ChoiceOf(t, c), p) {
        var x :| x in cells && CellMatches(x, p);
        var k :| 0 <= k < |cells| && cells[k] == x;
        assert x == Sym(pre[k]) && pre[k] in pre;
        assert p in pre;
      }
  }

  ghost predicate SomeRowMatches(rows: seq<Rule>, tuple: seq<nat>)
  {
    exists k :: 0 <= k < |rows| && Matches(rows[k].pattern, tuple)
  }

  /** Some host row of a rule matches a tuple exactly when the rule's pattern, read through the
      maps, does. */
  lemma RowsMatch(rule: Rule, comp: Composite, remap: Transition -> Transition, tuple: seq<nat>)
    requires |rule.pattern| == |rule.write| == |rule.moves| == |comp|
    requires Placed(comp, |tuple|) && InRange(comp, |tuple|, tuple)
    ensures SomeRowMatches(MapRule(rule, comp, |tuple|, remap), tuple) <==> ReadsAs(rule.pattern, comp, tuple)
  {
    hide Cartesian, ChoiceOf, CellReads, PatternOf, WriteHole, HostWrite, HostMoves, Matches;
    var opts := Choices(rule, comp);
    var combos := Cartesian(opts, |opts|);
    var rows := MapRule(rule, comp, |tuple|, remap);
    forall k | 0 <= k < |comp|
      ensures Offers(opts[k], tuple[comp[k].phys]) <==> CellReads(rule.pattern[k], comp[k], tuple[comp[k].phys])
    {
      OffersExactly(comp[k], rule.pattern[k], tuple[comp[k].phys]);
    }
    forall k | 0 <= k < |comp| ensures opts[k].pos == comp[k].phys { ChoicePos(comp[k], rule.pattern[k]); }
    if SomeRowMatches(rows, tuple) {
      var m :| 0 <= m < |rows| && Matches(rows[m].pattern, tuple);
      InCartesian(opts, |opts|, combos[m]);
      PatternMatches(combos[m], tuple);
      forall k | 0 <= k < |comp| ensures Offers(opts[k], tuple[comp[k].phys]) {
        assert combos[m][k].1 in opts[k].cells;
      }
    }
    if ReadsAs(rule.pattern, comp, tuple) {
      var combo := PickCombo(opts, comp, tuple, |opts|);
      InCartesian(opts, |opts|, combo);
      PatternMatches(combo, tuple);
      var m :| 0 <= m < |combos| && combos[m] == combo;
      assert rows[m].pattern == PatternOf(combo, |tuple|, |combo|);
    }
  }

  lemma ChoicePos(t: TapeMap, c: Cell)
    ensures ChoiceOf(t, c).pos == t.phys
  {
  }

  lemma {:induction false} PickCombo(opts: seq<Choice>, comp: Composite, tuple: seq<nat>, n: nat)
    returns (combo: Combo)
    requires n <= |opts| == |comp| && Placed(comp, |tuple|)
    requires forall k | 0 <= k < n :: opts[k].pos == comp[k].phys && Offers(opts[k], tuple[comp[k].phys])
    ensures Picks(opts, n, combo)
    ensures forall k | 0 <= k < n :: CellMatches(combo[k].1, tuple[combo[k].0])
  {
    combo := [];
    if n > 0 {
      var shorter := PickCombo(opts, comp, tuple, n - 1);
      var c :| c in opts[n - 1].cells && CellMatches(c, tuple[comp[n - 1].phys]);
      combo := shorter + [(opts[n - 1].pos, c)];
    }
  }

  // ----- every row of a rule does the same -----

  lemma {:induction false} WriteHoleExact(rule: Rule, comp: Composite, n: nat)
    requires n <= |comp| && |rule.write| == |comp|
    ensures WriteHole(rule, comp, n) <==>
            exists k :: 0 <= k < n && rule.write[k].Put? && WriteImage(comp[k], rule.write[k].s).None?
  {
    hide WriteImage;
    if n > 0 {
      WriteHoleExact(rule, comp, n - 1);
    }
  }

  lemma {:induction false} HostWriteAt(rule: Rule, comp: Composite, arity: nat, n: nat)
    requires n <= |comp| && |rule.write| == |comp| && Placed(comp, arity)
    ensures forall k | 0 <= k < n :: HostWrite(rule, comp, arity, n)[comp[k].phys] ==
              if rule.write[k].Put? && WriteImage(comp[k], rule.write[k].s).Some?
              then Put(WriteImage(comp[k], rule.write[k].s).value) else Keep
    ensures forall h | 0 <= h < arity && (forall k | 0 <= k < n :: comp[k].phys != h) ::
              HostWrite(rule, comp, arity, n)[h] == Keep
  {
    hide WriteImage;
    if n > 0 {
      HostWriteAt(rule, comp, arity, n - 1);
    }
  }

  lemma {:induction false} HostMovesAt(rule: Rule, comp: Composite, arity: nat, n: nat)
    requires n <= |comp| && |rule.moves| == |comp| && Placed(comp, arity)
    ensures forall k | 0 <= k < n :: HostMoves(rule, comp, arity, n)[comp[k].phys] == rule.moves[k]
    ensures forall h | 0 <= h < arity && (forall k | 0 <= k < n :: comp[k].phys != h) ::
              HostMoves(rule, comp, arity, n)[h] == Stay
  {
    if n > 0 {
      HostMovesAt(rule, comp, arity, n - 1);
    }
  }

  lemma HostVectors(rule: Rule, comp: Composite, arity: nat)
    requires |rule.write| == |rule.moves| == |comp| && Placed(comp, arity)
    ensures HostWrite(rule, comp, arity, |comp|)
         == seq(arity, (h: nat) requires |rule.write| == |comp| => WriteBack(rule.write, comp, h))
    ensures HostMoves(rule, comp, arity, |comp|)
         == seq(arity, (h: nat) requires |rule.moves| == |comp| => MoveBack(rule.moves, comp, h))
  {
    hide WriteImage, HostWrite, HostMoves, TapeAt;
    HostWriteAt(rule, comp, arity, |comp|);
    HostMovesAt(rule, comp, arity, |comp|);
    forall h: nat | h < arity
      ensures HostWrite(rule, comp, arity, |comp|)[h] == WriteBack(rule.write, comp, h)
      ensures HostMoves(rule, comp, arity, |comp|)[h] == MoveBack(rule.moves, comp, h)
    {
      if TapeAt(comp, h).Some? {
        assert comp[TapeAt(comp, h).value].phys == h;
      }
    }
  }

  lemma RowActs(rule: Rule, comp: Composite, arity: nat, remap: Transition -> Transition, pattern: seq<Cell>)
    requires |rule.write| == |rule.moves| == |comp| && Placed(comp, arity)
    ensures OutcomeOf(RowOf(rule, comp, arity, remap, pattern)) == Back(rule, comp, arity, remap)
  {
    hide WriteImage, HostWrite, HostMoves, WriteBack, MoveBack, WriteHole, Placed;
    WriteHoleExact(rule, comp, |comp|);
    HostVectors(rule, comp, arity);
  }

  // ----- first match over the spliced rows -----

  lemma {:induction false} FirstMatchIs(rows: seq<Rule>, i: nat, k: nat, tuple: seq<nat>)
    requires i <= k < |rows| && Matches(rows[k].pattern, tuple)
    requires forall j | i <= j < k :: !Matches(rows[j].pattern, tuple)
    ensures FirstMatch(rows, i, tuple) == Some(k)
  {
  }

  lemma FirstOutcomeAppend(a: seq<Rule>, b: seq<Rule>, tuple: seq<nat>)
    ensures FirstOutcome(a + b, tuple)
         == if SomeRowMatches(a, tuple) then FirstOutcome(a, tuple) else FirstOutcome(b, tuple)
    ensures SomeRowMatches(a + b, tuple) <==> SomeRowMatches(a, tuple) || SomeRowMatches(b, tuple)
  {
    hide Matches, OutcomeOf;
    var ab := a + b;
    match FirstMatch(a, 0, tuple)
    case Some(k) =>
      FirstMatchIs(ab, 0, k, tuple);
    case None =>
      match FirstMatch(b, 0, tuple)
      case Some(k) =>
        assert ab[|a| + k] == b[k];
        FirstMatchIs(ab, 0, |a| + k, tuple);
      case None =>
  }

  /** Rows that all act alike act as soon as one of them matches. */
  lemma UniformOutcome(rows: seq<Rule>, o: Outcome, tuple: seq<nat>)
    requires forall k | 0 <= k < |rows| :: OutcomeOf(rows[k]) == o
    ensures FirstOutcome(rows, tuple) == if SomeRowMatches(rows, tuple) then o else NoMatch
  {
    hide Matches, OutcomeOf;
  }

  lemma MapRuleOutcome(rule: Rule, comp: Composite, remap: Transition -> Transition, tuple: seq<nat>)
    requires |rule.pattern| == |rule.write| == |rule.moves| == |comp|
    requires Placed(comp, |tuple|) && InRange(comp, |tuple|, tuple)
    ensures var rows := MapRule(rule, comp, |tuple|, remap);
            && (SomeRowMatches(rows, tuple) <==> ReadsAs(rule.pattern, comp, tuple))
            && FirstOutcome(rows, tuple)
               == (if ReadsAs(rule.pattern, comp, tuple) then Back(rule, comp, |tuple|, remap) else NoMatch)
  {
    hide Cartesian, PatternOf, RowOf, OutcomeOf, Back, Matches, ReadsAs, Placed, InRange, Choices;
    RowsMatch(rule, comp, remap, tuple);
    var rows := MapRule(rule, comp, |tuple|, remap);
    forall k | 0 <= k < |rows| ensures OutcomeOf(rows[k]) == Back(rule, comp, |tuple|, remap) {
      RowActs(rule, comp, |tuple|, remap, rows[k].pattern);
      RowPattern(rule, comp, |tuple|, remap, k);
    }
    UniformOutcome(rows, Back(rule, comp, |tuple|, remap), tuple);
  }

  lemma RowPattern(rule: Rule, comp: Composite, arity: nat, remap: Transition -> Transition, k: nat)
    requires |rule.pattern| == |rule.write| == |rule.moves| == |comp|
    requires k < |MapRule(rule, comp, arity, remap)|
    ensures var row := MapRule(rule, comp, arity, remap)[k];
            row == RowOf(rule, comp, arity, remap, row.pattern)
  {
    hide Cartesian, PatternOf, WriteHole, HostWrite, HostMoves, Choices;
  }

  /** The first of the first n rules whose pattern, read through the maps, matches. */
  ghost function Chosen(rules: seq<Rule>, comp: Composite, tuple: seq<nat>, n: nat): (r: Option<nat>)
    requires n <= |rules| && AllFit(rules, comp) && Placed(comp, |tuple|)
    ensures r.Some? ==> r.value < n && ReadsAs(rules[r.value].pattern, comp, tuple)
    ensures forall k | 0 <= k < (if r.Some? then r.value else n) :: !ReadsAs(rules[k].pattern, comp, tuple)
  {
    if n == 0 then None
    else
      var earlier := Chosen(rules, comp, tuple, n - 1);
      if earlier.Some? then earlier
      else if ReadsAs(rules[n - 1].pattern, comp, tuple) then Some(n - 1)
      else None
  }

  lemma {:induction false} MapRulesOutcome(rules: seq<Rule>, comp: Composite, remap: Transition -> Transition,
                                           tuple: seq<nat>, n: nat)
    requires n <= |rules| && AllFit(rules, comp) && Placed(comp, |tuple|) && InRange(comp, |tuple|, tuple)
    ensures var rows := MapRules(rules, comp, |tuple|, remap, n);
            && (SomeRowMatches(rows, tuple) <==> Chosen(rules, comp, tuple, n).Some?)
            && FirstOutcome(rows, tuple) ==
               match Chosen(rules, comp, tuple, n)
               case None => NoMatch
               case Some(k) => Back(rules[k], comp, |tuple|, remap)
  {
    hide MapRule, ReadsAs, Back, Placed, InRange, FirstOutcome;
    if n == 0 {
      NoRows(tuple);
    } else {
      MapRulesOutcome(rules, comp, remap, tuple, n - 1);
      MapRuleOutcome(rules[n - 1], comp, remap, tuple);
      FirstOutcomeAppend(MapRules(rules, comp, |tuple|, remap, n - 1),
                         MapRule(rules[n - 1], comp, |tuple|, remap), tuple);
    }
  }

  lemma NoRows(tuple: seq<nat>)
    ensures FirstOutcome([], tuple) == NoMatch
  {
  }

  // ----- read traps -----

  lemma TrapRowMatches(t: TapeMap, hole: nat, line: nat, tuple: seq<nat>)
    requires t.phys < |tuple|
    ensures Matches(TrapRow(t, |tuple|, hole, line).pattern, tuple) <==> tuple[t.phys] == hole
    ensures OutcomeOf(TrapRow(t, |tuple|, hole, line)) == ReadTrap(|tuple|)
  {
    var p := TrapRow(t, |tuple|, hole, line).pattern;
    if tuple[t.phys] == hole {
      assert forall k | 0 <= k < |p| :: CellMatches(p[k], tuple[k]);
    }
    if Matches(p, tuple) {
      assert CellMatches(p[t.phys], tuple[t.phys]);
    }
  }

  lemma TapeTrapsMatch(t: TapeMap, line: nat, tuple: seq<nat>)
    requires t.phys < |tuple| && t.hostCard < SYMBOL_LIMIT && tuple[t.phys] < t.hostCard
    ensures SomeRowMatches(TapeTraps(t, |tuple|, line), tuple) <==> ReadImage(t, tuple[t.phys]).None?
    ensures FirstOutcome(TapeTraps(t, |tuple|, line), tuple)
         == if ReadImage(t, tuple[t.phys]).None? then ReadTrap(|tuple|) else NoMatch
  {
    hide ReadImage, HolesBelow, TrapRow, Matches, OutcomeOf;
    HolesExact(t, t.hostCard, tuple[t.phys]);
    var holes := Holes(t);
    var rows := TapeTraps(t, |tuple|, line);
    forall k | 0 <= k < |rows|
      ensures Matches(rows[k].pattern, tuple) <==> tuple[t.phys] == holes[k]
      ensures OutcomeOf(rows[k]) == ReadTrap(|tuple|)
    {
      TrapRowMatches(t, holes[k], line, tuple);
    }
    if tuple[t.phys] in holes {
      var k :| 0 <= k < |holes| && holes[k] == tuple[t.phys];
      assert Matches(rows[k].pattern, tuple);
    }
    UniformOutcome(rows, ReadTrap(|tuple|), tuple);
  }

  lemma {:induction false} TrapRowsMatch(comp: Composite, line: nat, tuple: seq<nat>, n: nat)
    requires n <= |comp| && Placed(comp, |tuple|) && InRange(comp, |tuple|, tuple)
    ensures var rows := TrapRows(comp, |tuple|, line, n);
            var trapped := exists k :: 0 <= k < n && ReadImage(comp[k], tuple[comp[k].phys]).None?;
            && (SomeRowMatches(rows, tuple) <==> trapped)
            && FirstOutcome(rows, tuple) == (if trapped then ReadTrap(|tuple|) else NoMatch)
  {
    hide ReadImage, TapeTraps, FirstOutcome, SomeRowMatches;
    if n == 0 {
      NoRows(tuple);
      NoneMatch(tuple);
    } else {
      TrapRowsMatch(comp, line, tuple, n - 1);
      TapeTrapsMatch(comp[n - 1], line, tuple);
      FirstOutcomeAppend(TrapRows(comp, |tuple|, line, n - 1), TapeTraps(comp[n - 1], |tuple|, line), tuple);
    }
  }

  lemma NoneMatch(tuple: seq<nat>)
    ensures !SomeRowMatches([], tuple)
  {
  }

  // ----- the theorem -----

  /** On a readable tuple, reading through the maps is matching what the graph sees. */
  lemma ReadsAsMatches(pattern: seq<Cell>, comp: Composite, tuple: seq<nat>)
    requires |pattern| == |comp| && Placed(comp, |tuple|) && Readable(comp, tuple)
    ensures ReadsAs(pattern, comp, tuple) <==> Matches(pattern, ReadTuple(comp, tuple))
  {
    hide ReadImage;
    var g := ReadTuple(comp, tuple);
    forall k | 0 <= k < |comp|
      ensures CellReads(pattern[k], comp[k], tuple[comp[k].phys]) <==> CellMatches(pattern[k], g[k])
    {
    }
  }

  lemma SameFirst(rules: seq<Rule>, g: seq<nat>, r: Option<nat>)
    requires r.Some? ==> r.value < |rules| && Matches(rules[r.value].pattern, g)
    requires forall k | 0 <= k < (if r.Some? then r.value else |rules|) :: !Matches(rules[k].pattern, g)
    ensures FirstMatch(rules, 0, g) == r
  {
    hide Matches;
    if r.Some? {
      FirstMatchIs(rules, 0, r.value, g);
    }
  }

  lemma ChosenIsFirst(rules: seq<Rule>, comp: Composite, tuple: seq<nat>)
    requires AllFit(rules, comp) && Placed(comp, |tuple|) && Readable(comp, tuple)
    ensures Chosen(rules, comp, tuple, |rules|) == FirstMatch(rules, 0, ReadTuple(comp, tuple))
  {
    hide ReadsAs, Matches, Placed, Readable, Chosen, FirstMatch;
    var g := ReadTuple(comp, tuple);
    forall k | 0 <= k < |rules| ensures ReadsAs(rules[k].pattern, comp, tuple) <==> Matches(rules[k].pattern, g) {
      ReadsAsMatches(rules[k].pattern, comp, tuple);
    }
    SameFirst(rules, g, Chosen(rules, comp, tuple, |rules|));
  }

  /** Splicing preserves meaning: on every host tuple, source-order first match over the spliced
      rows does what reading the tuple through the maps, choosing the graph's rule and carrying
      it back does.  Host tapes the graph does not bind are left alone. */
  lemma SplicePreservesMeaning(rules: seq<Rule>, comp: Composite, line: nat,
                               remap: Transition -> Transition, tuple: seq<nat>)
    requires AllFit(rules, comp) && Placed(comp, |tuple|) && InRange(comp, |tuple|, tuple)
    ensures FirstOutcome(SpliceRules(rules, comp, |tuple|, line, remap), tuple) == Walk(rules, comp, remap, tuple)
  {
    hide MapRules, TrapRows, Back, ReadsAs, ReadImage, FirstOutcome, SomeRowMatches, Chosen, FirstMatch;
    var traps := if StateReads(rules) then TrapRows(comp, |tuple|, line, |comp|) else [];
    var rows := MapRules(rules, comp, |tuple|, remap, |rules|);
    TrapRowsMatch(comp, line, tuple, |comp|);
    NoneMatch(tuple);
    MapRulesOutcome(rules, comp, remap, tuple, |rules|);
    FirstOutcomeAppend(traps, rows, tuple);
    if !StateReads(rules) {
      WildReads(rules, comp, tuple);
    } else if Readable(comp, tuple) {
      ChosenIsFirst(rules, comp, tuple);
    }
  }

  lemma WildReads(rules: seq<Rule>, comp: Composite, tuple: seq<nat>)
    requires AllFit(rules, comp) && Placed(comp, |tuple|) && !StateReads(rules)
    ensures Chosen(rules, comp, tuple, |rules|) == Some(0)
  {
    hide ReadImage;
    assert ReadsAs(rules[0].pattern, comp, tuple);
  }

  // ----- the algorithm -----

  method CartesianProduct(opts: seq<Choice>) returns (result: seq<Combo>)
    ensures result == Cartesian(opts, |opts|)
  {
    result := [[]];
    for i := 0 to |opts|
      invariant result == Cartesian(opts, i)
    {
      var next: seq<Combo> := [];
      for m := 0 to |result|
        invariant next == ExtendAll(result, opts[i], m)
      {
        ghost var before := next;
        for k := 0 to |opts[i].cells|
          invariant next == before + ExtendOne(result[m], opts[i].pos, opts[i].cells, k)
        {
          next := next + [result[m] + [(opts[i].pos, opts[i].cells[k])]];
        }
      }
      result := next;
    }
  }

  /** No combo picks from an empty list of alternatives. */
  lemma DeadCell(opts: seq<Choice>, k: nat)
    requires k < |opts| && opts[k].cells == []
    ensures Cartesian(opts, |opts|) == []
  {
    hide Cartesian;
    if Cartesian(opts, |opts|) != [] {
      InCartesian(opts, |opts|, Cartesian(opts, |opts|)[0]);
    }
  }

  /** The write and move vectors of a rule's host rows. */
  method ProjectAction(rule: Rule, comp: Composite, arity: nat)
    returns (writeHole: bool, hostWrite: seq<WriteOut>, hostMoves: seq<Move>)
    requires |rule.write| == |rule.moves| == |comp| && Placed(comp, arity)
    ensures writeHole == WriteHole(rule, comp, |comp|)
    ensures hostWrite == HostWrite(rule, comp, arity, |comp|)
    ensures hostMoves == HostMoves(rule, comp, arity, |comp|)
  {
    hide WriteImage;
    writeHole := false;
    hostWrite := Keeps(arity);
    hostMoves := Stays(arity);
    for k := 0 to |comp|
      invariant writeHole == WriteHole(rule, comp, k)
      invariant hostWrite == HostWrite(rule, comp, arity, k)
      invariant hostMoves == HostMoves(rule, comp, arity, k)
    {
      var t := comp[k];
      if rule.write[k].Put? {
        match WriteImage(t, rule.write[k].s)
        case Some(p) => hostWrite := hostWrite[t.phys := Put(p)];
        case None => writeHole := true;
      }
      hostMoves := hostMoves[t.phys := rule.moves[k]];
    }
  }

  method MapRuleRows(rule: Rule, comp: Composite, arity: nat, remap: Transition -> Transition)
    returns (rows: seq<Rule>)
    requires |rule.pattern| == |rule.write| == |rule.moves| == |comp| && Placed(comp, arity)
    ensures rows == MapRule(rule, comp, arity, remap)
  {
    hide WriteHole, HostWrite, HostMoves, ChoiceOf, PatternOf, Cartesian, Placed;
    var writeHole, hostWrite, hostMoves := ProjectAction(rule, comp, arity);
    var opts: seq<Choice> := [];
    for k := 0 to |comp|
      invariant opts == Choices(rule, comp)[..k]
    {
      var choice := ChoiceOf(comp[k], rule.pattern[k]);
      if choice.cells == [] {
        assert Choices(rule, comp)[k] == choice;
        DeadCell(Choices(rule, comp), k);
        return [];
      }
      opts := opts + [choice];
    }
    assert opts == Choices(rule, comp);
    var transition := if writeHole then TrapWrite else remap(rule.transition);
    var write := if writeHole then Keeps(arity) else hostWrite;
    var moves := if writeHole then Stays(arity) else hostMoves;
    var combos := CartesianProduct(opts);
    rows := [];
    for k := 0 to |combos|
      invariant rows == RowsOf(combos, rule, comp, arity, remap)[..k]
    {
      var pattern := PatternOf(combos[k], arity, |combos[k]|);
      rows := rows + [Rule(pattern, rule.debugger, write, moves, transition, rule.line)];
    }
    assert rows == RowsOf(combos, rule, comp, arity, remap);
  }

  /** Splices one state; `dead` lists the rules that can never fire in this instance. */
  method SpliceState(rules: seq<Rule>, comp: Composite, arity: nat, line: nat, remap: Transition -> Transition)
    returns (rows: seq<Rule>, dead: seq<nat>)
    requires AllFit(rules, comp) && Placed(comp, arity)
    ensures rows == SpliceRules(rules, comp, arity, line, remap)
    ensures forall k: nat :: k in dead <==> k < |rules| && MapRule(rules[k], comp, arity, remap) == []
  {
    hide MapRule, TrapRow, Holes;
    rows := [];
    if StateReads(rules) {
      for k := 0 to |comp|
        invariant rows == TrapRows(comp, arity, line, k)
      {
        rows := rows + TapeTraps(comp[k], arity, line);
      }
    }
    ghost var traps := rows;
    dead := [];
    for k := 0 to |rules|
      invariant rows == traps + MapRules(rules, comp, arity, remap, k)
      invariant forall j: nat :: j in dead <==> j < k && MapRule(rules[j], comp, arity, remap) == []
    {
      var mapped := MapRuleRows(rules[k], comp, arity, remap);
      if mapped == [] { dead := dead + [k]; }
      rows := rows + mapped;
    }
  }
}
