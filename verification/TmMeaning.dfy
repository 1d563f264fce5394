/** What the parts of a written rule mean, said of glyphs and numbers alone: which glyphs a pattern cell
    stands for, what it binds, and what a write cell writes. */
module TmMeaning {
  import opened Options
  import opened FreshNames
  import opened TmRules
  import opened TmRanges

  // ----- pattern cells -----

  /** A literal's glyph: itself, or a number's numeral. */
  predicate Spelled(l: SymLit, g: string)
  {
    match l
    case Glyph(text) => g == text
    case Num(n) => Numeral(g, n)
  }

  ghost predicate NumeralAmong(g: string, lo: nat, hi: nat)
  {
    exists n: nat :: lo <= n <= hi && Numeral(g, n)
  }

  /** A cell stands for a glyph: any, the one it names, a numeral between two numbers, or a character between
      two characters. */
  ghost predicate Stands(kind: CellKind, g: string)
  {
    match kind
    case Any => true
    case Single(l) => Spelled(l, g)
    case Range(Num(lo), Num(hi)) => NumeralAmong(g, lo, hi)
    case Range(Glyph(lo), Glyph(hi)) => |lo| == |hi| == |g| == 1 && lo[0] <= g[0] <= hi[0]
    case Range(_, _) => false
  }

  /** A range that cannot be read: from a later end to an earlier one, or between other things than two
      numbers or two characters. */
  predicate Descending(kind: CellKind)
  {
    && kind.Range?
    && ((kind.lo.Num? && kind.hi.Num? && kind.lo.value > kind.hi.value)
        || (kind.lo.Glyph? && kind.hi.Glyph? && |kind.lo.text| == |kind.hi.text| == 1 && kind.lo.text[0] > kind.hi.text[0]))
  }

  predicate Unscalar(kind: CellKind)
  {
    && kind.Range? && !(kind.lo.Num? && kind.hi.Num?)
    && !(kind.lo.Glyph? && kind.hi.Glyph? && |kind.lo.text| == |kind.hi.text| == 1)
  }

  lemma LabelSpelled(l: SymLit, g: string)
    ensures g == Label(l) <==> Spelled(l, g)
  {
    hide Decimal, Numeral;
    if l.Num? {
      DecimalReads(l.value);
      if Numeral(g, l.value) {
        NumeralIsDecimal(g, l.value);
      }
    }
  }

  lemma NumbersAre(lo: nat, hi: nat, g: string)
    requires lo <= hi
    ensures var ms := Numbers(lo, hi - lo + 1);
            && (NumeralAmong(g, lo, hi) <==> exists k :: 0 <= k < |ms| && ms[k].0 == g)
            && forall k | 0 <= k < |ms| && ms[k].0 == g :: ms[k].1.Some? && ms[k].1.value >= 0 && Numeral(g, ms[k].1.value)
  {
    hide Decimal, Numeral;
    var ms := Numbers(lo, hi - lo + 1);
    NumbersApart(lo, hi - lo + 1);
    forall n: nat | lo <= n <= hi ensures Numeral(Decimal(n), n) {
      DecimalReads(n);
    }
    if NumeralAmong(g, lo, hi) {
      var n: nat :| lo <= n <= hi && Numeral(g, n);
      NumeralIsDecimal(g, n);
      assert ms[n - lo].0 == g;
    }
  }

  lemma CharScalar(c: char)
    ensures IsScalar(c as int)
  {
  }

  predicate Among(ms: seq<Member>, g: string)
  {
    exists k :: 0 <= k < |ms| && ms[k].0 == g
  }

  lemma AmongJoin(a: seq<Member>, b: seq<Member>, g: string)
    ensures Among(a + b, g) <==> Among(a, g) || Among(b, g)
  {
    if k: nat :| k < |a| && a[k].0 == g {
      assert (a + b)[k] == a[k];
    }
    if k: nat :| k < |b| && b[k].0 == g {
      assert (a + b)[|a| + k] == b[k];
    }
  }

  function Character(c: nat): seq<Member>
  {
    if IsScalar(c) then [([c as char], None)] else []
  }

  lemma CharacterIs(c: nat, g: string)
    ensures Among(Character(c), g) <==> |g| == 1 && g[0] as int == c
  {
    if |g| == 1 && g[0] as int == c {
      CharScalar(g[0]);
      assert Character(c)[0].0 == g;
    }
  }

  lemma {:induction false} CharactersAre(lo: nat, n: nat, g: string)
    ensures (exists k :: 0 <= k < |Characters(lo, n)| && Characters(lo, n)[k].0 == g)
       <==> |g| == 1 && lo <= g[0] as int < lo + n
    ensures forall k | 0 <= k < |Characters(lo, n)| :: Characters(lo, n)[k].1.None?
  {
    if n > 0 {
      CharactersAre(lo, n - 1, g);
      AmongJoin(Characters(lo, n - 1), Character(lo + n - 1), g);
      CharacterIs(lo + n - 1, g);
      assert Characters(lo, n) == Characters(lo, n - 1) + Character(lo + n - 1);
      assert Among(Characters(lo, n), g) <==> |g| == 1 && lo <= g[0] as int < lo + n;
    }
  }

  /** A range is refused exactly when it cannot be read, and for that reason. */
  lemma RefusedExactly(kind: CellKind)
    ensures Denoted(kind) == Err(RangeDescending) <==> Descending(kind)
    ensures Denoted(kind) == Err(RangeEndpointNotScalar) <==> Unscalar(kind)
    ensures Denoted(kind).Ok? <==> !Descending(kind) && !Unscalar(kind)
  {
    hide Numbers, Characters;
  }

  /** What expansion lists for a cell is what the cell stands for. */
  lemma DenotesStands(c: PatternCell, g: string)
    requires Denoted(c.kind).Ok?
    ensures Denotes(c, g) <==> Stands(c.kind, g)
  {
    hide Numbers, Characters, NumeralAmong, Numeral, Decimal;
    match c.kind
    case Any =>
    case Single(l) =>
      LabelSpelled(l, g);
      assert Denoted(c.kind).value[0].0 == Label(l);
    case Range(lo, hi) =>
      if lo.Num? {
        NumbersAre(lo.value, hi.value, g);
      } else {
        var a, b := lo.text[0], hi.text[0];
        CharactersAre(a as int, b as int - a as int + 1, g);
        assert Denoted(c.kind).value == Characters(a as int, b as int - a as int + 1);
        assert Denotes(c, g) <==> |g| == 1 && a as int <= g[0] as int < a as int + (b as int - a as int + 1);
        assert Stands(c.kind, g) <==> |g| == 1 && a <= g[0] <= b;
      }
  }

  // ----- bindings -----

  /** What a cell binds when it reads a glyph: the glyph, and its number where the cell speaks of numbers. */
  predicate Binds(kind: CellKind, g: string, b: Bound)
  {
    && b.glyph == g
    && match kind
       case Any => false
       case Single(Num(n)) => b.value == Some(n)
       case Range(Num(_), Num(_)) => b.value.Some? && b.value.value >= 0 && Numeral(g, b.value.value)
       case _ => b.value.None?
  }

  lemma BoundIs(c: PatternCell, glyphs: Glyphs, s: nat)
    requires s < |glyphs| && Denoted(c.kind).Ok? && Denotes(c, glyphs[s])
    ensures var bound := AlternativeFor(c, glyphs, s).1;
            && (bound.Some? <==> c.binding.Some? && !c.kind.Any?)
            && (bound.Some? ==> bound.value.0 == c.binding.value && Binds(c.kind, glyphs[s], bound.value.1))
  {
    hide Numbers, Characters, Numeral, Decimal, ValueIn;
    if !c.kind.Any? {
      var ms := Denoted(c.kind).value;
      var k :| 0 <= k < |ms| && ms[k].0 == glyphs[s];
      DenotedApart(c.kind);
      ValueFound(ms, 0, k);
      if c.kind.Range? {
        if c.kind.lo.Num? {
          NumbersAre(c.kind.lo.value, c.kind.hi.value, glyphs[s]);
        } else {
          CharactersAre(c.kind.lo.text[0] as int, c.kind.hi.text[0] as int - c.kind.lo.text[0] as int + 1, glyphs[s]);
        }
      }
    }
  }

  /** Tape k's cell binds the name on this tuple. */
  predicate BindsAt(pattern: seq<PatternCell>, tapes: seq<Glyphs>, tuple: seq<nat>, k: nat, name: string, b: Bound)
    requires |pattern| == |tapes| == |tuple|
  {
    && k < |tapes| && tuple[k] < |tapes[k]| && pattern[k].binding == Some(name)
    && Binds(pattern[k].kind, tapes[k][tuple[k]], b)
  }

  predicate Binder(c: PatternCell, name: string)
  {
    c.binding == Some(name) && !c.kind.Any?
  }

  /** What a name is bound to on a tuple: by the last of the first n cells that binds it. */
  ghost predicate Given(pattern: seq<PatternCell>, tapes: seq<Glyphs>, tuple: seq<nat>, n: nat, name: string, b: Bound)
    requires |pattern| == |tapes| == |tuple| && n <= |tapes|
  {
    exists k: nat :: k < n && BindsAt(pattern, tapes, tuple, k, name, b) && forall j | k < j < n :: !Binder(pattern[j], name)
  }

  lemma LookupJoin(env: Env, more: Env, name: string)
    requires |more| <= 1
    ensures Lookup(env + more, |env + more|, name)
         == if more != [] && more[0].0 == name then Some(more[0].1) else Lookup(env, |env|, name)
  {
    LookupPrefix(env, more, |env|, name);
    if more != [] {
      assert (env + more)[|env|] == more[0];
    }
  }

  lemma {:induction false} LookupPrefix(env: Env, more: Env, n: nat, name: string)
    requires n <= |env|
    ensures Lookup(env + more, n, name) == Lookup(env, n, name)
  {
    if n > 0 {
      LookupPrefix(env, more, n - 1, name);
    }
  }

  /** A name looked up in what a rule binds is bound by its last binder. */
  lemma {:induction false} LookupGiven(rule: SourceRule, tapes: seq<Glyphs>, tuple: seq<nat>, n: nat, name: string)
    requires n <= |tapes| == |tuple| == |rule.pattern|
    requires forall k | 0 <= k < |tapes| ::
               tuple[k] < |tapes[k]| && Denoted(rule.pattern[k].kind).Ok? && Denotes(rule.pattern[k], tapes[k][tuple[k]])
    ensures var env := BoundBy(rule, tapes, tuple, n);
            var b := Lookup(env, |env|, name);
            && (b.Some? ==> Given(rule.pattern, tapes, tuple, n, name, b.value))
            && (b.None? ==> forall k | 0 <= k < n :: !Binder(rule.pattern[k], name))
  {
    hide Denoted, Denotes, AlternativeFor, Binds, Lookup;
    if n == 0 {
      assert Lookup([], 0, name) == None by {
        NothingFound(name);
      }
    } else {
      LookupGiven(rule, tapes, tuple, n - 1, name);
      BoundIs(rule.pattern[n - 1], tapes[n - 1], tuple[n - 1]);
      var env := BoundBy(rule, tapes, tuple, n - 1);
      var alt := AlternativeFor(rule.pattern[n - 1], tapes[n - 1], tuple[n - 1]);
      LookupJoin(env, if alt.1.Some? then [alt.1.value] else [], name);
      if alt.1.Some? && alt.1.value.0 == name {
        assert BindsAt(rule.pattern, tapes, tuple, n - 1, name, alt.1.value.1);
      }
    }
  }

  lemma NothingFound(name: string)
    ensures Lookup([], 0, name) == None
  {
  }

  // ----- write cells -----

  /** A number's text. */
  predicate Written(g: string, v: int)
  {
    if v >= 0 then Numeral(g, v) else g != [] && g[0] == '-' && Numeral(g[1..], -v)
  }

  lemma TextWritten(g: string, v: int)
    ensures g == Text(v) <==> Written(g, v)
  {
    hide Decimal, Numeral;
    var n: nat := if v < 0 then -v else v;
    DecimalReads(n);
    if v < 0 {
      assert Text(v)[1..] == Decimal(n);
      if Written(g, v) {
        NumeralIsDecimal(g[1..], n);
        assert g == "-" + g[1..];
      }
    } else if Written(g, v) {
      NumeralIsDecimal(g, n);
    }
  }

  /** The glyph a write cell asks for: a literal's own; for a bare name, the glyph as it was read; for
      arithmetic, the text of its value, if that stays in its bounds. */
  predicate Asks(c: WriteCell, env: Env, g: string)
  {
    match c
    case KeepCell => false
    case Lit(l) => Spelled(l, g)
    case Subst(Var(name)) => Lookup(env, |env|, name).Some? && g == Lookup(env, |env|, name).value.glyph
    case Subst(e) => Stays(e, env) && Written(g, Meaning(e, env).value)
  }

  /** What a write cell does: nothing, or it puts the symbol whose glyph it asks for. */
  predicate Writes(c: WriteCell, glyphs: Glyphs, env: Env, w: WriteOut)
  {
    match w
    case Keep => c.KeepCell?
    case Put(s) => s < |glyphs| && Asks(c, env, glyphs[s])
  }

  lemma AskedGlyph(c: WriteCell, env: Env, g: string)
    requires !c.KeepCell?
    ensures Asks(c, env, g) <==> (match c
                                  case KeepCell => false
                                  case Lit(l) => g == Label(l)
                                  case Subst(e) => Substituted(e, env) == Ok(g))
  {
    hide Decimal, Numeral, Lookup, EvalFold, Meaning, Stays, Text, Written;
    match c
    case KeepCell =>
    case Lit(l) => LabelSpelled(l, g);
    case Subst(e) =>
      if !e.Var? {
        FoldExact(e, env);
        if EvalFold(e, env).Ok? {
          TextWritten(g, EvalFold(e, env).value);
        }
      }
  }

  /** A write cell resolves exactly to what it writes, and to nothing else. */
  lemma WriteExact(c: WriteCell, glyphs: Glyphs, env: Env, w: WriteOut)
    requires IsAlphabet(glyphs)
    ensures WriteCellOut(c, glyphs, env) == Ok(w) <==> Writes(c, glyphs, env, w)
  {
    hide Asks, IndexOf, Substituted, Label;
    if c.KeepCell? {
      NothingAsked(env);
    } else if w.Put? {
      if w.s < |glyphs| {
        AskedGlyph(c, env, glyphs[w.s]);
        IndexOfGlyph(glyphs, w.s);
      }
      if WriteCellOut(c, glyphs, env) == Ok(w) {
        var g := if c.Lit? then Label(c.lit) else Substituted(c.expr, env).value;
        IndexExact(glyphs, 0, g);
      }
    }
  }

  lemma NothingAsked(env: Env)
    ensures forall g :: !Asks(KeepCell, env, g)
  {
  }

  lemma {:induction false} WritesAt(cells: seq<WriteCell>, tapes: seq<Glyphs>, env: Env, n: nat)
    requires n <= |cells| == |tapes| && WritesOut(cells, tapes, env, n).Ok?
    ensures var out := WritesOut(cells, tapes, env, n).value;
            |out| == n && forall k | 0 <= k < n :: WriteCellOut(cells[k], tapes[k], env) == Ok(out[k])
  {
    hide WriteCellOut;
    if n > 0 {
      WritesAt(cells, tapes, env, n - 1);
    }
  }

  /** A rule's write vector: nothing where it has none, else what each cell writes. */
  ghost predicate WritesAll(write: Option<seq<WriteCell>>, tapes: seq<Glyphs>, env: Env, out: seq<WriteOut>)
  {
    && |out| == |tapes|
    && match write
       case None => forall k | 0 <= k < |tapes| :: out[k] == Keep
       case Some(cells) => |cells| == |tapes| && forall k | 0 <= k < |tapes| :: Writes(cells[k], tapes[k], env, out[k])
  }

  lemma VectorMeans(write: Option<seq<WriteCell>>, tapes: seq<Glyphs>, env: Env)
    requires (write.Some? ==> |write.value| == |tapes|) && forall k | 0 <= k < |tapes| :: IsAlphabet(tapes[k])
    requires WriteVector(write, tapes, env).Ok?
    ensures WritesAll(write, tapes, env, WriteVector(write, tapes, env).value)
  {
    hide WriteCellOut, WritesOut, Writes, IsAlphabet;
    if write.Some? {
      var out := WriteVector(write, tapes, env).value;
      WritesAt(write.value, tapes, env, |tapes|);
      forall k | 0 <= k < |tapes| ensures Writes(write.value[k], tapes[k], env, out[k]) {
        WriteExact(write.value[k], tapes[k], env, out[k]);
      }
    }
  }

  // ----- why a rule does not expand -----

  /** Some part of a fold is what an error says: an unbound name, a glyph in arithmetic, a zero modulus, a
      remainder of a negative number that does not come out even, or a value beyond 64 bits. */
  predicate Blamed(e: Fold, env: Env, x: Error)
  {
    match e
    case Int(_) => false
    case Var(name) =>
      var b := Lookup(env, |env|, name);
      (x == UnknownBinding(name) && b.None?) || (x == GlyphArithmetic(name) && b.Some? && b.value.value.None?)
    case Bin(op, lhs, rhs) =>
      || Blamed(lhs, env, x) || Blamed(rhs, env, x)
      || (Meaning(lhs, env).Some? && Meaning(rhs, env).Some?
          && BlamedHere(op, Meaning(lhs, env).value, Meaning(rhs, env).value, rhs, x))
  }

  predicate BlamedHere(op: FoldOp, l: int, r: int, rhs: Fold, x: Error)
  {
    match op
    case Add => x == Overflow && !Fits(l + r)
    case Sub => x == Overflow && !Fits(l - r)
    case Mul => x == Overflow && !Fits(l * r)
    case Rem =>
      || (x == ZeroModulus && r == 0) || (x == Overflow && l == I64_MIN && r == -1)
      || (r != 0 && l < 0 && l % r != 0 && x == NegativeRemainder(if rhs.Int? && rhs.value > 0 then Some(rhs.value) else None))
  }

  /** A fold fails for a reason. */
  lemma {:induction false} FoldBlamed(e: Fold, env: Env)
    ensures EvalFold(e, env).Err? ==> Blamed(e, env, EvalFold(e, env).error)
  {
    hide Lookup, Truncated;
    if e.Bin? {
      FoldBlamed(e.lhs, env);
      FoldBlamed(e.rhs, env);
      FoldExact(e.lhs, env);
      FoldExact(e.rhs, env);
      var l, r := EvalFold(e.lhs, env), EvalFold(e.rhs, env);
      if e.op.Rem? && l.Ok? && r.Ok? && r.value != 0 {
        TruncatedIsEuclidean(l.value, r.value);
        if Truncated(l.value, r.value) < 0 {
          TruncatedSign(l.value, r.value);
        }
      }
    }
  }

  lemma TruncatedSign(l: int, r: int)
    requires r != 0 && Truncated(l, r) < 0
    ensures l < 0 && l % r != 0
  {
    if l < 0 && l % r == 0 {
      TruncatedIsEuclidean(l, r);
    }
  }

  /** Why a write cell cannot be resolved: what it asks for is no symbol of the tape, or it is a fold that
      fails. */
  ghost predicate CellBlamed(c: WriteCell, glyphs: Glyphs, env: Env, x: Error)
  {
    match c
    case KeepCell => false
    case Lit(l) => x.SymbolNotInAlphabet? && Spelled(l, x.glyph) && x.glyph !in glyphs
    case Subst(e) =>
      || (x.FoldOutOfAlphabet? && Asks(c, env, x.glyph) && x.glyph !in glyphs)
      || (e.Var? && x == UnknownBinding(e.name) && Lookup(env, |env|, e.name).None?)
      || (!e.Var? && Blamed(e, env, x))
  }

  lemma CellFails(c: WriteCell, glyphs: Glyphs, env: Env)
    requires WriteCellOut(c, glyphs, env).Err?
    ensures CellBlamed(c, glyphs, env, WriteCellOut(c, glyphs, env).error)
  {
    hide IndexOf, Label, Lookup, Asks, Blamed, EvalFold, Text, Numeral;
    var x := WriteCellOut(c, glyphs, env).error;
    match c
    case Lit(l) =>
      LabelSpelled(l, Label(l));
      IndexExact(glyphs, 0, Label(l));
    case Subst(e) =>
      if Substituted(e, env).Ok? {
        AskedGlyph(c, env, Substituted(e, env).value);
        IndexExact(glyphs, 0, Substituted(e, env).value);
      } else if !e.Var? {
        FoldBlamed(e, env);
      }
  }

  lemma {:induction false} WritesFail(cells: seq<WriteCell>, tapes: seq<Glyphs>, env: Env, n: nat) returns (k: nat)
    requires n <= |cells| == |tapes| && WritesOut(cells, tapes, env, n).Err?
    ensures k < n && CellBlamed(cells[k], tapes[k], env, WritesOut(cells, tapes, env, n).error)
  {
    hide WriteCellOut, CellBlamed;
    if WritesOut(cells, tapes, env, n - 1).Err? {
      k := WritesFail(cells, tapes, env, n - 1);
    } else {
      k := n - 1;
      CellFails(cells[k], tapes[k], env);
    }
  }

  lemma {:induction false} OptionsRefused(cells: seq<PatternCell>, tapes: seq<Glyphs>, n: nat) returns (k: nat)
    requires n <= |cells| == |tapes| && AllOptions(cells, tapes, n).Err?
    ensures k < n && Denoted(cells[k].kind) == Err(AllOptions(cells, tapes, n).error)
  {
    hide Denoted, OnTape;
    k := n - 1;
    if AllOptions(cells, tapes, n - 1).Err? {
      k := OptionsRefused(cells, tapes, n - 1);
    }
  }

  lemma {:induction false} RowsRefused(rule: SourceRule, tapes: seq<Glyphs>,
                                       combos: seq<seq<Alternative>>, n: nat) returns (k: nat, env: Env)
    requires WidthsFit(rule, |tapes|) && n <= |combos| && RowsOf(rule, tapes, combos, n).Err?
    ensures rule.write.Some? && k < |tapes|
            && CellBlamed(rule.write.value[k], tapes[k], env, RowsOf(rule, tapes, combos, n).error)
  {
    hide WritesOut, CellBlamed, EnvOf;
    if RowsOf(rule, tapes, combos, n - 1).Err? {
      k, env := RowsRefused(rule, tapes, combos, n - 1);
    } else {
      env := EnvOf(combos[n - 1], |combos[n - 1]|);
      k := WritesFail(rule.write.value, tapes, env, |tapes|);
    }
  }

  /** The width that is wrong: the pattern's, else the write's, else the moves'. */
  predicate WrongWidth(rule: SourceRule, arity: nat, got: nat)
  {
    if |rule.pattern| != arity then got == |rule.pattern|
    else if rule.write.Some? && |rule.write.value| != arity then got == |rule.write.value|
    else rule.moves.Some? && |rule.moves.value| != arity && got == |rule.moves.value|
  }

  /** A rule that does not expand is refused for what is wrong with it: a width, a range that cannot be read,
      or a write cell. */
  lemma RefusedFor(rule: SourceRule, tapes: seq<Glyphs>)
    requires Expanded(rule, tapes).Err?
    ensures var x := Expanded(rule, tapes).error;
            || (x.RowWidth? && x.expected == |tapes| && WrongWidth(rule, |tapes|, x.got))
            || (exists k :: 0 <= k < |rule.pattern| && ((x == RangeDescending && Descending(rule.pattern[k].kind))
                                                        || (x == RangeEndpointNotScalar && Unscalar(rule.pattern[k].kind))))
            || (rule.write.Some? && |rule.write.value| == |tapes|
                && exists k, env :: 0 <= k < |tapes| && CellBlamed(rule.write.value[k], tapes[k], env, x))
  {
    hide AllOptions, RowsOf, Product, Denoted, CellBlamed;
    if WidthsFit(rule, |tapes|) {
      var opts := AllOptions(rule.pattern, tapes, |tapes|);
      if opts.Err? {
        var k := OptionsRefused(rule.pattern, tapes, |tapes|);
        RefusedExactly(rule.pattern[k].kind);
        DenotedErrors(rule.pattern[k].kind);
      } else {
        var k, env := RowsRefused(rule, tapes, Product(opts.value, |opts.value|), |Product(opts.value, |opts.value|)|);
      }
    }
  }

  lemma DenotedErrors(kind: CellKind)
    ensures Denoted(kind).Err? ==> Denoted(kind) == Err(RangeDescending) || Denoted(kind) == Err(RangeEndpointNotScalar)
  {
    hide Numbers, Characters;
  }
}
