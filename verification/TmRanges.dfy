/** Range expansion: a source rule's pattern ranges multiply out into concrete rows, and each row's
    write is folded over the symbols that row binds. */
module TmRanges {
  import opened Options
  import opened TmRules
  import opened FreshNames

  datatype SymLit = Glyph(text: string) | Num(value: nat)

  datatype CellKind = Any | Single(lit: SymLit) | Range(lo: SymLit, hi: SymLit)

  datatype PatternCell = PatternCell(kind: CellKind, binding: Option<string>)

  datatype FoldOp = Add | Sub | Mul | Rem

  datatype Fold = Var(name: string) | Int(value: int) | Bin(op: FoldOp, lhs: Fold, rhs: Fold)

  datatype WriteCell = KeepCell | Lit(lit: SymLit) | Subst(expr: Fold)

  datatype SourceRule = SourceRule(
    pattern: seq<PatternCell>, write: Option<seq<WriteCell>>, moves: Option<seq<Move>>, debugger: bool,
    transition: Transition, line: nat)

  datatype Error =
    | RowWidth(expected: nat, got: nat)
    | RangeDescending
    | RangeEndpointNotScalar
    | SymbolNotInAlphabet(glyph: string)
    | UnknownBinding(name: string)
    | GlyphArithmetic(name: string)
    | ZeroModulus
    | NegativeRemainder(hint: Option<int>)
    | Overflow
    | FoldOutOfAlphabet(glyph: string)

  datatype Res<T> = Ok(value: T) | Err(error: Error)

  // ----- folds -----

  const I64_MIN: int := -0x8000_0000_0000_0000
  const I64_MAX: int := 0x7fff_ffff_ffff_ffff

  predicate Fits(x: int)
  {
    I64_MIN <= x <= I64_MAX
  }

  /** What a pattern cell binds: the glyph it read, and its number if it has one. */
  datatype Bound = Bound(glyph: string, value: Option<int>)

  type Env = seq<(string, Bound)>

  /** A later binding of a name hides an earlier one. */
  function Lookup(env: Env, n: nat, name: string): Option<Bound>
    requires n <= |env|
  {
    if n == 0 then None
    else if env[n - 1].0 == name then Some(env[n - 1].1)
    else Lookup(env, n - 1, name)
  }

  function Checked(x: int): Res<int>
  {
    if Fits(x) then Ok(x) else Err(Overflow)
  }

  /** The remainder of a division that rounds toward zero: it takes the dividend's sign. */
  function Truncated(l: int, r: int): int
    requires r != 0
  {
    if l >= 0 then l % r else -((-l) % r)
  }

  function CheckedRem(l: int, r: int, hint: Option<int>): Res<int>
  {
    if r == 0 then Err(ZeroModulus)
    else if l == I64_MIN && r == -1 then Err(Overflow)
    else if Truncated(l, r) < 0 then Err(NegativeRemainder(hint))
    else Ok(Truncated(l, r))
  }

  /** Evaluation over 64-bit numbers; nothing wraps. */
  function EvalFold(e: Fold, env: Env): Res<int>
  {
    match e
    case Int(n) => Ok(n)
    case Var(name) =>
      (match Lookup(env, |env|, name)
       case None => Err(UnknownBinding(name))
       case Some(b) => if b.value.Some? then Ok(b.value.value) else Err(GlyphArithmetic(name)))
    case Bin(op, lhs, rhs) =>
      var l := EvalFold(lhs, env);
      if l.Err? then l
      else
        var r := EvalFold(rhs, env);
        if r.Err? then r
        else
          match op
          case Add => Checked(l.value + r.value)
          case Sub => Checked(l.value - r.value)
          case Mul => Checked(l.value * r.value)
          case Rem => CheckedRem(l.value, r.value, if rhs.Int? && rhs.value > 0 then Some(rhs.value) else None)
  }

  /** A fold's meaning over the integers, with the Euclidean remainder; undefined for an unbound
      name, a glyph in arithmetic and a zero modulus. */
  function Meaning(e: Fold, env: Env): Option<int>
  {
    match e
    case Int(n) => Some(n)
    case Var(name) =>
      (match Lookup(env, |env|, name)
       case None => None
       case Some(b) => b.value)
    case Bin(op, lhs, rhs) =>
      var l, r := Meaning(lhs, env), Meaning(rhs, env);
      if l.None? || r.None? then None
      else
        match op
        case Add => Some(l.value + r.value)
        case Sub => Some(l.value - r.value)
        case Mul => Some(l.value * r.value)
        case Rem => if r.value == 0 then None else Some(l.value % r.value)
  }

  /** Every part of a fold stays inside 64 bits, and no remainder is taken of a negative number
      unless it comes out even. */
  predicate Stays(e: Fold, env: Env)
  {
    && Meaning(e, env).Some?
    && (e.Bin? ==>
          && Stays(e.lhs, env) && Stays(e.rhs, env)
          && (if e.op.Rem? then
                var l, r := Meaning(e.lhs, env).value, Meaning(e.rhs, env).value;
                r != 0 && !(l == I64_MIN && r == -1) && (l < 0 ==> l % r == 0)
              else Fits(Meaning(e, env).value)))
  }

  lemma TruncatedIsEuclidean(l: int, r: int)
    requires r != 0
    ensures Truncated(l, r) >= 0 <==> l >= 0 || l % r == 0
    ensures Truncated(l, r) >= 0 ==> Truncated(l, r) == l % r
  {
    if l < 0 {
      NegatedEven(l, r);
    }
  }

  lemma NegatedEven(l: int, r: int)
    requires r != 0
    ensures (-l) % r == 0 <==> l % r == 0
  {
    var q, p := l / r, (-l) / r;
    if l % r == 0 {
      assert -l == r * (-q);
      MultipleIsEven(r, -q);
    }
    if (-l) % r == 0 {
      assert l == r * (-p);
      MultipleIsEven(r, -p);
    }
  }

  lemma MultipleIsEven(r: int, k: int)
    requires r != 0
    ensures (r * k) % r == 0
  {
    var x := r * k;
    var d := x / r;
    assert x == r * d + x % r && 0 <= x % r < (if r > 0 then r else -r);
    assert r * (k - d) == x % r;
    SmallMultiple(r, k - d, x % r);
  }

  lemma SmallMultiple(r: int, m: int, x: int)
    requires r * m == x && 0 <= x < (if r > 0 then r else -r)
    ensures x == 0
  {
    if m > 0 {
      assert r > 0 ==> r * m >= r;
    } else if m < 0 {
      assert r < 0 ==> r * m >= -r;
    }
  }

  /** A fold evaluates exactly when it stays inside its bounds, and then to its meaning. */
  lemma {:induction false} FoldExact(e: Fold, env: Env)
    ensures EvalFold(e, env).Ok? <==> Stays(e, env)
    ensures EvalFold(e, env).Ok? ==> Meaning(e, env) == Some(EvalFold(e, env).value)
  {
    hide Lookup, Truncated;
    if e.Bin? {
      FoldExact(e.lhs, env);
      FoldExact(e.rhs, env);
      var l, r := EvalFold(e.lhs, env), EvalFold(e.rhs, env);
      if e.op.Rem? && l.Ok? && r.Ok? && r.value != 0 {
        TruncatedIsEuclidean(l.value, r.value);
      }
    }
  }

  /** The hinted `{(v + N - 1) % N}` is the decrement that wraps at zero. */
  lemma WrappingDecrement(name: string, n: int, v: int, env: Env)
    requires Lookup(env, |env|, name).Some? && Lookup(env, |env|, name).value.value == Some(v)
    requires 0 <= v && 0 < n && Fits(v + n)
    ensures EvalFold(Bin(Rem, Bin(Sub, Bin(Add, Var(name), Int(n)), Int(1)), Int(n)), env)
         == Ok((v - 1) % n)
  {
    hide Lookup;
    var x := v + n - 1;
    assert x % n == (v - 1) % n by {
      ShiftMod(v - 1, n);
    }
    var add := Bin(Add, Var(name), Int(n));
    var sub := Bin(Sub, add, Int(1));
    assert EvalFold(Var(name), env) == Ok(v);
    assert EvalFold(Int(n), env) == Ok(n) && EvalFold(Int(1), env) == Ok(1);
    assert EvalFold(add, env) == Ok(v + n);
    assert EvalFold(sub, env) == Ok(x);
  }

  lemma ShiftMod(a: int, n: int)
    requires n > 0
    ensures (a + n) % n == a % n
  {
    var q := a / n;
    assert a + n == n * (q + 1) + a % n;
    QuotientUnique(a + n, n, q + 1, a % n);
  }

  lemma QuotientUnique(x: int, n: int, q: int, r: int)
    requires n > 0 && x == n * q + r && 0 <= r < n
    ensures x % n == r
  {
    var d, m := x / n, x % n;
    assert x == n * d + m;
    assert n * (q - d) == n * q - n * d && n * (d - q) == n * d - n * q;
    if q > d {
      AtLeast(n, q - d);
    } else if q < d {
      AtLeast(n, d - q);
    }
  }

  lemma AtLeast(n: int, k: int)
    requires n > 0 && k >= 1
    ensures n * k >= n
  {
    assert n * k == n + n * (k - 1);
    assert n * (k - 1) >= 0;
  }

  // ----- cells -----

  function Label(l: SymLit): string
  {
    match l
    case Glyph(text) => text
    case Num(v) => Decimal(v)
  }

  function Number(l: SymLit): Option<int>
  {
    match l
    case Glyph(_) => None
    case Num(v) => Some(v)
  }

  /** A glyph's index on a tape. */
  function IndexOf(glyphs: seq<string>, i: nat, g: string): Option<nat>
    requires i <= |glyphs|
    decreases |glyphs| - i
  {
    if i == |glyphs| then None else if glyphs[i] == g then Some(i) else IndexOf(glyphs, i + 1, g)
  }

  type Member = (string, Option<int>)

  /** `lo`, `lo + 1`, … with n members. */
  function Numbers(lo: nat, n: nat): seq<Member>
  {
    if n == 0 then [] else Numbers(lo, n - 1) + [(Decimal(lo + n - 1), Some(lo + n - 1))]
  }

  predicate IsScalar(c: int)
  {
    0 <= c < 0xD800 || 0xE000 <= c < 0x11_0000
  }

  /** The characters from code `lo` on among n codes. */
  function Characters(lo: nat, n: nat): seq<Member>
  {
    if n == 0 then []
    else Characters(lo, n - 1) + (if IsScalar(lo + n - 1) then [([(lo + n - 1) as char], None)] else [])
  }

  /** A range's members, ascending. */
  function Members(lo: SymLit, hi: SymLit): Res<seq<Member>>
  {
    if lo.Num? && hi.Num? then
      if lo.value > hi.value then Err(RangeDescending) else Ok(Numbers(lo.value, hi.value - lo.value + 1))
    else if lo.Glyph? && hi.Glyph? then
      if |lo.text| != 1 || |hi.text| != 1 then Err(RangeEndpointNotScalar)
      else if lo.text[0] > hi.text[0] then Err(RangeDescending)
      else Ok(Characters(lo.text[0] as int, hi.text[0] as int - lo.text[0] as int + 1))
    else Err(RangeEndpointNotScalar)
  }

  /** The members a cell denotes; a wildcard denotes everything and is not listed. */
  function Denoted(k: CellKind): Res<seq<Member>>
  {
    match k
    case Any => Ok([])
    case Single(l) => Ok([(Label(l), Number(l))])
    case Range(lo, hi) => Members(lo, hi)
  }

  /** One alternative of a cell: what it matches and what it binds. */
  type Alternative = (Cell, Option<(string, Bound)>)

  /** The first n members that are on the tape; the others drop. */
  function OnTape(ms: seq<Member>, n: nat, glyphs: seq<string>, binding: Option<string>): seq<Alternative>
    requires n <= |ms|
  {
    if n == 0 then []
    else
      OnTape(ms, n - 1, glyphs, binding)
      + (match IndexOf(glyphs, 0, ms[n - 1].0)
         case None => []
         case Some(i) => [(Sym(i), if binding.Some? then Some((binding.value, Bound(ms[n - 1].0, ms[n - 1].1))) else None)])
  }

  function CellOptions(c: PatternCell, glyphs: seq<string>): Res<seq<Alternative>>
  {
    if c.kind.Any? then Ok([(Wild, None)])
    else
      match Denoted(c.kind)
      case Err(e) => Err(e)
      case Ok(ms) => Ok(OnTape(ms, |ms|, glyphs, c.binding))
  }

  // ----- the product -----

  function ExtendBy<T>(combo: seq<T>, opts: seq<T>, n: nat): seq<seq<T>>
    requires n <= |opts|
  {
    if n == 0 then [] else ExtendBy(combo, opts, n - 1) + [combo + [opts[n - 1]]]
  }

  function ExtendEach<T>(combos: seq<seq<T>>, opts: seq<T>, n: nat): seq<seq<T>>
    requires n <= |combos|
  {
    if n == 0 then [] else ExtendEach(combos, opts, n - 1) + ExtendBy(combos[n - 1], opts, |opts|)
  }

  /** The cartesian product of the first n positions, the leftmost varying slowest. */
  function Product<T>(opts: seq<seq<T>>, n: nat): seq<seq<T>>
    requires n <= |opts|
  {
    if n == 0 then [[]] else ExtendEach(Product(opts, n - 1), opts[n - 1], |Product(opts, n - 1)|)
  }

  /** Combos agree up to a position where the first takes an earlier alternative. */
  ghost predicate Earlier<T(!new)>(opts: seq<seq<T>>, a: seq<T>, b: seq<T>)
  {
    exists p, i, k :: EarlierAt(opts, a, b, p, i, k)
  }

  ghost predicate EarlierAt<T(!new)>(opts: seq<seq<T>>, a: seq<T>, b: seq<T>, p: int, i: int, k: int)
  {
    && 0 <= p < |opts| && p < |a| && p < |b| && a[..p] == b[..p]
    && 0 <= i < k < |opts[p]| && a[p] == opts[p][i] && b[p] == opts[p][k]
  }

  ghost predicate Ascending<T(!new)>(opts: seq<seq<T>>, rows: seq<seq<T>>)
  {
    forall a, b | 0 <= a < b < |rows| :: Earlier(opts, rows[a], rows[b])
  }

  lemma {:induction false} ExtendByExact<T>(combo: seq<T>, opts: seq<T>, n: nat)
    requires n <= |opts|
    ensures |ExtendBy(combo, opts, n)| == n
    ensures forall k | 0 <= k < n :: ExtendBy(combo, opts, n)[k] == combo + [opts[k]]
  {
    if n > 0 {
      ExtendByExact(combo, opts, n - 1);
    }
  }

  ghost predicate Extends<T>(combos: seq<seq<T>>, n: nat, opts: seq<T>, r: seq<T>)
    requires n <= |combos|
  {
    exists i, k :: 0 <= i < n && 0 <= k < |opts| && r == combos[i] + [opts[k]]
  }

  lemma {:induction false} ExtendEachExact<T>(combos: seq<seq<T>>, opts: seq<T>, n: nat, r: seq<T>)
    requires n <= |combos|
    ensures r in ExtendEach(combos, opts, n) <==> Extends(combos, n, opts, r)
  {
    hide ExtendBy;
    if n > 0 {
      ExtendEachExact(combos, opts, n - 1, r);
      ExtendByExact(combos[n - 1], opts, |opts|);
    }
  }

  lemma SameBy<T(!new)>(opts: seq<seq<T>>, combo: seq<T>, p: nat)
    requires p < |opts| && |combo| == p
    ensures Ascending(opts, ExtendBy(combo, opts[p], |opts[p]|))
  {
    hide ExtendBy;
    ExtendByExact(combo, opts[p], |opts[p]|);
    var rows := ExtendBy(combo, opts[p], |opts[p]|);
    forall a, b | 0 <= a < b < |rows| ensures Earlier(opts, rows[a], rows[b]) {
      assert EarlierAt(opts, rows[a], rows[b], p, a, b);
    }
  }

  lemma EarlierExtends<T(!new)>(opts: seq<seq<T>>, a: seq<T>, b: seq<T>, x: T, y: T)
    requires Earlier(opts, a, b)
    ensures Earlier(opts, a + [x], b + [y])
  {
    var p, i, k :| EarlierAt(opts, a, b, p, i, k);
    assert (a + [x])[..p] == a[..p] && (b + [y])[..p] == b[..p];
    assert EarlierAt(opts, a + [x], b + [y], p, i, k);
  }

  lemma {:induction false} EachAscends<T(!new)>(opts: seq<seq<T>>, combos: seq<seq<T>>, p: nat, n: nat)
    requires p < |opts| && n <= |combos| && (forall m | 0 <= m < |combos| :: |combos[m]| == p) && Ascending(opts, combos)
    ensures Ascending(opts, ExtendEach(combos, opts[p], n))
  {
    hide ExtendBy, Earlier;
    if n > 0 {
      EachAscends(opts, combos, p, n - 1);
      SameBy(opts, combos[n - 1], p);
      ExtendByExact(combos[n - 1], opts[p], |opts[p]|);
      var x, y := ExtendEach(combos, opts[p], n - 1), ExtendBy(combos[n - 1], opts[p], |opts[p]|);
      forall a, b | 0 <= a < |x| && 0 <= b < |y| ensures Earlier(opts, x[a], y[b]) {
        ExtendEachExact(combos, opts[p], n - 1, x[a]);
        assert x[a] in x;
        var i, k :| 0 <= i < n - 1 && 0 <= k < |opts[p]| && x[a] == combos[i] + [opts[p][k]];
        EarlierExtends(opts, combos[i], combos[n - 1], opts[p][k], opts[p][b]);
      }
    }
  }

  ghost predicate PicksFrom<T>(opts: seq<seq<T>>, n: nat, combo: seq<T>)
    requires n <= |opts|
  {
    |combo| == n && forall k | 0 <= k < n :: combo[k] in opts[k]
  }

  /** The product lists every way to pick one alternative a position, in lexicographic order of the
      picks: the leftmost position varies slowest. */
  lemma {:induction false} ProductExact<T(!new)>(opts: seq<seq<T>>, n: nat)
    requires n <= |opts|
    ensures forall c :: c in Product(opts, n) <==> PicksFrom(opts, n, c)
    ensures Ascending(opts, Product(opts, n))
  {
    hide ExtendEach, Earlier;
    if n > 0 {
      ProductExact(opts, n - 1);
      var shorter := Product(opts, n - 1);
      forall m | 0 <= m < |shorter| ensures |shorter[m]| == n - 1 {
        assert shorter[m] in shorter;
      }
      EachAscends(opts, shorter, n - 1, |shorter|);
      forall c ensures c in Product(opts, n) <==> PicksFrom(opts, n, c) {
        ExtendEachExact(shorter, opts[n - 1], |shorter|, c);
        ProductMember(opts, n, shorter, opts[n - 1], c);
      }
    }
  }

  lemma ProductMember<T(!new)>(opts: seq<seq<T>>, n: nat, shorter: seq<seq<T>>, last: seq<T>, c: seq<T>)
    requires 0 < n <= |opts| && last == opts[n - 1]
    requires forall x :: x in shorter <==> PicksFrom(opts, n - 1, x)
    ensures Extends(shorter, |shorter|, last, c) <==> PicksFrom(opts, n, c)
  {
    if Extends(shorter, |shorter|, last, c) {
      var i, k :| 0 <= i < |shorter| && 0 <= k < |last| && c == shorter[i] + [last[k]];
      assert shorter[i] in shorter;
    }
    if PicksFrom(opts, n, c) {
      assert PicksFrom(opts, n - 1, c[..n - 1]);
      assert c[..n - 1] in shorter;
      var i :| 0 <= i < |shorter| && shorter[i] == c[..n - 1];
      assert c[n - 1] in last;
      var k :| 0 <= k < |last| && last[k] == c[n - 1];
      assert c == shorter[i] + [last[k]];
    }
  }

  // ----- expanding a rule -----

  type Glyphs = seq<string>

  function AllOptions(cells: seq<PatternCell>, tapes: seq<Glyphs>, n: nat): Res<seq<seq<Alternative>>>
    requires n <= |cells| == |tapes|
  {
    if n == 0 then Ok([])
    else
      match AllOptions(cells, tapes, n - 1)
      case Err(e) => Err(e)
      case Ok(opts) =>
        (match CellOptions(cells[n - 1], tapes[n - 1])
         case Err(e) => Err(e)
         case Ok(o) => Ok(opts + [o]))
  }

  function CellsOf(combo: seq<Alternative>): seq<Cell>
  {
    seq(|combo|, (k: nat) requires k < |combo| => combo[k].0)
  }

  /** What a combo binds, leftmost first. */
  function EnvOf(combo: seq<Alternative>, n: nat): Env
    requires n <= |combo|
  {
    if n == 0 then []
    else EnvOf(combo, n - 1) + (if combo[n - 1].1.Some? then [combo[n - 1].1.value] else [])
  }

  function Text(v: int): string
  {
    if v < 0 then "-" + Decimal(-v) else Decimal(v)
  }

  /** A bare name passes the bound glyph through; anything else is a fold. */
  function Substituted(e: Fold, env: Env): Res<string>
  {
    if e.Var? then
      match Lookup(env, |env|, e.name)
      case None => Err(UnknownBinding(e.name))
      case Some(b) => Ok(b.glyph)
    else
      match EvalFold(e, env)
      case Err(x) => Err(x)
      case Ok(v) => Ok(Text(v))
  }

  function WriteCellOut(c: WriteCell, glyphs: Glyphs, env: Env): Res<WriteOut>
  {
    match c
    case KeepCell => Ok(Keep)
    case Lit(l) => if IndexOf(glyphs, 0, Label(l)).Some? then Ok(Put(IndexOf(glyphs, 0, Label(l)).value)) else Err(SymbolNotInAlphabet(Label(l)))
    case Subst(e) =>
      match Substituted(e, env)
      case Err(x) => Err(x)
      case Ok(g) => if IndexOf(glyphs, 0, g).Some? then Ok(Put(IndexOf(glyphs, 0, g).value)) else Err(FoldOutOfAlphabet(g))
  }

  function WritesOut(cells: seq<WriteCell>, tapes: seq<Glyphs>, env: Env, n: nat): Res<seq<WriteOut>>
    requires n <= |cells| == |tapes|
  {
    if n == 0 then Ok([])
    else
      match WritesOut(cells, tapes, env, n - 1)
      case Err(e) => Err(e)
      case Ok(out) =>
        (match WriteCellOut(cells[n - 1], tapes[n - 1], env)
         case Err(e) => Err(e)
         case Ok(w) => Ok(out + [w]))
  }

  function WriteVector(write: Option<seq<WriteCell>>, tapes: seq<Glyphs>, env: Env): Res<seq<WriteOut>>
    requires write.Some? ==> |write.value| == |tapes|
  {
    if write.None? then Ok(seq(|tapes|, _ => Keep)) else WritesOut(write.value, tapes, env, |tapes|)
  }

  function MoveVector(moves: Option<seq<Move>>, arity: nat): seq<Move>
  {
    if moves.None? then seq(arity, _ => Stay) else moves.value
  }

  predicate WidthsFit(rule: SourceRule, arity: nat)
  {
    |rule.pattern| == arity && (rule.write.Some? ==> |rule.write.value| == arity)
    && (rule.moves.Some? ==> |rule.moves.value| == arity)
  }

  function WidthError(rule: SourceRule, arity: nat): Error
  {
    if |rule.pattern| != arity then RowWidth(arity, |rule.pattern|)
    else if rule.write.Some? && |rule.write.value| != arity then RowWidth(arity, |rule.write.value|)
    else if rule.moves.Some? then RowWidth(arity, |rule.moves.value|)
    else RowWidth(arity, arity)
  }

  /** One row, its write folded over what it binds. */
  function RowOf(rule: SourceRule, tapes: seq<Glyphs>, combo: seq<Alternative>): Res<Rule>
    requires WidthsFit(rule, |tapes|)
  {
    match WriteVector(rule.write, tapes, EnvOf(combo, |combo|))
    case Err(e) => Err(e)
    case Ok(w) =>
      Ok(Rule(CellsOf(combo), rule.debugger, w, MoveVector(rule.moves, |tapes|), rule.transition, rule.line))
  }

  function RowsOf(rule: SourceRule, tapes: seq<Glyphs>, combos: seq<seq<Alternative>>, n: nat): Res<seq<Rule>>
    requires WidthsFit(rule, |tapes|) && n <= |combos|
  {
    if n == 0 then Ok([])
    else
      match RowsOf(rule, tapes, combos, n - 1)
      case Err(e) => Err(e)
      case Ok(rows) =>
        (match RowOf(rule, tapes, combos[n - 1])
         case Err(e) => Err(e)
         case Ok(row) => Ok(rows + [row]))
  }

  function Expanded(rule: SourceRule, tapes: seq<Glyphs>): Res<seq<Rule>>
  {
    if !WidthsFit(rule, |tapes|) then Err(WidthError(rule, |tapes|))
    else
      match AllOptions(rule.pattern, tapes, |tapes|)
      case Err(e) => Err(e)
      case Ok(opts) => RowsOf(rule, tapes, Product(opts, |opts|), |Product(opts, |opts|)|)
  }

  method Multiply(opts: seq<seq<Alternative>>) returns (combos: seq<seq<Alternative>>)
    ensures combos == Product(opts, |opts|)
  {
    combos := [[]];
    for i := 0 to |opts|
      invariant combos == Product(opts, i)
    {
      var next: seq<seq<Alternative>> := [];
      for m := 0 to |combos|
        invariant next == ExtendEach(combos, opts[i], m)
      {
        ghost var before := next;
        for k := 0 to |opts[i]|
          invariant next == before + ExtendBy(combos[m], opts[i], k)
        {
          next := next + [combos[m] + [opts[i][k]]];
        }
      }
      combos := next;
    }
  }

  lemma {:induction false} OptionsFail(cells: seq<PatternCell>, tapes: seq<Glyphs>, k: nat, n: nat)
    requires k <= n <= |cells| == |tapes| && AllOptions(cells, tapes, k).Err?
    ensures AllOptions(cells, tapes, n) == AllOptions(cells, tapes, k)
  {
    hide CellOptions;
    if k < n {
      OptionsFail(cells, tapes, k, n - 1);
    }
  }

  lemma {:induction false} RowsFail(rule: SourceRule, tapes: seq<Glyphs>, combos: seq<seq<Alternative>>, k: nat, n: nat)
    requires WidthsFit(rule, |tapes|) && k <= n <= |combos| && RowsOf(rule, tapes, combos, k).Err?
    ensures RowsOf(rule, tapes, combos, n) == RowsOf(rule, tapes, combos, k)
  {
    hide RowOf;
    if k < n {
      RowsFail(rule, tapes, combos, k, n - 1);
    }
  }

  const PRODUCT_THRESHOLD: nat := 256

  /** Expands one rule; warns of a rule that can never fire and of a large product. */
  method ExpandRule(rule: SourceRule, tapes: seq<Glyphs>) returns (r: Res<seq<Rule>>, empty: bool, large: bool)
    ensures r == Expanded(rule, tapes)
    ensures r.Ok? ==> (empty <==> r.value == []) && (large <==> |r.value| > 256)
  {
    hide CellOptions, RowOf, Product, WidthError;
    empty, large := false, false;
    if !WidthsFit(rule, |tapes|) {
      return Err(WidthError(rule, |tapes|)), empty, large;
    }
    var opts: seq<seq<Alternative>> := [];
    for k := 0 to |tapes|
      invariant AllOptions(rule.pattern, tapes, k) == Ok(opts)
    {
      var o := CellOptions(rule.pattern[k], tapes[k]);
      if o.Err? {
        OptionsFail(rule.pattern, tapes, k + 1, |tapes|);
        return Err(o.error), empty, large;
      }
      opts := opts + [o.value];
    }
    var combos := Multiply(opts);
    empty, large := combos == [], |combos| > PRODUCT_THRESHOLD;
    var out: seq<Rule> := [];
    for k := 0 to |combos|
      invariant RowsOf(rule, tapes, combos, k) == Ok(out) && |out| == k
    {
      var row := RowOf(rule, tapes, combos[k]);
      if row.Err? {
        RowsFail(rule, tapes, combos, k + 1, |combos|);
        return Err(row.error), empty, large;
      }
      out := out + [row.value];
    }
    r := Ok(out);
  }

  // ----- what the rows mean -----

  predicate IsAlphabet(glyphs: Glyphs)
  {
    forall i, k | 0 <= i < k < |glyphs| :: glyphs[i] != glyphs[k]
  }

  /** A cell's own meaning: does it denote a glyph? */
  predicate Denotes(c: PatternCell, g: string)
  {
    c.kind.Any? || (Denoted(c.kind).Ok? && exists k :: 0 <= k < |Denoted(c.kind).value| && Denoted(c.kind).value[k].0 == g)
  }

  /** The number a glyph is as a member of a range, if it is one. */
  function ValueIn(ms: seq<Member>, i: nat, g: string): Option<int>
    requires i <= |ms|
    decreases |ms| - i
  {
    if i == |ms| then None else if ms[i].0 == g then ms[i].1 else ValueIn(ms, i + 1, g)
  }

  /** The alternative that stands for symbol s on a tape. */
  function AlternativeFor(c: PatternCell, glyphs: Glyphs, s: nat): Alternative
    requires s < |glyphs| && Denoted(c.kind).Ok?
  {
    if c.kind.Any? then (Wild, None)
    else (Sym(s), if c.binding.Some? then Some((c.binding.value, Bound(glyphs[s], ValueIn(Denoted(c.kind).value, 0, glyphs[s])))) else None)
  }

  lemma {:induction false} IndexExact(glyphs: Glyphs, i: nat, g: string)
    requires i <= |glyphs|
    ensures IndexOf(glyphs, i, g).Some? ==> i <= IndexOf(glyphs, i, g).value < |glyphs| && glyphs[IndexOf(glyphs, i, g).value] == g
    ensures IndexOf(glyphs, i, g).None? ==> forall k | i <= k < |glyphs| :: glyphs[k] != g
    decreases |glyphs| - i
  {
    if i < |glyphs| {
      IndexExact(glyphs, i + 1, g);
    }
  }

  lemma IndexOfGlyph(glyphs: Glyphs, s: nat)
    requires IsAlphabet(glyphs) && s < |glyphs|
    ensures IndexOf(glyphs, 0, glyphs[s]) == Some(s)
  {
    hide IndexOf;
    IndexExact(glyphs, 0, glyphs[s]);
  }

  ghost predicate GlyphsApart(ms: seq<Member>)
  {
    forall i, k | 0 <= i < k < |ms| :: ms[i].0 != ms[k].0
  }

  lemma {:induction false} NumbersApart(lo: nat, n: nat)
    ensures |Numbers(lo, n)| == n && forall k | 0 <= k < n :: Numbers(lo, n)[k] == (Decimal(lo + k), Some(lo + k))
    ensures GlyphsApart(Numbers(lo, n))
  {
    hide Decimal;
    if n > 0 {
      NumbersApart(lo, n - 1);
      var before := Numbers(lo, n - 1);
      forall k | 0 <= k < |before| ensures before[k].0 != Decimal(lo + n - 1) {
        if before[k].0 == Decimal(lo + n - 1) {
          DecimalInjective(lo + k, lo + n - 1);
        }
      }
    }
  }

  lemma {:induction false} CharactersApart(lo: nat, n: nat)
    ensures forall k | 0 <= k < |Characters(lo, n)| :: |Characters(lo, n)[k].0| == 1 && lo <= Characters(lo, n)[k].0[0] as int < lo + n
    ensures GlyphsApart(Characters(lo, n))
  {
    if n > 0 {
      CharactersApart(lo, n - 1);
    }
  }

  lemma DenotedApart(k: CellKind)
    requires Denoted(k).Ok?
    ensures GlyphsApart(Denoted(k).value)
  {
    hide Numbers, Characters;
    if k.Range? {
      if k.lo.Num? && k.hi.Num? {
        NumbersApart(k.lo.value, k.hi.value - k.lo.value + 1);
      } else if k.lo.Glyph? && k.hi.Glyph? {
        CharactersApart(k.lo.text[0] as int, k.hi.text[0] as int - k.lo.text[0] as int + 1);
      }
    }
  }

  /** The alternative a member on the tape gives. */
  function Offered(m: Member, i: nat, binding: Option<string>): Alternative
  {
    (Sym(i), if binding.Some? then Some((binding.value, Bound(m.0, m.1))) else None)
  }

  lemma {:induction false} OnTapeExact(ms: seq<Member>, n: nat, glyphs: Glyphs, binding: Option<string>, alt: Alternative)
    requires n <= |ms|
    ensures alt in OnTape(ms, n, glyphs, binding) <==>
            exists k :: 0 <= k < n && IndexOf(glyphs, 0, ms[k].0).Some? && alt == Offered(ms[k], IndexOf(glyphs, 0, ms[k].0).value, binding)
  {
    hide IndexOf;
    if n > 0 {
      OnTapeExact(ms, n - 1, glyphs, binding, alt);
    }
  }

  lemma {:induction false} ValueFound(ms: seq<Member>, i: nat, k: nat)
    requires GlyphsApart(ms) && i <= k < |ms|
    ensures ValueIn(ms, i, ms[k].0) == ms[k].1
    decreases k - i
  {
    if i < k {
      ValueFound(ms, i + 1, k);
    }
  }

  /** Of a cell's alternatives exactly one can match a symbol, and one does when the cell denotes
      the symbol's glyph. */
  lemma OneAlternative(c: PatternCell, glyphs: Glyphs, s: nat)
    requires IsAlphabet(glyphs) && s < |glyphs| && CellOptions(c, glyphs).Ok?
    ensures Denoted(c.kind).Ok?
    ensures forall alt | alt in CellOptions(c, glyphs).value && CellMatches(alt.0, s) :: alt == AlternativeFor(c, glyphs, s) && Denotes(c, glyphs[s])
    ensures Denotes(c, glyphs[s]) ==> AlternativeFor(c, glyphs, s) in CellOptions(c, glyphs).value
    ensures Denotes(c, glyphs[s]) ==> CellMatches(AlternativeFor(c, glyphs, s).0, s)
  {
    hide IndexOf, OnTape, ValueIn, Members;
    if !c.kind.Any? {
      var ms := Denoted(c.kind).value;
      DenotedApart(c.kind);
      IndexOfGlyph(glyphs, s);
      forall alt | alt in CellOptions(c, glyphs).value && CellMatches(alt.0, s)
        ensures alt == AlternativeFor(c, glyphs, s) && Denotes(c, glyphs[s])
      {
        OnTapeExact(ms, |ms|, glyphs, c.binding, alt);
        var k :| 0 <= k < |ms| && IndexOf(glyphs, 0, ms[k].0).Some? && alt == Offered(ms[k], IndexOf(glyphs, 0, ms[k].0).value, c.binding);
        IndexExact(glyphs, 0, ms[k].0);
        ValueFound(ms, 0, k);
      }
      if Denotes(c, glyphs[s]) {
        var k :| 0 <= k < |ms| && ms[k].0 == glyphs[s];
        ValueFound(ms, 0, k);
        OnTapeExact(ms, |ms|, glyphs, c.binding, AlternativeFor(c, glyphs, s));
      }
    }
  }

  ghost predicate AlternativesApart(opts: seq<Alternative>)
  {
    forall i, k | 0 <= i < k < |opts| :: opts[i] != opts[k]
  }

  lemma {:induction false} OnTapeApart(ms: seq<Member>, n: nat, glyphs: Glyphs, binding: Option<string>)
    requires n <= |ms| && GlyphsApart(ms)
    ensures AlternativesApart(OnTape(ms, n, glyphs, binding))
  {
    hide IndexOf;
    if n > 0 {
      OnTapeApart(ms, n - 1, glyphs, binding);
      var before := OnTape(ms, n - 1, glyphs, binding);
      var at := IndexOf(glyphs, 0, ms[n - 1].0);
      if at.Some? {
        IndexExact(glyphs, 0, ms[n - 1].0);
        forall i | 0 <= i < |before| ensures before[i] != Offered(ms[n - 1], at.value, binding) {
          OnTapeExact(ms, n - 1, glyphs, binding, before[i]);
          assert before[i] in before;
          var k :| 0 <= k < n - 1 && IndexOf(glyphs, 0, ms[k].0).Some? && before[i] == Offered(ms[k], IndexOf(glyphs, 0, ms[k].0).value, binding);
          IndexExact(glyphs, 0, ms[k].0);
        }
      }
    }
  }

  lemma OptionsApart(c: PatternCell, glyphs: Glyphs)
    requires CellOptions(c, glyphs).Ok?
    ensures AlternativesApart(CellOptions(c, glyphs).value)
  {
    hide OnTape, Denoted;
    if !c.kind.Any? {
      DenotedApart(c.kind);
      OnTapeApart(Denoted(c.kind).value, |Denoted(c.kind).value|, glyphs, c.binding);
    }
  }

  lemma {:induction false} OptionsAt(cells: seq<PatternCell>, tapes: seq<Glyphs>, n: nat)
    requires n <= |cells| == |tapes| && AllOptions(cells, tapes, n).Ok?
    ensures |AllOptions(cells, tapes, n).value| == n
    ensures forall k | 0 <= k < n :: CellOptions(cells[k], tapes[k]) == Ok(AllOptions(cells, tapes, n).value[k])
  {
    hide CellOptions;
    if n > 0 {
      OptionsAt(cells, tapes, n - 1);
    }
  }

  lemma {:induction false} RowsAt(rule: SourceRule, tapes: seq<Glyphs>, combos: seq<seq<Alternative>>, n: nat)
    requires WidthsFit(rule, |tapes|) && n <= |combos| && RowsOf(rule, tapes, combos, n).Ok?
    ensures |RowsOf(rule, tapes, combos, n).value| == n
    ensures forall k | 0 <= k < n :: RowOf(rule, tapes, combos[k]) == Ok(RowsOf(rule, tapes, combos, n).value[k])
  {
    hide RowOf;
    if n > 0 {
      RowsAt(rule, tapes, combos, n - 1);
    }
  }

  /** A tuple of the tapes' alphabets. */
  ghost predicate OfAlphabets(tapes: seq<Glyphs>, tuple: seq<nat>)
  {
    |tuple| == |tapes| && forall k | 0 <= k < |tapes| :: IsAlphabet(tapes[k]) && tuple[k] < |tapes[k]|
  }

  /** The source pattern's own meaning. */
  ghost predicate Accepts(rule: SourceRule, tapes: seq<Glyphs>, tuple: seq<nat>)
    requires OfAlphabets(tapes, tuple) && |rule.pattern| == |tapes|
  {
    forall k | 0 <= k < |tapes| :: Denotes(rule.pattern[k], tapes[k][tuple[k]])
  }

  /** What the source pattern binds on a tuple: the glyphs read, and their numbers. */
  function BoundBy(rule: SourceRule, tapes: seq<Glyphs>, tuple: seq<nat>, n: nat): Env
    requires n <= |tapes| == |tuple| == |rule.pattern|
    requires forall k | 0 <= k < |tapes| :: tuple[k] < |tapes[k]| && Denoted(rule.pattern[k].kind).Ok?
  {
    if n == 0 then []
    else
      var alt := AlternativeFor(rule.pattern[n - 1], tapes[n - 1], tuple[n - 1]);
      BoundBy(rule, tapes, tuple, n - 1) + (if alt.1.Some? then [alt.1.value] else [])
  }

  lemma {:induction false} BoundByCombo(rule: SourceRule, tapes: seq<Glyphs>, tuple: seq<nat>, combo: seq<Alternative>, n: nat)
    requires n <= |tapes| == |tuple| == |rule.pattern| == |combo|
    requires forall k | 0 <= k < |tapes| :: tuple[k] < |tapes[k]| && Denoted(rule.pattern[k].kind).Ok?
    requires forall k | 0 <= k < |tapes| :: combo[k] == AlternativeFor(rule.pattern[k], tapes[k], tuple[k])
    ensures EnvOf(combo, n) == BoundBy(rule, tapes, tuple, n)
  {
    hide AlternativeFor;
    if n > 0 {
      BoundByCombo(rule, tapes, tuple, combo, n - 1);
    }
  }

  /** A combo's row matches a tuple exactly when the combo is the one the tuple calls for. */
  lemma ComboMatches(rule: SourceRule, tapes: seq<Glyphs>, opts: seq<seq<Alternative>>, tuple: seq<nat>, combo: seq<Alternative>)
    requires OfAlphabets(tapes, tuple) && |rule.pattern| == |tapes| == |opts|
    requires forall k | 0 <= k < |tapes| :: CellOptions(rule.pattern[k], tapes[k]) == Ok(opts[k])
    requires PicksFrom(opts, |opts|, combo)
    ensures forall k | 0 <= k < |tapes| :: Denoted(rule.pattern[k].kind).Ok?
    ensures Matches(CellsOf(combo), tuple) ==> Accepts(rule, tapes, tuple)
    ensures Matches(CellsOf(combo), tuple) ==>
              forall k | 0 <= k < |tapes| :: combo[k] == AlternativeFor(rule.pattern[k], tapes[k], tuple[k])
  {
    hide CellOptions, Denoted, Denotes, AlternativeFor, CellMatches, IsAlphabet;
    forall k | 0 <= k < |tapes|
      ensures Denoted(rule.pattern[k].kind).Ok?
      ensures CellMatches(combo[k].0, tuple[k]) ==> Denotes(rule.pattern[k], tapes[k][tuple[k]])
      ensures CellMatches(combo[k].0, tuple[k]) ==> combo[k] == AlternativeFor(rule.pattern[k], tapes[k], tuple[k])
    {
      OneAlternative(rule.pattern[k], tapes[k], tuple[k]);
      assert combo[k] in opts[k];
    }
    if Matches(CellsOf(combo), tuple) {
      forall k | 0 <= k < |tapes| ensures CellMatches(combo[k].0, tuple[k]) {
        assert CellMatches(CellsOf(combo)[k], tuple[k]);
      }
    }
  }

  /** The combo a tuple calls for. */
  function ComboFor(rule: SourceRule, tapes: seq<Glyphs>, tuple: seq<nat>): seq<Alternative>
    requires |tapes| == |tuple| == |rule.pattern|
    requires forall k | 0 <= k < |tapes| :: tuple[k] < |tapes[k]| && Denoted(rule.pattern[k].kind).Ok?
  {
    seq(|tapes|, (k: nat) requires k < |tapes| == |tuple| == |rule.pattern| && tuple[k] < |tapes[k]|
                                   && Denoted(rule.pattern[k].kind).Ok? =>
      AlternativeFor(rule.pattern[k], tapes[k], tuple[k]))
  }

  lemma AcceptedCombo(rule: SourceRule, tapes: seq<Glyphs>, opts: seq<seq<Alternative>>, tuple: seq<nat>)
    requires OfAlphabets(tapes, tuple) && |rule.pattern| == |tapes| == |opts| && Accepts(rule, tapes, tuple)
    requires forall k | 0 <= k < |tapes| :: CellOptions(rule.pattern[k], tapes[k]) == Ok(opts[k])
    ensures forall k | 0 <= k < |tapes| :: Denoted(rule.pattern[k].kind).Ok?
    ensures var combo := ComboFor(rule, tapes, tuple);
            PicksFrom(opts, |opts|, combo) && Matches(CellsOf(combo), tuple)
  {
    hide CellOptions, Denoted, Denotes, AlternativeFor, CellMatches, IsAlphabet;
    forall k | 0 <= k < |tapes|
      ensures Denoted(rule.pattern[k].kind).Ok?
      ensures AlternativeFor(rule.pattern[k], tapes[k], tuple[k]) in opts[k]
      ensures CellMatches(AlternativeFor(rule.pattern[k], tapes[k], tuple[k]).0, tuple[k])
    {
      OneAlternative(rule.pattern[k], tapes[k], tuple[k]);
    }
  }

  /** A combo does not come before itself. */
  lemma NotEarlier(opts: seq<seq<Alternative>>, c: seq<Alternative>)
    requires forall p | 0 <= p < |opts| :: AlternativesApart(opts[p])
    ensures !Earlier(opts, c, c)
  {
  }

  /** Expansion is exact: on every tuple of the alphabets at most one row matches; one does exactly
      when the source pattern accepts the tuple, and it writes what the source write folds to over
      the tuple's own bindings. */
  lemma ExpansionExact(rule: SourceRule, tapes: seq<Glyphs>, tuple: seq<nat>)
    requires Expanded(rule, tapes).Ok? && OfAlphabets(tapes, tuple)
    ensures |rule.pattern| == |tapes| && forall k | 0 <= k < |tapes| :: Denoted(rule.pattern[k].kind).Ok?
    ensures var rows := Expanded(rule, tapes).value;
            && (Accepts(rule, tapes, tuple) <==> exists i :: 0 <= i < |rows| && Matches(rows[i].pattern, tuple))
            && (forall i, k | 0 <= i < k < |rows| :: !(Matches(rows[i].pattern, tuple) && Matches(rows[k].pattern, tuple)))
            && (forall i | 0 <= i < |rows| && Matches(rows[i].pattern, tuple) ::
                  WriteVector(rule.write, tapes, BoundBy(rule, tapes, tuple, |tapes|)) == Ok(rows[i].write))
  {
    hide AllOptions, CellOptions, RowsOf, RowOf, Product, Matches, Denoted, Accepts, BoundBy, IsAlphabet, WriteVector, Earlier, ComboFor;
    var opts := AllOptions(rule.pattern, tapes, |tapes|).value;
    var combos := Product(opts, |opts|);
    var rows := Expanded(rule, tapes).value;
    OptionsAt(rule.pattern, tapes, |tapes|);
    RowsAt(rule, tapes, combos, |combos|);
    ProductExact(opts, |opts|);
    forall k | 0 <= k < |tapes| ensures Denoted(rule.pattern[k].kind).Ok? && AlternativesApart(opts[k]) {
      OptionsDenoted(rule.pattern[k], tapes[k]);
      OptionsApart(rule.pattern[k], tapes[k]);
    }
    forall i | 0 <= i < |rows|
      ensures rows[i].pattern == CellsOf(combos[i])
      ensures Matches(rows[i].pattern, tuple) ==> RowMeans(rule, tapes, tuple, combos[i], rows[i])
    {
      assert combos[i] in combos;
      RowPattern(rule, tapes, combos[i]);
      MatchingRow(rule, tapes, opts, tuple, combos[i], rows[i]);
    }
    forall i, k | 0 <= i < k < |rows| && Matches(rows[i].pattern, tuple) && Matches(rows[k].pattern, tuple)
      ensures false
    {
      NotEarlier(opts, combos[i]);
    }
    if Accepts(rule, tapes, tuple) {
      AcceptedCombo(rule, tapes, opts, tuple);
      var i :| 0 <= i < |combos| && combos[i] == ComboFor(rule, tapes, tuple);
      assert Matches(rows[i].pattern, tuple);
    }
  }

  lemma OptionsDenoted(c: PatternCell, glyphs: Glyphs)
    requires CellOptions(c, glyphs).Ok?
    ensures Denoted(c.kind).Ok?
  {
  }

  lemma RowPattern(rule: SourceRule, tapes: seq<Glyphs>, combo: seq<Alternative>)
    requires WidthsFit(rule, |tapes|) && RowOf(rule, tapes, combo).Ok?
    ensures RowOf(rule, tapes, combo).value.pattern == CellsOf(combo)
    ensures WriteVector(rule.write, tapes, EnvOf(combo, |combo|)) == Ok(RowOf(rule, tapes, combo).value.write)
  {
    hide WriteVector;
  }

  /** What a matching row is: the combo the tuple calls for, its write folded over the tuple's
      bindings. */
  ghost predicate RowMeans(rule: SourceRule, tapes: seq<Glyphs>, tuple: seq<nat>, combo: seq<Alternative>, row: Rule)
    requires WidthsFit(rule, |tapes|) && OfAlphabets(tapes, tuple)
    requires forall k | 0 <= k < |tapes| :: tuple[k] < |tapes[k]| && Denoted(rule.pattern[k].kind).Ok?
  {
    && Accepts(rule, tapes, tuple) && combo == ComboFor(rule, tapes, tuple)
    && WriteVector(rule.write, tapes, BoundBy(rule, tapes, tuple, |tapes|)) == Ok(row.write)
  }

  lemma MatchingRow(rule: SourceRule, tapes: seq<Glyphs>, opts: seq<seq<Alternative>>, tuple: seq<nat>, combo: seq<Alternative>, row: Rule)
    requires WidthsFit(rule, |tapes|) && OfAlphabets(tapes, tuple) && |tapes| == |opts|
    requires forall k | 0 <= k < |tapes| :: CellOptions(rule.pattern[k], tapes[k]) == Ok(opts[k])
    requires PicksFrom(opts, |opts|, combo) && RowOf(rule, tapes, combo) == Ok(row)
    ensures forall k | 0 <= k < |tapes| :: tuple[k] < |tapes[k]| && Denoted(rule.pattern[k].kind).Ok?
    ensures Matches(row.pattern, tuple) ==> RowMeans(rule, tapes, tuple, combo, row)
  {
    hide CellOptions, RowOf, Denoted, Denotes, AlternativeFor, WriteVector, EnvOf, BoundBy, IsAlphabet, Matches;
    RowPattern(rule, tapes, combo);
    ComboMatches(rule, tapes, opts, tuple, combo);
    if Matches(row.pattern, tuple) {
      BoundByCombo(rule, tapes, tuple, combo, |tapes|);
      assert combo == ComboFor(rule, tapes, tuple);
    }
  }
}
