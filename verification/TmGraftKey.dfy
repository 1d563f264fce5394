/** The byte key under which identical graft instances are shared, and why equal keys mean equal
    target, binding and continuations. */
module TmGraftKey {
  import opened TmRules
  import opened TmSplice

  type Bytes = seq<nat>

  function Text(s: string): Bytes
  {
    seq(|s|, (k: nat) requires k < |s| => s[k] as nat)
  }

  /** Little-endian. */
  function Le16(n: nat): Bytes
  {
    [n % 256, n / 256 % 256]
  }

  function Le32(n: nat): Bytes
  {
    [n % 256, n / 256 % 256, n / 256 / 256 % 256, n / 256 / 256 / 256 % 256]
  }

  const WORD: nat := 0x1_0000_0000

  /** The listed pairs with a source below n, ascending. */
  function PairsBelow(m: SymMap, n: nat): seq<(nat, nat)>
  {
    if n == 0 then [] else PairsBelow(m, n - 1) + (if n - 1 in m.pairs then [(n - 1, m.pairs[n - 1])] else [])
  }

  function HolesListed(m: SymMap, n: nat): seq<nat>
  {
    if n == 0 then [] else HolesListed(m, n - 1) + (if n - 1 in m.holes then [n - 1] else [])
  }

  function PairBytes(ps: seq<(nat, nat)>, i: nat): Bytes
    requires i <= |ps|
    decreases |ps| - i
  {
    if i == |ps| then [] else Le16(ps[i].0) + Le16(ps[i].1) + PairBytes(ps, i + 1)
  }

  function HoleBytes(hs: seq<nat>, i: nat): Bytes
    requires i <= |hs|
    decreases |hs| - i
  {
    if i == |hs| then [] else Le16(hs[i]) + HoleBytes(hs, i + 1)
  }

  function PairKey(ps: seq<(nat, nat)>): Bytes
  {
    Le32(|ps|) + PairBytes(ps, 0)
  }

  function HoleKey(hs: seq<nat>): Bytes
  {
    Le32(|hs|) + HoleBytes(hs, 0)
  }

  function MapKey(m: SymMap): Bytes
  {
    PairKey(PairsBelow(m, SYMBOL_LIMIT)) + HoleKey(HolesListed(m, SYMBOL_LIMIT))
  }

  function TapeKey(t: TapeMap): Bytes
  {
    Le32(t.phys) + (Le32(t.hostCard) + (Le32(t.graphCard) + (MapKey(t.rmap) + MapKey(t.wmap))))
  }

  function TapesKey(comp: Composite, i: nat): Bytes
    requires i <= |comp|
    decreases |comp| - i
  {
    if i == |comp| then [] else TapeKey(comp[i]) + TapesKey(comp, i + 1)
  }

  function CompositeKey(comp: Composite): Bytes
  {
    Le32(|comp|) + TapesKey(comp, 0)
  }

  /** A state parameter and what the graft binds it to. */
  type Bind = (string, Transition)

  function Tail(t: Transition): string
  {
    match t
    case Goto(name) => "g" + name
    case Return => "r"
    case Stop => "s"
    case Halt => "h"
    case _ => "?"
  }

  function BindKey(b: Bind): Bytes
  {
    Text(b.0) + ['=' as nat] + (Text(Tail(b.1)) + [0])
  }

  /** Sorted by name, then by rendering. */
  predicate Before(a: string, b: string, i: nat)
    decreases |a| - i
  {
    if i >= |a| then true
    else if i >= |b| then false
    else if a[i] == b[i] then Before(a, b, i + 1)
    else a[i] < b[i]
  }

  predicate BindLeq(a: Bind, b: Bind)
  {
    if a.0 == b.0 then Before(Tail(a.1), Tail(b.1), 0) else Before(a.0, b.0, 0)
  }

  function InsertBind(sorted: seq<Bind>, b: Bind): seq<Bind>
  {
    if sorted == [] || BindLeq(sorted[|sorted| - 1], b) then sorted + [b]
    else InsertBind(sorted[..|sorted| - 1], b) + [sorted[|sorted| - 1]]
  }

  function SortBinds(cont: seq<Bind>, n: nat): seq<Bind>
    requires n <= |cont|
  {
    if n == 0 then [] else InsertBind(SortBinds(cont, n - 1), cont[n - 1])
  }

  function BindsKey(binds: seq<Bind>, i: nat): Bytes
    requires i <= |binds|
    decreases |binds| - i
  {
    if i == |binds| then [] else BindKey(binds[i]) + BindsKey(binds, i + 1)
  }

  function ContKey(cont: seq<Bind>): Bytes
  {
    BindsKey(SortBinds(cont, |cont|), 0)
  }

  /** The dedup key of an instance. */
  function Key(target: string, comp: Composite, cont: seq<Bind>): Bytes
  {
    Text(target) + [0] + (CompositeKey(comp) + ([0] + ContKey(cont)))
  }

  // ----- what the key can tell apart -----

  ghost predicate MapFits(m: SymMap)
  {
    && (forall s | s in m.pairs :: s < SYMBOL_LIMIT && m.pairs[s] < SYMBOL_LIMIT)
    && (forall h | h in m.holes :: h < SYMBOL_LIMIT)
  }

  /** Symbols are 16 bits wide; indices and cardinalities fit 32. */
  ghost predicate Encodable(comp: Composite)
  {
    && |comp| < WORD
    && forall k | 0 <= k < |comp| ::
         && comp[k].phys < WORD && comp[k].hostCard < WORD && comp[k].graphCard < WORD
         && MapFits(comp[k].rmap) && MapFits(comp[k].wmap)
  }

  /** Names are identifiers: they hold neither the separator nor the terminator. */
  predicate Plain(name: string)
  {
    forall k | 0 <= k < |name| :: name[k] != '\0' && name[k] != '='
  }

  /** What a graft can bind a state parameter to. */
  predicate IsBinding(b: Bind)
  {
    Plain(b.0) && (match b.1
                   case Goto(name) => Plain(name)
                   case Return => true
                   case Stop => true
                   case Halt => true
                   case _ => false)
  }

  lemma Le16Prefix(a: nat, b: nat, x: Bytes, y: Bytes)
    requires a < 65536 && b < 65536 && Le16(a) + x == Le16(b) + y
    ensures a == b && x == y
  {
    assert (Le16(a) + x)[0] == (Le16(b) + y)[0] && (Le16(a) + x)[1] == (Le16(b) + y)[1];
    assert (Le16(a) + x)[2..] == x && (Le16(b) + y)[2..] == y;
  }

  lemma Le32Prefix(a: nat, b: nat, x: Bytes, y: Bytes)
    requires a < WORD && b < WORD && Le32(a) + x == Le32(b) + y
    ensures a == b && x == y
  {
    forall k | 0 <= k < 4 ensures Le32(a)[k] == Le32(b)[k] {
      assert (Le32(a) + x)[k] == (Le32(b) + y)[k];
    }
    Le32Value(a);
    Le32Value(b);
    assert (Le32(a) + x)[4..] == x && (Le32(b) + y)[4..] == y;
  }

  lemma Le32Value(n: nat)
    requires n < WORD
    ensures n == Le32(n)[0] + 256 * Le32(n)[1] + 65536 * Le32(n)[2] + 16777216 * Le32(n)[3]
  {
    var q := n / 256;
    var r := q / 256;
    var t := r / 256;
    assert n == 256 * q + n % 256 && q == 256 * r + q % 256 && r == 256 * t + r % 256 && t < 256;
  }

  /** An encoding that ends at a terminator it does not contain. */
  lemma {:induction false} TextPrefix(a: Bytes, b: Bytes, d: nat, x: Bytes, y: Bytes)
    requires d !in a && d !in b && a + [d] + x == b + [d] + y
    ensures a == b && x == y
  {
    var s, t := a + [d] + x, b + [d] + y;
    NotShorter(a, b, d, x, y);
    NotShorter(b, a, d, y, x);
    forall k | 0 <= k < |a| ensures a[k] == b[k] {
      assert s[k] == t[k];
    }
    assert s[|a| + 1..] == x && t[|b| + 1..] == y;
  }

  lemma NotShorter(a: Bytes, b: Bytes, d: nat, x: Bytes, y: Bytes)
    requires d !in b && a + [d] + x == b + [d] + y
    ensures |a| >= |b|
  {
    assert forall k | 0 <= k < |b| :: (b + [d] + y)[k] == b[k] && b[k] != d;
    assert (a + [d] + x)[|a|] == d;
  }

  lemma TextInjective(a: string, b: string)
    requires Text(a) == Text(b)
    ensures a == b
  {
    forall k | 0 <= k < |a| ensures |a| == |b| && a[k] == b[k] {
      assert Text(a)[k] == Text(b)[k];
    }
    assert |Text(a)| == |a| && |Text(b)| == |b|;
  }

  lemma PlainText(name: string)
    requires Plain(name)
    ensures 0 !in Text(name) && ('=' as nat) !in Text(name)
  {
    forall k | 0 <= k < |Text(name)| ensures Text(name)[k] != 0 && Text(name)[k] != '=' as nat {
      assert name[k] != '\0' && name[k] != '=';
    }
  }

  lemma {:induction false} PairBytesPrefix(ps: seq<(nat, nat)>, qs: seq<(nat, nat)>, i: nat, x: Bytes, y: Bytes)
    requires |ps| == |qs| && i <= |ps|
    requires forall k | 0 <= k < |ps| :: ps[k].0 < 65536 && ps[k].1 < 65536 && qs[k].0 < 65536 && qs[k].1 < 65536
    requires PairBytes(ps, i) + x == PairBytes(qs, i) + y
    ensures ps[i..] == qs[i..] && x == y
    decreases |ps| - i
  {
    hide Le16;
    if i == |ps| {
      assert [] + x == x && [] + y == y;
    } else {
      var p, q := PairBytes(ps, i + 1) + x, PairBytes(qs, i + 1) + y;
      assert PairBytes(ps, i) + x == Le16(ps[i].0) + (Le16(ps[i].1) + p);
      assert PairBytes(qs, i) + y == Le16(qs[i].0) + (Le16(qs[i].1) + q);
      Le16Prefix(ps[i].0, qs[i].0, Le16(ps[i].1) + p, Le16(qs[i].1) + q);
      Le16Prefix(ps[i].1, qs[i].1, p, q);
      PairBytesPrefix(ps, qs, i + 1, x, y);
      assert ps[i..] == [ps[i]] + ps[i + 1..] && qs[i..] == [qs[i]] + qs[i + 1..];
    }
  }

  lemma {:induction false} HoleBytesPrefix(hs: seq<nat>, gs: seq<nat>, i: nat, x: Bytes, y: Bytes)
    requires |hs| == |gs| && i <= |hs|
    requires forall k | 0 <= k < |hs| :: hs[k] < 65536 && gs[k] < 65536
    requires HoleBytes(hs, i) + x == HoleBytes(gs, i) + y
    ensures hs[i..] == gs[i..] && x == y
    decreases |hs| - i
  {
    hide Le16;
    if i == |hs| {
      assert [] + x == x && [] + y == y;
    } else {
      var p, q := HoleBytes(hs, i + 1) + x, HoleBytes(gs, i + 1) + y;
      assert HoleBytes(hs, i) + x == Le16(hs[i]) + p;
      assert HoleBytes(gs, i) + y == Le16(gs[i]) + q;
      Le16Prefix(hs[i], gs[i], p, q);
      HoleBytesPrefix(hs, gs, i + 1, x, y);
      assert hs[i..] == [hs[i]] + hs[i + 1..] && gs[i..] == [gs[i]] + gs[i + 1..];
    }
  }

  lemma PairKeyPrefix(ps: seq<(nat, nat)>, qs: seq<(nat, nat)>, x: Bytes, y: Bytes)
    requires |ps| < WORD && |qs| < WORD
    requires forall k | 0 <= k < |ps| :: ps[k].0 < 65536 && ps[k].1 < 65536
    requires forall k | 0 <= k < |qs| :: qs[k].0 < 65536 && qs[k].1 < 65536
    requires PairKey(ps) + x == PairKey(qs) + y
    ensures ps == qs && x == y
  {
    hide Le32, PairBytes;
    assert PairKey(ps) + x == Le32(|ps|) + (PairBytes(ps, 0) + x);
    assert PairKey(qs) + y == Le32(|qs|) + (PairBytes(qs, 0) + y);
    Le32Prefix(|ps|, |qs|, PairBytes(ps, 0) + x, PairBytes(qs, 0) + y);
    PairBytesPrefix(ps, qs, 0, x, y);
    assert ps[0..] == ps && qs[0..] == qs;
  }

  lemma HoleKeyPrefix(hs: seq<nat>, gs: seq<nat>, x: Bytes, y: Bytes)
    requires |hs| < WORD && |gs| < WORD
    requires forall k | 0 <= k < |hs| :: hs[k] < 65536
    requires forall k | 0 <= k < |gs| :: gs[k] < 65536
    requires HoleKey(hs) + x == HoleKey(gs) + y
    ensures hs == gs && x == y
  {
    hide Le32, HoleBytes;
    assert HoleKey(hs) + x == Le32(|hs|) + (HoleBytes(hs, 0) + x);
    assert HoleKey(gs) + y == Le32(|gs|) + (HoleBytes(gs, 0) + y);
    Le32Prefix(|hs|, |gs|, HoleBytes(hs, 0) + x, HoleBytes(gs, 0) + y);
    HoleBytesPrefix(hs, gs, 0, x, y);
    assert hs[0..] == hs && gs[0..] == gs;
  }

  // ----- a map is its listed pairs and holes -----

  lemma {:induction false} PairsExact(m: SymMap, n: nat)
    requires MapFits(m) && n <= SYMBOL_LIMIT
    ensures |PairsBelow(m, n)| <= n
    ensures forall s: nat, d: nat :: (s, d) in PairsBelow(m, n) <==> s < n && s in m.pairs && m.pairs[s] == d
    ensures forall k | 0 <= k < |PairsBelow(m, n)| :: PairsBelow(m, n)[k].0 < 65536 && PairsBelow(m, n)[k].1 < 65536
  {
    if n > 0 {
      PairsExact(m, n - 1);
    }
  }

  lemma {:induction false} HolesExactly(m: SymMap, n: nat)
    requires MapFits(m) && n <= SYMBOL_LIMIT
    ensures |HolesListed(m, n)| <= n
    ensures forall h: nat :: h in HolesListed(m, n) <==> h < n && h in m.holes
    ensures forall k | 0 <= k < |HolesListed(m, n)| :: HolesListed(m, n)[k] < 65536
  {
    if n > 0 {
      HolesExactly(m, n - 1);
    }
  }

  lemma MapKeyPrefix(a: SymMap, b: SymMap, x: Bytes, y: Bytes)
    requires MapFits(a) && MapFits(b) && MapKey(a) + x == MapKey(b) + y
    ensures a == b && x == y
  {
    hide PairsBelow, HolesListed, PairKey, HoleKey;
    PairsExact(a, SYMBOL_LIMIT);
    PairsExact(b, SYMBOL_LIMIT);
    HolesExactly(a, SYMBOL_LIMIT);
    HolesExactly(b, SYMBOL_LIMIT);
    var pa, pb := PairsBelow(a, SYMBOL_LIMIT), PairsBelow(b, SYMBOL_LIMIT);
    var ha, hb := HolesListed(a, SYMBOL_LIMIT), HolesListed(b, SYMBOL_LIMIT);
    assert MapKey(a) + x == PairKey(pa) + (HoleKey(ha) + x);
    assert MapKey(b) + y == PairKey(pb) + (HoleKey(hb) + y);
    PairKeyPrefix(pa, pb, HoleKey(ha) + x, HoleKey(hb) + y);
    HoleKeyPrefix(ha, hb, x, y);
    SameMap(a, b);
  }

  lemma SameMap(a: SymMap, b: SymMap)
    requires MapFits(a) && MapFits(b)
    requires PairsBelow(a, SYMBOL_LIMIT) == PairsBelow(b, SYMBOL_LIMIT)
    requires HolesListed(a, SYMBOL_LIMIT) == HolesListed(b, SYMBOL_LIMIT)
    ensures a == b
  {
    hide PairsBelow, HolesListed;
    PairsExact(a, SYMBOL_LIMIT);
    PairsExact(b, SYMBOL_LIMIT);
    HolesExactly(a, SYMBOL_LIMIT);
    HolesExactly(b, SYMBOL_LIMIT);
    var pa := PairsBelow(a, SYMBOL_LIMIT);
    forall s: nat ensures s in a.pairs <==> s in b.pairs {
      if s in a.pairs {
        assert (s, a.pairs[s]) in pa;
      }
      if s in b.pairs {
        assert (s, b.pairs[s]) in pa;
      }
    }
    forall s: nat | s in a.pairs ensures a.pairs[s] == b.pairs[s] {
      assert (s, a.pairs[s]) in pa;
    }
    assert a.pairs == b.pairs;
    forall h: nat ensures h in a.holes <==> h in b.holes {
      assert h in HolesListed(a, SYMBOL_LIMIT) <==> h in HolesListed(b, SYMBOL_LIMIT);
    }
    assert a.holes == b.holes;
  }

  lemma TapeKeyPrefix(a: TapeMap, b: TapeMap, x: Bytes, y: Bytes)
    requires Encodable([a]) && Encodable([b]) && TapeKey(a) + x == TapeKey(b) + y
    ensures a == b && x == y
  {
    hide Le32, MapKey, MapFits;
    assert [a][0] == a && [b][0] == b;
    var ma, mb := MapKey(a.rmap) + (MapKey(a.wmap) + x), MapKey(b.rmap) + (MapKey(b.wmap) + y);
    assert TapeKey(a) + x == Le32(a.phys) + (Le32(a.hostCard) + (Le32(a.graphCard) + ma));
    assert TapeKey(b) + y == Le32(b.phys) + (Le32(b.hostCard) + (Le32(b.graphCard) + mb));
    Le32Prefix(a.phys, b.phys, Le32(a.hostCard) + (Le32(a.graphCard) + ma), Le32(b.hostCard) + (Le32(b.graphCard) + mb));
    Le32Prefix(a.hostCard, b.hostCard, Le32(a.graphCard) + ma, Le32(b.graphCard) + mb);
    Le32Prefix(a.graphCard, b.graphCard, ma, mb);
    MapKeyPrefix(a.rmap, b.rmap, MapKey(a.wmap) + x, MapKey(b.wmap) + y);
    MapKeyPrefix(a.wmap, b.wmap, x, y);
  }

  lemma {:induction false} TapesKeyPrefix(a: Composite, b: Composite, i: nat, x: Bytes, y: Bytes)
    requires |a| == |b| && i <= |a| && Encodable(a) && Encodable(b)
    requires TapesKey(a, i) + x == TapesKey(b, i) + y
    ensures a[i..] == b[i..] && x == y
    decreases |a| - i
  {
    hide TapeKey, MapFits;
    if i == |a| {
      assert [] + x == x && [] + y == y;
    } else {
      var p, q := TapesKey(a, i + 1) + x, TapesKey(b, i + 1) + y;
      assert TapesKey(a, i) + x == TapeKey(a[i]) + p;
      assert TapesKey(b, i) + y == TapeKey(b[i]) + q;
      TapeKeyPrefix(a[i], b[i], p, q);
      TapesKeyPrefix(a, b, i + 1, x, y);
      assert a[i..] == [a[i]] + a[i + 1..] && b[i..] == [b[i]] + b[i + 1..];
    }
  }

  lemma CompositeKeyPrefix(a: Composite, b: Composite, x: Bytes, y: Bytes)
    requires Encodable(a) && Encodable(b) && CompositeKey(a) + x == CompositeKey(b) + y
    ensures a == b && x == y
  {
    hide Le32, TapesKey, MapFits;
    assert CompositeKey(a) + x == Le32(|a|) + (TapesKey(a, 0) + x);
    assert CompositeKey(b) + y == Le32(|b|) + (TapesKey(b, 0) + y);
    Le32Prefix(|a|, |b|, TapesKey(a, 0) + x, TapesKey(b, 0) + y);
    TapesKeyPrefix(a, b, 0, x, y);
    assert a[0..] == a && b[0..] == b;
  }

  // ----- continuations -----

  lemma TailPlain(b: Bind)
    requires IsBinding(b)
    ensures Plain(Tail(b.1))
  {
  }

  lemma TailInjective(a: Bind, b: Bind)
    requires IsBinding(a) && IsBinding(b) && Tail(a.1) == Tail(b.1)
    ensures a.1 == b.1
  {
    assert Tail(a.1)[0] == Tail(b.1)[0];
    if a.1.Goto? && b.1.Goto? {
      assert Tail(a.1)[1..] == a.1.name && Tail(b.1)[1..] == b.1.name;
    }
  }

  lemma BindKeyPrefix(a: Bind, b: Bind, x: Bytes, y: Bytes)
    requires IsBinding(a) && IsBinding(b) && BindKey(a) + x == BindKey(b) + y
    ensures a == b && x == y
  {
    hide Tail, Plain, Text;
    TailPlain(a);
    TailPlain(b);
    PlainText(a.0);
    PlainText(b.0);
    PlainText(Tail(a.1));
    PlainText(Tail(b.1));
    var ta, tb := Text(Tail(a.1)) + [0] + x, Text(Tail(b.1)) + [0] + y;
    assert BindKey(a) + x == Text(a.0) + ['=' as nat] + ta;
    assert BindKey(b) + y == Text(b.0) + ['=' as nat] + tb;
    TextPrefix(Text(a.0), Text(b.0), '=' as nat, ta, tb);
    TextPrefix(Text(Tail(a.1)), Text(Tail(b.1)), 0, x, y);
    TextInjective(a.0, b.0);
    TextInjective(Tail(a.1), Tail(b.1));
    TailInjective(a, b);
  }

  lemma {:induction false} BindsKeyInjective(a: seq<Bind>, i: nat, b: seq<Bind>, k: nat)
    requires i <= |a| && k <= |b|
    requires (forall j | 0 <= j < |a| :: IsBinding(a[j])) && forall j | 0 <= j < |b| :: IsBinding(b[j])
    requires BindsKey(a, i) == BindsKey(b, k)
    ensures a[i..] == b[k..]
    decreases |a| - i
  {
    hide IsBinding, Tail, Text;
    BindsKeyEmpty(a, i);
    BindsKeyEmpty(b, k);
    if i < |a| {
      BindKeyPrefix(a[i], b[k], BindsKey(a, i + 1), BindsKey(b, k + 1));
      BindsKeyInjective(a, i + 1, b, k + 1);
      assert a[i..] == [a[i]] + a[i + 1..] && b[k..] == [b[k]] + b[k + 1..];
    }
  }

  lemma BindsKeyEmpty(binds: seq<Bind>, i: nat)
    requires i <= |binds|
    ensures BindsKey(binds, i) == [] <==> i == |binds|
  {
  }

  lemma {:induction false} InsertBindKeeps(sorted: seq<Bind>, b: Bind)
    ensures multiset(InsertBind(sorted, b)) == multiset(sorted) + multiset{b}
  {
    hide BindLeq;
    if !(sorted == [] || BindLeq(sorted[|sorted| - 1], b)) {
      InsertBindKeeps(sorted[..|sorted| - 1], b);
      assert sorted == sorted[..|sorted| - 1] + [sorted[|sorted| - 1]];
    }
  }

  lemma {:induction false} SortBindsKeeps(cont: seq<Bind>, n: nat)
    requires n <= |cont|
    ensures multiset(SortBinds(cont, n)) == multiset(cont[..n])
  {
    hide InsertBind;
    if n > 0 {
      SortBindsKeeps(cont, n - 1);
      InsertBindKeeps(SortBinds(cont, n - 1), cont[n - 1]);
      assert cont[..n] == cont[..n - 1] + [cont[n - 1]];
    }
  }

  lemma SortedAreBindings(cont: seq<Bind>)
    requires forall j | 0 <= j < |cont| :: IsBinding(cont[j])
    ensures forall j | 0 <= j < |SortBinds(cont, |cont|)| :: IsBinding(SortBinds(cont, |cont|)[j])
    ensures multiset(SortBinds(cont, |cont|)) == multiset(cont)
  {
    hide SortBinds, IsBinding;
    SortBindsKeeps(cont, |cont|);
    assert cont[..|cont|] == cont;
    var sorted := SortBinds(cont, |cont|);
    forall j | 0 <= j < |sorted| ensures IsBinding(sorted[j]) {
      assert sorted[j] in multiset(sorted);
      assert sorted[j] in cont;
    }
  }

  lemma ContKeyInjective(a: seq<Bind>, b: seq<Bind>)
    requires (forall j | 0 <= j < |a| :: IsBinding(a[j])) && forall j | 0 <= j < |b| :: IsBinding(b[j])
    requires ContKey(a) == ContKey(b)
    ensures multiset(a) == multiset(b)
  {
    hide SortBinds, IsBinding, BindsKey;
    SortedAreBindings(a);
    SortedAreBindings(b);
    var sa, sb := SortBinds(a, |a|), SortBinds(b, |b|);
    BindsKeyInjective(sa, 0, sb, 0);
    assert sa[0..] == sa && sb[0..] == sb;
  }

  /** Instances that share a key share their graph, their binding and their continuations. */
  lemma KeyInjective(t1: string, comp1: Composite, cont1: seq<Bind>, t2: string, comp2: Composite, cont2: seq<Bind>)
    requires Plain(t1) && Plain(t2) && Encodable(comp1) && Encodable(comp2)
    requires (forall j | 0 <= j < |cont1| :: IsBinding(cont1[j])) && forall j | 0 <= j < |cont2| :: IsBinding(cont2[j])
    requires Key(t1, comp1, cont1) == Key(t2, comp2, cont2)
    ensures t1 == t2 && comp1 == comp2 && multiset(cont1) == multiset(cont2)
  {
    hide Plain, IsBinding, CompositeKey, ContKey, Text, Encodable;
    PlainText(t1);
    PlainText(t2);
    var x1, x2 := [0] + ContKey(cont1), [0] + ContKey(cont2);
    TextPrefix(Text(t1), Text(t2), 0, CompositeKey(comp1) + x1, CompositeKey(comp2) + x2);
    TextInjective(t1, t2);
    CompositeKeyPrefix(comp1, comp2, x1, x2);
    assert x1[1..] == ContKey(cont1) && x2[1..] == ContKey(cont2);
    ContKeyInjective(cont1, cont2);
  }

  // ----- the order of continuations does not matter -----

  lemma {:induction false} BeforeTotal(a: string, b: string, i: nat)
    ensures Before(a, b, i) || Before(b, a, i)
    decreases |a| - i
  {
    if i < |a| && i < |b| && a[i] == b[i] {
      BeforeTotal(a, b, i + 1);
    }
  }

  lemma {:induction false} BeforeChain(a: string, b: string, c: string, i: nat)
    requires Before(a, b, i) && Before(b, c, i)
    ensures Before(a, c, i)
    decreases |a| - i
  {
    if i < |a| && i < |b| && i < |c| && a[i] == b[i] == c[i] {
      BeforeChain(a, b, c, i + 1);
    }
  }

  lemma {:induction false} BeforeBoth(a: string, b: string, i: nat)
    requires Before(a, b, i) && Before(b, a, i) && i <= |a| && i <= |b| && a[..i] == b[..i]
    ensures a == b
    decreases |a| - i
  {
    if i < |a| && i < |b| {
      assert a[..i + 1] == a[..i] + [a[i]] && b[..i + 1] == b[..i] + [b[i]];
      BeforeBoth(a, b, i + 1);
    } else {
      assert a[..i] == a && b[..i] == b;
    }
  }

  lemma LeqTotal(a: Bind, b: Bind)
    ensures BindLeq(a, b) || BindLeq(b, a)
  {
    hide Before;
    BeforeTotal(a.0, b.0, 0);
    BeforeTotal(Tail(a.1), Tail(b.1), 0);
  }

  lemma LeqChain(a: Bind, b: Bind, c: Bind)
    requires BindLeq(a, b) && BindLeq(b, c)
    ensures BindLeq(a, c)
  {
    hide Before, Tail;
    if a.0 == b.0 == c.0 {
      BeforeChain(Tail(a.1), Tail(b.1), Tail(c.1), 0);
    } else if a.0 != b.0 && b.0 != c.0 {
      BeforeChain(a.0, b.0, c.0, 0);
      if a.0 == c.0 {
        BeforeBoth(a.0, b.0, 0);
      }
    }
  }

  lemma LeqBoth(a: Bind, b: Bind)
    requires BindLeq(a, b) && BindLeq(b, a) && IsBinding(a) && IsBinding(b)
    ensures a == b
  {
    hide Before, Tail, Text;
    if a.0 != b.0 {
      BeforeBoth(a.0, b.0, 0);
    } else {
      BeforeBoth(Tail(a.1), Tail(b.1), 0);
      TailInjective(a, b);
    }
  }

  ghost predicate InOrder(binds: seq<Bind>)
  {
    forall i, k | 0 <= i < k < |binds| :: BindLeq(binds[i], binds[k])
  }

  lemma {:induction false} InsertInOrder(sorted: seq<Bind>, b: Bind)
    requires InOrder(sorted)
    ensures InOrder(InsertBind(sorted, b)) && forall x | x in InsertBind(sorted, b) :: x in sorted || x == b
  {
    hide BindLeq;
    if sorted != [] {
      var front, last := sorted[..|sorted| - 1], sorted[|sorted| - 1];
      if BindLeq(last, b) {
        forall i | 0 <= i < |sorted| ensures BindLeq(sorted[i], b) {
          if i < |sorted| - 1 {
            LeqChain(sorted[i], last, b);
          }
        }
      } else {
        LeqTotal(last, b);
        InsertInOrder(front, b);
        var longer := InsertBind(front, b);
        forall k | 0 <= k < |longer| ensures BindLeq(longer[k], last) {
          assert longer[k] in longer;
        }
      }
    }
  }

  lemma {:induction false} SortInOrder(cont: seq<Bind>, n: nat)
    requires n <= |cont|
    ensures InOrder(SortBinds(cont, n))
  {
    hide InsertBind, BindLeq;
    if n > 0 {
      SortInOrder(cont, n - 1);
      InsertInOrder(SortBinds(cont, n - 1), cont[n - 1]);
    }
  }

  lemma LastSplits(s: seq<Bind>)
    requires s != []
    ensures s == s[..|s| - 1] + [s[|s| - 1]] && multiset(s) == multiset(s[..|s| - 1]) + multiset{s[|s| - 1]}
  {
    assert s == s[..|s| - 1] + [s[|s| - 1]];
  }

  /** The last of two orders of the same bindings is the same one. */
  lemma SameLast(a: seq<Bind>, b: seq<Bind>)
    requires InOrder(a) && InOrder(b) && multiset(a) == multiset(b) && a != [] && b != []
    requires forall j | 0 <= j < |a| :: IsBinding(a[j])
    ensures a[|a| - 1] == b[|b| - 1]
  {
    hide BindLeq, IsBinding;
    var x, y := a[|a| - 1], b[|b| - 1];
    assert x in multiset(b) && y in multiset(a);
    var i :| 0 <= i < |b| && b[i] == x;
    var k :| 0 <= k < |a| && a[k] == y;
    if x != y {
      LeqBoth(x, y);
    }
  }

  lemma SameSize(a: seq<Bind>, b: seq<Bind>)
    requires multiset(a) == multiset(b)
    ensures |a| == |b|
  {
    assert |multiset(a)| == |a| && |multiset(b)| == |b|;
  }

  lemma {:induction false} OneOrder(a: seq<Bind>, b: seq<Bind>)
    requires InOrder(a) && InOrder(b) && multiset(a) == multiset(b) && forall j | 0 <= j < |a| :: IsBinding(a[j])
    ensures a == b
  {
    hide BindLeq, IsBinding;
    SameSize(a, b);
    if a != [] {
      SameLast(a, b);
      LastSplits(a);
      LastSplits(b);
      FrontsSame(multiset(a[..|a| - 1]), multiset(b[..|b| - 1]), a[|a| - 1]);
      OneOrder(a[..|a| - 1], b[..|b| - 1]);
    }
  }

  lemma FrontsSame(m: multiset<Bind>, n: multiset<Bind>, x: Bind)
    requires m + multiset{x} == n + multiset{x}
    ensures m == n
  {
    assert m + multiset{x} - multiset{x} == m && n + multiset{x} - multiset{x} == n;
  }

  /** Grafts of one graph through one binding that continue the same parameters alike have one key, in whatever
      order the continuations come: the second is an alias of the first. */
  lemma KeyOrderFree(target: string, comp: Composite, a: seq<Bind>, b: seq<Bind>)
    requires multiset(a) == multiset(b) && forall j | 0 <= j < |a| :: IsBinding(a[j])
    ensures Key(target, comp, a) == Key(target, comp, b)
  {
    hide SortBinds, IsBinding, BindsKey, CompositeKey, BindLeq;
    forall j | 0 <= j < |b| ensures IsBinding(b[j]) {
      assert b[j] in multiset(b);
      assert b[j] in a;
    }
    SortedAreBindings(a);
    SortedAreBindings(b);
    SortInOrder(a, |a|);
    SortInOrder(b, |b|);
    OneOrder(SortBinds(a, |a|), SortBinds(b, |b|));
  }
}
