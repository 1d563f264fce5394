/** The address and line index over a map sidecar: two sorted tables and binary searches, which answer
    what a linear search over the unsorted map would. */
module LineIndex {
  import opened Options

  /** A function's code range and its (offset, line) entries. */
  datatype Function = Function(
    name: string, start: nat, end: nat, lines: seq<(nat, nat)>, source: Option<string>)

  datatype Location = Location(
    name: string, line: Option<nat>, firstLine: Option<nat>, source: Option<string>)

  /** (line, offset, function index). */
  type LineEntry = (nat, nat, nat)

  datatype Index = Index(functions: seq<Function>, byLine: seq<LineEntry>)

  // ----- sorting and searching, as the library promises them -----

  ghost predicate SortedBy<T(!new)>(s: seq<T>, leq: (T, T) -> bool)
  {
    forall i, j | 0 <= i < j < |s| :: leq(s[i], s[j])
  }

  ghost predicate TotalOrder<T(!new)>(leq: (T, T) -> bool)
  {
    && (forall a, b :: leq(a, b) || leq(b, a))
    && (forall a, b, c | leq(a, b) && leq(b, c) :: leq(a, c))
  }

  /** Some sorted permutation; elements with equal keys may come in any order. */
  method Sort<T(!new)>(s: seq<T>, leq: (T, T) -> bool) returns (r: seq<T>)
    requires TotalOrder(leq)
    ensures SortedBy(r, leq) && multiset(r) == multiset(s)
  {
    hide TotalOrder;
    r := [];
    for n := 0 to |s|
      invariant SortedBy(r, leq) && multiset(r) == multiset(s[..n])
    {
      var at := |r|;
      while at > 0 && !leq(r[at - 1], s[n])
        invariant 0 <= at <= |r| && forall k | at <= k < |r| :: leq(s[n], r[k])
      {
        at := at - 1;
        EitherWay(leq, r[at], s[n]);
      }
      InsertSorted(r, leq, at, s[n]);
      InsertCounts(r, at, s[n]);
      assert s[..n + 1] == s[..n] + [s[n]];
      r := r[..at] + [s[n]] + r[at..];
    }
    assert s[..|s|] == s;
  }

  lemma EitherWay<T(!new)>(leq: (T, T) -> bool, a: T, b: T)
    requires TotalOrder(leq)
    ensures leq(a, b) || leq(b, a)
  {
  }

  lemma InsertSorted<T(!new)>(r: seq<T>, leq: (T, T) -> bool, at: nat, x: T)
    requires TotalOrder(leq) && SortedBy(r, leq) && at <= |r|
    requires at > 0 ==> leq(r[at - 1], x)
    requires forall k | at <= k < |r| :: leq(x, r[k])
    ensures SortedBy(r[..at] + [x] + r[at..], leq)
  {
    forall k | 0 <= k < at ensures leq(r[k], x) {
      assert k < at - 1 ==> leq(r[k], r[at - 1]);
    }
    var longer := r[..at] + [x] + r[at..];
    forall i, j | 0 <= i < j < |longer| ensures leq(longer[i], longer[j]) {
      assert longer[i] == if i < at then r[i] else if i == at then x else r[i - 1];
      assert longer[j] == if j < at then r[j] else if j == at then x else r[j - 1];
    }
  }

  lemma InsertCounts<T>(r: seq<T>, at: nat, x: T)
    requires at <= |r|
    ensures multiset(r[..at] + [x] + r[at..]) == multiset(r) + multiset{x}
  {
    assert r == r[..at] + r[at..];
  }

  /** The number of leading elements that are below. */
  method PartitionPoint<T(!new)>(s: seq<T>, below: T -> bool) returns (n: nat)
    requires forall i, j | 0 <= i < j < |s| && below(s[j]) :: below(s[i])
    ensures n <= |s| && forall k | 0 <= k < |s| :: below(s[k]) <==> k < n
  {
    var lo, hi := 0, |s|;
    while lo < hi
      invariant lo <= hi <= |s|
      invariant forall k | 0 <= k < lo :: below(s[k])
      invariant forall k | hi <= k < |s| :: !below(s[k])
    {
      var mid := (lo + hi) / 2;
      if below(s[mid]) {
        lo := mid + 1;
      } else {
        hi := mid;
      }
    }
    n := lo;
  }

  // ----- the index -----

  predicate OffsetLeq(a: (nat, nat), b: (nat, nat))
  {
    a.0 <= b.0
  }

  predicate StartLeq(a: Function, b: Function)
  {
    a.start <= b.start
  }

  predicate EntryLeq(a: LineEntry, b: LineEntry)
  {
    a.0 < b.0 || (a.0 == b.0 && (a.1 < b.1 || (a.1 == b.1 && a.2 <= b.2)))
  }

  /** A function with its entries in offset order. */
  ghost predicate InOffsetOrder(f: Function, g: Function)
  {
    && g == f.(lines := g.lines)
    && multiset(g.lines) == multiset(f.lines) && SortedBy(g.lines, OffsetLeq)
  }

  ghost predicate HoldsFunction(functions: seq<Function>, f: Function)
  {
    exists k :: 0 <= k < |functions| && InOffsetOrder(f, functions[k])
  }

  ghost predicate FromMap(map_: seq<Function>, g: Function)
  {
    exists k :: 0 <= k < |map_| && InOffsetOrder(map_[k], g)
  }

  ghost predicate IsEntry(functions: seq<Function>, e: LineEntry)
  {
    e.2 < |functions| && (e.1, e.0) in functions[e.2].lines
  }

  /** The index holds the map's functions by start and all their entries by line. */
  ghost predicate Indexes(map_: seq<Function>, ix: Index)
  {
    && (forall k | 0 <= k < |map_| :: HoldsFunction(ix.functions, map_[k]))
    && (forall k | 0 <= k < |ix.functions| :: FromMap(map_, ix.functions[k]))
    && |ix.functions| == |map_|
    && SortedBy(ix.functions, StartLeq)
    && SortedBy(ix.byLine, EntryLeq)
    && (forall e: LineEntry :: e in ix.byLine <==> IsEntry(ix.functions, e))
  }

  method Build(map_: seq<Function>) returns (ix: Index)
    ensures Indexes(map_, ix)
  {
    hide InOffsetOrder, SortedBy, EntryLeq, IsEntry;
    var entries := OrderLines(map_);
    StartsOrdered();
    var functions := Sort(entries, StartLeq);
    Permuted(map_, entries, functions);
    var table := Table(functions);
    EntriesOrdered();
    var byLine := Sort(table, EntryLeq);
    SameElements(table, byLine);
    ix := Index(functions, byLine);
  }

  method OrderLines(map_: seq<Function>) returns (entries: seq<Function>)
    ensures |entries| == |map_| && forall i | 0 <= i < |map_| :: InOffsetOrder(map_[i], entries[i])
  {
    entries := [];
    for k := 0 to |map_|
      invariant |entries| == k && forall i | 0 <= i < k :: InOffsetOrder(map_[i], entries[i])
    {
      var lines := Sort(map_[k].lines, OffsetLeq);
      entries := entries + [map_[k].(lines := lines)];
    }
  }

  /** Every function's entries, the functions one after the other. */
  method Table(functions: seq<Function>) returns (table: seq<LineEntry>)
    ensures forall e: LineEntry :: e in table <==> IsEntry(functions, e)
  {
    table := [];
    for k := 0 to |functions|
      invariant forall e: LineEntry :: e in table <==> e.2 < k && IsEntry(functions, e)
    {
      var lines := functions[k].lines;
      ghost var before := table;
      for j := 0 to |lines|
        invariant forall e: LineEntry :: e in table <==> e in before || (e.2 == k && (e.1, e.0) in lines[..j])
      {
        assert lines[..j + 1] == lines[..j] + [lines[j]];
        table := table + [(lines[j].1, lines[j].0, k)];
      }
      assert lines[..|lines|] == lines;
    }
  }

  lemma StartsOrdered()
    ensures TotalOrder(StartLeq)
  {
  }

  lemma EntriesOrdered()
    ensures TotalOrder(EntryLeq)
  {
  }

  lemma SameElements<T>(a: seq<T>, b: seq<T>)
    requires multiset(a) == multiset(b)
    ensures |a| == |b| && forall x :: x in a <==> x in b
  {
    assert |multiset(a)| == |multiset(b)|;
    forall x ensures x in a <==> x in b {
      assert x in a <==> x in multiset(a);
      assert x in b <==> x in multiset(b);
    }
  }

  lemma SameEntries(a: seq<(nat, nat)>, b: seq<(nat, nat)>)
    requires multiset(a) == multiset(b)
    ensures forall e :: e in a <==> e in b
  {
    forall e ensures e in a <==> e in b {
      assert e in a <==> e in multiset(a);
      assert e in b <==> e in multiset(b);
    }
  }

  lemma Permuted(map_: seq<Function>, entries: seq<Function>, functions: seq<Function>)
    requires |entries| == |map_| && forall i | 0 <= i < |map_| :: InOffsetOrder(map_[i], entries[i])
    requires multiset(functions) == multiset(entries)
    ensures |functions| == |map_|
    ensures forall k | 0 <= k < |map_| :: HoldsFunction(functions, map_[k])
    ensures forall k | 0 <= k < |functions| :: FromMap(map_, functions[k])
  {
    hide InOffsetOrder;
    SameElements(entries, functions);
    forall k | 0 <= k < |map_| ensures HoldsFunction(functions, map_[k]) {
      assert entries[k] in functions;
    }
    forall k | 0 <= k < |functions| ensures FromMap(map_, functions[k]) {
      assert functions[k] in entries;
    }
  }

  // ----- what the linear search finds -----

  predicate Contains(f: Function, addr: nat)
  {
    f.start <= addr < f.end
  }

  /** Every function has code, and no two share any. */
  ghost predicate Disjoint(map_: seq<Function>)
  {
    && (forall k | 0 <= k < |map_| :: map_[k].start < map_[k].end)
    && (forall i, j | 0 <= i < |map_| && 0 <= j < |map_| && i != j ::
          map_[i].end <= map_[j].start || map_[j].end <= map_[i].start)
  }

  ghost predicate DistinctOffsets(lines: seq<(nat, nat)>)
  {
    forall i, j | 0 <= i < j < |lines| :: lines[i].0 != lines[j].0
  }

  /** The line of the greatest offset up to addr; none when every offset is beyond it. */
  ghost predicate LineAt(lines: seq<(nat, nat)>, addr: nat, line: Option<nat>)
  {
    match line
    case None => forall e | e in lines :: addr < e.0
    case Some(l) => exists o :: (o, l) in lines && o <= addr && forall e | e in lines && e.0 <= addr :: e.0 <= o
  }

  /** The line of the least offset; none when there are no entries. */
  ghost predicate FirstLine(lines: seq<(nat, nat)>, line: Option<nat>)
  {
    match line
    case None => lines == []
    case Some(l) => exists o :: (o, l) in lines && forall e | e in lines :: o <= e.0
  }

  ghost predicate Describes(f: Function, addr: nat, loc: Location)
  {
    && Contains(f, addr) && loc.name == f.name && loc.source == f.source
    && LineAt(f.lines, addr, loc.line) && FirstLine(f.lines, loc.firstLine)
  }

  /** Resolves an address to a function that contains it and its line there; when no two functions
      share an address, none exactly when no function of the map contains it. */
  method Resolve(ghost map_: seq<Function>, ix: Index, addr: nat) returns (r: Option<Location>)
    requires Indexes(map_, ix)
    ensures Disjoint(map_) ==> (r.None? <==> forall k | 0 <= k < |map_| :: !Contains(map_[k], addr))
    ensures r.Some? ==> exists k :: 0 <= k < |map_| && Describes(map_[k], addr, r.value)
  {
    hide InOffsetOrder, Disjoint, LineAt, FirstLine, HoldsFunction, EntryLeq, IsEntry;
    StartsFirst(ix.functions);
    var n := PartitionPoint(ix.functions, (f: Function) => f.start <= addr);
    if n == 0 {
      NoneBefore(map_, ix, addr, n);
      return None;
    }
    var f := ix.functions[n - 1];
    if Disjoint(map_) {
      LastStarts(map_, ix, addr, n);
    }
    if addr >= f.end {
      return None;
    }
    ghost var k := Origin(map_, ix, n - 1);
    var at := PartitionPoint(f.lines, (e: (nat, nat)) => e.0 <= addr);
    var line := if at == 0 then None else Some(f.lines[at - 1].1);
    var first := if f.lines == [] then None else Some(f.lines[0].1);
    LineFound(map_[k], f, addr, at);
    r := Some(Location(f.name, line, first, f.source));
  }

  lemma StartsFirst(functions: seq<Function>)
    requires SortedBy(functions, StartLeq)
    ensures forall i, j | 0 <= i < j < |functions| :: functions[i].start <= functions[j].start
  {
    assert forall i, j | 0 <= i < j < |functions| :: StartLeq(functions[i], functions[j]);
  }

  /** The map's function behind an indexed one. */
  lemma Origin(map_: seq<Function>, ix: Index, m: nat) returns (k: nat)
    requires Indexes(map_, ix) && m < |ix.functions|
    ensures k < |map_| && InOffsetOrder(map_[k], ix.functions[m])
    ensures map_[k].start == ix.functions[m].start && map_[k].end == ix.functions[m].end
    ensures map_[k].name == ix.functions[m].name && map_[k].source == ix.functions[m].source
    ensures SameLines(map_[k], ix.functions[m])
  {
    hide HoldsFunction, EntryLeq, IsEntry;
    assert FromMap(map_, ix.functions[m]);
    k :| 0 <= k < |map_| && InOffsetOrder(map_[k], ix.functions[m]);
    var lines := ix.functions[m].lines;
    SameEntries(map_[k].lines, lines);
    assert forall i, j | 0 <= i < j < |lines| :: OffsetLeq(lines[i], lines[j]);
  }

  /** The indexed form of a map's function. */
  lemma Form(map_: seq<Function>, ix: Index, k: nat) returns (m: nat)
    requires Indexes(map_, ix) && k < |map_|
    ensures m < |ix.functions| && InOffsetOrder(map_[k], ix.functions[m])
    ensures map_[k].start == ix.functions[m].start && map_[k].source == ix.functions[m].source
    ensures forall e :: e in map_[k].lines <==> e in ix.functions[m].lines
  {
    hide FromMap, EntryLeq, IsEntry, SortedBy;
    assert HoldsFunction(ix.functions, map_[k]);
    m :| 0 <= m < |ix.functions| && InOffsetOrder(map_[k], ix.functions[m]);
    SameEntries(map_[k].lines, ix.functions[m].lines);
  }

  ghost predicate SameLines(f: Function, g: Function)
  {
    && (forall e :: e in f.lines <==> e in g.lines)
    && (forall i, j | 0 <= i < j < |g.lines| :: g.lines[i].0 <= g.lines[j].0)
  }

  lemma LineFound(f: Function, g: Function, addr: nat, at: nat)
    requires SameLines(f, g)
    requires at <= |g.lines| && forall k | 0 <= k < |g.lines| :: g.lines[k].0 <= addr <==> k < at
    ensures LineAt(f.lines, addr, if at == 0 then None else Some(g.lines[at - 1].1))
    ensures FirstLine(f.lines, if g.lines == [] then None else Some(g.lines[0].1))
  {
    hide LineAt, FirstLine;
    UpTo(f, g, addr, at);
    Least(f, g);
  }

  lemma UpTo(f: Function, g: Function, addr: nat, at: nat)
    requires SameLines(f, g)
    requires at <= |g.lines| && forall k | 0 <= k < |g.lines| :: g.lines[k].0 <= addr <==> k < at
    ensures LineAt(f.lines, addr, if at == 0 then None else Some(g.lines[at - 1].1))
  {
    forall e | e in f.lines ensures if at == 0 then addr < e.0 else e.0 <= addr ==> e.0 <= g.lines[at - 1].0 {
      var k :| 0 <= k < |g.lines| && g.lines[k] == e;
    }
    if at > 0 {
      var last := g.lines[at - 1];
      assert last in g.lines && (last.0, last.1) in f.lines;
    }
  }

  lemma Least(f: Function, g: Function)
    requires SameLines(f, g)
    ensures FirstLine(f.lines, if g.lines == [] then None else Some(g.lines[0].1))
  {
    if f.lines != [] {
      assert f.lines[0] in g.lines;
    }
    forall e | e in f.lines ensures g.lines != [] && g.lines[0].0 <= e.0 {
      var k :| 0 <= k < |g.lines| && g.lines[k] == e;
    }
    if g.lines != [] {
      var first := g.lines[0];
      assert first in g.lines && (first.0, first.1) in f.lines;
    }
  }

  lemma NoneBefore(map_: seq<Function>, ix: Index, addr: nat, n: nat)
    requires Indexes(map_, ix) && n == 0
    requires forall k | 0 <= k < |ix.functions| :: ix.functions[k].start <= addr <==> k < n
    ensures forall k | 0 <= k < |map_| :: !Contains(map_[k], addr)
  {
    hide Indexes, InOffsetOrder;
    forall k: nat | k < |map_| ensures !Contains(map_[k], addr) {
      var i := Form(map_, ix, k);
    }
  }

  /** Only the last function that starts at or before an address can contain it. */
  lemma LastStarts(map_: seq<Function>, ix: Index, addr: nat, n: nat)
    requires Indexes(map_, ix) && Disjoint(map_) && 0 < n <= |ix.functions|
    requires forall i, j | 0 <= i < j < |ix.functions| :: ix.functions[i].start <= ix.functions[j].start
    requires forall k | 0 <= k < |ix.functions| :: ix.functions[k].start <= addr <==> k < n
    ensures (exists k :: 0 <= k < |map_| && Contains(map_[k], addr)) <==> Contains(ix.functions[n - 1], addr)
  {
    hide Indexes, InOffsetOrder;
    var last := Origin(map_, ix, n - 1);
    forall k: nat | k < |map_| && Contains(map_[k], addr) ensures Contains(map_[last], addr) {
      var i := Form(map_, ix, k);
      assert i < n;
      assert map_[k].start <= map_[last].start <= addr;
    }
  }

  predicate Wanted(f: Function, source: Option<string>)
  {
    source.None? || f.source == source
  }

  /** The map maps `line` of a wanted function to `offset`. */
  ghost predicate Maps(map_: seq<Function>, source: Option<string>, line: nat, offset: nat)
  {
    exists k :: 0 <= k < |map_| && Wanted(map_[k], source) && (offset, line) in map_[k].lines
  }

  /** Where a breakpoint on a line goes: the least mapped line at or after it among the wanted
      functions, at its least offset. */
  ghost predicate Plants(map_: seq<Function>, source: Option<string>, line: nat, offset: nat)
  {
    exists l :: l >= line && Maps(map_, source, l, offset)
      && forall l', o' | l' >= line && Maps(map_, source, l', o') :: l < l' || (l == l' && offset <= o')
  }

  method AddressForLine(ghost map_: seq<Function>, ix: Index, line: nat, source: Option<string>) returns (r: Option<nat>)
    requires Indexes(map_, ix)
    ensures r.None? <==> forall l: nat, o: nat | Maps(map_, source, l, o) :: l < line
    ensures r.Some? ==> Plants(map_, source, line, r.value)
  {
    hide Maps, Indexes;
    LinesFirst(map_, ix);
    var start := PartitionPoint(ix.byLine, (e: LineEntry) => e.0 < line);
    var k := start;
    while k < |ix.byLine| && !Wanted(ix.functions[ix.byLine[k].2], source)
      invariant start <= k <= |ix.byLine|
      invariant forall i | start <= i < k :: !Wanted(ix.functions[ix.byLine[i].2], source)
    {
      k := k + 1;
    }
    forall l: nat, o: nat | l >= line && Maps(map_, source, l, o)
      ensures k < |ix.byLine| && (ix.byLine[k].0 < l || (ix.byLine[k].0 == l && ix.byLine[k].1 <= o))
    {
      var i := EntryOf(map_, ix, source, l, o);
      assert i >= k;
      if i > k {
        EntriesFirst(map_, ix, k, i);
      }
    }
    if k == |ix.byLine| {
      return None;
    }
    MapsOf(map_, ix, source, k);
    r := Some(ix.byLine[k].1);
  }

  lemma LinesFirst(map_: seq<Function>, ix: Index)
    requires Indexes(map_, ix)
    ensures forall i, j | 0 <= i < j < |ix.byLine| :: ix.byLine[i].0 <= ix.byLine[j].0
    ensures forall i | 0 <= i < |ix.byLine| :: ix.byLine[i].2 < |ix.functions|
  {
    hide HoldsFunction, FromMap, StartLeq;
    forall i | 0 <= i < |ix.byLine| ensures ix.byLine[i].2 < |ix.functions| {
      assert ix.byLine[i] in ix.byLine;
    }
    forall i: nat, j: nat | i < j < |ix.byLine| ensures ix.byLine[i].0 <= ix.byLine[j].0 {
      EntriesFirst(map_, ix, i, j);
    }
  }

  lemma EntriesFirst(map_: seq<Function>, ix: Index, i: nat, j: nat)
    requires Indexes(map_, ix) && i < j < |ix.byLine|
    ensures EntryLeq(ix.byLine[i], ix.byLine[j])
  {
    hide HoldsFunction, FromMap, StartLeq, IsEntry;
  }

  lemma EntryOf(map_: seq<Function>, ix: Index, source: Option<string>, l: nat, o: nat) returns (i: nat)
    requires Indexes(map_, ix) && Maps(map_, source, l, o)
    ensures i < |ix.byLine| && ix.byLine[i].0 == l && ix.byLine[i].1 == o
    ensures ix.byLine[i].2 < |ix.functions| && Wanted(ix.functions[ix.byLine[i].2], source)
  {
    hide HoldsFunction, FromMap, StartLeq, EntryLeq, SortedBy, InOffsetOrder;
    var k: nat :| k < |map_| && Wanted(map_[k], source) && (o, l) in map_[k].lines;
    var m := Form(map_, ix, k);
    var e: LineEntry := (l, o, m);
    assert IsEntry(ix.functions, e);
    i :| 0 <= i < |ix.byLine| && ix.byLine[i] == e;
  }

  lemma MapsOf(map_: seq<Function>, ix: Index, source: Option<string>, i: nat)
    requires Indexes(map_, ix) && i < |ix.byLine| && ix.byLine[i].2 < |ix.functions|
    requires Wanted(ix.functions[ix.byLine[i].2], source)
    ensures Maps(map_, source, ix.byLine[i].0, ix.byLine[i].1)
  {
    hide HoldsFunction, FromMap, StartLeq, EntryLeq, SortedBy, InOffsetOrder;
    assert ix.byLine[i] in ix.byLine;
    assert IsEntry(ix.functions, ix.byLine[i]);
    var k := Origin(map_, ix, ix.byLine[i].2);
  }

  // ----- the answers are determined -----

  lemma ResolvedOnce(map_: seq<Function>, addr: nat, i: nat, j: nat, a: Location, b: Location)
    requires Disjoint(map_) && i < |map_| && j < |map_| && DistinctOffsets(map_[i].lines)
    requires Describes(map_[i], addr, a) && Describes(map_[j], addr, b)
    ensures a == b
  {
    assert i == j;
    assert forall e, e' | e in map_[i].lines && e' in map_[i].lines && e.0 == e'.0 :: e == e';
  }

  lemma PlantedOnce(map_: seq<Function>, source: Option<string>, line: nat, a: nat, b: nat)
    requires Plants(map_, source, line, a) && Plants(map_, source, line, b)
    ensures a == b
  {
  }
}
