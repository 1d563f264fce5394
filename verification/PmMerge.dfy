/** Merging the two build columns of a PM-1 program: functions that are the same in both columns,
    and call only such functions, are kept once; every other function is kept once a column. */
module PmMerge {
  import opened Options
  import opened FiniteSets
  import opened Graphs

  datatype Definition = Defined(blob: nat) | Local(blob: nat) | External

  datatype Symbol = Symbol(name: string, def: Definition)

  /** A call in a blob's code that still needs its target's address. */
  datatype Relocation = Relocation(blob: nat, offset: nat, symbol: nat)

  /** One function's debug side table. */
  datatype Debug = Debug(labels: seq<(string, nat)>, lines: seq<(nat, nat)>)

  datatype Variant = Both | Normal | Volatile

  /** `tables` stands for the table and signature records that PM-1 never emits. */
  datatype Object = Object(
    symbols: seq<Symbol>, blobs: seq<seq<bv8>>, relocations: seq<Relocation>, debug: Option<seq<Debug>>, tables: bool)

  datatype Merged = Merged(file: Object, variants: seq<Variant>, programVolatile: bool)

  datatype Failure = TableRecords | CountsDiffer | FunctionsDiffer(index: nat)

  datatype Result = Ok(merged: Merged) | Err(failure: Failure)

  /** What the assembler guarantees: one symbol a blob before any other, everything in range. */
  ghost predicate WellFormed(o: Object)
  {
    && |o.blobs| <= |o.symbols|
    && (forall r | 0 <= r < |o.relocations| :: o.relocations[r].symbol < |o.symbols|)
    && (o.debug.Some? ==> |o.debug.value| == |o.blobs|)
    && (forall i, k | 0 <= i < k < |o.blobs| :: o.symbols[i].name != o.symbols[k].name)
  }

  // ----- records -----

  /** A call: its offset and its callee's name. */
  type Edge = (nat, string)

  /** The calls of a blob among the first n relocations, in order. */
  function Edges(symbols: seq<Symbol>, relocations: seq<Relocation>, blob: nat, n: nat): seq<Edge>
    requires n <= |relocations| && forall r | 0 <= r < |relocations| :: relocations[r].symbol < |symbols|
  {
    if n == 0 then []
    else
      var r := relocations[n - 1];
      Edges(symbols, relocations, blob, n - 1) + (if r.blob == blob then [(r.offset, symbols[r.symbol].name)] else [])
  }

  function EdgesOf(o: Object, blob: nat): seq<Edge>
    requires forall r | 0 <= r < |o.relocations| :: o.relocations[r].symbol < |o.symbols|
  {
    Edges(o.symbols, o.relocations, blob, |o.relocations|)
  }

  function DebugOf(o: Object, i: nat): Option<Debug>
    requires o.debug.Some? ==> i < |o.debug.value|
  {
    if o.debug.Some? then Some(o.debug.value[i]) else None
  }

  /** Everything about a function that decides whether both columns built the same one.  The two
      columns number their symbols apart, so callees are compared by name, in no order. */
  predicate SameRecord(n: Object, v: Object, i: nat)
    requires i < |n.blobs| && i < |v.blobs|
    requires forall r | 0 <= r < |n.relocations| :: n.relocations[r].symbol < |n.symbols|
    requires forall r | 0 <= r < |v.relocations| :: v.relocations[r].symbol < |v.symbols|
    requires n.debug.Some? ==> i < |n.debug.value|
    requires v.debug.Some? ==> i < |v.debug.value|
  {
    && n.blobs[i] == v.blobs[i]
    && multiset(EdgesOf(n, i)) == multiset(EdgesOf(v, i))
    && DebugOf(n, i) == DebugOf(v, i)
  }

  // ----- the functions kept once -----

  /** Function i calls function k of the same object. */
  ghost predicate Calls(o: Object, i: nat, k: nat)
    requires WellFormed(o)
  {
    k < |o.blobs| && exists e :: e in EdgesOf(o, i) && e.1 == o.symbols[k].name
  }

  /** A set of functions with the same record in both columns that call only each other. */
  ghost predicate Coherent(n: Object, v: Object, kept: set<nat>)
    requires WellFormed(n) && WellFormed(v) && |n.blobs| == |v.blobs|
  {
    forall i | i in kept ::
      i < |n.blobs| && SameRecord(n, v, i) && forall k | Calls(n, i, k) :: k in kept
  }

  ghost predicate LargestCoherent(n: Object, v: Object, kept: set<nat>)
    requires WellFormed(n) && WellFormed(v) && |n.blobs| == |v.blobs|
  {
    Coherent(n, v, kept) && forall other | Coherent(n, v, other) :: other <= kept
  }

  function Chosen(flags: seq<bool>): set<nat>
  {
    set i: nat | i < |flags| && flags[i]
  }

  method CompareRecords(n: Object, v: Object) returns (same: seq<bool>)
    requires WellFormed(n) && WellFormed(v) && |n.blobs| == |v.blobs|
    ensures |same| == |n.blobs| && forall i | 0 <= i < |same| :: same[i] == SameRecord(n, v, i)
  {
    hide EdgesOf;
    same := [];
    for i := 0 to |n.blobs|
      invariant |same| == i && forall k | 0 <= k < i :: same[k] == SameRecord(n, v, k)
    {
      same := same + [SameRecord(n, v, i)];
    }
  }

  /** The callees of every function inside the object. */
  method CollectCallees(o: Object) returns (callees: seq<set<nat>>)
    requires WellFormed(o)
    ensures |callees| == |o.blobs|
    ensures forall i, k: nat | 0 <= i < |callees| :: k in callees[i] <==> Calls(o, i, k)
  {
    hide EdgesOf;
    var indexOf: map<string, nat> := map[];
    for k := 0 to |o.blobs|
      invariant forall name | name in indexOf :: indexOf[name] < k && o.symbols[indexOf[name]].name == name
      invariant forall m | 0 <= m < k :: o.symbols[m].name in indexOf
    {
      indexOf := indexOf[o.symbols[k].name := k];
    }
    callees := [];
    for i := 0 to |o.blobs|
      invariant |callees| == i
      invariant forall m, k: nat | 0 <= m < i :: k in callees[m] <==> Calls(o, m, k)
    {
      var edges := EdgesOf(o, i);
      var targets: set<nat> := {};
      for q := 0 to |edges|
        invariant forall k: nat :: k in targets <==>
                    k < |o.blobs| && exists p :: 0 <= p < q && edges[p].1 == o.symbols[k].name
      {
        if edges[q].1 in indexOf {
          targets := targets + {indexOf[edges[q].1]};
        }
      }
      EdgesByIndex(o, i, targets);
      callees := callees + [targets];
    }
  }

  lemma EdgesByIndex(o: Object, i: nat, targets: set<nat>)
    requires WellFormed(o)
    requires forall k: nat :: k in targets <==>
               k < |o.blobs| && exists p :: 0 <= p < |EdgesOf(o, i)| && EdgesOf(o, i)[p].1 == o.symbols[k].name
    ensures forall k: nat :: k in targets <==> Calls(o, i, k)
  {
    hide EdgesOf;
    var edges := EdgesOf(o, i);
    forall k: nat | Calls(o, i, k) ensures k in targets {
      var e :| e in edges && e.1 == o.symbols[k].name;
      var p :| 0 <= p < |edges| && edges[p] == e;
    }
    forall k: nat | k in targets ensures Calls(o, i, k) {
      var p :| 0 <= p < |edges| && edges[p].1 == o.symbols[k].name;
      assert edges[p] in edges;
    }
  }

  /** A set whose members start out kept and call only its members. */
  ghost predicate Stable(same: seq<bool>, callees: seq<set<nat>>, kept: set<nat>)
    requires |same| == |callees|
  {
    forall i | i in kept :: i < |same| && same[i] && callees[i] <= kept
  }

  /** Demotes functions that call a demoted one until nothing changes: what is left is stable, and
      holds every stable set. */
  method Demote(same: seq<bool>, callees: seq<set<nat>>) returns (kept: seq<bool>)
    requires |same| == |callees| && forall i | 0 <= i < |callees| :: forall k | k in callees[i] :: k < |same|
    ensures |kept| == |same| && Stable(same, callees, Chosen(kept))
    ensures forall other | Stable(same, callees, other) :: other <= Chosen(kept)
  {
    kept := same;
    var demoted := true;
    while demoted
      invariant |kept| == |same| && forall i | 0 <= i < |kept| && kept[i] :: same[i]
      invariant forall other, i | Stable(same, callees, other) && i in other :: kept[i]
      invariant !demoted ==> forall i | 0 <= i < |kept| && kept[i] :: callees[i] <= Chosen(kept)
      decreases |Chosen(kept)|, if demoted then 1 else 0
    {
      demoted := false;
      ghost var before := kept;
      for i := 0 to |kept|
        invariant |kept| == |same| && Chosen(kept) <= Chosen(before)
        invariant forall k | 0 <= k < |kept| && kept[k] :: same[k]
        invariant forall other, k | Stable(same, callees, other) && k in other :: kept[k]
        invariant !demoted ==> kept == before && forall k | 0 <= k < i && kept[k] :: callees[k] <= Chosen(kept)
        invariant demoted ==> Chosen(kept) < Chosen(before)
      {
        if kept[i] && exists k: nat :: k in callees[i] && !kept[k] {
          ghost var last := Chosen(kept);
          kept := kept[i := false];
          demoted := true;
          assert i in last && i !in Chosen(kept);
        }
      }
      if demoted {
        SubsetSize(Chosen(kept), Chosen(before));
      }
    }
  }

  /** The functions kept once are the largest set that is the same in both columns and closed under
      the calls inside the object. */
  method DecideKept(n: Object, v: Object) returns (kept: seq<bool>)
    requires WellFormed(n) && WellFormed(v) && |n.blobs| == |v.blobs|
    ensures |kept| == |n.blobs| && LargestCoherent(n, v, Chosen(kept))
  {
    hide EdgesOf, SameRecord;
    var same := CompareRecords(n, v);
    var callees := CollectCallees(n);
    kept := Demote(same, callees);
    forall other: set<nat> ensures Coherent(n, v, other) <==> Stable(same, callees, other) {
      StableIsCoherent(n, v, same, callees, other);
    }
  }

  lemma StableIsCoherent(n: Object, v: Object, same: seq<bool>, callees: seq<set<nat>>, kept: set<nat>)
    requires WellFormed(n) && WellFormed(v) && |n.blobs| == |v.blobs| == |same| == |callees|
    requires forall i | 0 <= i < |same| :: same[i] == SameRecord(n, v, i)
    requires forall i, k: nat | 0 <= i < |callees| :: k in callees[i] <==> Calls(n, i, k)
    ensures Coherent(n, v, kept) <==> Stable(same, callees, kept)
  {
    hide SameRecord, Calls;
  }

  // ----- the same, spelled out -----

  /** How many calls to a callee at an offset a blob makes. */
  ghost function CallCount(o: Object, blob: nat, offset: nat, callee: string, n: nat): nat
    requires n <= |o.relocations| && forall r | 0 <= r < |o.relocations| :: o.relocations[r].symbol < |o.symbols|
  {
    if n == 0 then 0
    else
      var r := o.relocations[n - 1];
      CallCount(o, blob, offset, callee, n - 1)
      + (if r.blob == blob && r.offset == offset && o.symbols[r.symbol].name == callee then 1 else 0)
  }

  /** Both columns have the same function: its code, its debug record, and as many calls to every callee at
      every offset. */
  ghost predicate SameFunction(n: Object, v: Object, i: nat)
    requires WellFormed(n) && WellFormed(v) && |n.blobs| == |v.blobs|
  {
    && i < |n.blobs| && n.blobs[i] == v.blobs[i]
    && (n.debug.Some? <==> v.debug.Some?) && (n.debug.Some? ==> n.debug.value[i] == v.debug.value[i])
    && forall offset: nat, callee ::
         CallCount(n, i, offset, callee, |n.relocations|) == CallCount(v, i, offset, callee, |v.relocations|)
  }

  /** A call of a function in the set to a function of the object stays in the set. */
  ghost predicate ClosedUnderCalls(o: Object, fns: set<nat>)
    requires WellFormed(o)
  {
    forall r, k: nat | 0 <= r < |o.relocations| && o.relocations[r].blob in fns && k < |o.blobs|
                       && o.symbols[k].name == o.symbols[o.relocations[r].symbol].name :: k in fns
  }

  ghost predicate SharedSet(n: Object, v: Object, fns: set<nat>)
    requires WellFormed(n) && WellFormed(v) && |n.blobs| == |v.blobs|
  {
    (forall i | i in fns :: SameFunction(n, v, i)) && ClosedUnderCalls(n, fns)
  }

  lemma EdgesNext(o: Object, blob: nat, n: nat)
    requires 0 < n <= |o.relocations| && forall r | 0 <= r < |o.relocations| :: o.relocations[r].symbol < |o.symbols|
    ensures var r := o.relocations[n - 1];
            Edges(o.symbols, o.relocations, blob, n)
              == Edges(o.symbols, o.relocations, blob, n - 1) + (if r.blob == blob then [(r.offset, o.symbols[r.symbol].name)]
                                                                 else [])
  {
  }

  lemma OneMoreEdge(edges: seq<Edge>, e: Edge, f: Edge)
    ensures multiset(edges + [e])[f] == multiset(edges)[f] + (if e == f then 1 else 0)
    ensures multiset(edges + [])[f] == multiset(edges)[f]
  {
    assert edges + [] == edges;
  }

  lemma {:induction false} CountIsMultiplicity(o: Object, blob: nat, offset: nat, callee: string, n: nat)
    requires n <= |o.relocations| && forall r | 0 <= r < |o.relocations| :: o.relocations[r].symbol < |o.symbols|
    ensures multiset(Edges(o.symbols, o.relocations, blob, n))[(offset, callee)] == CallCount(o, blob, offset, callee, n)
  {
    hide Edges;
    if n > 0 {
      CountIsMultiplicity(o, blob, offset, callee, n - 1);
      EdgesNext(o, blob, n);
      var before, r := Edges(o.symbols, o.relocations, blob, n - 1), o.relocations[n - 1];
      OneMoreEdge(before, (r.offset, o.symbols[r.symbol].name), (offset, callee));
    } else {
      NoEdges(o, blob);
    }
  }

  lemma NoEdges(o: Object, blob: nat)
    requires forall r | 0 <= r < |o.relocations| :: o.relocations[r].symbol < |o.symbols|
    ensures Edges(o.symbols, o.relocations, blob, 0) == []
  {
  }

  lemma RecordsAreFunctions(n: Object, v: Object, i: nat)
    requires WellFormed(n) && WellFormed(v) && i < |n.blobs| == |v.blobs|
    ensures SameRecord(n, v, i) <==> SameFunction(n, v, i)
  {
    hide Edges, CallCount;
    var a, b := multiset(EdgesOf(n, i)), multiset(EdgesOf(v, i));
    forall offset: nat, callee
      ensures a[(offset, callee)] == CallCount(n, i, offset, callee, |n.relocations|)
      ensures b[(offset, callee)] == CallCount(v, i, offset, callee, |v.relocations|)
    {
      CountIsMultiplicity(n, i, offset, callee, |n.relocations|);
      CountIsMultiplicity(v, i, offset, callee, |v.relocations|);
    }
    if SameFunction(n, v, i) {
      forall e: Edge ensures a[e] == b[e] {
        assert e == (e.0, e.1);
      }
      assert a == b;
    }
  }

  lemma {:induction false} EdgeFromRelocation(o: Object, blob: nat, e: Edge, n: nat) returns (r: nat)
    requires n <= |o.relocations| && forall r | 0 <= r < |o.relocations| :: o.relocations[r].symbol < |o.symbols|
    requires e in Edges(o.symbols, o.relocations, blob, n)
    ensures r < n && o.relocations[r].blob == blob && e == (o.relocations[r].offset, o.symbols[o.relocations[r].symbol].name)
  {
    r := n - 1;
    if e in Edges(o.symbols, o.relocations, blob, n - 1) {
      r := EdgeFromRelocation(o, blob, e, n - 1);
    }
  }

  lemma ClosedIsCalls(o: Object, fns: set<nat>)
    requires WellFormed(o)
    ensures ClosedUnderCalls(o, fns) <==> forall i, k | i in fns && Calls(o, i, k) :: k in fns
  {
    hide Edges;
    if ClosedUnderCalls(o, fns) {
      forall i: nat, k: nat | i in fns && Calls(o, i, k) ensures k in fns {
        var e :| e in EdgesOf(o, i) && e.1 == o.symbols[k].name;
        var r := EdgeFromRelocation(o, i, e, |o.relocations|);
      }
    }
    if forall i, k | i in fns && Calls(o, i, k) :: k in fns {
      forall r, k: nat | 0 <= r < |o.relocations| && o.relocations[r].blob in fns && k < |o.blobs|
                         && o.symbols[k].name == o.symbols[o.relocations[r].symbol].name
        ensures k in fns
      {
        EdgeOfRelocation(o.symbols, o.relocations, r, |o.relocations|);
        assert Calls(o, o.relocations[r].blob, k);
      }
    }
  }

  lemma CoherentIsShared(n: Object, v: Object, fns: set<nat>)
    requires WellFormed(n) && WellFormed(v) && |n.blobs| == |v.blobs|
    ensures Coherent(n, v, fns) <==> SharedSet(n, v, fns)
  {
    hide SameRecord, SameFunction, ClosedUnderCalls, Calls;
    ClosedIsCalls(n, fns);
    forall i | i in fns && i < |n.blobs| ensures SameRecord(n, v, i) <==> SameFunction(n, v, i) {
      RecordsAreFunctions(n, v, i);
    }
    FunctionsInside(n, v);
  }

  lemma FunctionsInside(n: Object, v: Object)
    requires WellFormed(n) && WellFormed(v) && |n.blobs| == |v.blobs|
    ensures forall i: nat | SameFunction(n, v, i) :: i < |n.blobs|
  {
  }

  /** What is kept once is shared, and holds every set of functions that both columns have alike and that
      call, inside the object, only each other. */
  lemma KeptIsLargest(n: Object, v: Object, kept: set<nat>)
    requires WellFormed(n) && WellFormed(v) && |n.blobs| == |v.blobs| && LargestCoherent(n, v, kept)
    ensures SharedSet(n, v, kept) && forall other: set<nat> | SharedSet(n, v, other) :: other <= kept
  {
    hide Coherent, SharedSet, WellFormed;
    CoherentIsShared(n, v, kept);
    forall other: set<nat> | SharedSet(n, v, other) ensures other <= kept {
      CoherentIsShared(n, v, other);
    }
  }

  // ----- where the merged blobs come from -----

  datatype Source = Source(fromVolatile: bool, fn: nat)

  /** A kept function gives one blob, any other its normal blob and then its volatile one. */
  function Sources(kept: seq<bool>, n: nat): seq<Source>
    requires n <= |kept|
  {
    if n == 0 then []
    else Sources(kept, n - 1)
         + (if kept[n - 1] then [Source(false, n - 1)] else [Source(false, n - 1), Source(true, n - 1)])
  }

  /** The merged blob that stands for function i in a column. */
  function Place(kept: seq<bool>, i: nat, inVolatile: bool): nat
    requires i < |kept|
  {
    |Sources(kept, i)| + (if inVolatile && !kept[i] then 1 else 0)
  }

  lemma {:induction false} SourcesAt(kept: seq<bool>, i: nat, inVolatile: bool, n: nat)
    requires i < n <= |kept|
    ensures Place(kept, i, inVolatile) < |Sources(kept, n)|
    ensures Sources(kept, n)[Place(kept, i, inVolatile)] == Source(inVolatile && !kept[i], i)
  {
    if i < n - 1 {
      SourcesAt(kept, i, inVolatile, n - 1);
    }
  }

  lemma {:induction false} SourcesBack(kept: seq<bool>, n: nat, m: nat)
    requires n <= |kept| && m < |Sources(kept, n)|
    ensures var src := Sources(kept, n)[m];
            src.fn < n && m == Place(kept, src.fn, src.fromVolatile) && (src.fromVolatile ==> !kept[src.fn])
  {
    if m < |Sources(kept, n - 1)| {
      SourcesBack(kept, n - 1, m);
    }
  }

  function Column(n: Object, v: Object, src: Source): Object
  {
    if src.fromVolatile then v else n
  }

  function Tag(kept: seq<bool>, src: Source): Variant
    requires src.fn < |kept|
  {
    if kept[src.fn] then Both else if src.fromVolatile then Volatile else Normal
  }

  /** The definition a merged blob's symbol gets. */
  function DefinitionOf(def: Definition, blob: nat): Definition
  {
    if def.Local? then Local(blob) else Defined(blob)
  }

  /** The columns do not agree on what function i is. */
  predicate Differs(n: Object, v: Object, i: nat)
    requires i < |n.symbols| && i < |v.symbols|
  {
    n.symbols[i].def.External? || n.symbols[i].def.blob != i || v.symbols[i].name != n.symbols[i].name
  }

  /** The lists the merge fills, one entry a merged blob. */
  datatype Layout = Layout(
    symbols: seq<Symbol>, blobs: seq<seq<bv8>>, debug: Option<seq<Debug>>, variants: seq<Variant>, sources: seq<Source>)

  ghost predicate Columns(n: Object, v: Object, kept: seq<bool>)
  {
    WellFormed(n) && WellFormed(v) && |n.blobs| == |v.blobs| == |kept| && (n.debug.Some? ==> v.debug.Some?)
  }

  /** Code, tag, debug record and defining symbol of every blob laid out so far. */
  ghost predicate LaidOut(n: Object, v: Object, kept: seq<bool>, l: Layout)
    requires Columns(n, v, kept)
  {
    && |l.symbols| == |l.blobs| == |l.variants| == |l.sources|
    && (l.debug.Some? <==> n.debug.Some?) && (l.debug.Some? ==> |l.debug.value| == |l.sources|)
    && forall m | 0 <= m < |l.sources| :: l.sources[m].fn < |kept| && BlobFrom(n, v, kept, l, m)
  }

  ghost predicate BlobFrom(n: Object, v: Object, kept: seq<bool>, l: Layout, m: nat)
    requires Columns(n, v, kept)
    requires m < |l.sources| && |l.symbols| == |l.blobs| == |l.variants| == |l.sources| && l.sources[m].fn < |kept|
    requires l.debug.Some? ==> |l.debug.value| == |l.sources|
  {
    var src := l.sources[m];
    && l.symbols[m] == Symbol(n.symbols[src.fn].name, DefinitionOf(n.symbols[src.fn].def, m))
    && l.blobs[m] == Column(n, v, src).blobs[src.fn]
    && (n.debug.Some? ==> l.debug.Some? && Some(l.debug.value[m]) == DebugOf(Column(n, v, src), src.fn))
    && l.variants[m] == Tag(kept, src)
  }

  /** The two symbols of every function laid out so far. */
  ghost predicate Defines(n: Object, kept: seq<bool>, i: nat, defined: map<string, (nat, nat)>)
    requires WellFormed(n) && i <= |kept| == |n.blobs|
  {
    && (forall k | 0 <= k < i :: n.symbols[k].name in defined
          && defined[n.symbols[k].name] == (Place(kept, k, false), Place(kept, k, true)))
    && forall name | name in defined :: exists k :: 0 <= k < i && n.symbols[k].name == name
  }

  /** One more blob. */
  method PushBlob(n: Object, v: Object, kept: seq<bool>, src: Source, l: Layout) returns (l': Layout)
    requires Columns(n, v, kept) && LaidOut(n, v, kept, l) && src.fn < |kept|
    ensures LaidOut(n, v, kept, l') && l'.sources == l.sources + [src]
  {
    var column := Column(n, v, src);
    var symbol := n.symbols[src.fn];
    l' := Layout(l.symbols + [Symbol(symbol.name, DefinitionOf(symbol.def, |l.blobs|))],
                 l.blobs + [column.blobs[src.fn]],
                 if l.debug.Some? then Some(l.debug.value + [column.debug.value[src.fn]]) else None,
                 l.variants + [Tag(kept, src)],
                 l.sources + [src]);
    forall m | 0 <= m < |l.sources| ensures BlobFrom(n, v, kept, l', m) {
      assert BlobFrom(n, v, kept, l, m);
    }
    assert BlobFrom(n, v, kept, l', |l.sources|);
  }

  method LayOut(n: Object, v: Object, kept: seq<bool>)
    returns (bad: Option<nat>, l: Layout, defined: map<string, (nat, nat)>)
    requires Columns(n, v, kept)
    ensures bad.Some? ==> bad.value < |kept| && Differs(n, v, bad.value)
    ensures forall k | 0 <= k < (if bad.Some? then bad.value else |kept|) :: !Differs(n, v, k)
    ensures bad.None? ==>
              l.sources == Sources(kept, |kept|) && LaidOut(n, v, kept, l) && Defines(n, kept, |kept|, defined)
  {
    hide BlobFrom, LaidOut;
    defined := map[];
    l := Layout([], [], if n.debug.Some? then Some([]) else None, [], []);
    EmptyLayout(n, v, kept, l);
    for i := 0 to |kept|
      invariant forall k | 0 <= k < i :: !Differs(n, v, k)
      invariant l.sources == Sources(kept, i)
      invariant LaidOut(n, v, kept, l) && Defines(n, kept, i, defined)
    {
      if Differs(n, v, i) {
        return Some(i), l, defined;
      }
      var first := |l.sources|;
      l := PushBlob(n, v, kept, Source(false, i), l);
      if !kept[i] {
        l := PushBlob(n, v, kept, Source(true, i), l);
      }
      defined := defined[n.symbols[i].name := (first, |l.sources| - 1)];
    }
    bad := None;
  }

  lemma EmptyLayout(n: Object, v: Object, kept: seq<bool>, l: Layout)
    requires Columns(n, v, kept)
    requires l == Layout([], [], if n.debug.Some? then Some([]) else None, [], [])
    ensures LaidOut(n, v, kept, l)
  {
  }

  // ----- relocations -----

  /** Inserts a call behind those at the same or an earlier offset. */
  function InsertEdge(sorted: seq<Edge>, e: Edge): seq<Edge>
  {
    if sorted == [] || sorted[|sorted| - 1].0 <= e.0 then sorted + [e]
    else InsertEdge(sorted[..|sorted| - 1], e) + [sorted[|sorted| - 1]]
  }

  /** The first n calls, stably sorted by offset. */
  function SortEdges(edges: seq<Edge>, n: nat): seq<Edge>
    requires n <= |edges|
  {
    if n == 0 then [] else InsertEdge(SortEdges(edges, n - 1), edges[n - 1])
  }

  lemma {:induction false} InsertKeeps(sorted: seq<Edge>, e: Edge)
    ensures multiset(InsertEdge(sorted, e)) == multiset(sorted) + multiset{e}
  {
    if !(sorted == [] || sorted[|sorted| - 1].0 <= e.0) {
      var front := sorted[..|sorted| - 1];
      InsertKeeps(front, e);
      assert sorted == front + [sorted[|sorted| - 1]];
    }
  }

  lemma {:induction false} SortKeeps(edges: seq<Edge>, n: nat)
    requires n <= |edges|
    ensures multiset(SortEdges(edges, n)) == multiset(edges[..n])
  {
    hide InsertEdge;
    if n > 0 {
      SortKeeps(edges, n - 1);
      InsertKeeps(SortEdges(edges, n - 1), edges[n - 1]);
      assert edges[..n] == edges[..n - 1] + [edges[n - 1]];
    }
  }

  /** The symbol table and relocations under construction; `externals` maps names minted so far. */
  datatype Linking = Linking(symbols: seq<Symbol>, relocations: seq<Relocation>, externals: map<string, nat>)

  /** A relocation of a column's blob binds that column's symbol of a function of the object, and an
      external symbol otherwise. */
  ghost predicate Binds(symbols: seq<Symbol>, sources: seq<Source>, defined: map<string, (nat, nat)>, r: Relocation)
  {
    && r.blob < |sources| && r.symbol < |symbols|
    && var name := symbols[r.symbol].name;
       (if name in defined
        then r.symbol == (if sources[r.blob].fromVolatile then defined[name].1 else defined[name].0)
        else symbols[r.symbol].def.External?)
  }

  /** Minted symbols are external, one a name, and stand behind the defining ones. */
  ghost predicate Minted(base: nat, defined: map<string, (nat, nat)>, k: Linking)
  {
    && base <= |k.symbols|
    && (forall name | name in k.externals :: name !in defined && base <= k.externals[name] < |k.symbols|
          && k.symbols[k.externals[name]] == Symbol(name, External))
    && forall i | base <= i < |k.symbols| :: k.symbols[i].name in k.externals && k.externals[k.symbols[i].name] == i
  }

  /** Defined names have their symbols among the first `base`. */
  ghost predicate Named(base: nat, symbols: seq<Symbol>, defined: map<string, (nat, nat)>)
  {
    base <= |symbols|
    && forall name | name in defined ::
         && defined[name].0 < base && symbols[defined[name].0].name == name
         && defined[name].1 < base && symbols[defined[name].1].name == name
  }

  ghost predicate Linked(base: nat, sources: seq<Source>, defined: map<string, (nat, nat)>, k: Linking)
  {
    && Named(base, k.symbols, defined) && Minted(base, defined, k)
    && forall r | 0 <= r < |k.relocations| :: Binds(k.symbols, sources, defined, k.relocations[r])
  }

  lemma {:induction false} EdgesAppend(symbols: seq<Symbol>, relocations: seq<Relocation>, more: seq<Relocation>, blob: nat,
                                       n: nat)
    requires n <= |relocations|
    requires forall r | 0 <= r < |relocations| :: relocations[r].symbol < |symbols|
    requires forall r | 0 <= r < |more| :: more[r].symbol < |symbols|
    ensures Edges(symbols, relocations + more, blob, n) == Edges(symbols, relocations, blob, n)
  {
    if n > 0 {
      EdgesAppend(symbols, relocations, more, blob, n - 1);
    }
  }

  lemma {:induction false} EdgesKeep(symbols: seq<Symbol>, more: seq<Symbol>, relocations: seq<Relocation>, blob: nat, n: nat)
    requires n <= |relocations| && forall r | 0 <= r < |relocations| :: relocations[r].symbol < |symbols|
    ensures Edges(symbols + more, relocations, blob, n) == Edges(symbols, relocations, blob, n)
  {
    if n > 0 {
      EdgesKeep(symbols, more, relocations, blob, n - 1);
    }
  }

  ghost predicate InTable(k: Linking)
  {
    forall r | 0 <= r < |k.relocations| :: k.relocations[r].symbol < |k.symbols|
  }

  ghost function EdgesIn(k: Linking, blob: nat): seq<Edge>
    requires InTable(k)
  {
    Edges(k.symbols, k.relocations, blob, |k.relocations|)
  }

  /** One more relocation: the call joins its own blob's calls and leaves the others alone. */
  lemma OneMore(k: Linking, k': Linking, r: Relocation, added: seq<Symbol>, blob: nat)
    requires InTable(k) && k'.symbols == k.symbols + added && k'.relocations == k.relocations + [r]
    requires r.symbol < |k'.symbols|
    ensures InTable(k')
    ensures EdgesIn(k', blob) == EdgesIn(k, blob) + (if r.blob == blob then [(r.offset, k'.symbols[r.symbol].name)] else [])
  {
    EdgesKeep(k.symbols, added, k.relocations, blob, |k.relocations|);
    EdgesAppend(k'.symbols, k.relocations, [r], blob, |k.relocations|);
  }

  lemma MintKeeps(base: nat, sources: seq<Source>, defined: map<string, (nat, nat)>, k: Linking, name: string)
    requires Linked(base, sources, defined, k) && name !in defined && name !in k.externals
    ensures Linked(base, sources, defined,
                   k.(symbols := k.symbols + [Symbol(name, External)], externals := k.externals[name := |k.symbols|]))
  {
    var k' := k.(symbols := k.symbols + [Symbol(name, External)], externals := k.externals[name := |k.symbols|]);
    forall r | 0 <= r < |k'.relocations| ensures Binds(k'.symbols, sources, defined, k'.relocations[r]) {
      assert Binds(k.symbols, sources, defined, k.relocations[r]);
    }
    assert Minted(base, defined, k');
  }

  lemma AddKeeps(base: nat, sources: seq<Source>, defined: map<string, (nat, nat)>, k: Linking, r: Relocation)
    requires Linked(base, sources, defined, k) && Binds(k.symbols, sources, defined, r)
    ensures Linked(base, sources, defined, k.(relocations := k.relocations + [r]))
  {
    hide Binds;
  }

  /** The symbol a call in a blob binds, minted if need be. */
  method SymbolFor(base: nat, sources: seq<Source>, defined: map<string, (nat, nat)>, m: nat, name: string, k: Linking)
    returns (k': Linking, symbol: nat)
    requires m < |sources| && Linked(base, sources, defined, k)
    ensures Linked(base, sources, defined, k') && k.symbols <= k'.symbols && k'.relocations == k.relocations
    ensures symbol < |k'.symbols| && k'.symbols[symbol].name == name
    ensures forall offset :: Binds(k'.symbols, sources, defined, Relocation(m, offset, symbol))
  {
    if name in defined {
      return k, if sources[m].fromVolatile then defined[name].1 else defined[name].0;
    }
    if name in k.externals {
      return k, k.externals[name];
    }
    MintKeeps(base, sources, defined, k, name);
    symbol := |k.symbols|;
    k' := k.(symbols := k.symbols + [Symbol(name, External)], externals := k.externals[name := symbol]);
  }

  method LinkCall(base: nat, sources: seq<Source>, defined: map<string, (nat, nat)>, m: nat, e: Edge, k: Linking)
    returns (k': Linking)
    requires m < |sources| && Linked(base, sources, defined, k) && InTable(k)
    ensures Linked(base, sources, defined, k') && InTable(k') && k.symbols <= k'.symbols
    ensures forall b: nat :: EdgesIn(k', b) == EdgesIn(k, b) + (if b == m then [e] else [])
  {
    hide Linked, EdgesIn, Binds;
    var last, symbol := SymbolFor(base, sources, defined, m, e.1, k);
    var r := Relocation(m, e.0, symbol);
    k' := last.(relocations := last.relocations + [r]);
    AddKeeps(base, sources, defined, last, r);
    ghost var added := last.symbols[|k.symbols|..];
    assert last.symbols == k.symbols + added;
    forall b: nat ensures InTable(k') && EdgesIn(k', b) == EdgesIn(k, b) + (if b == m then [e] else []) {
      OneMore(k, k', r, added, b);
    }
  }

  /** All calls of one blob, in offset order. */
  method LinkBlob(base: nat, sources: seq<Source>, defined: map<string, (nat, nat)>, m: nat, edges: seq<Edge>, k: Linking)
    returns (k': Linking)
    requires m < |sources| && Linked(base, sources, defined, k) && InTable(k) && EdgesIn(k, m) == []
    ensures Linked(base, sources, defined, k') && InTable(k') && k.symbols <= k'.symbols
    ensures EdgesIn(k', m) == edges && forall b: nat | b != m :: EdgesIn(k', b) == EdgesIn(k, b)
  {
    hide Linked, EdgesIn, InTable;
    k' := k;
    for q := 0 to |edges|
      invariant Linked(base, sources, defined, k') && InTable(k') && k.symbols <= k'.symbols
      invariant EdgesIn(k', m) == edges[..q] && forall b: nat | b != m :: EdgesIn(k', b) == EdgesIn(k, b)
    {
      k' := LinkCall(base, sources, defined, m, edges[q], k');
      assert edges[..q + 1] == edges[..q] + [edges[q]];
    }
    assert edges[..|edges|] == edges;
  }

  /** The calls a merged blob must make. */
  function WantedEdges(n: Object, v: Object, src: Source): seq<Edge>
    requires forall r | 0 <= r < |n.relocations| :: n.relocations[r].symbol < |n.symbols|
    requires forall r | 0 <= r < |v.relocations| :: v.relocations[r].symbol < |v.symbols|
  {
    var edges := EdgesOf(Column(n, v, src), src.fn);
    SortEdges(edges, |edges|)
  }

  method LinkAll(n: Object, v: Object, symbols: seq<Symbol>, sources: seq<Source>, defined: map<string, (nat, nat)>)
    returns (k: Linking)
    requires WellFormed(n) && WellFormed(v) && Named(|symbols|, symbols, defined)
    ensures Linked(|symbols|, sources, defined, k) && InTable(k) && symbols <= k.symbols
    ensures forall m | 0 <= m < |sources| :: EdgesIn(k, m) == WantedEdges(n, v, sources[m])
  {
    hide EdgesIn, WantedEdges;
    k := Linking(symbols, [], map[]);
    NothingLinked(k);
    for m := 0 to |sources|
      invariant Linked(|symbols|, sources, defined, k) && InTable(k) && symbols <= k.symbols
      invariant forall b | 0 <= b < m :: EdgesIn(k, b) == WantedEdges(n, v, sources[b])
      invariant forall b | m <= b :: EdgesIn(k, b) == []
    {
      k := LinkBlob(|symbols|, sources, defined, m, WantedEdges(n, v, sources[m]), k);
    }
  }

  lemma NothingLinked(k: Linking)
    requires k.relocations == []
    ensures InTable(k) && forall b :: EdgesIn(k, b) == []
  {
  }

  // ----- the merge -----

  /** A relocation binds the symbol its callee has in the relocation's own column. */
  ghost predicate BindsColumn(n: Object, kept: seq<bool>, symbols: seq<Symbol>, r: Relocation)
    requires WellFormed(n) && |n.blobs| == |kept|
  {
    var sources := Sources(kept, |kept|);
    && r.blob < |sources| && r.symbol < |symbols|
    && (forall k | 0 <= k < |kept| && n.symbols[k].name == symbols[r.symbol].name ::
          r.symbol == Place(kept, k, sources[r.blob].fromVolatile))
    && ((forall k | 0 <= k < |kept| :: n.symbols[k].name != symbols[r.symbol].name) ==> symbols[r.symbol].def.External?)
  }

  /** What the merged object is made of. */
  ghost predicate MergedFrom(n: Object, v: Object, kept: seq<bool>, m: Merged)
    requires Columns(n, v, kept)
  {
    var sources := Sources(kept, |kept|);
    && |sources| <= |m.file.symbols|
    && LaidOut(n, v, kept, Layout(m.file.symbols[..|sources|], m.file.blobs, m.file.debug, m.variants, sources))
    && (forall r | 0 <= r < |m.file.relocations| :: BindsColumn(n, kept, m.file.symbols, m.file.relocations[r]))
    && (forall b | 0 <= b < |sources| :: EdgesOf(m.file, b) == WantedEdges(n, v, sources[b]))
    && !m.file.tables
  }

  /** The first k functions are the same ones in both columns: each defined by its own symbol in the normal
      column, under one name in both. */
  ghost predicate Paired(n: Object, v: Object, k: nat)
    requires k <= |n.symbols| && k <= |v.symbols|
  {
    forall i | 0 <= i < k ::
      && (n.symbols[i].def == Defined(i) || n.symbols[i].def == Local(i))
      && n.symbols[i].name == v.symbols[i].name
  }

  method MergeColumns(n: Object, v: Object, programVolatile: bool) returns (r: Result, kept: seq<bool>)
    requires WellFormed(n) && WellFormed(v) && (n.debug.Some? ==> v.debug.Some?)
    ensures n.tables || v.tables <==> r == Err(TableRecords)
    ensures !n.tables && !v.tables ==> (|n.blobs| != |v.blobs| <==> r == Err(CountsDiffer))
    ensures !n.tables && !v.tables && |n.blobs| == |v.blobs| ==> (r.Err? <==> !Paired(n, v, |n.blobs|))
    ensures r.Err? && r.failure.FunctionsDiffer? ==>
              r.failure.index < |n.blobs| && Paired(n, v, r.failure.index) && !Paired(n, v, r.failure.index + 1)
    ensures r.Ok? ==> Columns(n, v, kept) && LargestCoherent(n, v, Chosen(kept)) && MergedFrom(n, v, kept, r.merged)
                      && r.merged.programVolatile == programVolatile
    ensures r.Ok? ==> SharedSet(n, v, Chosen(kept)) && forall other: set<nat> | SharedSet(n, v, other) :: other <= Chosen(kept)
  {
    hide LargestCoherent, LaidOut, Edges, WantedEdges, Sources, Differs, BindsColumn, SharedSet;
    kept := [];
    if n.tables || v.tables {
      return Err(TableRecords), kept;
    }
    if |n.blobs| != |v.blobs| {
      return Err(CountsDiffer), kept;
    }
    kept := DecideKept(n, v);
    var bad, l, defined := LayOut(n, v, kept);
    if bad.Some? {
      PairedIs(n, v, bad.value);
      PairedIs(n, v, bad.value + 1);
      PairedIs(n, v, |kept|);
      return Err(FunctionsDiffer(bad.value)), kept;
    }
    SymbolsNamed(n, v, kept, l, defined);
    var k := LinkAll(n, v, l.symbols, l.sources, defined);
    LayoutSizes(n, v, kept, l);
    var file := Object(k.symbols, l.blobs, k.relocations, l.debug, false);
    r := Ok(Merged(file, l.variants, programVolatile));
    assert k.symbols[..|l.sources|] == l.symbols;
    forall q | 0 <= q < |k.relocations| ensures BindsColumn(n, kept, k.symbols, k.relocations[q]) {
      BindsIsColumn(n, v, kept, l, defined, k, q);
    }
    assert l == Layout(k.symbols[..|l.sources|], l.blobs, l.debug, l.variants, l.sources);
    KeptIsLargest(n, v, Chosen(kept));
    PairedIs(n, v, |kept|);
  }

  lemma PairedIs(n: Object, v: Object, k: nat)
    requires k <= |n.symbols| && k <= |v.symbols|
    ensures Paired(n, v, k) <==> forall i | 0 <= i < k :: !Differs(n, v, i)
  {
    forall i | 0 <= i < k
      ensures Differs(n, v, i) <==>
              !((n.symbols[i].def == Defined(i) || n.symbols[i].def == Local(i)) && n.symbols[i].name == v.symbols[i].name)
    {
      assert n.symbols[i].def.External? || n.symbols[i].def.Defined? || n.symbols[i].def.Local?;
    }
  }

  lemma LayoutSizes(n: Object, v: Object, kept: seq<bool>, l: Layout)
    requires Columns(n, v, kept) && LaidOut(n, v, kept, l)
    ensures |l.symbols| == |l.sources|
  {
  }

  lemma SymbolsNamed(n: Object, v: Object, kept: seq<bool>, l: Layout, defined: map<string, (nat, nat)>)
    requires Columns(n, v, kept) && LaidOut(n, v, kept, l) && Defines(n, kept, |kept|, defined)
    requires l.sources == Sources(kept, |kept|)
    ensures Named(|l.symbols|, l.symbols, defined)
  {
    hide Sources, Place;
    forall name | name in defined
      ensures defined[name].0 < |l.symbols| && l.symbols[defined[name].0].name == name
      ensures defined[name].1 < |l.symbols| && l.symbols[defined[name].1].name == name
    {
      var k :| 0 <= k < |kept| && n.symbols[k].name == name;
      SourcesAt(kept, k, false, |kept|);
      SourcesAt(kept, k, true, |kept|);
      assert BlobFrom(n, v, kept, l, defined[name].0) && BlobFrom(n, v, kept, l, defined[name].1);
    }
  }

  lemma BindsIsColumn(n: Object, v: Object, kept: seq<bool>, l: Layout, defined: map<string, (nat, nat)>, k: Linking, q: nat)
    requires Columns(n, v, kept) && Defines(n, kept, |kept|, defined) && l.sources == Sources(kept, |kept|)
    requires q < |k.relocations| && Binds(k.symbols, l.sources, defined, k.relocations[q])
    ensures BindsColumn(n, kept, k.symbols, k.relocations[q])
  {
    hide Sources, Place;
  }

  // ----- each column finds itself in the merged object -----

  lemma MergedBlob(n: Object, v: Object, kept: seq<bool>, m: Merged, b: nat)
    requires Columns(n, v, kept) && MergedFrom(n, v, kept, m) && b < |Sources(kept, |kept|)|
    ensures |m.file.blobs| == |m.variants| == |Sources(kept, |kept|)| <= |m.file.symbols|
    ensures m.file.debug.Some? <==> n.debug.Some?
    ensures m.file.debug.Some? ==> |m.file.debug.value| == |m.file.blobs|
    ensures var src := Sources(kept, |kept|)[b];
            && src.fn < |kept|
            && m.file.blobs[b] == Column(n, v, src).blobs[src.fn] && m.variants[b] == Tag(kept, src)
            && m.file.symbols[b] == Symbol(n.symbols[src.fn].name, DefinitionOf(n.symbols[src.fn].def, b))
            && (n.debug.Some? ==> DebugOf(m.file, b) == DebugOf(Column(n, v, src), src.fn))
            && EdgesOf(m.file, b) == WantedEdges(n, v, src)
  {
    hide Sources, EdgesOf, WantedEdges, BindsColumn;
    var sources := Sources(kept, |kept|);
    assert BlobFrom(n, v, kept, Layout(m.file.symbols[..|sources|], m.file.blobs, m.file.debug, m.variants, sources), b);
  }

  lemma WantedCounts(n: Object, v: Object, src: Source)
    requires WellFormed(n) && WellFormed(v)
    ensures multiset(WantedEdges(n, v, src)) == multiset(EdgesOf(Column(n, v, src), src.fn))
  {
    hide EdgesOf, SortEdges;
    var edges := EdgesOf(Column(n, v, src), src.fn);
    SortKeeps(edges, |edges|);
    assert edges[..|edges|] == edges;
  }

  /** Calls in offset order. */
  predicate Ascending(edges: seq<Edge>)
  {
    forall i, k | 0 <= i < k < |edges| :: edges[i].0 <= edges[k].0
  }

  lemma {:induction false} InsertAscends(sorted: seq<Edge>, e: Edge)
    requires Ascending(sorted)
    ensures Ascending(InsertEdge(sorted, e))
    ensures forall x | x in InsertEdge(sorted, e) :: x in sorted || x == e
  {
    if !(sorted == [] || sorted[|sorted| - 1].0 <= e.0) {
      var front, last := sorted[..|sorted| - 1], sorted[|sorted| - 1];
      InsertAscends(front, e);
      forall k | 0 <= k < |InsertEdge(front, e)| ensures InsertEdge(front, e)[k].0 <= last.0 {
        assert InsertEdge(front, e)[k] in InsertEdge(front, e);
      }
    }
  }

  lemma {:induction false} SortAscends(edges: seq<Edge>, n: nat)
    requires n <= |edges|
    ensures Ascending(SortEdges(edges, n))
  {
    hide InsertEdge, Ascending;
    if n > 0 {
      SortAscends(edges, n - 1);
      InsertAscends(SortEdges(edges, n - 1), edges[n - 1]);
    } else {
      NothingAscends();
    }
  }

  lemma NothingAscends()
    ensures Ascending([])
  {
  }

  lemma WantedAscends(n: Object, v: Object, src: Source)
    requires WellFormed(n) && WellFormed(v)
    ensures Ascending(WantedEdges(n, v, src))
  {
    hide EdgesOf, SortEdges, Ascending;
    var edges := EdgesOf(Column(n, v, src), src.fn);
    SortAscends(edges, |edges|);
  }

  /** Projecting the merged object onto a column gives back that column's code, debug record, visibility and
      calls, in offset order, function by function. */
  lemma ProjectionExact(n: Object, v: Object, kept: seq<bool>, m: Merged, i: nat, inVolatile: bool)
    requires Columns(n, v, kept) && LargestCoherent(n, v, Chosen(kept)) && MergedFrom(n, v, kept, m) && i < |kept|
    ensures var b := Place(kept, i, inVolatile);
            var column := if inVolatile then v else n;
            && b < |m.file.blobs| == |m.variants| <= |m.file.symbols|
            && m.file.blobs[b] == column.blobs[i]
            && multiset(EdgesOf(m.file, b)) == multiset(EdgesOf(column, i))
            && m.file.symbols[b].name == n.symbols[i].name
            && m.file.symbols[b].def == (if n.symbols[i].def.Local? then Local(b) else Defined(b))
            && Ascending(EdgesOf(m.file, b))
            && (m.variants[b] == if kept[i] then Both else if inVolatile then Volatile else Normal)
            && (n.debug.Some? ==> m.file.debug.Some? && b < |m.file.debug.value|
                                  && DebugOf(m.file, b) == DebugOf(column, i))
  {
    hide Sources, Place, EdgesOf, WantedEdges, MergedFrom;
    SourcesAt(kept, i, inVolatile, |kept|);
    var b := Place(kept, i, inVolatile);
    MergedBlob(n, v, kept, m, b);
    WantedCounts(n, v, Sources(kept, |kept|)[b]);
    WantedAscends(n, v, Sources(kept, |kept|)[b]);
    assert kept[i] ==> i in Chosen(kept);
  }

  lemma {:induction false} EdgeOfRelocation(symbols: seq<Symbol>, relocations: seq<Relocation>, q: nat, n: nat)
    requires q < n <= |relocations| && forall r | 0 <= r < |relocations| :: relocations[r].symbol < |symbols|
    ensures (relocations[q].offset, symbols[relocations[q].symbol].name) in Edges(symbols, relocations, relocations[q].blob, n)
  {
    if q < n - 1 {
      EdgeOfRelocation(symbols, relocations, q, n - 1);
    }
  }

  /** A kept function calls only kept ones. */
  lemma KeptCallsKept(n: Object, v: Object, kept: seq<bool>, m: Merged, q: nat, k: nat)
    requires Columns(n, v, kept) && LargestCoherent(n, v, Chosen(kept)) && MergedFrom(n, v, kept, m)
    requires q < |m.file.relocations| && k < |kept|
    requires var r := m.file.relocations[q];
             && BindsColumn(n, kept, m.file.symbols, r)
             && kept[Sources(kept, |kept|)[r.blob].fn] && !Sources(kept, |kept|)[r.blob].fromVolatile
             && m.file.symbols[r.symbol].name == n.symbols[k].name
    ensures kept[k]
  {
    hide Sources, Place, Edges, SortEdges, LaidOut, SameRecord;
    var r := m.file.relocations[q];
    var src := Sources(kept, |kept|)[r.blob];
    SourcesBack(kept, |kept|, r.blob);
    var e := (r.offset, m.file.symbols[r.symbol].name);
    EdgeOfRelocation(m.file.symbols, m.file.relocations, q, |m.file.relocations|);
    WantedCounts(n, v, src);
    assert e in multiset(WantedEdges(n, v, src));
    assert e in EdgesOf(n, src.fn);
    assert Calls(n, src.fn, k);
    assert src.fn in Chosen(kept);
  }

  /** A call inside the object leads from a column's blob to the same column's blob of the callee. */
  lemma CallsStayInColumn(n: Object, v: Object, kept: seq<bool>, m: Merged, i: nat, inVolatile: bool, q: nat, k: nat)
    requires Columns(n, v, kept) && LargestCoherent(n, v, Chosen(kept)) && MergedFrom(n, v, kept, m)
    requires i < |kept| && k < |kept| && q < |m.file.relocations|
    requires var r := m.file.relocations[q];
             && r.blob == Place(kept, i, inVolatile) && r.symbol < |m.file.symbols|
             && m.file.symbols[r.symbol].name == n.symbols[k].name
    ensures m.file.relocations[q].symbol == Place(kept, k, inVolatile)
    ensures var def := m.file.symbols[m.file.relocations[q].symbol].def;
            !def.External? && def.blob == Place(kept, k, inVolatile)
  {
    hide Sources, Edges, SortEdges, WantedEdges, LaidOut, LargestCoherent;
    var r := m.file.relocations[q];
    assert BindsColumn(n, kept, m.file.symbols, r);
    SourcesAt(kept, i, inVolatile, |kept|);
    if inVolatile && kept[i] {
      KeptCallsKept(n, v, kept, m, q, k);
    }
    SourcesAt(kept, k, inVolatile, |kept|);
    MergedBlob(n, v, kept, m, Place(kept, k, inVolatile));
  }

  // ----- no path crosses the columns -----

  /** The blobs that a blob's calls lead to, among the first q relocations. */
  function Targets(o: Object, b: nat, q: nat): seq<nat>
    requires q <= |o.relocations|
  {
    if q == 0 then []
    else
      var r := o.relocations[q - 1];
      Targets(o, b, q - 1)
      + (if r.blob == b && r.symbol < |o.symbols| && !o.symbols[r.symbol].def.External?
         then [o.symbols[r.symbol].def.blob] else [])
  }

  function CallGraph(o: Object): nat -> seq<nat>
  {
    (b: nat) => Targets(o, b, |o.relocations|)
  }

  lemma {:induction false} TargetFrom(o: Object, b: nat, t: nat, n: nat) returns (q: nat)
    requires n <= |o.relocations| && t in Targets(o, b, n)
    ensures q < n && o.relocations[q].blob == b && o.relocations[q].symbol < |o.symbols|
    ensures var def := o.symbols[o.relocations[q].symbol].def; !def.External? && def.blob == t
  {
    q := n - 1;
    if t in Targets(o, b, n - 1) {
      q := TargetFrom(o, b, t, n - 1);
    }
  }

  /** The blobs a build of one column may run. */
  ghost function ColumnBlobs(variants: seq<Variant>, other: Variant): set<nat>
  {
    set b: nat | b < |variants| && variants[b] != other
  }

  lemma StepStaysIn(n: Object, v: Object, kept: seq<bool>, m: Merged, other: Variant, b: nat, t: nat)
    requires Columns(n, v, kept) && LargestCoherent(n, v, Chosen(kept)) && MergedFrom(n, v, kept, m)
    requires other != Both && b in ColumnBlobs(m.variants, other) && t in CallGraph(m.file)(b)
    ensures t in ColumnBlobs(m.variants, other)
  {
    hide Sources, Edges, SortEdges, WantedEdges, LaidOut, LargestCoherent, Targets;
    var q := TargetFrom(m.file, b, t, |m.file.relocations|);
    var r := m.file.relocations[q];
    assert BindsColumn(n, kept, m.file.symbols, r);
    SourcesBack(kept, |kept|, b);
    MergedBlob(n, v, kept, m, b);
    var src := Sources(kept, |kept|)[b];
    var inVolatile := other == Normal;
    if exists k :: 0 <= k < |kept| && n.symbols[k].name == m.file.symbols[r.symbol].name {
      var k :| 0 <= k < |kept| && n.symbols[k].name == m.file.symbols[r.symbol].name;
      CallsStayInColumn(n, v, kept, m, src.fn, inVolatile, q, k);
      SourcesAt(kept, k, inVolatile, |kept|);
      MergedBlob(n, v, kept, m, t);
    }
  }

  /** No path of calls from a blob of one column reaches a blob that is only the other's: a volatile
      program's whole call graph stays gated, a normal one's stays normal. */
  lemma NoPathCrosses(n: Object, v: Object, kept: seq<bool>, m: Merged, other: Variant, root: nat, b: nat)
    requires Columns(n, v, kept) && LargestCoherent(n, v, Chosen(kept)) && MergedFrom(n, v, kept, m)
    requires other != Both && root < |m.variants| && m.variants[root] != other
    requires Reachable(CallGraph(m.file), [root], b)
    ensures b < |m.variants| && m.variants[b] != other
  {
    hide LargestCoherent, MergedFrom, CallGraph, Columns;
    var closed := ColumnBlobs(m.variants, other);
    forall u, w | u in closed && w in CallGraph(m.file)(u) ensures w in closed {
      StepStaysIn(n, v, kept, m, other, u, w);
    }
    ReachableInClosed(CallGraph(m.file), [root], closed, b);
  }
}
