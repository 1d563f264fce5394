/** Legal symbol maps: building a tape map from a graft's authored pairs, and what every map
    the compiler accepts guarantees. */
module TmMaps {
  import opened Options
  import opened FiniteSets
  import opened TmSplice

  /** An authored pair `src -> dst` (two-way) or `src => dst` (one-way), as glyphs. */
  datatype Pair = Pair(src: string, dst: string, twoWay: bool)

  /** The same pair as symbol indices. */
  datatype IndexPair = IndexPair(src: nat, dst: nat, twoWay: bool)

  datatype MapError =
    | IdentityGlyphMismatch
    | SymbolNotInAlphabet(glyph: string)
    | BlankPin
    | Conflict(glyph: string)
    | NotInjective(symbol: nat)

  datatype Result<T> = Ok(value: T) | Err(error: MapError)

  // ----- which maps are legal -----

  /** The index of a glyph; the last one, if an alphabet repeats it. */
  function LastIndex(glyphs: seq<string>, n: nat, g: string): (r: Option<nat>)
    requires n <= |glyphs|
    ensures r.Some? ==> r.value < n && glyphs[r.value] == g
    ensures r.None? ==> forall k | 0 <= k < n :: glyphs[k] != g
  {
    if n == 0 then None
    else if glyphs[n - 1] == g then Some(n - 1)
    else LastIndex(glyphs, n - 1, g)
  }

  predicate Known(p: Pair, host: seq<string>, graph: seq<string>)
  {
    LastIndex(host, |host|, p.src).Some? && LastIndex(graph, |graph|, p.dst).Some?
  }

  function Indexed(p: Pair, host: seq<string>, graph: seq<string>): IndexPair
    requires Known(p, host, graph)
  {
    IndexPair(LastIndex(host, |host|, p.src).value, LastIndex(graph, |graph|, p.dst).value, p.twoWay)
  }

  /** Blank reads as blank, and no two-way pair writes blank back as something else. */
  predicate PinsBlank(p: IndexPair)
  {
    (p.src == 0 ==> p.dst == 0) && (p.twoWay && p.dst == 0 ==> p.src == 0)
  }

  ghost predicate Consistent(ps: seq<IndexPair>)
  {
    && (forall i, k | 0 <= i < k < |ps| && ps[i].src == ps[k].src :: ps[i].dst == ps[k].dst)
    && (forall i, k | 0 <= i < k < |ps| && ps[i].twoWay && ps[k].twoWay && ps[i].dst == ps[k].dst ::
          ps[i].src == ps[k].src)
  }

  /** The read direction of the first n pairs. */
  function ReadPairs(ps: seq<IndexPair>, n: nat): map<nat, nat>
    requires n <= |ps|
  {
    if n == 0 then map[] else ReadPairs(ps, n - 1)[ps[n - 1].src := ps[n - 1].dst]
  }

  /** The write direction: the inverses of the two-way pairs. */
  function WritePairs(ps: seq<IndexPair>, n: nat): map<nat, nat>
    requires n <= |ps|
  {
    if n == 0 then map[]
    else if ps[n - 1].twoWay then WritePairs(ps, n - 1)[ps[n - 1].dst := ps[n - 1].src]
    else WritePairs(ps, n - 1)
  }

  /** The two-way pairs in the read direction. */
  function TwoWayPairs(ps: seq<IndexPair>, n: nat): map<nat, nat>
    requires n <= |ps|
  {
    if n == 0 then map[]
    else if ps[n - 1].twoWay then TwoWayPairs(ps, n - 1)[ps[n - 1].src := ps[n - 1].dst]
    else TwoWayPairs(ps, n - 1)
  }

  function Completed(m: map<nat, nat>, s: nat): nat
  {
    if s in m then m[s] else s
  }

  ghost predicate Injective(m: map<nat, nat>, n: nat)
  {
    forall i, k | 0 <= i < k < n :: Completed(m, i) != Completed(m, k)
  }

  ghost predicate Legal(ps: seq<IndexPair>, hostCard: nat, graphCard: nat)
  {
    && (forall k | 0 <= k < |ps| :: PinsBlank(ps[k]))
    && Consistent(ps)
    && (hostCard == graphCard ==> Injective(TwoWayPairs(ps, |ps|), hostCard))
  }

  /** Across alphabets of different sizes an unlisted symbol other than blank is a hole. */
  function Unlisted(m: map<nat, nat>, card: nat): set<nat>
  {
    set s | 1 <= s < card && s !in m
  }

  function Canonical(m: map<nat, nat>): map<nat, nat>
  {
    map s | s in m && m[s] != s :: m[s]
  }

  function MapOf(m: map<nat, nat>, card: nat, close: bool): SymMap
  {
    SymMap(Canonical(m), if close then Unlisted(m, card) else {})
  }

  function TapeMapOf(ps: seq<IndexPair>, phys: nat, hostCard: nat, graphCard: nat): TapeMap
  {
    TapeMap(phys, hostCard, graphCard,
            MapOf(ReadPairs(ps, |ps|), hostCard, hostCard != graphCard),
            MapOf(WritePairs(ps, |ps|), graphCard, hostCard != graphCard))
  }

  // ----- the algorithm -----

  method GlyphIndex(glyphs: seq<string>) returns (m: map<string, nat>)
    ensures forall g :: g in m <==> LastIndex(glyphs, |glyphs|, g).Some?
    ensures forall g | g in m :: LastIndex(glyphs, |glyphs|, g) == Some(m[g])
  {
    m := map[];
    for i := 0 to |glyphs|
      invariant forall g :: g in m <==> LastIndex(glyphs, i, g).Some?
      invariant forall g | g in m :: LastIndex(glyphs, i, g) == Some(m[g])
    {
      m := m[glyphs[i] := i];
    }
  }

  /** Records a pair unless the source already has another image; what was recorded stays. */
  method InsertPair(m: map<nat, nat>, src: nat, dst: nat, glyph: string) returns (r: Result<map<nat, nat>>)
    ensures r.Ok? <==> (src in m ==> m[src] == dst)
    ensures r.Ok? ==> r.value.Keys == m.Keys + {src} && r.value[src] == dst && forall s | s in m :: r.value[s] == m[s]
    ensures r.Err? ==> r.error == Conflict(glyph)
  {
    if src in m && m[src] != dst {
      r := Err(Conflict(glyph));
    } else {
      r := Ok(m[src := dst]);
    }
  }

  /** Closes a map: every unlisted source but blank becomes a hole. */
  method CloseUnlisted(m: map<nat, nat>, card: nat) returns (holes: set<nat>)
    requires card < SYMBOL_LIMIT
    ensures holes == Unlisted(m, card)
  {
    holes := {};
    if card > 1 {
      for s := 1 to card
        invariant holes == Unlisted(m, s)
      {
        if s !in m { holes := holes + {s}; }
      }
    }
  }

  /** v is the image that the first source to collide shares with an earlier one. */
  ghost predicate FirstCollision(m: map<nat, nat>, n: nat, v: nat)
  {
    exists k: nat :: k < n && Injective(m, k) && Completed(m, k) == v && HasImage(m, k, v)
  }

  ghost predicate HasImage(m: map<nat, nat>, n: nat, v: nat)
  {
    exists i :: 0 <= i < n && Completed(m, i) == v
  }

  /** The first collision of the completed two-way map, if it is not injective. */
  method FindCollision(m: map<nat, nat>, n: nat) returns (r: Option<nat>)
    ensures r.None? <==> Injective(m, n)
    ensures r.Some? ==> FirstCollision(m, n, r.value)
  {
    var seen: set<nat> := {};
    for s := 0 to n
      invariant forall v :: v in seen <==> HasImage(m, s, v)
      invariant Injective(m, s)
    {
      var v := Completed(m, s);
      if v in seen { return Some(v); }
      seen := seen + {v};
    }
    r := None;
  }

  lemma {:induction false} ReadPairsExact(ps: seq<IndexPair>, n: nat)
    requires n <= |ps| && Consistent(ps)
    ensures forall s :: s in ReadPairs(ps, n) <==> exists k :: 0 <= k < n && ps[k].src == s
    ensures forall k | 0 <= k < n :: ReadPairs(ps, n)[ps[k].src] == ps[k].dst
  {
    if n > 0 {
      ReadPairsExact(ps, n - 1);
    }
  }

  lemma {:induction false} WritePairsExact(ps: seq<IndexPair>, n: nat)
    requires n <= |ps| && Consistent(ps)
    ensures forall s :: s in WritePairs(ps, n) <==> exists k :: 0 <= k < n && ps[k].twoWay && ps[k].dst == s
    ensures forall k | 0 <= k < n && ps[k].twoWay :: WritePairs(ps, n)[ps[k].dst] == ps[k].src
  {
    if n > 0 {
      WritePairsExact(ps, n - 1);
    }
  }

  lemma {:induction false} TwoWayPairsExact(ps: seq<IndexPair>, n: nat)
    requires n <= |ps| && Consistent(ps)
    ensures forall s :: s in TwoWayPairs(ps, n) <==> exists k :: 0 <= k < n && ps[k].twoWay && ps[k].src == s
    ensures forall k | 0 <= k < n && ps[k].twoWay :: TwoWayPairs(ps, n)[ps[k].src] == ps[k].dst
  {
    if n > 0 {
      TwoWayPairsExact(ps, n - 1);
    }
  }

  function IndexAll(pairs: seq<Pair>, host: seq<string>, graph: seq<string>): (r: seq<IndexPair>)
    requires forall k | 0 <= k < |pairs| :: Known(pairs[k], host, graph)
    ensures |r| == |pairs| && forall k | 0 <= k < |pairs| :: r[k] == Indexed(pairs[k], host, graph)
  {
    seq(|pairs|, (k: nat) requires k < |pairs| && Known(pairs[k], host, graph) => Indexed(pairs[k], host, graph))
  }

  /** Exactly when a graft's tape binding is legal. */
  ghost predicate Accepts(m: Option<seq<Pair>>, host: seq<string>, graph: seq<string>)
  {
    match m
    case None => host == graph
    case Some(pairs) =>
      && (forall k | 0 <= k < |pairs| :: Known(pairs[k], host, graph))
      && Legal(IndexAll(pairs, host, graph), |host|, |graph|)
  }

  /** The tape map of a legal binding; an omitted map is the identity. */
  function Built(m: Option<seq<Pair>>, phys: nat, host: seq<string>, graph: seq<string>): TapeMap
    requires m.Some? ==> forall k | 0 <= k < |m.value| :: Known(m.value[k], host, graph)
  {
    match m
    case None => TapeMap(phys, |host|, |graph|, SymMap(map[], {}), SymMap(map[], {}))
    case Some(pairs) => TapeMapOf(IndexAll(pairs, host, graph), phys, |host|, |graph|)
  }

  /** The pairs up to i are known and break no rule. */
  ghost predicate Sound(pairs: seq<Pair>, i: nat, ps: seq<IndexPair>, host: seq<string>, graph: seq<string>)
    requires i <= |pairs|
  {
    && |ps| == i
    && (forall k | 0 <= k < i :: Known(pairs[k], host, graph) && ps[k] == Indexed(pairs[k], host, graph))
    && (forall k | 0 <= k < i :: PinsBlank(ps[k]))
    && Consistent(ps)
  }

  lemma Extends(ps: seq<IndexPair>, p: IndexPair)
    requires Consistent(ps) && PinsBlank(p)
    requires p.src in ReadPairs(ps, |ps|) ==> ReadPairs(ps, |ps|)[p.src] == p.dst
    requires p.twoWay && p.dst in WritePairs(ps, |ps|) ==> WritePairs(ps, |ps|)[p.dst] == p.src
    ensures Consistent(ps + [p])
  {
    ReadPairsExact(ps, |ps|);
    WritePairsExact(ps, |ps|);
    hide ReadPairs, WritePairs;
  }

  lemma {:induction false} PairsPrefix(ps: seq<IndexPair>, p: IndexPair, n: nat)
    requires n <= |ps|
    ensures ReadPairs(ps + [p], n) == ReadPairs(ps, n)
    ensures WritePairs(ps + [p], n) == WritePairs(ps, n)
    ensures TwoWayPairs(ps + [p], n) == TwoWayPairs(ps, n)
  {
    if n > 0 {
      PairsPrefix(ps, p, n - 1);
    }
  }

  /** A pair that clashes with an earlier one makes the whole binding illegal. */
  lemma Clash(pairs: seq<Pair>, i: nat, ps: seq<IndexPair>, host: seq<string>, graph: seq<string>)
    requires i < |pairs| && Sound(pairs, i, ps, host, graph) && Known(pairs[i], host, graph)
    requires var p := Indexed(pairs[i], host, graph);
             || (p.src in ReadPairs(ps, i) && ReadPairs(ps, i)[p.src] != p.dst)
             || (p.twoWay && p.dst in WritePairs(ps, i) && WritePairs(ps, i)[p.dst] != p.src)
    ensures !Accepts(Some(pairs), host, graph)
  {
    ReadPairsExact(ps, i);
    WritePairsExact(ps, i);
    hide ReadPairs, WritePairs, TwoWayPairs, Known, Indexed, Injective, Consistent, PinsBlank;
    var p := Indexed(pairs[i], host, graph);
    var j: nat :| j < i && ((ps[j].src == p.src && ps[j].dst != p.dst)
                            || (ps[j].twoWay && p.twoWay && ps[j].dst == p.dst && ps[j].src != p.src));
    if forall k | 0 <= k < |pairs| :: Known(pairs[k], host, graph) {
      var all := IndexAll(pairs, host, graph);
      assert all[j] == ps[j] && all[i] == p;
      Inconsistent(all, j, i);
    }
  }

  lemma Inconsistent(ps: seq<IndexPair>, j: nat, i: nat)
    requires j < i < |ps|
    requires || (ps[j].src == ps[i].src && ps[j].dst != ps[i].dst)
             || (ps[j].twoWay && ps[i].twoWay && ps[j].dst == ps[i].dst && ps[j].src != ps[i].src)
    ensures !Consistent(ps)
  {
  }

  ghost predicate ReadClash(ps: seq<IndexPair>, p: IndexPair)
  {
    exists j :: 0 <= j < |ps| && ps[j].src == p.src && ps[j].dst != p.dst
  }

  ghost predicate WriteClash(ps: seq<IndexPair>, p: IndexPair)
  {
    p.twoWay && exists j :: 0 <= j < |ps| && ps[j].twoWay && ps[j].dst == p.dst && ps[j].src != p.src
  }

  /** What is wrong with a pair behind the pairs ps, in the order of the checks. */
  ghost function PairError(ps: seq<IndexPair>, pair: Pair, host: seq<string>, graph: seq<string>): Option<MapError>
  {
    if LastIndex(host, |host|, pair.src).None? then Some(SymbolNotInAlphabet(pair.src))
    else if LastIndex(graph, |graph|, pair.dst).None? then Some(SymbolNotInAlphabet(pair.dst))
    else
      var p := Indexed(pair, host, graph);
      if p.src == 0 && p.dst != 0 then Some(BlankPin)
      else if ReadClash(ps, p) then Some(Conflict(pair.src))
      else if p.twoWay && p.dst == 0 && p.src != 0 then Some(BlankPin)
      else if WriteClash(ps, p) then Some(Conflict(pair.dst))
      else None
  }

  /** Why a binding is refused: an omitted map between different alphabets, the first pair with
      something wrong, or else the first symbol two-way pairs between equal sizes fold together. */
  ghost predicate Refuses(m: Option<seq<Pair>>, host: seq<string>, graph: seq<string>, e: MapError)
  {
    match m
    case None => host != graph && e == IdentityGlyphMismatch
    case Some(pairs) =>
      || (exists i: nat, ps :: i < |pairs| && Sound(pairs, i, ps, host, graph) && PairError(ps, pairs[i], host, graph) == Some(e))
      || (exists ps :: && Sound(pairs, |pairs|, ps, host, graph) && |host| == |graph| && e.NotInjective?
                       && FirstCollision(TwoWayPairs(ps, |ps|), |host|, e.symbol))
  }

  /** The insertions fail exactly when the pair clashes with one before it. */
  lemma InsertsClash(ps: seq<IndexPair>, p: IndexPair)
    requires Consistent(ps)
    ensures var m := ReadPairs(ps, |ps|);
            ReadClash(ps, p) <==> p.src in m && m[p.src] != p.dst
    ensures var m := WritePairs(ps, |ps|);
            WriteClash(ps, p) <==> p.twoWay && p.dst in m && m[p.dst] != p.src
  {
    hide ReadPairs, WritePairs;
    ReadPairsExact(ps, |ps|);
    WritePairsExact(ps, |ps|);
  }

  /** A pair that is in order breaks no rule that the earlier ones keep. */
  lemma NoPairError(ps: seq<IndexPair>, pair: Pair, host: seq<string>, graph: seq<string>)
    requires Consistent(ps) && PairError(ps, pair, host, graph).None?
    ensures Known(pair, host, graph) && PinsBlank(Indexed(pair, host, graph))
    ensures Consistent(ps + [Indexed(pair, host, graph)])
  {
    hide LastIndex, ReadPairs, WritePairs;
    InsertsClash(ps, Indexed(pair, host, graph));
    Extends(ps, Indexed(pair, host, graph));
  }

  /** A binding with a pair that is not in order is illegal. */
  lemma PairErrorRefuses(pairs: seq<Pair>, i: nat, ps: seq<IndexPair>, host: seq<string>, graph: seq<string>)
    requires i < |pairs| && Sound(pairs, i, ps, host, graph) && PairError(ps, pairs[i], host, graph).Some?
    ensures !Accepts(Some(pairs), host, graph)
  {
    hide LastIndex, ReadPairs, WritePairs;
    if Known(pairs[i], host, graph) {
      var p := Indexed(pairs[i], host, graph);
      InsertsClash(ps, p);
      if PinsBlank(p) {
        Clash(pairs, i, ps, host, graph);
      } else {
        Unpinned(pairs, i, host, graph);
      }
    }
  }

  /** Inserts one pair into the read map and, if it is two-way, its inverse into the write map. */
  method InsertBoth(
    pair: Pair, hostIdx: map<string, nat>, graphIdx: map<string, nat>, rmap: map<nat, nat>, wmap: map<nat, nat>,
    ghost ps: seq<IndexPair>, ghost host: seq<string>, ghost graph: seq<string>)
    returns (r: Result<(map<nat, nat>, map<nat, nat>)>)
    requires forall g :: g in hostIdx <==> LastIndex(host, |host|, g).Some?
    requires forall g | g in hostIdx :: LastIndex(host, |host|, g) == Some(hostIdx[g])
    requires forall g :: g in graphIdx <==> LastIndex(graph, |graph|, g).Some?
    requires forall g | g in graphIdx :: LastIndex(graph, |graph|, g) == Some(graphIdx[g])
    requires Consistent(ps) && rmap == ReadPairs(ps, |ps|) && wmap == WritePairs(ps, |ps|)
    ensures r.Err? ==> PairError(ps, pair, host, graph) == Some(r.error)
    ensures r.Ok? ==> PairError(ps, pair, host, graph).None?
    ensures r.Ok? ==>
      (var p := Indexed(pair, host, graph);
       r.value.0 == rmap[p.src := p.dst] && r.value.1 == if p.twoWay then wmap[p.dst := p.src] else wmap)
  {
    hide LastIndex, ReadPairs, WritePairs, ReadClash, WriteClash, Consistent;
    if pair.src !in hostIdx { return Err(SymbolNotInAlphabet(pair.src)); }
    if pair.dst !in graphIdx { return Err(SymbolNotInAlphabet(pair.dst)); }
    var src, dst := hostIdx[pair.src], graphIdx[pair.dst];
    InsertsClash(ps, IndexPair(src, dst, pair.twoWay));
    if src == 0 && dst != 0 { return Err(BlankPin); }
    var read := InsertPair(rmap, src, dst, pair.src);
    if read.Err? { return Err(read.error); }
    assert read.value == rmap[src := dst];
    if !pair.twoWay { return Ok((read.value, wmap)); }
    if dst == 0 && src != 0 { return Err(BlankPin); }
    var write := InsertPair(wmap, dst, src, pair.dst);
    if write.Err? { return Err(write.error); }
    assert write.value == wmap[dst := src];
    r := Ok((read.value, write.value));
  }

  /** Builds the map of a legal binding, and says why another is refused. */
  method BuildTapeMap(m: Option<seq<Pair>>, phys: nat, host: seq<string>, graph: seq<string>)
    returns (r: Result<TapeMap>)
    requires |host| < SYMBOL_LIMIT && |graph| < SYMBOL_LIMIT
    ensures r.Ok? <==> Accepts(m, host, graph)
    ensures r.Ok? ==> r.value == Built(m, phys, host, graph)
    ensures r.Err? ==> Refuses(m, host, graph, r.error)
  {
    hide LastIndex, ReadPairs, WritePairs, TwoWayPairs, Injective, PairError, FirstCollision;
    if m.None? {
      if host != graph { return Err(IdentityGlyphMismatch); }
      return Ok(TapeMap(phys, |host|, |graph|, SymMap(map[], {}), SymMap(map[], {})));
    }
    var pairs := m.value;
    var hostIdx := GlyphIndex(host);
    var graphIdx := GlyphIndex(graph);
    var rmap: map<nat, nat>, wmap: map<nat, nat>, bidir: map<nat, nat> := map[], map[], map[];
    ghost var ps: seq<IndexPair> := [];
    NoPairs();
    for i := 0 to |pairs|
      invariant Sound(pairs, i, ps, host, graph)
      invariant rmap == ReadPairs(ps, i) && wmap == WritePairs(ps, i) && bidir == TwoWayPairs(ps, i)
    {
      ghost var wrong := PairError(ps, pairs[i], host, graph);
      var inserted := InsertBoth(pairs[i], hostIdx, graphIdx, rmap, wmap, ps, host, graph);
      if inserted.Err? {
        PairErrorRefuses(pairs, i, ps, host, graph);
        return Err(inserted.error);
      }
      NoPairError(ps, pairs[i], host, graph);
      ghost var p := Indexed(pairs[i], host, graph);
      PushPair(ps, p);
      var (src, dst) := (hostIdx[pairs[i].src], graphIdx[pairs[i].dst]);
      rmap, wmap := inserted.value.0, inserted.value.1;
      if pairs[i].twoWay {
        bidir := bidir[src := dst];
      }
      ps := ps + [p];
    }
    assert ps == IndexAll(pairs, host, graph);
    var rholes: set<nat>, wholes: set<nat> := {}, {};
    if |host| != |graph| {
      rholes := CloseUnlisted(rmap, |host|);
      wholes := CloseUnlisted(wmap, |graph|);
    } else {
      var collision := FindCollision(bidir, |host|);
      if collision.Some? { return Err(NotInjective(collision.value)); }
    }
    r := Ok(TapeMap(phys, |host|, |graph|, SymMap(Canonical(rmap), rholes), SymMap(Canonical(wmap), wholes)));
  }

  lemma NoPairs()
    ensures ReadPairs([], 0) == map[] && WritePairs([], 0) == map[] && TwoWayPairs([], 0) == map[]
  {
  }

  lemma PushPair(ps: seq<IndexPair>, p: IndexPair)
    ensures ReadPairs(ps + [p], |ps| + 1) == ReadPairs(ps, |ps|)[p.src := p.dst]
    ensures WritePairs(ps + [p], |ps| + 1)
         == if p.twoWay then WritePairs(ps, |ps|)[p.dst := p.src] else WritePairs(ps, |ps|)
    ensures TwoWayPairs(ps + [p], |ps| + 1)
         == if p.twoWay then TwoWayPairs(ps, |ps|)[p.src := p.dst] else TwoWayPairs(ps, |ps|)
  {
    PairsPrefix(ps, p, |ps|);
  }

  lemma Unpinned(pairs: seq<Pair>, i: nat, host: seq<string>, graph: seq<string>)
    requires i < |pairs| && Known(pairs[i], host, graph) && !PinsBlank(Indexed(pairs[i], host, graph))
    ensures !Accepts(Some(pairs), host, graph)
  {
    hide Consistent, Injective, Known, Indexed, PinsBlank;
    if forall k | 0 <= k < |pairs| :: Known(pairs[k], host, graph) {
      assert IndexAll(pairs, host, graph)[i] == Indexed(pairs[i], host, graph);
    }
  }

  // ----- what every accepted map guarantees -----

  ghost predicate Within(ps: seq<IndexPair>, hostCard: nat, graphCard: nat)
  {
    0 < hostCard && 0 < graphCard && forall k | 0 <= k < |ps| :: ps[k].src < hostCard && ps[k].dst < graphCard
  }

  /** How a legal map reads: a listed symbol as its image, an unlisted one as itself between
      alphabets of one size, and not at all (blank excepted) between different ones. */
  lemma ReadsExactly(ps: seq<IndexPair>, phys: nat, hostCard: nat, graphCard: nat, p: nat)
    requires Legal(ps, hostCard, graphCard) && Within(ps, hostCard, graphCard) && p < hostCard
    ensures var t := TapeMapOf(ps, phys, hostCard, graphCard);
            && (forall k | 0 <= k < |ps| && ps[k].src == p :: ReadImage(t, p) == Some(ps[k].dst))
            && ((forall k | 0 <= k < |ps| :: ps[k].src != p) ==>
                ReadImage(t, p) == if hostCard == graphCard || p == 0 then Some(p) else None)
  {
    hide ReadPairs, WritePairs, Injective;
    ReadPairsExact(ps, |ps|);
  }

  lemma WritesExactly(ps: seq<IndexPair>, phys: nat, hostCard: nat, graphCard: nat, v: nat)
    requires Legal(ps, hostCard, graphCard) && Within(ps, hostCard, graphCard) && v < graphCard
    ensures var t := TapeMapOf(ps, phys, hostCard, graphCard);
            && (forall k | 0 <= k < |ps| && ps[k].twoWay && ps[k].dst == v :: WriteImage(t, v) == Some(ps[k].src))
            && ((forall k | 0 <= k < |ps| && ps[k].twoWay :: ps[k].dst != v) ==>
                WriteImage(t, v) == if hostCard == graphCard || v == 0 then Some(v) else None)
  {
    hide ReadPairs, WritePairs, Injective;
    WritePairsExact(ps, |ps|);
  }

  /** Blank is pinned: it reads and writes as blank, and nothing else is written as blank. */
  lemma BlankPinned(ps: seq<IndexPair>, phys: nat, hostCard: nat, graphCard: nat)
    requires Legal(ps, hostCard, graphCard) && Within(ps, hostCard, graphCard)
    ensures var t := TapeMapOf(ps, phys, hostCard, graphCard);
            && ReadImage(t, 0) == Some(0)
            && (forall v | 0 <= v < graphCard :: WriteImage(t, v) == Some(0) <==> v == 0)
  {
    hide TapeMapOf, ReadImage, WriteImage, Consistent;
    ReadsExactly(ps, phys, hostCard, graphCard, 0);
    if k :| 0 <= k < |ps| && ps[k].src == 0 { assert PinsBlank(ps[k]); }
    forall v: nat | v < graphCard
      ensures WriteImage(TapeMapOf(ps, phys, hostCard, graphCard), v) == Some(0) <==> v == 0
    {
      WritesExactly(ps, phys, hostCard, graphCard, v);
      if k :| 0 <= k < |ps| && ps[k].twoWay && ps[k].dst == v { assert PinsBlank(ps[k]); }
    }
  }

  /** Between alphabets of different sizes, a symbol that can be written reads back as itself. */
  lemma UnequalReadsBack(ps: seq<IndexPair>, phys: nat, hostCard: nat, graphCard: nat, v: nat)
    requires Legal(ps, hostCard, graphCard) && Within(ps, hostCard, graphCard)
    requires hostCard != graphCard && v < graphCard
    ensures var t := TapeMapOf(ps, phys, hostCard, graphCard);
            WriteImage(t, v).Some? ==> ReadImage(t, WriteImage(t, v).value) == Some(v)
  {
    hide TapeMapOf, ReadImage, WriteImage, Consistent;
    WritesExactly(ps, phys, hostCard, graphCard, v);
    if k :| 0 <= k < |ps| && ps[k].twoWay && ps[k].dst == v {
      ReadsExactly(ps, phys, hostCard, graphCard, ps[k].src);
    } else {
      BlankPinned(ps, phys, hostCard, graphCard);
    }
  }

  // ----- alphabets of one size -----

  /** Every one-way pair either maps a symbol to itself or repeats a two-way pair. */
  ghost predicate NoRealOneWay(ps: seq<IndexPair>)
  {
    forall k | 0 <= k < |ps| && !ps[k].twoWay && ps[k].src != ps[k].dst ::
      exists j :: 0 <= j < |ps| && ps[j] == IndexPair(ps[k].src, ps[k].dst, true)
  }

  /** An injection of the first n numbers into themselves reaches each of them. */
  lemma Onto(m: map<nat, nat>, n: nat, v: nat) returns (s: nat)
    requires Injective(m, n) && v < n
    requires forall i | 0 <= i < n :: Completed(m, i) < n
    ensures s < n && Completed(m, s) == v
  {
    hide Completed;
    if forall i | 0 <= i < n :: Completed(m, i) != v {
      var all := Initial(n);
      assert |all - {v}| == n - 1;
      var image := ImageSize(m, n);
      assert image <= all - {v};
      SubsetSize(image, all - {v});
      assert false;
    }
    var i :| 0 <= i < n && Completed(m, i) == v;
    s := i;
  }

  /** The numbers below n. */
  ghost function Initial(n: nat): (r: set<nat>)
    ensures |r| == n && forall i: nat :: i in r <==> i < n
  {
    if n == 0 then {} else Initial(n - 1) + {n - 1}
  }

  lemma {:induction false} ImageSize(m: map<nat, nat>, n: nat) returns (image: set<nat>)
    requires Injective(m, n)
    ensures |image| == n
    ensures forall v :: v in image <==> exists i :: 0 <= i < n && Completed(m, i) == v
  {
    hide Completed;
    image := {};
    if n > 0 {
      var smaller := ImageSize(m, n - 1);
      image := smaller + {Completed(m, n - 1)};
    }
  }

  lemma SameSource(m: map<nat, nat>, n: nat, a: nat, b: nat)
    requires Injective(m, n) && a < n && b < n && Completed(m, a) == Completed(m, b)
    ensures a == b
  {
    hide Completed;
    if a < b {
    } else if b < a {
    }
  }

  /** Between alphabets of one size, what two-way pairs leave alone is the same on both sides:
      a symbol that no two-way pair writes is one that no two-way pair reads. */
  lemma TwoWayBalanced(ps: seq<IndexPair>, card: nat, v: nat)
    requires Legal(ps, card, card) && Within(ps, card, card) && v < card
    ensures (exists k :: 0 <= k < |ps| && ps[k].twoWay && ps[k].src == v) <==>
            (exists k :: 0 <= k < |ps| && ps[k].twoWay && ps[k].dst == v)
  {
    var m := TwoWayPairs(ps, |ps|);
    TwoWayPairsExact(ps, |ps|);
    hide TwoWayPairs, Consistent;
    forall i | 0 <= i < card ensures Completed(m, i) < card {
      if k :| 0 <= k < |ps| && ps[k].twoWay && ps[k].src == i {}
    }
    var s := Onto(m, card, v);
    if k :| 0 <= k < |ps| && ps[k].twoWay && ps[k].src == v {
      assert v in m && s in m;
      var j :| 0 <= j < |ps| && ps[j].twoWay && ps[j].src == s;
      assert ps[j].dst == v;
    }
    if k :| 0 <= k < |ps| && ps[k].twoWay && ps[k].dst == v {
      assert Completed(m, ps[k].src) == v;
      if v !in m { SameSource(m, card, ps[k].src, v); }
      var j :| 0 <= j < |ps| && ps[j].twoWay && ps[j].src == v;
    }
  }

  /** Between alphabets of one size every symbol can be written, and all of them read back as
      themselves exactly when no one-way pair really changes a symbol. */
  lemma EqualReadsBackExactly(ps: seq<IndexPair>, phys: nat, card: nat)
    requires Legal(ps, card, card) && Within(ps, card, card)
    ensures var t := TapeMapOf(ps, phys, card, card);
            && (forall v | 0 <= v < card :: WriteImage(t, v).Some?)
            && ((forall v | 0 <= v < card :: ReadImage(t, WriteImage(t, v).value) == Some(v)) <==> NoRealOneWay(ps))
  {
    var t := TapeMapOf(ps, phys, card, card);
    hide TapeMapOf, ReadImage, WriteImage, Consistent, Legal;
    forall v: nat | v < card
      ensures WriteImage(t, v).Some?
      ensures NoRealOneWay(ps) ==> ReadImage(t, WriteImage(t, v).value) == Some(v)
    {
      ReadsBackIf(ps, phys, card, v);
    }
    if forall v | 0 <= v < card :: ReadImage(t, WriteImage(t, v).value) == Some(v) {
      forall k | 0 <= k < |ps| && !ps[k].twoWay && ps[k].src != ps[k].dst
        ensures exists j :: 0 <= j < |ps| && ps[j] == IndexPair(ps[k].src, ps[k].dst, true)
      {
        if forall j | 0 <= j < |ps| :: ps[j] != IndexPair(ps[k].src, ps[k].dst, true) {
          RealOneWayBreaks(ps, phys, card, k);
        }
      }
    }
  }

  /** A pair that changes a symbol has a two-way pair with its source. */
  lemma Partner(ps: seq<IndexPair>, k: nat)
    requires NoRealOneWay(ps) && k < |ps| && ps[k].src != ps[k].dst
    ensures exists j :: 0 <= j < |ps| && ps[j].twoWay && ps[j].src == ps[k].src
  {
    if !ps[k].twoWay {
      var j :| 0 <= j < |ps| && ps[j] == IndexPair(ps[k].src, ps[k].dst, true);
      assert ps[j].twoWay && ps[j].src == ps[k].src;
    }
  }

  lemma ReadsBackIf(ps: seq<IndexPair>, phys: nat, card: nat, v: nat)
    requires Legal(ps, card, card) && Within(ps, card, card) && v < card
    ensures var t := TapeMapOf(ps, phys, card, card);
            && WriteImage(t, v).Some?
            && (NoRealOneWay(ps) ==> ReadImage(t, WriteImage(t, v).value) == Some(v))
  {
    hide TapeMapOf, ReadImage, WriteImage, Consistent, Legal;
    WritesExactly(ps, phys, card, card, v);
    TwoWayBalanced(ps, card, v);
    if k :| 0 <= k < |ps| && ps[k].twoWay && ps[k].dst == v {
      ReadsExactly(ps, phys, card, card, ps[k].src);
    } else {
      ReadsExactly(ps, phys, card, card, v);
      if NoRealOneWay(ps) {
        if k: nat :| k < |ps| && ps[k].src == v {
          if ps[k].dst != v { Partner(ps, k); }
        }
      }
    }
  }

  /** A one-way pair that changes a symbol without a two-way pair behind it breaks read-back. */
  lemma RealOneWayBreaks(ps: seq<IndexPair>, phys: nat, card: nat, k: nat)
    requires Legal(ps, card, card) && Within(ps, card, card)
    requires k < |ps| && !ps[k].twoWay && ps[k].src != ps[k].dst
    requires forall j | 0 <= j < |ps| :: ps[j] != IndexPair(ps[k].src, ps[k].dst, true)
    ensures var t := TapeMapOf(ps, phys, card, card);
            WriteImage(t, ps[k].src) == Some(ps[k].src) && ReadImage(t, ps[k].src) == Some(ps[k].dst)
  {
    hide TapeMapOf, ReadImage, WriteImage;
    var s := ps[k].src;
    WritesExactly(ps, phys, card, card, s);
    ReadsExactly(ps, phys, card, card, s);
    TwoWayBalanced(ps, card, s);
    forall j | 0 <= j < |ps| && ps[j].src == s ensures ps[j].dst == ps[k].dst {
      SameImage(ps, j, k);
    }
  }

  lemma SameImage(ps: seq<IndexPair>, i: nat, k: nat)
    requires Consistent(ps) && i < |ps| && k < |ps| && ps[i].src == ps[k].src
    ensures ps[i].dst == ps[k].dst
  {
    if i < k {
    } else if k < i {
    }
  }

  /** Without real one-way pairs the two directions are inverse bijections. */
  lemma EqualBijective(ps: seq<IndexPair>, phys: nat, card: nat, p: nat)
    requires Legal(ps, card, card) && Within(ps, card, card) && NoRealOneWay(ps) && p < card
    ensures var t := TapeMapOf(ps, phys, card, card);
            && ReadImage(t, p).Some?
            && WriteImage(t, ReadImage(t, p).value) == Some(p)
  {
    hide TapeMapOf, ReadImage, WriteImage, Legal, Consistent;
    ReadsExactly(ps, phys, card, card, p);
    TwoWayBalanced(ps, card, p);
    if k :| 0 <= k < |ps| && ps[k].twoWay && ps[k].src == p {
      WritesExactly(ps, phys, card, card, ps[k].dst);
    } else {
      WritesExactly(ps, phys, card, card, p);
      if k: nat :| k < |ps| && ps[k].src == p {
        if ps[k].dst != p { Partner(ps, k); }
      }
    }
  }

  /** A legal binding between equal alphabets, `a => b`, under which a written `a` reads back
      as `b`. */
  lemma OneWayExample()
    ensures var ps := [IndexPair(1, 2, false)];
            && Legal(ps, 3, 3)
            && ReadImage(TapeMapOf(ps, 0, 3, 3), 1) == Some(2)
            && WriteImage(TapeMapOf(ps, 0, 3, 3), 1) == Some(1)
  {
    var ps := [IndexPair(1, 2, false)];
    assert TwoWayPairs(ps, 1) == TwoWayPairs(ps, 0) == map[];
    assert WritePairs(ps, 1) == WritePairs(ps, 0) == map[];
    assert ReadPairs(ps, 1) == ReadPairs(ps, 0)[1 := 2] == map[1 := 2];
  }
}
