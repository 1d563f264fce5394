/** Resolving an alphabet: its elements expand to glyphs, which must differ and fit the symbol range. */
module TmAlphabets {
  import opened Options
  import opened TmRanges
  import opened TmSplice
  import opened FreshNames
  import opened TmMeaning

  datatype Elem = One(lit: SymLit) | Span(lo: SymLit, hi: SymLit)

  datatype Outcome =
    | Glyphs(glyphs: seq<string>)
    | Empty
    | BadRange(error: Error)
    | DuplicateGlyph(glyph: string)
    | TooLarge(count: nat)

  const MAX_SYMBOLS: nat := 127

  function FirstParts(ms: seq<Member>): seq<string>
  {
    seq(|ms|, (k: nat) requires k < |ms| => ms[k].0)
  }

  function LabelsOf(e: Elem): Res<seq<string>>
  {
    match e
    case One(lit) => Ok([Label(lit)])
    case Span(lo, hi) =>
      match Members(lo, hi)
      case Err(error) => Err(error)
      case Ok(ms) => Ok(FirstParts(ms))
  }

  /** The glyphs of the first n elements, in order. */
  function AllLabels(elems: seq<Elem>, n: nat): Res<seq<string>>
    requires n <= |elems|
  {
    if n == 0 then Ok([])
    else
      match AllLabels(elems, n - 1)
      case Err(error) => Err(error)
      case Ok(before) =>
        (match LabelsOf(elems[n - 1])
         case Err(error) => Err(error)
         case Ok(labels) => Ok(before + labels))
  }

  // ----- what an alphabet lists -----

  function KindOf(e: Elem): CellKind
  {
    match e
    case One(lit) => Single(lit)
    case Span(lo, hi) => Range(lo, hi)
  }

  /** An element lists itself, or every number or character between two, ascending. */
  ghost predicate Lists(e: Elem, part: seq<string>)
  {
    match e
    case One(lit) => |part| == 1 && Spelled(lit, part[0])
    case Span(Num(lo), Num(hi)) => lo <= hi && |part| == hi - lo + 1 && CountsFrom(lo, part)
    case Span(Glyph(lo), Glyph(hi)) =>
      && |lo| == |hi| == 1 && (forall g :: g in part <==> |g| == 1 && lo[0] <= g[0] <= hi[0])
      && forall i, k | 0 <= i < k < |part| && |part[i]| == |part[k]| == 1 :: part[i][0] < part[k][0]
    case Span(_, _) => false
  }

  ghost predicate CountsFrom(lo: nat, part: seq<string>)
  {
    forall k | 0 <= k < |part| :: Numeral(part[k], lo + k)
  }

  /** The glyphs are what the first n elements list, one after the other. */
  ghost predicate AlphabetOf(elems: seq<Elem>, n: nat, glyphs: seq<string>)
    requires n <= |elems|
  {
    if n == 0 then glyphs == []
    else exists before, part :: glyphs == before + part && AlphabetOf(elems, n - 1, before) && Lists(elems[n - 1], part)
  }

  lemma {:induction false} NumbersList(lo: nat, n: nat)
    ensures |Numbers(lo, n)| == n && CountsFrom(lo, FirstParts(Numbers(lo, n)))
  {
    hide Decimal, Numeral;
    if n > 0 {
      NumbersList(lo, n - 1);
      DecimalReads(lo + n - 1);
      var before, part := FirstParts(Numbers(lo, n - 1)), FirstParts(Numbers(lo, n));
      forall k | 0 <= k < n ensures Numeral(part[k], lo + k) {
        if k < n - 1 {
          assert part[k] == before[k];
        }
      }
    }
  }

  lemma {:induction false} CharactersAscend(lo: nat, n: nat)
    ensures forall k | 0 <= k < |Characters(lo, n)| :: var g := Characters(lo, n)[k].0; |g| == 1 && lo <= g[0] as int < lo + n
    ensures forall i, k | 0 <= i < k < |Characters(lo, n)| :: Characters(lo, n)[i].0[0] < Characters(lo, n)[k].0[0]
  {
    if n > 0 {
      CharactersAscend(lo, n - 1);
    }
  }

  lemma PartsAt(ms: seq<Member>)
    ensures |FirstParts(ms)| == |ms| && forall k | 0 <= k < |ms| :: FirstParts(ms)[k] == ms[k].0
  {
  }

  lemma InParts(ms: seq<Member>, g: string)
    ensures g in FirstParts(ms) <==> exists k :: 0 <= k < |ms| && ms[k].0 == g
  {
    if g in FirstParts(ms) {
      var k :| 0 <= k < |ms| && FirstParts(ms)[k] == g;
    }
    if k :| 0 <= k < |ms| && ms[k].0 == g {
      assert FirstParts(ms)[k] == g;
    }
  }

  lemma CharactersList(lo: char, hi: char)
    requires lo <= hi
    ensures Lists(Span(Glyph([lo]), Glyph([hi])), FirstParts(Characters(lo as int, hi as int - lo as int + 1)))
  {
    hide Characters, FirstParts;
    var n := hi as int - lo as int + 1;
    var part := FirstParts(Characters(lo as int, n));
    CharactersAscend(lo as int, n);
    PartsAt(Characters(lo as int, n));
    forall g ensures g in part <==> |g| == 1 && lo <= g[0] <= hi {
      CharactersAre(lo as int, n, g);
      InParts(Characters(lo as int, n), g);
    }
  }

  /** What is listed for an element is what it lists; one that is refused is a range that cannot be read. */
  lemma LabelsList(e: Elem)
    ensures LabelsOf(e).Ok? ==> Lists(e, LabelsOf(e).value)
    ensures LabelsOf(e) == Err(RangeDescending) <==> Descending(KindOf(e))
    ensures LabelsOf(e) == Err(RangeEndpointNotScalar) <==> Unscalar(KindOf(e))
    ensures LabelsOf(e).Ok? <==> !Descending(KindOf(e)) && !Unscalar(KindOf(e))
  {
    hide Numbers, Characters, CountsFrom, Spelled, Label;
    RefusedExactly(KindOf(e));
    match e
    case One(lit) => LabelSpelled(lit, Label(lit));
    case Span(lo, hi) =>
      if LabelsOf(e).Ok? {
        if lo.Num? {
          NumbersList(lo.value, hi.value - lo.value + 1);
        } else {
          CharactersList(lo.text[0], hi.text[0]);
          assert lo == Glyph([lo.text[0]]) && hi == Glyph([hi.text[0]]);
        }
      }
  }

  /** The glyphs of elements that can be read are what they list. */
  lemma {:induction false} AlphabetMeans(elems: seq<Elem>, n: nat)
    requires n <= |elems| && AllLabels(elems, n).Ok?
    ensures AlphabetOf(elems, n, AllLabels(elems, n).value)
  {
    hide Lists, LabelsOf;
    if n > 0 {
      AlphabetMeans(elems, n - 1);
      LabelsList(elems[n - 1]);
      assert AllLabels(elems, n).value == AllLabels(elems, n - 1).value + LabelsOf(elems[n - 1]).value;
    }
  }

  /** Label k is the first that is among the glyphs or labels before it. */
  ghost predicate FirstRepeat(glyphs: seq<string>, labels: seq<string>, k: nat)
    requires k < |labels|
  {
    IsAlphabet(glyphs + labels[..k]) && labels[k] in glyphs + labels[..k]
  }

  /** The elements before k are in order, and k has the fault: its range, or its first repeated glyph. */
  ghost predicate FirstFault(elems: seq<Elem>, k: nat, r: Outcome)
  {
    && k < |elems| && AllLabels(elems, k).Ok? && IsAlphabet(AllLabels(elems, k).value)
    && match r
       case BadRange(error) =>
         if error.RangeDescending? then Descending(KindOf(elems[k]))
         else error.RangeEndpointNotScalar? && Unscalar(KindOf(elems[k]))
       case DuplicateGlyph(g) =>
         && LabelsOf(elems[k]).Ok? && !IsAlphabet(AllLabels(elems, k + 1).value)
         && var labels := LabelsOf(elems[k]).value;
            exists j :: 0 <= j < |labels| && FirstRepeat(AllLabels(elems, k).value, labels, j) && labels[j] == g
       case _ => false
  }

  method ResolveAlphabet(elems: seq<Elem>) returns (r: Outcome)
    ensures r.Empty? <==> elems == []
    ensures r.Glyphs? <==> && elems != [] && AllLabels(elems, |elems|).Ok?
                           && IsAlphabet(AllLabels(elems, |elems|).value)
                           && |AllLabels(elems, |elems|).value| <= MAX_SYMBOLS
    ensures r.Glyphs? ==> r.glyphs == AllLabels(elems, |elems|).value && AlphabetOf(elems, |elems|, r.glyphs)
    ensures r.BadRange? || r.DuplicateGlyph? ==> exists k :: FirstFault(elems, k, r)
    ensures r.TooLarge? ==> && AllLabels(elems, |elems|).Ok? && IsAlphabet(AllLabels(elems, |elems|).value)
                            && r.count == |AllLabels(elems, |elems|).value| > MAX_SYMBOLS
  {
    hide LabelsOf, AlphabetOf, Descending, Unscalar;
    if elems == [] {
      return Empty;
    }
    var glyphs: seq<string> := [];
    for k := 0 to |elems|
      invariant AllLabels(elems, k) == Ok(glyphs) && IsAlphabet(glyphs)
    {
      var labels := LabelsOf(elems[k]);
      if labels.Err? {
        LabelsList(elems[k]);
        AllLabelsFail(elems, k + 1, |elems|);
        assert FirstFault(elems, k, BadRange(labels.error));
        return BadRange(labels.error);
      }
      var repeated;
      repeated, glyphs := PushGlyphs(glyphs, labels.value);
      if repeated.Some? {
        StaysRepeated(elems, k + 1, |elems|);
        assert FirstFault(elems, k, DuplicateGlyph(repeated.value));
        return DuplicateGlyph(repeated.value);
      }
    }
    AlphabetMeans(elems, |elems|);
    r := if |glyphs| > MAX_SYMBOLS then TooLarge(|glyphs|) else Glyphs(glyphs);
  }

  /** Appends glyphs up to the first that is already there. */
  method PushGlyphs(glyphs: seq<string>, labels: seq<string>) returns (repeated: Option<string>, all: seq<string>)
    requires IsAlphabet(glyphs)
    ensures repeated.None? <==> IsAlphabet(glyphs + labels)
    ensures repeated.None? ==> all == glyphs + labels
    ensures repeated.Some? ==> exists k :: 0 <= k < |labels| && FirstRepeat(glyphs, labels, k) && labels[k] == repeated.value
  {
    all := glyphs;
    for k := 0 to |labels|
      invariant all == glyphs + labels[..k] && IsAlphabet(all)
    {
      assert glyphs + labels[..k + 1] == all + [labels[k]];
      if labels[k] in all {
        Repeats(glyphs, labels, k);
        return Some(labels[k]), all;
      }
      all := all + [labels[k]];
    }
    assert labels[..|labels|] == labels;
    repeated := None;
  }

  lemma Repeats(glyphs: seq<string>, labels: seq<string>, k: nat)
    requires k < |labels| && labels[k] in glyphs + labels[..k]
    ensures !IsAlphabet(glyphs + labels)
  {
    var before, all := glyphs + labels[..k], glyphs + labels;
    var i :| 0 <= i < |before| && before[i] == labels[k];
    assert all[i] == before[i] && all[|glyphs| + k] == labels[k];
  }

  lemma {:induction false} AllLabelsFail(elems: seq<Elem>, k: nat, n: nat)
    requires k <= n <= |elems| && AllLabels(elems, k).Err?
    ensures AllLabels(elems, n) == AllLabels(elems, k)
  {
    hide LabelsOf;
    if k < n {
      AllLabelsFail(elems, k, n - 1);
    }
  }

  lemma {:induction false} StaysRepeated(elems: seq<Elem>, k: nat, n: nat)
    requires k <= n <= |elems| && AllLabels(elems, k).Ok? && !IsAlphabet(AllLabels(elems, k).value)
    ensures AllLabels(elems, n).Ok? ==> !IsAlphabet(AllLabels(elems, n).value)
  {
    hide LabelsOf;
    if k < n {
      StaysRepeated(elems, k, n - 1);
      if AllLabels(elems, n).Ok? {
        var before, all := AllLabels(elems, n - 1).value, AllLabels(elems, n).value;
        assert forall i | 0 <= i < |before| :: all[i] == before[i];
      }
    }
  }

  /** The glyph an element begins with. */
  function Opening(e: Elem): string
  {
    match e
    case One(lit) => Label(lit)
    case Span(lo, _) => Label(lo)
  }

  lemma {:induction false} NumbersOpen(lo: nat, n: nat)
    requires n > 0
    ensures |Numbers(lo, n)| > 0 && Numbers(lo, n)[0].0 == Decimal(lo)
  {
    hide Decimal;
    if n > 1 {
      NumbersOpen(lo, n - 1);
    }
  }

  lemma {:induction false} CharactersOpen(lo: nat, n: nat)
    requires n > 0 && IsScalar(lo)
    ensures |Characters(lo, n)| > 0 && Characters(lo, n)[0].0 == [lo as char]
  {
    if n > 1 {
      CharactersOpen(lo, n - 1);
    } else {
      assert Characters(lo, 0) == [];
    }
  }

  lemma LabelsOpen(e: Elem)
    requires LabelsOf(e).Ok?
    ensures |LabelsOf(e).value| > 0 && LabelsOf(e).value[0] == Opening(e)
  {
    hide Numbers, Characters, Decimal;
    if e.Span? {
      if e.lo.Num? && e.hi.Num? {
        NumbersOpen(e.lo.value, e.hi.value - e.lo.value + 1);
      } else {
        CharactersOpen(e.lo.text[0] as int, e.hi.text[0] as int - e.lo.text[0] as int + 1);
      }
    }
  }

  lemma {:induction false} OpensWith(elems: seq<Elem>, n: nat)
    requires 0 < n <= |elems| && AllLabels(elems, n).Ok?
    ensures |AllLabels(elems, n).value| > 0 && AllLabels(elems, n).value[0] == Opening(elems[0])
  {
    hide LabelsOf, Opening;
    LabelsOpen(elems[n - 1]);
    if n > 1 {
      OpensWith(elems, n - 1);
    } else {
      assert AllLabels(elems, 0) == Ok([]);
    }
  }

  /** An accepted alphabet's blank, symbol 0, is what its first element begins with; its glyphs differ,
      and their indices fit the splice's symbols. */
  lemma AcceptedAlphabet(elems: seq<Elem>)
    requires elems != [] && AllLabels(elems, |elems|).Ok? && |AllLabels(elems, |elems|).value| <= MAX_SYMBOLS
    ensures var glyphs := AllLabels(elems, |elems|).value;
            0 < |glyphs| < SYMBOL_LIMIT && glyphs[0] == Opening(elems[0])
  {
    hide AllLabels, Opening;
    OpensWith(elems, |elems|);
  }
}
