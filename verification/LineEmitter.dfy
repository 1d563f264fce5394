/** Both code generators collect a listing and, beside it, a map from its lines to source lines. */
module LineEmitter {

  /** A generated line with the source line it stems from; 0 means none. */
  datatype Generated<T> = Generated(text: T, source: nat)

  function From<T>(lines: seq<T>, source: nat): seq<Generated<T>>
  {
    seq(|lines|, (k: nat) requires k < |lines| => Generated(lines[k], source))
  }

  lemma FromAppend<T>(a: seq<T>, b: seq<T>, source: nat)
    ensures From(a + b, source) == From(a, source) + From(b, source)
    ensures From<T>([], source) == []
  {
  }

  function Texts<T>(ls: seq<Generated<T>>): seq<T>
  {
    seq(|ls|, (k: nat) requires k < |ls| => ls[k].text)
  }

  /** The line map of lines generated after `base` others: 1-based on both sides. */
  function LineMap<T>(ls: seq<Generated<T>>, base: nat, n: nat): seq<(nat, nat)>
    requires n <= |ls|
  {
    if n == 0 then []
    else LineMap(ls, base, n - 1)
         + (if ls[n - 1].source != 0 then [(base + n, ls[n - 1].source)] else [])
  }

  /** The line map names every generated line with a source, once and in order. */
  lemma {:induction false} LineMapExact<T>(ls: seq<Generated<T>>, base: nat, n: nat)
    requires n <= |ls|
    ensures forall e :: e in LineMap(ls, base, n) <==>
              base < e.0 <= base + n && ls[e.0 - base - 1].source == e.1 != 0
    ensures forall a, b | 0 <= a < b < |LineMap(ls, base, n)| ::
              LineMap(ls, base, n)[a].0 < LineMap(ls, base, n)[b].0
  {
    if n > 0 {
      LineMapExact(ls, base, n - 1);
      var m := LineMap(ls, base, n - 1);
      forall a | 0 <= a < |m| ensures m[a].0 < base + n {
        assert m[a] in m;
      }
    }
  }

  lemma {:induction false} LineMapPrefix<T>(a: seq<Generated<T>>, b: seq<Generated<T>>, base: nat, n: nat)
    requires n <= |a|
    ensures LineMap(a + b, base, n) == LineMap(a, base, n)
  {
    if n > 0 {
      LineMapPrefix(a, b, base, n - 1);
    }
  }

  /** Collects the listing and the line map. */
  class Emitter<T> {
    var lines: seq<T>
    var lineMap: seq<(nat, nat)>
    ghost var emitted: seq<Generated<T>>

    ghost predicate Valid()
      reads this
    {
      lines == Texts(emitted) && lineMap == LineMap(emitted, 0, |emitted|)
    }

    constructor ()
      ensures Valid() && emitted == []
    {
      lines, lineMap := [], [];
      emitted := [];
    }

    method Push(text: T, source: nat)
      requires Valid()
      modifies this
      ensures Valid() && emitted == old(emitted) + [Generated(text, source)]
    {
      lines := lines + [text];
      if source != 0 {
        lineMap := lineMap + [(|lines|, source)];
      }
      LineMapPrefix(emitted, [Generated(text, source)], 0, |emitted|);
      emitted := emitted + [Generated(text, source)];
    }

    method PushAll(texts: seq<T>, source: nat)
      requires Valid()
      modifies this
      ensures Valid() && emitted == old(emitted) + From(texts, source)
    {
      hide LineMap;
      for k := 0 to |texts|
        invariant Valid() && emitted == old(emitted) + From(texts[..k], source)
      {
        Push(texts[k], source);
        assert From(texts[..k + 1], source) == From(texts[..k], source) + [Generated(texts[k], source)];
      }
      assert texts[..|texts|] == texts;
    }
  }
}
