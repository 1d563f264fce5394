/** Lexical path identity.  A map sidecar stores each source relative to its own directory; the debug
    adapter folds that back.  Paths are component lists; nothing here looks at a file system. */
module SourcePaths {
  import opened Options

  datatype Step = Here | Up | Name(text: string)

  /** A path from a root (one a drive, if there are several) or from wherever it is joined to. */
  datatype Anchor = Rooted(drive: string) | Relative

  datatype Path = Path(anchor: Anchor, steps: seq<Step>)

  datatype Result<T> = Ok(value: T) | Absolute | NamesNoFile

  // ----- folding -----

  /** One more component behind a folded path. */
  function Folded(anchor: Anchor, out: seq<Step>, c: Step): seq<Step>
  {
    match c
    case Here => out
    case Name(_) => out + [c]
    case Up =>
      if out != [] && out[|out| - 1].Name? then out[..|out| - 1]
      else if out == [] && anchor.Rooted? then out
      else out + [Up]
  }

  /** Folds the first n steps in behind `out`. */
  function Fold(anchor: Anchor, out: seq<Step>, steps: seq<Step>, n: nat): seq<Step>
    requires n <= |steps|
  {
    if n == 0 then out else Folded(anchor, Fold(anchor, out, steps, n - 1), steps[n - 1])
  }

  function FoldAll(anchor: Anchor, steps: seq<Step>): seq<Step>
  {
    Fold(anchor, [], steps, |steps|)
  }

  /** A folded path only goes up at its start, and only if it is not rooted. */
  predicate IsFolded(p: Path)
  {
    && (forall k | 0 <= k < |p.steps| :: p.steps[k] != Here)
    && (forall k | 0 <= k < |p.steps| && p.steps[k] == Up :: p.anchor.Relative?)
    && (forall i, k | 0 <= i < k < |p.steps| && p.steps[k] == Up :: p.steps[i] == Up)
  }

  function Join(base: Path, p: Path): Path
  {
    if p.anchor.Rooted? then p else Path(base.anchor, base.steps + p.steps)
  }

  /** A path with its `.` and inner `..` folded away. */
  function FoldedPath(p: Path): Path
  {
    Path(p.anchor, FoldAll(p.anchor, p.steps))
  }

  function Resolved(base: Path, p: Path): Path
  {
    FoldedPath(Join(base, p))
  }

  method LexicalAbsolute(base: Path, p: Path) returns (r: Path)
    ensures r == Resolved(base, p)
  {
    var joined := if p.anchor.Rooted? then p else Path(base.anchor, base.steps + p.steps);
    var out: seq<Step> := [];
    for k := 0 to |joined.steps|
      invariant out == Fold(joined.anchor, [], joined.steps, k)
    {
      match joined.steps[k] {
        case Here =>
        case Name(_) => out := out + [joined.steps[k]];
        case Up =>
          if out != [] && out[|out| - 1].Name? {
            out := out[..|out| - 1];
          } else if !(out == [] && joined.anchor.Rooted?) {
            out := out + [Up];
          }
      }
    }
    r := Path(joined.anchor, out);
  }

  lemma FoldedKeeps(anchor: Anchor, out: seq<Step>, c: Step)
    requires IsFolded(Path(anchor, out))
    ensures IsFolded(Path(anchor, Folded(anchor, out, c)))
  {
  }

  lemma {:induction false} FoldKeeps(anchor: Anchor, out: seq<Step>, steps: seq<Step>, n: nat)
    requires n <= |steps| && IsFolded(Path(anchor, out))
    ensures IsFolded(Path(anchor, Fold(anchor, out, steps, n)))
  {
    hide IsFolded;
    if n > 0 {
      FoldKeeps(anchor, out, steps, n - 1);
      FoldedKeeps(anchor, Fold(anchor, out, steps, n - 1), steps[n - 1]);
    }
  }

  lemma {:induction false} FoldPrefix(anchor: Anchor, out: seq<Step>, a: seq<Step>, b: seq<Step>, n: nat)
    requires n <= |a|
    ensures Fold(anchor, out, a + b, n) == Fold(anchor, out, a, n)
  {
    if n > 0 {
      FoldPrefix(anchor, out, a, b, n - 1);
    }
  }

  lemma {:induction false} FoldAppend(anchor: Anchor, out: seq<Step>, a: seq<Step>, b: seq<Step>, n: nat)
    requires n <= |b|
    ensures Fold(anchor, out, a + b, |a| + n) == Fold(anchor, Fold(anchor, out, a, |a|), b, n)
  {
    if n == 0 {
      FoldPrefix(anchor, out, a, b, |a|);
    } else {
      FoldAppend(anchor, out, a, b, n - 1);
      assert (a + b)[|a| + n - 1] == b[n - 1];
    }
  }

  lemma FoldOneMore(anchor: Anchor, out: seq<Step>, a: seq<Step>, c: Step)
    ensures Fold(anchor, out, a + [c], |a| + 1) == Folded(anchor, Fold(anchor, out, a, |a|), c)
  {
    FoldPrefix(anchor, out, a, [c], |a|);
    assert (a + [c])[|a|] == c;
  }

  lemma FoldNext(anchor: Anchor, out: seq<Step>, steps: seq<Step>, n: nat)
    requires n < |steps|
    ensures Fold(anchor, out, steps, n + 1) == Folded(anchor, Fold(anchor, out, steps, n), steps[n])
  {
  }

  /** Folding a list first changes nothing about where it leads from any place. */
  lemma {:induction false} FoldFirst(anchor: Anchor, out: seq<Step>, steps: seq<Step>, n: nat)
    requires n <= |steps|
    ensures var inner := Fold(Relative, [], steps, n);
            Fold(anchor, out, inner, |inner|) == Fold(anchor, out, steps, n)
  {
    hide Fold;
    if n > 0 {
      FoldFirst(anchor, out, steps, n - 1);
      FoldNext(anchor, out, steps, n - 1);
      FoldNext(Relative, [], steps, n - 1);
      var inner := Fold(Relative, [], steps, n - 1);
      FoldStep(anchor, out, inner, steps[n - 1]);
    } else {
      NoSteps(anchor, out);
      NoSteps(Relative, []);
      StartsEmpty(anchor, out, steps);
    }
  }

  lemma StartsEmpty(anchor: Anchor, out: seq<Step>, steps: seq<Step>)
    ensures Fold(anchor, out, steps, 0) == out && Fold(Relative, [], steps, 0) == []
  {
  }

  lemma FoldStep(anchor: Anchor, out: seq<Step>, inner: seq<Step>, c: Step)
    ensures var next := Folded(Relative, inner, c);
            Fold(anchor, out, next, |next|) == Folded(anchor, Fold(anchor, out, inner, |inner|), c)
  {
    hide Fold;
    if c == Up && inner != [] && inner[|inner| - 1].Name? {
      var front := inner[..|inner| - 1];
      assert inner == front + [inner[|inner| - 1]];
      FoldOneMore(anchor, out, front, inner[|inner| - 1]);
    } else if c != Here {
      FoldOneMore(anchor, out, inner, c);
    }
  }

  /** A folded list is what it folds to. */
  lemma {:induction false} FoldedStays(p: Path, n: nat)
    requires IsFolded(p) && n <= |p.steps|
    ensures Fold(p.anchor, [], p.steps, n) == p.steps[..n]
  {
    if n > 0 {
      FoldedStays(p, n - 1);
      assert p.steps[..n] == p.steps[..n - 1] + [p.steps[n - 1]];
    }
  }

  /** Resolving gives a folded path, and a folded rooted path resolves to itself from anywhere. */
  lemma ResolvedFolded(base: Path, p: Path, elsewhere: Path)
    ensures IsFolded(Resolved(base, p))
    ensures IsFolded(p) && p.anchor.Rooted? ==> Resolved(elsewhere, p) == p
    ensures Resolved(base, p).anchor.Rooted? ==> Resolved(elsewhere, Resolved(base, p)) == Resolved(base, p)
  {
    hide Fold, IsFolded;
    var joined := Join(base, p);
    NothingFolded(joined.anchor);
    FoldKeeps(joined.anchor, [], joined.steps, |joined.steps|);
    FoldedWhole(Resolved(base, p));
    if IsFolded(p) {
      FoldedWhole(p);
    }
  }

  lemma NothingFolded(anchor: Anchor)
    ensures IsFolded(Path(anchor, []))
  {
  }

  lemma FoldedWhole(p: Path)
    requires IsFolded(p)
    ensures FoldAll(p.anchor, p.steps) == p.steps
  {
    hide Fold;
    FoldedStays(p, |p.steps|);
  }

  // ----- manifest paths -----

  /** A manifest path without `.` and inner `..`; an absolute one, and one that names nothing, is
      refused. */
  function Normalized(p: Path): Result<Path>
  {
    if p.anchor.Rooted? then Absolute
    else if FoldAll(Relative, p.steps) == [] then NamesNoFile
    else Ok(Path(Relative, FoldAll(Relative, p.steps)))
  }

  method NormalizeRel(p: Path) returns (r: Result<Path>)
    ensures r == Normalized(p)
  {
    hide Fold;
    if p.anchor.Rooted? {
      return Absolute;
    }
    StartsEmpty(Relative, [], p.steps);
    var parts: seq<Step> := [];
    for k := 0 to |p.steps|
      invariant parts == Fold(Relative, [], p.steps, k) && forall i | 0 <= i < |parts| :: parts[i] != Here
    {
      FoldNext(Relative, [], p.steps, k);
      match p.steps[k] {
        case Here =>
        case Name(_) => parts := parts + [p.steps[k]];
        case Up =>
          if parts != [] && parts[|parts| - 1] != Up {
            parts := parts[..|parts| - 1];
          } else {
            parts := parts + [Up];
          }
      }
    }
    r := if parts == [] then NamesNoFile else Ok(Path(Relative, parts));
  }

  /** Replacing a relative path by its normal form never changes where it resolves from any base, and
      one is refused as naming no file exactly when it resolves to every base itself. */
  lemma NormalizingKeepsTarget(base: Path, p: Path)
    requires p.anchor.Relative?
    ensures Normalized(p).Ok? ==> IsFolded(Normalized(p).value) && Resolved(base, Normalized(p).value) == Resolved(base, p)
    ensures Normalized(p).NamesNoFile? <==> forall b :: Resolved(b, p) == FoldedPath(b)
  {
    hide Fold, IsFolded;
    var inner := FoldAll(Relative, p.steps);
    NothingFolded(Relative);
    FoldKeeps(Relative, [], p.steps, |p.steps|);
    NormalFrom(base, p.steps);
    forall b ensures inner == [] ==> Resolved(b, p) == FoldedPath(b) {
      NormalFrom(b, p.steps);
      ResolvedFrom(b, inner);
      NoSteps(b.anchor, FoldedPath(b).steps);
    }
    var here := Path(Relative, []);
    ResolvedFrom(here, p.steps);
    NoSteps(Relative, []);
    assert Resolved(here, p) == FoldedPath(here) ==> inner == [];
  }

  lemma NormalFrom(base: Path, steps: seq<Step>)
    ensures Resolved(base, Path(Relative, FoldAll(Relative, steps))) == Resolved(base, Path(Relative, steps))
  {
    hide Fold;
    ResolvedFrom(base, steps);
    ResolvedFrom(base, FoldAll(Relative, steps));
    FoldFirst(base.anchor, FoldedPath(base).steps, steps, |steps|);
  }

  lemma NoSteps(anchor: Anchor, out: seq<Step>)
    ensures Fold(anchor, out, [], 0) == out
  {
  }

  lemma ResolvedFrom(base: Path, steps: seq<Step>)
    ensures var from := FoldedPath(base).steps;
            Resolved(base, Path(Relative, steps)) == Path(base.anchor, Fold(base.anchor, from, steps, |steps|))
    ensures IsFolded(base) ==> FoldedPath(base) == base
  {
    hide IsFolded, Fold;
    FoldAppend(base.anchor, [], base.steps, steps, |steps|);
    if IsFolded(base) {
      FoldedWhole(base);
    }
  }

  // ----- the relative form -----

  /** How many leading components agree from k on. */
  function Shared(a: seq<Step>, b: seq<Step>, k: nat): (s: nat)
    requires k <= |a| && k <= |b|
    ensures s <= |a| && s <= |b|
    decreases |a| - k
  {
    if k < |a| && k < |b| && a[k] == b[k] then Shared(a, b, k + 1) else k
  }

  function Ups(n: nat): seq<Step>
  {
    seq(n, _ => Up)
  }

  /** Up from what only the base has, then down what only the target has; `.` if that is nothing. */
  function Detour(base: seq<Step>, target: seq<Step>, shared: nat): seq<Step>
    requires shared <= |base| && shared <= |target|
  {
    var steps := Ups(|base| - shared) + target[shared..];
    if steps == [] then [Here] else steps
  }

  /** A rooted path's first component is its root; two paths with no first component in common have no
      relative form. */
  function RelativeForm(base: Path, target: Path): Option<Path>
  {
    var shared := Shared(base.steps, target.steps, 0);
    if base.anchor != target.anchor || (base.anchor.Relative? && shared == 0) then None
    else Some(Path(Relative, Detour(base.steps, target.steps, shared)))
  }

  lemma {:induction false} SharedAgrees(a: seq<Step>, b: seq<Step>, k: nat)
    requires k <= |a| && k <= |b| && a[..k] == b[..k]
    ensures var s := Shared(a, b, k);
            s <= |a| && s <= |b| && a[..s] == b[..s] && (s < |a| && s < |b| ==> a[s] != b[s])
    decreases |a| - k
  {
    if k < |a| && k < |b| && a[k] == b[k] {
      assert a[..k + 1] == a[..k] + [a[k]];
      assert b[..k + 1] == b[..k] + [b[k]];
      SharedAgrees(a, b, k + 1);
    }
  }

  method RelativeTo(base: Path, target: Path) returns (r: Option<Path>)
    ensures r == RelativeForm(base, target)
  {
    if base.anchor != target.anchor {
      return None;
    }
    var shared: nat := 0;
    while shared < |base.steps| && shared < |target.steps| && base.steps[shared] == target.steps[shared]
      invariant shared <= |base.steps| && shared <= |target.steps|
      invariant Shared(base.steps, target.steps, 0) == Shared(base.steps, target.steps, shared)
    {
      shared := shared + 1;
    }
    if base.anchor.Relative? && shared == 0 {
      return None;
    }
    var out := ClimbAndDescend(base.steps, target.steps, shared);
    r := Some(Path(Relative, out));
  }

  method ClimbAndDescend(base: seq<Step>, target: seq<Step>, shared: nat) returns (out: seq<Step>)
    requires shared <= |base| && shared <= |target|
    ensures out == Detour(base, target, shared)
  {
    out := [];
    for k := shared to |base|
      invariant out == Ups(k - shared)
    {
      out := out + [Up];
    }
    ghost var ups := out;
    for k := shared to |target|
      invariant out == ups + target[shared..k]
    {
      out := out + [target[k]];
    }
    if out == [] {
      out := [Here];
    }
  }

  lemma OneMoreUp(anchor: Anchor, out: seq<Step>, n: nat)
    ensures Fold(anchor, out, Ups(n + 1), n + 1) == Folded(anchor, Fold(anchor, out, Ups(n), n), Up)
    ensures Ups(n + 1) == Ups(n) + [Up]
  {
    assert Ups(n + 1) == Ups(n) + [Up];
    FoldPrefix(anchor, out, Ups(n), [Up], n);
  }

  /** Going up through names undoes them. */
  lemma {:induction false} UpThroughNames(anchor: Anchor, out: seq<Step>, n: nat)
    requires n <= |out| && forall k | |out| - n <= k < |out| :: out[k].Name?
    ensures Fold(anchor, out, Ups(n), n) == out[..|out| - n]
  {
    if n > 0 {
      OneMoreUp(anchor, out, n - 1);
      UpThroughNames(anchor, out, n - 1);
    } else {
      NoSteps(anchor, out);
    }
  }

  /** Going up from a relative path that only goes up goes further up. */
  lemma {:induction false} UpFurther(n: nat, m: nat)
    ensures Fold(Relative, Ups(n), Ups(m), m) == Ups(n + m)
  {
    hide Fold, Ups;
    if m > 0 {
      OneMoreUp(Relative, Ups(n), m - 1);
      UpFurther(n, m - 1);
      OneMoreUp(Relative, [], n + m - 1);
      UpsUp(n + m - 1);
    } else {
      UpsUp(0);
      NoSteps(Relative, Ups(n));
      assert n + m == n;
    }
  }

  lemma UpsUp(n: nat)
    ensures Folded(Relative, Ups(n), Up) == Ups(n) + [Up] && Ups(0) == []
  {
  }

  /** The rest of a folded path goes in behind its start unchanged. */
  lemma RestFolds(p: Path, s: nat)
    requires IsFolded(p) && s <= |p.steps|
    ensures Fold(p.anchor, p.steps[..s], p.steps[s..], |p.steps| - s) == p.steps
  {
    hide IsFolded, Fold;
    FoldAppend(p.anchor, [], p.steps[..s], p.steps[s..], |p.steps| - s);
    assert p.steps[..s] + p.steps[s..] == p.steps;
    FoldPrefix(p.anchor, [], p.steps[..s], p.steps[s..], s);
    FoldedStays(p, s);
    FoldedWhole(p);
  }

  /** Does the base go up below what it shares with the target? */
  predicate GoesUp(base: Path, target: Path)
  {
    var s := Shared(base.steps, target.steps, 0);
    s < |base.steps| && base.steps[s] == Up
  }

  lemma DetourLeads(base: Path, target: Path, s: nat)
    requires IsFolded(base) && IsFolded(target) && base.anchor == target.anchor
    requires s <= |base.steps| && s <= |target.steps| && base.steps[..s] == target.steps[..s]
    requires s < |base.steps| ==> base.steps[s] != Up
    ensures Resolved(base, Path(Relative, Detour(base.steps, target.steps, s))) == target
  {
    hide IsFolded, Fold;
    var n, rest := |base.steps| - s, target.steps[s..];
    NamesBelow(base, s);
    UpThroughNames(base.anchor, base.steps, n);
    FoldAppend(base.anchor, base.steps, Ups(n), rest, |rest|);
    RestFolds(target, s);
    ResolvedFrom(base, Ups(n) + rest);
    if Ups(n) + rest == [] {
      ResolvedFrom(base, [Here]);
      HereStays(base.anchor, base.steps);
    }
  }

  lemma NamesBelow(base: Path, s: nat)
    requires IsFolded(base) && s <= |base.steps| && (s < |base.steps| ==> base.steps[s] != Up)
    ensures forall k | s <= k < |base.steps| :: base.steps[k].Name?
  {
  }

  lemma HereStays(anchor: Anchor, out: seq<Step>)
    ensures Fold(anchor, out, [Here], 1) == out && Fold(anchor, out, [], 0) == out
  {
  }

  /** A base that goes up below the shared part leads elsewhere: the name of the directory it left is
      not known. */
  lemma DetourMisses(base: Path, target: Path)
    requires IsFolded(base) && IsFolded(target) && base.anchor == target.anchor && GoesUp(base, target)
    ensures Resolved(base, Path(Relative, Detour(base.steps, target.steps, Shared(base.steps, target.steps, 0)))) != target
  {
    hide Fold, Shared;
    SharedAgrees(base.steps, target.steps, 0);
    var s := Shared(base.steps, target.steps, 0);
    var n, rest := |base.steps| - s, target.steps[s..];
    var u := UpsOf(base, s);
    var names := |base.steps| - u;
    ResolvedFrom(base, Ups(n) + rest);
    FoldAppend(base.anchor, base.steps, Ups(n), rest, |rest|);
    assert Ups(n) == Ups(names) + Ups(n - names);
    FoldAppend(base.anchor, base.steps, Ups(names), Ups(n - names), n - names);
    UpThroughNames(base.anchor, base.steps, names);
    UpFurther(u, n - names);
    NotUp(target, s, base.steps);
    FoldNames(base.anchor, Ups(u + n - names), rest, |rest|);
    assert Ups(u + n - names)[s] == Up;
    if s < |target.steps| {
      assert (Ups(u + n - names) + rest)[s] == Up;
    }
  }

  /** How many times a folded path goes up. */
  lemma {:induction false} UpsOf(base: Path, s: nat) returns (u: nat)
    requires IsFolded(base) && s < |base.steps| && base.steps[s] == Up
    ensures s < u <= |base.steps| && base.steps[..u] == Ups(u)
    ensures forall k | u <= k < |base.steps| :: base.steps[k].Name?
    decreases |base.steps| - s
  {
    if s + 1 < |base.steps| && base.steps[s + 1] == Up {
      u := UpsOf(base, s + 1);
    } else {
      u := s + 1;
    }
  }

  lemma NotUp(target: Path, s: nat, base: seq<Step>)
    requires IsFolded(target) && s <= |target.steps| && s < |base| && base[s] == Up
    requires s < |target.steps| ==> base[s] != target.steps[s]
    ensures forall k | s <= k < |target.steps| :: target.steps[k].Name?
  {
  }

  lemma {:induction false} FoldNames(anchor: Anchor, out: seq<Step>, rest: seq<Step>, n: nat)
    requires n <= |rest| && forall k | 0 <= k < |rest| :: rest[k].Name?
    ensures Fold(anchor, out, rest, n) == out + rest[..n]
  {
    if n > 0 {
      FoldNames(anchor, out, rest, n - 1);
      assert rest[..n] == rest[..n - 1] + [rest[n - 1]];
    }
  }

  // ----- the theorems -----

  /** The stored form leads back to the source exactly when the directory does not go up below what the
      two share; two rooted paths have a form exactly when they share a root, and it leads back. */
  lemma RoundTrip(base: Path, target: Path)
    requires IsFolded(base) && IsFolded(target)
    ensures base.anchor.Rooted? && target.anchor.Rooted? ==>
              (RelativeForm(base, target).Some? <==> base.anchor == target.anchor) && !GoesUp(base, target)
    ensures RelativeForm(base, target).Some? ==>
              (Resolved(base, RelativeForm(base, target).value) == target <==> !GoesUp(base, target))
  {
    hide Fold, Shared, Resolved, Detour;
    SharedAgrees(base.steps, target.steps, 0);
    if base.anchor == target.anchor {
      if GoesUp(base, target) {
        DetourMisses(base, target);
      } else {
        DetourLeads(base, target, Shared(base.steps, target.steps, 0));
      }
    }
  }

  function Below(root: Path, steps: seq<Step>): Path
  {
    Path(root.anchor, root.steps + steps)
  }

  /** A build tree can be moved: what was stored under one root leads to the same place under another. */
  lemma MovedTree(from: Path, to: Path, dir: seq<Step>, source: seq<Step>)
    requires from.anchor.Rooted? && to.anchor.Rooted?
    requires IsFolded(Below(from, dir)) && IsFolded(Below(from, source))
    requires IsFolded(Below(to, dir)) && IsFolded(Below(to, source))
    ensures RelativeForm(Below(from, dir), Below(from, source)).Some?
    ensures Resolved(Below(to, dir), RelativeForm(Below(from, dir), Below(from, source)).value) == Below(to, source)
  {
    hide Fold, Resolved, IsFolded, Detour, Shared;
    var a, b, n := Below(from, dir), Below(from, source), |from.steps|;
    SharedAgrees(a.steps, b.steps, 0);
    SharedAgrees(dir, source, 0);
    SharedBelow(from.steps, dir, source, 0);
    var s := Shared(dir, source, 0);
    assert a.steps[..n] == from.steps == b.steps[..n];
    DetourBelow(from.steps, dir, source, s);
    DetourBelow(to.steps, dir, source, s);
    var c, d := Below(to, dir), Below(to, source);
    assert c.steps[..|to.steps| + s] == to.steps + dir[..s];
    assert d.steps[..|to.steps| + s] == to.steps + source[..s];
    RootedNames(c);
    DetourLeads(c, d, |to.steps| + s);
  }

  lemma RootedNames(p: Path)
    requires IsFolded(p) && p.anchor.Rooted?
    ensures forall k | 0 <= k < |p.steps| :: p.steps[k] != Up
  {
  }

  lemma {:induction false} SharedBelow(root: seq<Step>, a: seq<Step>, b: seq<Step>, k: nat)
    requires k <= |root| + |a| && k <= |root| + |b|
    requires k <= |root| || Shared(a, b, k - |root|) == Shared(a, b, 0)
    ensures Shared(root + a, root + b, k) == |root| + Shared(a, b, 0)
    decreases |root| + |a| - k
  {
    if k < |root| || (k - |root| < |a| && k - |root| < |b| && a[k - |root|] == b[k - |root|]) {
      SharedBelow(root, a, b, k + 1);
    }
  }

  lemma DetourBelow(root: seq<Step>, a: seq<Step>, b: seq<Step>, s: nat)
    requires s <= |a| && s <= |b|
    ensures Detour(root + a, root + b, |root| + s) == Detour(a, b, s)
  {
    DropBelow(root, b, s);
    assert |root + a| - (|root| + s) == |a| - s;
  }

  lemma DropBelow(root: seq<Step>, b: seq<Step>, s: nat)
    requires s <= |b|
    ensures (root + b)[|root| + s..] == b[s..]
  {
  }
}
