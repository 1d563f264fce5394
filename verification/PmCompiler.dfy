/** The PM-1 compiler from flattened source to listing, and its correctness. */
module PmCompiler {
  import opened Options
  import opened Simulation
  import opened PmMachine
  import S = PmSyntax
  import I = PmIr
  import L = PmListing
  import G = PmCodegen
  import E = LineEmitter
  import Lowering = PmLowering
  import Emission = PmEmission

  /** What the parser guarantees of a program: comma-group rules and no label declared twice. */
  ghost predicate Parsed(p: seq<S.Function>)
  {
    forall k | 0 <= k < |p| :: S.WellFormed(p[k]) && S.DistinctLabels(p[k].body)
  }

  /** The first undeclared label of the first n functions. */
  function FirstUndefined(p: seq<S.Function>, n: nat): Option<nat>
    requires n <= |p| && forall k | 0 <= k < n :: I.HasItems(p[k].body)
  {
    if n == 0 then None
    else I.Sooner(FirstUndefined(p, n - 1), I.FirstUndefined(p[n - 1].body, |p[n - 1].body|))
  }

  method Lower(p: seq<S.Function>) returns (r: I.Result<seq<I.IrFunction>>, unreachable: seq<seq<nat>>)
    requires forall k | 0 <= k < |p| :: I.HasItems(p[k].body)
    ensures match FirstUndefined(p, |p|)
            case Some(l) => r == I.UndefinedLabel(l)
            case None => r.Ok? && |r.value| == |p| && forall k | 0 <= k < |p| :: r.value[k] == I.Lowered(p[k])
  {
    hide I.Lowered, I.FirstUndefined, I.UnreachableIds;
    var ir: seq<I.IrFunction> := [];
    unreachable := [];
    for i := 0 to |p|
      invariant FirstUndefined(p, i).None?
      invariant |ir| == i && forall k | 0 <= k < i :: ir[k] == I.Lowered(p[k])
    {
      var f, ids := I.LowerFunction(p[i]);
      if f.UndefinedLabel? {
        FoundUndefined(p, i, |p|);
        return I.UndefinedLabel(f.l), [];
      }
      ir := ir + [f.value];
      unreachable := unreachable + [ids];
    }
    r := I.Ok(ir);
  }

  lemma {:induction false} FoundUndefined(p: seq<S.Function>, i: nat, n: nat)
    requires i < n <= |p| && forall k | 0 <= k < n :: I.HasItems(p[k].body)
    requires FirstUndefined(p, i).None?
    requires I.FirstUndefined(p[i].body, |p[i].body|).Some?
    ensures FirstUndefined(p, n) == I.FirstUndefined(p[i].body, |p[i].body|)
  {
    hide I.FirstUndefined;
    if i + 1 < n {
      FoundUndefined(p, i, n - 1);
    }
  }

  lemma {:induction false} NoneUndefined(p: seq<S.Function>, n: nat, k: nat)
    requires k < n <= |p| && forall k | 0 <= k < n :: I.HasItems(p[k].body)
    requires FirstUndefined(p, n).None?
    ensures I.FirstUndefined(p[k].body, |p[k].body|).None?
  {
    hide I.FirstUndefined;
    if k < n - 1 {
      NoneUndefined(p, n - 1, k);
    }
  }

  /** Source to listing: fails on the first undeclared label, and otherwise emits the sections
      of the lowered functions. */
  method Compile(p: seq<S.Function>, strip: bool)
    returns (r: I.Result<seq<L.Line>>, lineMap: seq<(nat, nat)>, ir: seq<I.IrFunction>)
    requires Parsed(p)
    ensures match FirstUndefined(p, |p|)
            case Some(l) => r == I.UndefinedLabel(l)
            case None =>
              && r.Ok?
              && Lowering.Good(p, ir)
              && L.Sections(r.value, |r.value|) == Emission.ListingOf(ir, strip)
              && lineMap == E.LineMap(G.ProgramLines(ir, strip, |ir|), 0, |G.ProgramLines(ir, strip, |ir|)|)
  {
    hide I.Lowered, I.FirstUndefined, FirstUndefined, E.LineMap, G.ProgramLines, L.Sections;
    var lowered, _ := Lower(p);
    if lowered.UndefinedLabel? {
      return I.UndefinedLabel(lowered.l), [], [];
    }
    ir := lowered.value;
    forall k | 0 <= k < |p| ensures I.FirstUndefined(p[k].body, |p[k].body|).None? {
      NoneUndefined(p, |p|, k);
    }
    var lines, m := G.EmitProgram(lowered.value, strip);
    Emission.ListingSections(ir, strip, |ir|);
    r, lineMap := I.Ok(lines), m;
  }

  // ----- lowered functions can be emitted -----

  /** Each block carries the labels of the statement that opens it. */
  lemma {:induction false} ClosedLabels(body: seq<S.Statement>, n: nat, b: nat) returns (i: nat)
    requires I.HasItems(body) && n <= |body| && b < |I.ClosedBlocks(body, n)|
    ensures i < |body| && I.BlockOf(body, i) == b
    ensures I.ClosedBlocks(body, n)[b].labels == body[i].labels
  {
    hide I.TermOf, I.OpsBefore, I.EndsBlock;
    if b < |I.ClosedBlocks(body, n - 1)| {
      i := ClosedLabels(body, n - 1, b);
    } else {
      i := I.FirstOf(body, n - 1);
      I.ClosedBlocksShape(body, n - 1);
      I.ClosedBlocksShape(body, n);
      FirstOfBlock(body, n - 1);
    }
  }

  lemma {:induction false} FirstOfBlock(body: seq<S.Statement>, i: nat)
    requires I.HasItems(body) && i < |body|
    ensures I.BlockOf(body, I.FirstOf(body, i)) == I.BlockOf(body, i)
  {
    if !I.StartsBlock(body, i) {
      FirstOfBlock(body, i - 1);
    }
  }

  lemma LoweredLabelsApart(body: seq<S.Statement>)
    requires I.HasItems(body) && S.DistinctLabels(body)
    ensures Emission.LabelsApart(I.LoweredBlocks(body))
  {
    var blocks := I.LoweredBlocks(body);
    forall a, b, l | 0 <= a < b < |blocks| && l in blocks[a].labels ensures l !in blocks[b].labels {
      if l in blocks[b].labels {
        var i := ClosedLabels(body, |body|, a);
        var k := ClosedLabels(body, |body|, b);
        LabelTwice(body, i, k, l);
      }
    }
  }

  lemma LabelTwice(body: seq<S.Statement>, i: nat, k: nat, l: nat)
    requires S.DistinctLabels(body) && i < |body| && k < |body|
    requires l in body[i].labels && l in body[k].labels
    ensures i == k
  {
    var a :| 0 <= a < |body[i].labels| && body[i].labels[a] == l;
    var b :| 0 <= b < |body[k].labels| && body[k].labels[b] == l;
  }

  lemma LoweredEmittable(p: seq<S.Function>, ir: seq<I.IrFunction>)
    requires Parsed(p) && Lowering.Good(p, ir)
    ensures Emission.Emittable(ir)
  {
    hide I.LoweredBlocks, I.FirstUndefined, I.ValidBlocks, Emission.LabelsApart;
    forall k | 0 <= k < |ir| ensures I.ValidBlocks(ir[k].blocks) && Emission.LabelsApart(ir[k].blocks) {
      I.LoweredValid(p[k].body);
      LoweredLabelsApart(p[k].body);
    }
  }

  // ----- the compiler is correct -----

  /** The compiled listing behaves as the source: run from any function on any data, both reach
      the same outcome with the same tape, match flag and debugger pauses, or both run for ever. */
  lemma CompilerPreservesBehaviour(p: seq<S.Function>, ir: seq<I.IrFunction>, strip: bool, fn: nat, d: Data)
    requires Parsed(p) && Lowering.Good(p, ir) && fn < |p|
    ensures var src := S.SourceStepper(p, strip);
            var run := Emission.Stepper(ir, strip);
            && (forall o :: Finishes(src, S.Start(fn, d), o) <==> Finishes(run, L.Start(fn, d), o))
            && (Diverges(src, S.Start(fn, d)) <==> Diverges(run, L.Start(fn, d)))
  {
    hide Emission.Emittable, Parsed, Finishes, Diverges, Emission.Stepper;
    LoweredEmittable(p, ir);
    Lowering.LoweringPreservesBehaviour(p, ir, strip, fn, d);
    Emission.EmissionPreservesBehaviour(ir, strip, fn, d);
  }
}
