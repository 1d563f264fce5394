/** The emitted listing runs as the control-flow graphs do, elided jumps included. */
module PmEmission {
  import opened Options
  import opened Simulation
  import opened PmMachine
  import S = PmSyntax
  import I = PmIr
  import L = PmListing
  import opened PmCodegen
  import opened LineEmitter

  /** No source label names two blocks. */
  ghost predicate LabelsApart(blocks: seq<I.IrBlock>)
  {
    forall a, b, l | 0 <= a < b < |blocks| && l in blocks[a].labels :: l !in blocks[b].labels
  }

  ghost predicate Emittable(ir: seq<I.IrFunction>)
  {
    forall k | 0 <= k < |ir| :: I.ValidBlocks(ir[k].blocks) && LabelsApart(ir[k].blocks)
  }

  function Code(f: I.IrFunction, strip: bool): seq<L.Line>
  {
    Texts(BodyLines(f, strip, |f.blocks|))
  }

  function ListingOf(ir: seq<I.IrFunction>, strip: bool): seq<L.Section>
  {
    seq(|ir|, (k: nat) requires k < |ir| => L.Section(ir[k].name, Code(ir[k], strip)))
  }

  // ----- the listing falls into one section a function -----

  lemma {:induction false} SectionsPrefix(a: seq<L.Line>, b: seq<L.Line>, n: nat)
    requires n <= |a|
    ensures L.Sections(a + b, n) == L.Sections(a, n)
  {
    if n > 0 {
      SectionsPrefix(a, b, n - 1);
    }
  }

  /** Lines without a `.func` line lengthen the last section. */
  lemma {:induction false} SectionsGrow(lines: seq<L.Line>, from: nat, n: nat, name: string)
    requires from < n <= |lines|
    requires lines[from].Func? && lines[from].name == name
    requires forall k | from < k < n :: !lines[k].Func?
    ensures L.Sections(lines, n) == L.Sections(lines, from) + [L.Section(name, lines[from + 1..n])]
  {
    assert lines[from + 1..from + 1] == [];
    if from + 1 < n {
      SectionsGrow(lines, from, n - 1, name);
      assert lines[from + 1..n] == lines[from + 1..n - 1] + [lines[n - 1]];
    }
  }

  lemma {:induction false} OpLinesPlain(ops: seq<I.IrOp>, strip: bool, n: nat)
    requires n <= |ops|
    ensures forall k | 0 <= k < |OpLines(ops, strip, n)| ::
              !OpLines(ops, strip, n)[k].text.Func? && !OpLines(ops, strip, n)[k].text.Label?
  {
    if n > 0 {
      OpLinesPlain(ops, strip, n - 1);
    }
  }

  lemma BlockLinesPlain(f: I.IrFunction, strip: bool, i: nat)
    requires i < |f.blocks|
    ensures forall k | 0 <= k < |BlockLines(f, strip, i)| :: !BlockLines(f, strip, i)[k].text.Func?
  {
    OpLinesPlain(f.blocks[i].ops, strip, |f.blocks[i].ops|);
    hide OpLines, Referenced;
  }

  lemma {:induction false} BodyLinesPlain(f: I.IrFunction, strip: bool, n: nat)
    requires n <= |f.blocks|
    ensures forall k | 0 <= k < |BodyLines(f, strip, n)| :: !BodyLines(f, strip, n)[k].text.Func?
  {
    hide BlockLines;
    if n > 0 {
      BodyLinesPlain(f, strip, n - 1);
      BlockLinesPlain(f, strip, n - 1);
    }
  }

  /** One function adds one section. */
  lemma FunctionSection(before: seq<L.Line>, f: I.IrFunction, strip: bool)
    ensures var all := before + Texts(FunctionLines(f, strip));
            L.Sections(all, |all|)
            == L.Sections(before, |before|) + [L.Section(f.name, Code(f, strip))]
  {
    hide BodyLines, L.Sections;
    BodyLinesPlain(f, strip, |f.blocks|);
    var added := Texts(FunctionLines(f, strip));
    var all := before + added;
    assert added == [L.Func(f.name, f.local)] + Code(f, strip);
    SectionsPrefix(before, added, |before|);
    SectionsGrow(all, |before|, |all|, f.name);
    assert all[|before| + 1..|all|] == Code(f, strip);
  }

  /** Splitting the whole listing at its `.func` lines gives back each function's code. */
  lemma {:induction false} ListingSections(ir: seq<I.IrFunction>, strip: bool, n: nat)
    requires n <= |ir|
    ensures var lines := Texts(ProgramLines(ir, strip, n));
            L.Sections(lines, |lines|) == ListingOf(ir, strip)[..n]
  {
    hide FunctionLines, Code, L.Extend;
    if n > 0 {
      ListingSections(ir, strip, n - 1);
      ProgramGrows(ir, strip, n);
      FunctionSection(Texts(ProgramLines(ir, strip, n - 1)), ir[n - 1], strip);
    }
  }

  lemma ProgramGrows(ir: seq<I.IrFunction>, strip: bool, n: nat)
    requires 0 < n <= |ir|
    ensures Texts(ProgramLines(ir, strip, n))
         == Texts(ProgramLines(ir, strip, n - 1)) + Texts(FunctionLines(ir[n - 1], strip))
    ensures ListingOf(ir, strip)[..n]
         == ListingOf(ir, strip)[..n - 1] + [L.Section(ir[n - 1].name, Code(ir[n - 1], strip))]
  {
    hide FunctionLines, Code;
  }

  // ----- pass 1 -----

  function JumpTarget(line: L.Line): Option<L.Name>
  {
    if line.Jmp? || line.Jm? || line.Jnm? then Some(line.target) else None
  }

  /** Different blocks have different names. */
  lemma NamesApart(blocks: seq<I.IrBlock>, a: nat, b: nat)
    requires I.ValidBlocks(blocks) && LabelsApart(blocks)
    requires a < |blocks| && b < |blocks|
    ensures BlockName(blocks[a]) == BlockName(blocks[b]) ==> a == b
  {
    if a < b {
      NamesDiffer(blocks, a, b);
    } else if b < a {
      NamesDiffer(blocks, b, a);
    }
  }

  lemma NamesDiffer(blocks: seq<I.IrBlock>, a: nat, b: nat)
    requires I.ValidBlocks(blocks) && LabelsApart(blocks)
    requires a < b < |blocks|
    ensures BlockName(blocks[a]) != BlockName(blocks[b])
  {
    assert blocks[a].labels != [] ==> blocks[a].labels[0] in blocks[a].labels;
    assert blocks[b].labels != [] ==> blocks[b].labels[0] in blocks[b].labels;
  }

  /** A terminator's target, its position and its name. */
  lemma TargetAt(blocks: seq<I.IrBlock>, i: nat, id: nat) returns (k: nat)
    requires I.ValidBlocks(blocks) && i < |blocks| && id in I.Targets(blocks[i].term)
    ensures k < |blocks| && blocks[k].id == id && I.IndexOf(blocks, id) == Some(k)
    ensures NameOf(blocks, id) == BlockName(blocks[k])
  {
    assert I.TargetsExist(blocks, blocks[i]);
    k :| 0 <= k < |blocks| && blocks[k].id == id;
    I.IndexFound(blocks, 0, k);
  }

  lemma NamedByTargets(blocks: seq<I.IrBlock>, i: nat)
    requires i < |blocks|
    ensures forall id | id in NamedBy(blocks, i) :: id in I.Targets(blocks[i].term)
  {
  }

  /** The transfer after the i-th block names exactly the blocks of NamedBy. */
  lemma NamedByExact(f: I.IrFunction, i: nat, k: nat)
    requires I.ValidBlocks(f.blocks) && LabelsApart(f.blocks)
    requires i < |f.blocks| && k < |f.blocks|
    ensures f.blocks[k].id in NamedBy(f.blocks, i) <==>
            exists j :: 0 <= j < |TermLines(f, i)|
              && JumpTarget(TermLines(f, i)[j]) == Some(BlockName(f.blocks[k]))
  {
    var blocks := f.blocks;
    var lines := TermLines(f, i);
    forall id | id in NamedBy(blocks, i)
      ensures NameOf(blocks, id) == BlockName(blocks[k]) <==> id == blocks[k].id
    {
      NamedByTargets(blocks, i);
      var m := TargetAt(blocks, i, id);
      NamesApart(blocks, m, k);
      I.IndexFound(blocks, 0, k);
    }
    hide I.ValidBlocks, LabelsApart, NameOf, BlockName, IsNext;
    if f.blocks[k].id in NamedBy(blocks, i) {
      if JumpTarget(lines[0]) != Some(BlockName(blocks[k])) {
        assert JumpTarget(lines[1]) == Some(BlockName(blocks[k]));
      }
    }
  }

  /** Pass 1 marks exactly the blocks that some emitted jump names. */
  lemma {:induction false} ReferencedExact(f: I.IrFunction, n: nat, k: nat)
    requires I.ValidBlocks(f.blocks) && LabelsApart(f.blocks)
    requires n <= |f.blocks| && k < |f.blocks|
    ensures f.blocks[k].id in Referenced(f.blocks, n) <==>
            exists i, j :: 0 <= i < n && 0 <= j < |TermLines(f, i)|
              && JumpTarget(TermLines(f, i)[j]) == Some(BlockName(f.blocks[k]))
  {
    hide NamedBy, TermLines, JumpTarget, BlockName, I.ValidBlocks, LabelsApart;
    if n > 0 {
      ReferencedExact(f, n - 1, k);
      NamedByExact(f, n - 1, k);
    }
  }

  // ----- where things are in the code -----

  function StartPos(f: I.IrFunction, strip: bool, b: nat): nat
    requires b <= |f.blocks|
  {
    |BodyLines(f, strip, b)|
  }

  function OpPos(f: I.IrFunction, strip: bool, b: nat, o: nat): nat
    requires b < |f.blocks| && o <= |f.blocks[b].ops|
  {
    StartPos(f, strip, b) + |PrintedLabels(f, b)| + |OpLines(f.blocks[b].ops, strip, o)|
  }

  lemma {:induction false} BodyAt(f: I.IrFunction, strip: bool, b: nat, n: nat, q: nat)
    requires b < n <= |f.blocks| && q < |BlockLines(f, strip, b)|
    ensures StartPos(f, strip, b) + q < |BodyLines(f, strip, n)|
    ensures BodyLines(f, strip, n)[StartPos(f, strip, b) + q] == BlockLines(f, strip, b)[q]
  {
    hide BlockLines;
    if b < n - 1 {
      BodyAt(f, strip, b, n - 1, q);
    }
  }

  predicate Holds(f: I.IrFunction, strip: bool, pc: nat, line: L.Line)
  {
    pc < |Code(f, strip)| && Code(f, strip)[pc] == line
  }

  lemma LabelAt(f: I.IrFunction, strip: bool, b: nat, j: nat)
    requires b < |f.blocks| && j < |PrintedLabels(f, b)|
    ensures Holds(f, strip, StartPos(f, strip, b) + j, PrintedLabels(f, b)[j])
    ensures PrintedLabels(f, b)[j].Label?
  {
    hide BodyLines, OpLines, TermLines, Referenced;
    BodyAt(f, strip, b, |f.blocks|, j);
  }

  lemma {:induction false} OpLineAt(ops: seq<I.IrOp>, strip: bool, o: nat, n: nat)
    requires o < n <= |ops| && Kept(ops[o], strip)
    ensures |OpLines(ops, strip, o)| < |OpLines(ops, strip, n)|
    ensures OpLines(ops, strip, n)[|OpLines(ops, strip, o)|].text == OpLine(ops[o])
  {
    hide OpLine;
    if o < n - 1 {
      OpLineAt(ops, strip, o, n - 1);
    }
  }

  lemma BlockOpAt(f: I.IrFunction, strip: bool, b: nat, k: nat)
    requires b < |f.blocks| && k < |OpLines(f.blocks[b].ops, strip, |f.blocks[b].ops|)|
    ensures |PrintedLabels(f, b)| + k < |BlockLines(f, strip, b)|
    ensures BlockLines(f, strip, b)[|PrintedLabels(f, b)| + k]
         == OpLines(f.blocks[b].ops, strip, |f.blocks[b].ops|)[k]
  {
    hide PrintedLabels, OpLines, TermLines;
  }

  lemma BlockTermAt(f: I.IrFunction, strip: bool, b: nat, j: nat)
    requires b < |f.blocks| && j < |TermLines(f, b)|
    ensures var q := |PrintedLabels(f, b)| + |OpLines(f.blocks[b].ops, strip, |f.blocks[b].ops|)| + j;
            q < |BlockLines(f, strip, b)| && BlockLines(f, strip, b)[q].text == TermLines(f, b)[j]
  {
    hide PrintedLabels, OpLines, TermLines;
  }

  lemma OpAt(f: I.IrFunction, strip: bool, b: nat, o: nat)
    requires b < |f.blocks| && o < |f.blocks[b].ops| && Kept(f.blocks[b].ops[o], strip)
    ensures Holds(f, strip, OpPos(f, strip, b, o), OpLine(f.blocks[b].ops[o]))
    ensures OpPos(f, strip, b, o + 1) == OpPos(f, strip, b, o) + 1
  {
    hide BodyLines, BlockLines, PrintedLabels, OpLine, OpLines;
    var ops := f.blocks[b].ops;
    OpLineAt(ops, strip, o, |ops|);
    OneMoreLine(ops, strip, o);
    var q := |PrintedLabels(f, b)| + |OpLines(ops, strip, o)|;
    BlockOpAt(f, strip, b, |OpLines(ops, strip, o)|);
    BodyAt(f, strip, b, |f.blocks|, q);
  }

  lemma OneMoreLine(ops: seq<I.IrOp>, strip: bool, o: nat)
    requires o < |ops| && Kept(ops[o], strip)
    ensures |OpLines(ops, strip, o + 1)| == |OpLines(ops, strip, o)| + 1
  {
  }

  lemma TermAt(f: I.IrFunction, strip: bool, b: nat, j: nat)
    requires b < |f.blocks| && j < |TermLines(f, b)|
    ensures Holds(f, strip, OpPos(f, strip, b, |f.blocks[b].ops|) + j, TermLines(f, b)[j])
  {
    hide BodyLines, BlockLines, PrintedLabels, TermLines, OpLines;
    var ops := f.blocks[b].ops;
    var q := |PrintedLabels(f, b)| + |OpLines(ops, strip, |ops|)| + j;
    BlockTermAt(f, strip, b, j);
    BodyAt(f, strip, b, |f.blocks|, q);
  }

  lemma NextStart(f: I.IrFunction, strip: bool, b: nat)
    requires b < |f.blocks|
    ensures StartPos(f, strip, b + 1) == OpPos(f, strip, b, |f.blocks[b].ops|) + |TermLines(f, b)|
  {
    hide PrintedLabels, TermLines, OpLines;
  }

  // ----- label addresses -----

  /** Only a block's own label lines carry its name. */
  lemma {:induction false} NoEarlierLabel(f: I.IrFunction, strip: bool, n: nat, b: nat, pc: nat)
    requires I.ValidBlocks(f.blocks) && LabelsApart(f.blocks)
    requires n <= b < |f.blocks| && pc < StartPos(f, strip, n)
    ensures BodyLines(f, strip, n)[pc].text != L.Label(BlockName(f.blocks[b]))
  {
    hide BlockLines;
    if pc < StartPos(f, strip, n - 1) {
      NoEarlierLabel(f, strip, n - 1, b, pc);
    } else {
      ForeignLabel(f, strip, n - 1, b, pc - StartPos(f, strip, n - 1));
    }
  }

  lemma ForeignLabel(f: I.IrFunction, strip: bool, a: nat, b: nat, q: nat)
    requires I.ValidBlocks(f.blocks) && LabelsApart(f.blocks)
    requires a < b < |f.blocks| && q < |BlockLines(f, strip, a)|
    ensures BlockLines(f, strip, a)[q].text != L.Label(BlockName(f.blocks[b]))
  {
    OpLinesPlain(f.blocks[a].ops, strip, |f.blocks[a].ops|);
    hide OpLines, Referenced, IsNext, NameOf;
    assert f.blocks[b].labels != [] ==> f.blocks[b].labels[0] in f.blocks[b].labels;
    if q < |PrintedLabels(f, a)| && f.blocks[a].labels != [] {
      assert f.blocks[a].labels[q] in f.blocks[a].labels;
    }
  }

  lemma {:induction false} FirstLabel(lines: seq<L.Line>, from: nat, k: nat, name: L.Name)
    requires from <= k < |lines| && lines[k] == L.Label(name)
    requires forall q | from <= q < k :: lines[q] != L.Label(name)
    ensures L.FindLabel(lines, from, name) == Some(k)
    decreases k - from
  {
    if from < k {
      FirstLabel(lines, from + 1, k, name);
    }
  }

  lemma NameFirst(f: I.IrFunction, b: nat)
    requires b < |f.blocks| && f.blocks[b].id in Referenced(f.blocks, |f.blocks|)
    ensures PrintedLabels(f, b) != [] && PrintedLabels(f, b)[0] == L.Label(BlockName(f.blocks[b]))
  {
    hide Referenced;
  }

  lemma {:induction false} BodyPrefix(f: I.IrFunction, strip: bool, b: nat, n: nat, pc: nat)
    requires b <= n <= |f.blocks| && pc < StartPos(f, strip, b)
    ensures pc < |BodyLines(f, strip, n)| && BodyLines(f, strip, n)[pc] == BodyLines(f, strip, b)[pc]
  {
    hide BlockLines;
    if b < n {
      BodyPrefix(f, strip, b, n - 1, pc);
    }
  }

  /** A jump to a referenced block goes to the block's first label line. */
  lemma LabelAddress(f: I.IrFunction, strip: bool, b: nat)
    requires I.ValidBlocks(f.blocks) && LabelsApart(f.blocks)
    requires b < |f.blocks| && f.blocks[b].id in Referenced(f.blocks, |f.blocks|)
    ensures L.FindLabel(Code(f, strip), 0, BlockName(f.blocks[b])) == Some(StartPos(f, strip, b))
  {
    NameFirst(f, b);
    LabelAt(f, strip, b, 0);
    var name := BlockName(f.blocks[b]);
    forall q | 0 <= q < StartPos(f, strip, b) ensures Code(f, strip)[q] != L.Label(name) {
      NoEarlierLabel(f, strip, b, b, q);
      BodyPrefix(f, strip, b, |f.blocks|, q);
    }
    hide Code, BodyLines, PrintedLabels, Referenced, I.ValidBlocks, LabelsApart;
    FirstLabel(Code(f, strip), 0, StartPos(f, strip, b), name);
  }

  // ----- the relation -----

  ghost predicate Stands(ir: seq<I.IrFunction>, strip: bool, place: I.Place, at: L.Place)
  {
    && place.fn < |ir| && place.block < |ir[place.fn].blocks|
    && place.op <= |ir[place.fn].blocks[place.block].ops|
    && at == L.Place(place.fn, OpPos(ir[place.fn], strip, place.block, place.op))
  }

  ghost predicate Related(ir: seq<I.IrFunction>, strip: bool, t: I.State, u: L.State)
  {
    && Stands(ir, strip, t.at, u.at)
    && |t.stack| == |u.stack|
    && (forall k | 0 <= k < |t.stack| :: Stands(ir, strip, t.stack[k], u.stack[k]))
    && t.data == u.data
  }

  /** Where the listing stands still, the graph moves towards the end of its function. */
  function Rank(ir: seq<I.IrFunction>, t: I.State): (nat, nat)
  {
    if t.at.fn < |ir| && t.at.block < |ir[t.at.fn].blocks| then
      var b := ir[t.at.fn].blocks[t.at.block];
      (|ir[t.at.fn].blocks| - t.at.block, if t.at.op <= |b.ops| then |b.ops| - t.at.op else 0)
    else (0, 0)
  }

  ghost predicate Agree(ir: seq<I.IrFunction>, strip: bool, a: Step<I.State, Outcome>,
                        b: Step<L.State, Outcome>)
  {
    match (a, b)
    case (Done(o), Done(o')) => o == o'
    case (Next(t), Next(u)) => Related(ir, strip, t, u)
    case _ => false
  }

  /** What the relation says of the current block. */
  lemma Unpack(ir: seq<I.IrFunction>, strip: bool, t: I.State, u: L.State)
    requires Related(ir, strip, t, u)
    ensures t.at.fn < |ir| && t.at.block < |ir[t.at.fn].blocks|
    ensures t.at.op <= |ir[t.at.fn].blocks[t.at.block].ops|
    ensures u.at == L.Place(t.at.fn, OpPos(ir[t.at.fn], strip, t.at.block, t.at.op))
    ensures t.data == u.data && |t.stack| == |u.stack|
    ensures forall k | 0 <= k < |t.stack| :: Stands(ir, strip, t.stack[k], u.stack[k])
  {
    hide OpPos;
  }

  // ----- steps of the listing -----

  function Stepper(ir: seq<I.IrFunction>, strip: bool): L.State -> Step<L.State, Outcome>
  {
    (u: L.State) => L.ListingStep(ListingOf(ir, strip), u)
  }

  lemma LineStep(ir: seq<I.IrFunction>, strip: bool, u: L.State, line: L.Line)
    requires u.at.fn < |ir| && Holds(ir[u.at.fn], strip, u.at.pc, line)
    ensures Stepper(ir, strip)(u)
         == L.Execute(ListingOf(ir, strip), Code(ir[u.at.fn], strip), u, line)
  {
    hide Code, L.Execute;
  }

  /** Control that arrives at a block passes its label lines. */
  lemma {:induction false} PassLabels(ir: seq<I.IrFunction>, strip: bool, u: L.State, b: nat, j: nat)
    requires u.at.fn < |ir| && b < |ir[u.at.fn].blocks| && j <= |PrintedLabels(ir[u.at.fn], b)|
    requires u.at.pc == StartPos(ir[u.at.fn], strip, b) + j
    ensures Run(Stepper(ir, strip), u, |PrintedLabels(ir[u.at.fn], b)| - j)
         == Next(u.(at := u.at.(pc := OpPos(ir[u.at.fn], strip, b, 0))))
    decreases |PrintedLabels(ir[u.at.fn], b)| - j
  {
    hide Stepper, PrintedLabels, StartPos, Holds, Code, ListingOf;
    var f := ir[u.at.fn];
    if j < |PrintedLabels(f, b)| {
      LabelAt(f, strip, b, j);
      LineStep(ir, strip, u, PrintedLabels(f, b)[j]);
      var u' := u.(at := u.at.(pc := u.at.pc + 1));
      PassLabels(ir, strip, u', b, j + 1);
      RunFirst(Stepper(ir, strip), u, |PrintedLabels(f, b)| - j - 1);
    }
  }

  // ----- matching the graph's steps -----

  /** The graph enters the block where the listing has arrived. */
  lemma ArriveMatched(ir: seq<I.IrFunction>, strip: bool, t: I.State, u: L.State, b: nat)
    returns (k: nat)
    requires Related(ir, strip, t, u) && b < |ir[t.at.fn].blocks|
    ensures var u' := u.(at := u.at.(pc := StartPos(ir[t.at.fn], strip, b)));
            Agree(ir, strip, Next(t.(at := I.Place(t.at.fn, b, 0))), Run(Stepper(ir, strip), u', k))
  {
    hide Stepper, StartPos, PrintedLabels, OpPos, Run;
    var f := ir[t.at.fn];
    k := |PrintedLabels(f, b)|;
    PassLabels(ir, strip, u.(at := u.at.(pc := StartPos(f, strip, b))), b, 0);
  }

  /** A jump line leads where the terminator leads. */
  lemma JumpMatched(ir: seq<I.IrFunction>, strip: bool, t: I.State, u: L.State, id: nat)
    returns (k: nat)
    requires Emittable(ir) && Related(ir, strip, t, u)
    requires id in NamedBy(ir[t.at.fn].blocks, t.at.block)
    ensures var f := ir[t.at.fn];
            Agree(ir, strip, I.EnterBlock(f, t, id),
                  Continue(Stepper(ir, strip), L.JumpTo(Code(f, strip), u, NameOf(f.blocks, id)), k))
  {
    var f := ir[t.at.fn];
    NamedByTargets(f.blocks, t.at.block);
    var b := TargetAt(f.blocks, t.at.block, id);
    NamedIsReferenced(f.blocks, t.at.block, |f.blocks|, id);
    LabelAddress(f, strip, b);
    k := ArriveMatched(ir, strip, t, u, b);
    hide Stepper, StartPos, Referenced, Code, I.IndexFrom, NamedBy, I.ValidBlocks, LabelsApart, OpPos;
  }

  lemma {:induction false} NamedIsReferenced(blocks: seq<I.IrBlock>, i: nat, n: nat, id: nat)
    requires i < n <= |blocks| && id in NamedBy(blocks, i)
    ensures id in Referenced(blocks, n)
  {
    hide NamedBy;
    if i < n - 1 {
      NamedIsReferenced(blocks, i, n - 1, id);
    }
  }

  /** An elided transfer runs on into the next block. */
  lemma ElidedMatched(ir: seq<I.IrFunction>, strip: bool, t: I.State, u: L.State, id: nat)
    returns (k: nat)
    requires Emittable(ir) && Related(ir, strip, t, u)
    requires IsNext(ir[t.at.fn].blocks, t.at.block, id)
    ensures var f := ir[t.at.fn];
            var next := I.Place(t.at.fn, t.at.block + 1, 0);
            var u' := u.(at := u.at.(pc := StartPos(f, strip, t.at.block + 1)));
            && I.EnterBlock(f, t, id) == Next(t.(at := next))
            && Agree(ir, strip, I.EnterBlock(f, t, id), Run(Stepper(ir, strip), u', k))
  {
    var f := ir[t.at.fn];
    I.IndexFound(f.blocks, 0, t.at.block + 1);
    k := ArriveMatched(ir, strip, t, u, t.at.block + 1);
    hide Stepper, StartPos, I.IndexFrom;
  }

  lemma LeaveMatched(ir: seq<I.IrFunction>, strip: bool, t: I.State, u: L.State)
    requires Related(ir, strip, t, u)
    ensures var f := ir[t.at.fn];
            Agree(ir, strip, I.Leave(f, t),
                  L.Execute(ListingOf(ir, strip), Code(f, strip), u,
                            if f.name == "main" then L.Stp else L.Ret))
  {
    hide Stands, ListingOf, Code;
  }

  lemma NamesAgree(ir: seq<I.IrFunction>, strip: bool)
    ensures I.Names(ir) == L.Names(ListingOf(ir, strip))
  {
    hide Code;
  }

  /** Entering a function: the listing passes the labels of its first block. */
  lemma EnterMatched(ir: seq<I.IrFunction>, strip: bool, t: I.State, u: L.State, callee: string,
                     stack: seq<I.Place>, stack': seq<L.Place>) returns (k: nat)
    requires Emittable(ir) && t.data == u.data && |stack| == |stack'|
    requires forall j | 0 <= j < |stack| :: Stands(ir, strip, stack[j], stack'[j])
    ensures Agree(ir, strip, I.Enter(ir, t, callee, stack),
                  Continue(Stepper(ir, strip), L.Enter(ListingOf(ir, strip), u, callee, stack'), k))
  {
    hide Stepper, PrintedLabels, OpPos, StartPos, Emittable, Stands, I.Names, L.Names, S.NamedFrom, ListingOf;
    NamesAgree(ir, strip);
    k := 0;
    var callees := S.FunctionNamed(I.Names(ir), callee);
    if callees.Some? {
      NamesCount(ir);
      EntryStands(ir, strip, callees.value);
      k := |PrintedLabels(ir[callees.value], 0)|;
      PassLabels(ir, strip, L.State(L.Place(callees.value, 0), stack', u.data), 0, 0);
    }
  }

  lemma NamesCount(ir: seq<I.IrFunction>)
    ensures |I.Names(ir)| == |ir|
  {
  }

  /** A function's code starts with its first block. */
  lemma EntryStands(ir: seq<I.IrFunction>, strip: bool, k: nat)
    requires Emittable(ir) && k < |ir|
    ensures ir[k].blocks != [] && StartPos(ir[k], strip, 0) == 0
    ensures Stands(ir, strip, I.Place(k, 0, 0), L.Place(k, OpPos(ir[k], strip, 0, 0)))
  {
    assert I.ValidBlocks(ir[k].blocks);
  }

  /** A stripped operation is passed without moving. */
  lemma StrippedAgrees(ir: seq<I.IrFunction>, strip: bool, t: I.State, u: L.State)
    requires Related(ir, strip, t, u)
    requires t.at.op < |ir[t.at.fn].blocks[t.at.block].ops|
    requires !Kept(ir[t.at.fn].blocks[t.at.block].ops[t.at.op], strip)
    ensures var op := ir[t.at.fn].blocks[t.at.block].ops[t.at.op];
            Agree(ir, strip, Next(t.(at := t.at.(op := t.at.op + 1), data := I.Execute(op, t.data, strip))),
                  Run(Stepper(ir, strip), u, 0))
  {
    hide StartPos, PrintedLabels, Stepper;
  }

  /** A kept operation stands one line further when it is done. */
  lemma KeptStands(ir: seq<I.IrFunction>, strip: bool, t: I.State, u: L.State)
    requires Related(ir, strip, t, u)
    requires t.at.op < |ir[t.at.fn].blocks[t.at.block].ops|
    requires Kept(ir[t.at.fn].blocks[t.at.block].ops[t.at.op], strip)
    ensures Stands(ir, strip, t.at.(op := t.at.op + 1), u.at.(pc := u.at.pc + 1))
    ensures var stack := [t.at.(op := t.at.op + 1)] + t.stack;
            var stack' := [u.at.(pc := u.at.pc + 1)] + u.stack;
            forall k | 0 <= k < |stack| :: Stands(ir, strip, stack[k], stack'[k])
  {
    hide OpPos, Holds;
    OpAt(ir[t.at.fn], strip, t.at.block, t.at.op);
  }

  lemma PlainAgrees(ir: seq<I.IrFunction>, strip: bool, t: I.State, u: L.State)
    requires Related(ir, strip, t, u)
    requires t.at.op < |ir[t.at.fn].blocks[t.at.block].ops|
    requires var op := ir[t.at.fn].blocks[t.at.block].ops[t.at.op]; Kept(op, strip) && !op.Call?
    ensures var f := ir[t.at.fn];
            var op := f.blocks[t.at.block].ops[t.at.op];
            Agree(ir, strip, Next(t.(at := t.at.(op := t.at.op + 1), data := I.Execute(op, t.data, strip))),
                  Continue(Stepper(ir, strip), L.Execute(ListingOf(ir, strip), Code(f, strip), u, OpLine(op)), 0))
  {
    hide Stands, Stepper, ListingOf, Code;
    KeptStands(ir, strip, t, u);
    Unpack(ir, strip, t, u);
  }

  /** Operation t.op of the graph is one line of the listing, or none when stripped. */
  lemma OpMatched(ir: seq<I.IrFunction>, strip: bool, t: I.State, u: L.State) returns (k: nat)
    requires Emittable(ir) && Related(ir, strip, t, u)
    requires t.at.op < |ir[t.at.fn].blocks[t.at.block].ops|
    ensures Agree(ir, strip, I.CfgStep(ir, strip, t), Run(Stepper(ir, strip), u, k))
    ensures k == 0 ==> I.CfgStep(ir, strip, t).Next?
                       && I.CfgStep(ir, strip, t).state.at == t.at.(op := t.at.op + 1)
  {
    hide Emittable, Related, Stands, Stepper, Code, ListingOf, OpPos, I.Enter, L.Enter, I.Transfer, I.CfgStep;
    hide Holds, Agree, Run;
    Unpack(ir, strip, t, u);
    CfgOperates(ir, strip, t);
    var f := ir[t.at.fn];
    var op := f.blocks[t.at.block].ops[t.at.op];
    if !Kept(op, strip) {
      k := 0;
      StrippedAgrees(ir, strip, t, u);
    } else {
      OpAt(f, strip, t.at.block, t.at.op);
      LineStep(ir, strip, u, OpLine(op));
      KeptStands(ir, strip, t, u);
      if op.Call? {
        var j := EnterMatched(ir, strip, t, u, op.name, [t.at.(op := t.at.op + 1)] + t.stack,
                              [u.at.(pc := u.at.pc + 1)] + u.stack);
        RunFirst(Stepper(ir, strip), u, j);
        k := j + 1;
      } else {
        RunFirst(Stepper(ir, strip), u, 0);
        k := 1;
        PlainAgrees(ir, strip, t, u);
      }
    }
  }

  /** The j-th line of the transfer after a block, as control reaches it. */
  lemma TermLineStep(ir: seq<I.IrFunction>, strip: bool, t: I.State, u: L.State, j: nat)
    requires Related(ir, strip, t, u)
    requires t.at.op == |ir[t.at.fn].blocks[t.at.block].ops| && j < |TermLines(ir[t.at.fn], t.at.block)|
    ensures var f := ir[t.at.fn];
            var u' := u.(at := u.at.(pc := u.at.pc + j));
            Stepper(ir, strip)(u') == L.Execute(ListingOf(ir, strip), Code(f, strip), u', TermLines(f, t.at.block)[j])
  {
    hide Stepper, Related, OpPos, TermLines, L.Execute, Code, ListingOf, Holds;
    Unpack(ir, strip, t, u);
    var f := ir[t.at.fn];
    TermAt(f, strip, t.at.block, j);
    LineStep(ir, strip, u.(at := u.at.(pc := u.at.pc + j)), TermLines(f, t.at.block)[j]);
  }

  /** A transfer to one block: a jump, or nothing at all. */
  lemma ToBlockMatched(ir: seq<I.IrFunction>, strip: bool, t: I.State, u: L.State, id: nat) returns (k: nat)
    requires Emittable(ir) && Related(ir, strip, t, u)
    requires t.at.op == |ir[t.at.fn].blocks[t.at.block].ops|
    requires ir[t.at.fn].blocks[t.at.block].term in {I.FallThrough(id), I.Goto(id)}
    ensures Agree(ir, strip, I.EnterBlock(ir[t.at.fn], t, id), Run(Stepper(ir, strip), u, k))
    ensures k == 0 ==> IsNext(ir[t.at.fn].blocks, t.at.block, id)
  {
    hide Emittable, Related, Stands, Agree, Stepper, StartPos, OpPos, Run, I.EnterBlock, L.JumpTo;
    hide Code, ListingOf, NameOf;
    Unpack(ir, strip, t, u);
    var f := ir[t.at.fn];
    if IsNext(f.blocks, t.at.block, id) {
      NextStart(f, strip, t.at.block);
      k := ElidedMatched(ir, strip, t, u, id);
    } else {
      TermLineStep(ir, strip, t, u, 0);
      var j := JumpMatched(ir, strip, t, u, id);
      RunFirst(Stepper(ir, strip), u, j);
      k := j + 1;
    }
  }

  /** `check` with the blank arm next: only the marked arm needs a jump. */
  lemma CheckBlankNext(ir: seq<I.IrFunction>, strip: bool, t: I.State, u: L.State,
                       marked: nat, blank: nat) returns (k: nat)
    requires Emittable(ir) && Related(ir, strip, t, u)
    requires t.at.op == |ir[t.at.fn].blocks[t.at.block].ops|
    requires ir[t.at.fn].blocks[t.at.block].term == I.Check(marked, blank)
    requires IsNext(ir[t.at.fn].blocks, t.at.block, blank)
    ensures k > 0 && Agree(ir, strip, I.EnterBlock(ir[t.at.fn], t, if t.data.mf then marked else blank),
                           Run(Stepper(ir, strip), u, k))
  {
    hide Emittable, Related, Stands, Agree, Stepper, StartPos, OpPos, Run, I.EnterBlock, L.JumpTo;
    hide Code, ListingOf, NameOf;
    Unpack(ir, strip, t, u);
    var f := ir[t.at.fn];
    TermLineStep(ir, strip, t, u, 0);
    if t.data.mf {
      k := JumpMatched(ir, strip, t, u, marked);
    } else {
      NextStart(f, strip, t.at.block);
      k := ElidedMatched(ir, strip, t, u, blank);
    }
    RunFirst(Stepper(ir, strip), u, k);
    k := k + 1;
  }

  /** `check` with the marked arm next: only the blank arm needs a jump. */
  lemma CheckMarkedNext(ir: seq<I.IrFunction>, strip: bool, t: I.State, u: L.State,
                        marked: nat, blank: nat) returns (k: nat)
    requires Emittable(ir) && Related(ir, strip, t, u)
    requires t.at.op == |ir[t.at.fn].blocks[t.at.block].ops|
    requires ir[t.at.fn].blocks[t.at.block].term == I.Check(marked, blank)
    requires IsNext(ir[t.at.fn].blocks, t.at.block, marked)
    requires !IsNext(ir[t.at.fn].blocks, t.at.block, blank)
    ensures k > 0 && Agree(ir, strip, I.EnterBlock(ir[t.at.fn], t, if t.data.mf then marked else blank),
                           Run(Stepper(ir, strip), u, k))
  {
    hide Emittable, Related, Stands, Agree, Stepper, StartPos, OpPos, Run, I.EnterBlock, L.JumpTo;
    hide Code, ListingOf, NameOf;
    Unpack(ir, strip, t, u);
    var f := ir[t.at.fn];
    TermLineStep(ir, strip, t, u, 0);
    if t.data.mf {
      NextStart(f, strip, t.at.block);
      k := ElidedMatched(ir, strip, t, u, marked);
    } else {
      k := JumpMatched(ir, strip, t, u, blank);
    }
    RunFirst(Stepper(ir, strip), u, k);
    k := k + 1;
  }

  /** `check` with neither arm next: a branch and a jump. */
  lemma CheckApart(ir: seq<I.IrFunction>, strip: bool, t: I.State, u: L.State,
                   marked: nat, blank: nat) returns (k: nat)
    requires Emittable(ir) && Related(ir, strip, t, u)
    requires t.at.op == |ir[t.at.fn].blocks[t.at.block].ops|
    requires ir[t.at.fn].blocks[t.at.block].term == I.Check(marked, blank)
    requires !IsNext(ir[t.at.fn].blocks, t.at.block, marked)
    requires !IsNext(ir[t.at.fn].blocks, t.at.block, blank)
    ensures k > 0 && Agree(ir, strip, I.EnterBlock(ir[t.at.fn], t, if t.data.mf then marked else blank),
                           Run(Stepper(ir, strip), u, k))
  {
    hide Emittable, Related, Stands, Agree, Stepper, StartPos, OpPos, Run, I.EnterBlock, L.JumpTo;
    hide Code, ListingOf, NameOf;
    Unpack(ir, strip, t, u);
    TermLineStep(ir, strip, t, u, 0);
    if t.data.mf {
      k := JumpMatched(ir, strip, t, u, marked);
      RunFirst(Stepper(ir, strip), u, k);
    } else {
      TermLineStep(ir, strip, t, u, 1);
      k := JumpMatched(ir, strip, t, u, blank);
      JumpIgnoresPc(Code(ir[t.at.fn], strip), u, u.at.pc + 1, NameOf(ir[t.at.fn].blocks, blank));
      RunFirst(Stepper(ir, strip), u.(at := u.at.(pc := u.at.pc + 1)), k);
      RunFirst(Stepper(ir, strip), u, k + 1);
      k := k + 1;
    }
    k := k + 1;
  }

  lemma JumpIgnoresPc(lines: seq<L.Line>, u: L.State, pc: nat, name: L.Name)
    ensures L.JumpTo(lines, u.(at := u.at.(pc := pc)), name) == L.JumpTo(lines, u, name)
  {
  }

  lemma CfgTransfers(ir: seq<I.IrFunction>, strip: bool, t: I.State)
    requires t.at.fn < |ir| && t.at.block < |ir[t.at.fn].blocks|
    requires t.at.op == |ir[t.at.fn].blocks[t.at.block].ops|
    ensures I.CfgStep(ir, strip, t) == I.Transfer(ir, ir[t.at.fn], t, ir[t.at.fn].blocks[t.at.block].term)
  {
  }

  lemma CfgOperates(ir: seq<I.IrFunction>, strip: bool, t: I.State)
    requires t.at.fn < |ir| && t.at.block < |ir[t.at.fn].blocks|
    requires t.at.op < |ir[t.at.fn].blocks[t.at.block].ops|
    ensures var op := ir[t.at.fn].blocks[t.at.block].ops[t.at.op];
            var after := t.at.(op := t.at.op + 1);
            I.CfgStep(ir, strip, t)
            == if op.Call? then I.Enter(ir, t, op.name, [after] + t.stack)
               else Next(t.(at := after, data := I.Execute(op, t.data, strip)))
  {
  }

  /** A block's terminator is the lines emitted for it. */
  lemma TermMatched(ir: seq<I.IrFunction>, strip: bool, t: I.State, u: L.State) returns (k: nat)
    requires Emittable(ir) && Related(ir, strip, t, u)
    requires t.at.op == |ir[t.at.fn].blocks[t.at.block].ops|
    ensures Agree(ir, strip, I.CfgStep(ir, strip, t), Run(Stepper(ir, strip), u, k))
    ensures k == 0 ==> exists id :: IsNext(ir[t.at.fn].blocks, t.at.block, id)
                                    && I.CfgStep(ir, strip, t) == I.EnterBlock(ir[t.at.fn], t, id)
  {
    hide Emittable, Related, Stands, Stepper, Code, ListingOf, Run, I.EnterBlock, I.Leave, I.Enter, L.Enter;
    hide I.CfgStep, IsNext, OpPos, NameOf, I.Names, L.Names;
    Unpack(ir, strip, t, u);
    var f := ir[t.at.fn];
    var term := f.blocks[t.at.block].term;
    CfgTransfers(ir, strip, t);
    match term
    case FallThrough(to) =>
      k := ToBlockMatched(ir, strip, t, u, to);
    case Goto(to) =>
      k := ToBlockMatched(ir, strip, t, u, to);
    case Check(marked, blank) =>
      if IsNext(f.blocks, t.at.block, blank) {
        k := CheckBlankNext(ir, strip, t, u, marked, blank);
      } else if IsNext(f.blocks, t.at.block, marked) {
        k := CheckMarkedNext(ir, strip, t, u, marked, blank);
      } else {
        k := CheckApart(ir, strip, t, u, marked, blank);
      }
    case Return =>
      TermLineStep(ir, strip, t, u, 0);
      LeaveMatched(ir, strip, t, u);
      RunOnce(Stepper(ir, strip), u);
      k := 1;
    case Halt =>
      TermLineStep(ir, strip, t, u, 0);
      RunOnce(Stepper(ir, strip), u);
      k := 1;
    case TailCall(name) =>
      TermLineStep(ir, strip, t, u, 0);
      var j := EnterMatched(ir, strip, t, u, name, t.stack, u.stack);
      RunFirst(Stepper(ir, strip), u, j);
      k := j + 1;
  }

  // ----- the theorem -----

  /** Every step of the graph is answered by the listing. */
  lemma StepMatched(ir: seq<I.IrFunction>, strip: bool, t: I.State, u: L.State) returns (k: nat)
    requires Emittable(ir) && Related(ir, strip, t, u)
    ensures Agree(ir, strip, I.CfgStep(ir, strip, t), Run(Stepper(ir, strip), u, k))
    ensures k == 0 ==> I.CfgStep(ir, strip, t).Next?
                       && Less(Rank(ir, I.CfgStep(ir, strip, t).state), Rank(ir, t))
  {
    var f := ir[t.at.fn];
    if t.at.op < |f.blocks[t.at.block].ops| {
      k := OpMatched(ir, strip, t, u);
      hide Agree, I.CfgStep, Stepper, Emittable, Run;
    } else {
      k := TermMatched(ir, strip, t, u);
      if k == 0 {
        var id :| IsNext(f.blocks, t.at.block, id) && I.CfgStep(ir, strip, t) == I.EnterBlock(f, t, id);
        I.IndexFound(f.blocks, 0, t.at.block + 1);
        hide Agree, I.CfgStep, Stepper, Emittable, Run, I.IndexFrom;
      } else {
        hide *;
      }
    }
  }

  ghost function Relation(ir: seq<I.IrFunction>, strip: bool): (I.State, L.State) -> bool
  {
    (t: I.State, u: L.State) => Related(ir, strip, t, u)
  }

  function Ranking(ir: seq<I.IrFunction>): I.State -> (nat, nat)
  {
    (t: I.State) => Rank(ir, t)
  }

  lemma ListingSimulates(ir: seq<I.IrFunction>, strip: bool)
    requires Emittable(ir)
    ensures Simulates(I.CfgStepper(ir, strip), Stepper(ir, strip), Relation(ir, strip), Ranking(ir))
  {
    hide I.CfgStep, Stepper, Related, Emittable, Rank, Run;
    forall t, u | Relation(ir, strip)(t, u)
      ensures exists k: nat ::
                Answers(I.CfgStepper(ir, strip), Stepper(ir, strip), Relation(ir, strip), Ranking(ir), t, u, k)
    {
      var k := StepMatched(ir, strip, t, u);
      assert Answers(I.CfgStepper(ir, strip), Stepper(ir, strip), Relation(ir, strip), Ranking(ir), t, u, k);
    }
  }

  /** Emission keeps every behaviour: the graphs and the listing with its elided jumps stop,
      halt, return and leave the module with the same data, and diverge together. */
  lemma EmissionPreservesBehaviour(ir: seq<I.IrFunction>, strip: bool, fn: nat, d: Data)
    requires Emittable(ir) && fn < |ir|
    ensures var cfg := I.CfgStepper(ir, strip);
            var run := Stepper(ir, strip);
            && (forall o :: Finishes(cfg, I.Start(fn, d), o) <==> Finishes(run, L.Start(fn, d), o))
            && (Diverges(cfg, I.Start(fn, d)) <==> Diverges(run, L.Start(fn, d)))
  {
    hide I.CfgStepper, Stepper, Emittable, OpPos, StartPos, PrintedLabels, Ranking, Simulates, Finishes, Diverges, Run;
    EntryStands(ir, strip, fn);
    PassLabels(ir, strip, L.Start(fn, d), 0, 0);
    var u := L.Start(fn, d).(at := L.Place(fn, OpPos(ir[fn], strip, 0, 0)));
    ListingSimulates(ir, strip);
    SameBehaviour(I.CfgStepper(ir, strip), Stepper(ir, strip), Relation(ir, strip), Ranking(ir), I.Start(fn, d), u);
    LaterSame(Stepper(ir, strip), L.Start(fn, d), |PrintedLabels(ir[fn], 0)|);
  }

  /** A run behaves as the run from any state it passes. */
  lemma LaterSame<T(!new), O>(step: T -> Step<T, O>, u: T, k: nat)
    requires Run(step, u, k).Next?
    ensures forall o :: Finishes(step, u, o) <==> Finishes(step, Run(step, u, k).state, o)
    ensures Diverges(step, u) <==> Diverges(step, Run(step, u, k).state)
  {
    var v := Run(step, u, k).state;
    forall n: nat ensures Run(step, u, k + n) == Run(step, v, n) {
      RunSplit(step, u, k, n);
    }
    forall n: nat | Run(step, u, n).Done?
      ensures exists j: nat :: n == k + j && Run(step, v, j) == Run(step, u, n)
    {
      var j := Remaining(step, u, k, n);
    }
  }
}
