/** The green sink: the parser mirrors token consumption and node boundaries into it, and it
    builds the tree.  A step that the builder would reject leaves `ok` false. */
module PmGreen {

  datatype Kind =
    | File | DocRun | UseDecl | UsePath | Namespace | Function | Label | Statement | Item | CheckArm | Error

  /** The tree over the significant tokens; `Trivia(k)` is whatever stands before token k. */
  datatype Tree = Token(pos: nat) | Trivia(pos: nat) | Node(kind: Kind, children: seq<Tree>)

  /** An open node and where its children begin. */
  datatype Frame = Frame(kind: Kind, first: nat)

  datatype Sink = Sink(frames: seq<Frame>, children: seq<Tree>, flushed: nat, ok: bool)

  function Empty(): Sink
  {
    Sink([], [], 0, true)
  }

  /** Emits the trivia before token pos, once. */
  function Flush(s: Sink, pos: nat): Sink
  {
    if s.flushed > pos then s
    else Sink(s.frames, s.children + [Trivia(pos)], pos + 1, s.ok && s.flushed == pos)
  }

  function Emit(s: Sink, pos: nat): Sink
  {
    var f := Flush(s, pos);
    f.(children := f.children + [Token(pos)])
  }

  function Start(s: Sink, kind: Kind): Sink
  {
    s.(frames := s.frames + [Frame(kind, |s.children|)])
  }

  /** Opens a node at an earlier checkpoint, which must not predate the innermost open node. */
  function StartAt(s: Sink, at: nat, kind: Kind): Sink
  {
    s.(frames := s.frames + [Frame(kind, at)],
       ok := s.ok && at <= |s.children| && (s.frames == [] || s.frames[|s.frames| - 1].first <= at))
  }

  /** Folds the innermost open node's children. */
  function Finish(s: Sink): (r: Sink)
    ensures |r.frames| == if s.frames == [] then 0 else |s.frames| - 1
  {
    if s.frames == [] then s.(ok := false)
    else
      var f := s.frames[|s.frames| - 1];
      var rest := s.frames[..|s.frames| - 1];
      if f.first > |s.children| then s.(frames := rest, ok := false)
      else s.(frames := rest, children := s.children[..f.first] + [Node(f.kind, s.children[f.first..])])
  }

  /** Closes nodes until `depth` remain. */
  function FinishTo(s: Sink, depth: nat): Sink
    decreases |s.frames|
  {
    if |s.frames| <= depth then s.(ok := s.ok && |s.frames| == depth) else FinishTo(Finish(s), depth)
  }

  // ----- what the tree spells -----

  function Leaves(t: Tree): seq<Tree>
    decreases t
  {
    match t
    case Node(_, children) => AllLeaves(children, |children|)
    case _ => [t]
  }

  function AllLeaves(ts: seq<Tree>, n: nat): seq<Tree>
    requires n <= |ts|
    decreases ts, n
  {
    if n == 0 then [] else AllLeaves(ts, n - 1) + Leaves(ts[n - 1])
  }

  function LeavesOf(ts: seq<Tree>): seq<Tree>
  {
    AllLeaves(ts, |ts|)
  }

  /** Every token below n with its trivia, once and in order. */
  function Pieces(n: nat): seq<Tree>
  {
    if n == 0 then [] else Pieces(n - 1) + [Trivia(n - 1), Token(n - 1)]
  }

  lemma {:induction false} LeavesPrefix(a: seq<Tree>, b: seq<Tree>, n: nat)
    requires n <= |a|
    ensures AllLeaves(a + b, n) == AllLeaves(a, n)
  {
    if n > 0 {
      LeavesPrefix(a, b, n - 1);
    }
  }

  lemma {:induction false} LeavesAppend(a: seq<Tree>, b: seq<Tree>, n: nat)
    requires n <= |b|
    ensures AllLeaves(a + b, |a| + n) == LeavesOf(a) + AllLeaves(b, n)
  {
    if n == 0 {
      LeavesPrefix(a, b, |a|);
    } else {
      LeavesAppend(a, b, n - 1);
      assert (a + b)[|a| + n - 1] == b[n - 1];
    }
  }

  lemma LeavesJoin(a: seq<Tree>, b: seq<Tree>)
    ensures LeavesOf(a + b) == LeavesOf(a) + LeavesOf(b)
  {
    hide AllLeaves;
    LeavesAppend(a, b, |b|);
  }

  lemma LeavesOne(t: Tree)
    ensures LeavesOf([t]) == Leaves(t)
  {
    hide Leaves;
    assert [t][0] == t;
    assert AllLeaves([t], 0) == [];
  }

  // ----- the invariant -----

  ghost predicate FramesOk(frames: seq<Frame>, size: nat)
  {
    && (forall i | 0 <= i < |frames| :: frames[i].first <= size)
    && forall i, k | 0 <= i < k < |frames| :: frames[i].first <= frames[k].first
  }

  /** The builder accepted everything, and the tree spells the first pos tokens and no more than
      the next one's trivia. */
  ghost predicate Faithful(s: Sink, pos: nat)
  {
    && s.ok && pos <= s.flushed <= pos + 1 && FramesOk(s.frames, |s.children|)
    && LeavesOf(s.children) == Pieces(pos) + (if s.flushed == pos + 1 then [Trivia(pos)] else [])
  }

  /** The nodes that were open at a seam still are, and those opened since begin behind it. */
  ghost predicate Above(s: Sink, frames: seq<Frame>, floor: nat)
  {
    && frames <= s.frames && floor <= |s.children| && FramesOk(frames, floor)
    && forall i | |frames| <= i < |s.frames| :: floor <= s.frames[i].first
  }

  lemma FlushKeeps(s: Sink, pos: nat, frames: seq<Frame>, floor: nat)
    requires Faithful(s, pos) && Above(s, frames, floor)
    ensures Faithful(Flush(s, pos), pos) && Above(Flush(s, pos), frames, floor)
    ensures Flush(s, pos).frames == s.frames && Flush(s, pos).flushed == pos + 1
  {
    hide AllLeaves, Pieces;
    LeavesJoin(s.children, [Trivia(pos)]);
    LeavesOne(Trivia(pos));
  }

  lemma EmitKeeps(s: Sink, pos: nat, frames: seq<Frame>, floor: nat)
    requires Faithful(s, pos) && Above(s, frames, floor)
    ensures Faithful(Emit(s, pos), pos + 1) && Above(Emit(s, pos), frames, floor)
    ensures Emit(s, pos).frames == s.frames
  {
    hide AllLeaves, Flush;
    FlushKeeps(s, pos, frames, floor);
    var f := Flush(s, pos);
    LeavesJoin(f.children, [Token(pos)]);
    LeavesOne(Token(pos));
  }

  lemma StartKeeps(s: Sink, pos: nat, kind: Kind, frames: seq<Frame>, floor: nat)
    requires Faithful(s, pos) && Above(s, frames, floor)
    ensures Faithful(Start(s, kind), pos) && Above(Start(s, kind), frames, floor)
  {
    hide AllLeaves, Pieces;
  }

  lemma StartAtKeeps(s: Sink, pos: nat, at: nat, kind: Kind, frames: seq<Frame>, floor: nat)
    requires Faithful(s, pos) && Above(s, frames, floor) && floor <= at <= |s.children|
    requires |s.frames| > |frames| ==> s.frames[|s.frames| - 1].first <= at
    ensures Faithful(StartAt(s, at, kind), pos) && Above(StartAt(s, at, kind), frames, floor)
  {
    hide AllLeaves, Pieces;
    if s.frames != [] {
      var last := s.frames[|s.frames| - 1];
      assert |s.frames| == |frames| ==> last == frames[|frames| - 1];
    }
  }

  lemma FinishKeeps(s: Sink, pos: nat, frames: seq<Frame>, floor: nat)
    requires Faithful(s, pos) && Above(s, frames, floor) && |s.frames| > |frames|
    ensures Faithful(Finish(s), pos) && Above(Finish(s), frames, floor)
    ensures Finish(s).frames == s.frames[..|s.frames| - 1]
  {
    hide AllLeaves, Pieces;
    var f := s.frames[|s.frames| - 1];
    var a, b := s.children[..f.first], s.children[f.first..];
    assert s.children == a + b;
    LeavesJoin(a, b);
    LeavesJoin(a, [Node(f.kind, b)]);
    LeavesOne(Node(f.kind, b));
    NodeLeaves(f.kind, b);
  }

  lemma NodeLeaves(kind: Kind, children: seq<Tree>)
    ensures Leaves(Node(kind, children)) == LeavesOf(children)
  {
    hide AllLeaves;
  }

  lemma {:induction false} FinishToKeeps(s: Sink, pos: nat, frames: seq<Frame>, floor: nat)
    requires Faithful(s, pos) && Above(s, frames, floor)
    ensures Faithful(FinishTo(s, |frames|), pos) && Above(FinishTo(s, |frames|), frames, floor)
    ensures FinishTo(s, |frames|).frames == frames
    decreases |s.frames|
  {
    hide Finish, LeavesOf, Pieces;
    if |s.frames| > |frames| {
      FinishKeeps(s, pos, frames, floor);
      FinishToKeeps(Finish(s), pos, frames, floor);
    }
  }

  /** A checkpoint taken now is a seam of its own. */
  lemma SeamHere(s: Sink, pos: nat)
    requires Faithful(s, pos)
    ensures Above(s, s.frames, |s.children|)
  {
    hide LeavesOf, Pieces;
  }

  /** What holds above a seam holds above an earlier one. */
  lemma AboveBoth(s: Sink, seam: Sink, frames: seq<Frame>, floor: nat)
    requires Above(seam, frames, floor) && Above(s, seam.frames, |seam.children|)
    ensures Above(s, frames, floor)
  {
    forall i | |frames| <= i < |s.frames| ensures floor <= s.frames[i].first {
      if i < |seam.frames| {
        assert s.frames[i] == seam.frames[i];
      }
    }
  }
}
