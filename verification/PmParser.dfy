/** The `.pmc` parser: one walk, which stops at its first error or records it and goes on. */
module PmParser {
  import opened Options
  import opened PmGreen
  import G = PmGrammar
  import Language = PmLanguage
  import Accept = PmAccept
  import Blame = PmBlame

  /** Between tokens, above a seam: everything read so far is in the tree, and what was open at the
      seam still is. */
  ghost predicate Ready(ts: seq<G.TokenKind>, s: G.P, frames: seq<Frame>, floor: nat)
  {
    s.pos < |ts| && Faithful(s.sink, s.pos) && Above(s.sink, frames, floor)
  }

  lemma SeamBelow(s: Sink, frames: seq<Frame>, floor: nat)
    requires Above(s, frames, floor)
    ensures |frames| <= |s.frames|
  {
  }

  /** A production's outcome as the grammar states it. */
  function Outcome<T>(error: Option<G.SyntaxError>, value: T, s: G.P): G.Res<T>
  {
    if error.None? then G.Good(value, s) else G.Bad(error.value, s)
  }

  /** The walk follows the grammar: in fatal mode exactly; in resilient mode exactly until the
      grammar's first error, which is then the first one returned or recorded. */
  ghost predicate Follows<T>(spec: G.Res<T>, before: Option<seq<G.SyntaxError>>, error: Option<G.SyntaxError>, value: T,
                             s: G.P, after: Option<seq<G.SyntaxError>>)
  {
    if before.None? then after.None? && Outcome(error, value, s) == spec
    else
      && after.Some? && before.value <= after.value
      && (spec.Good? ==> after == before && Outcome(error, value, s) == spec)
      && (spec.Bad? ==> (after == before && error == Some(spec.error)) || before.value + [spec.error] <= after.value)
  }

  // ----- where recovery stops -----

  /** The braces open before token i, counted from a token on; a stray closing one counts for nothing. */
  function Depth(ts: seq<G.TokenKind>, from: nat, i: nat): nat
    requires from <= i
    decreases i - from
  {
    if i == from then 0
    else
      var before := Depth(ts, from, i - 1);
      match G.KindAt(ts, i - 1)
      case LBrace => before + 1
      case RBrace => if before == 0 then 0 else before - 1
      case _ => before
  }

  /** `name (`: a declaration. */
  predicate Declares(ts: seq<G.TokenKind>, i: nat)
  {
    && G.KindAt(ts, i).Ident? && G.KindAt(ts, i + 1) == G.LParen
    && G.KindAt(ts, i).name !in {"goto", "check", "left", "right", "mark", "unmark", "halt", "debugger"}
  }

  /** A shape that only an item of a level begins with. */
  predicate BeginsTop(ts: seq<G.TokenKind>, i: nat)
  {
    var k := G.KindAt(ts, i);
    || k.DocLine? || k.AttentionLine? || Declares(ts, i)
    || k == G.Ident("use") || k == G.Ident("namespace") || k == G.Ident("export") || k == G.Ident("volatile")
  }

  /** A shape that only an item of a body begins with; a label or a command does so outside braces. */
  predicate BeginsInBody(ts: seq<G.TokenKind>, from: nat, i: nat)
    requires from <= i
  {
    var k := G.KindAt(ts, i);
    || k.DocLine? || k.AttentionLine? || Declares(ts, i)
    || (Depth(ts, from, i) == 0 && (k.Number? || k.At?
                                    || (k.Ident? && k.name in {"goto", "check", "left", "right", "mark", "unmark", "halt",
                                                               "debugger"})))
  }

  /** A broken region that begins at a token ends before token i: at the end of the file, at the closing brace
      of what is around it, behind a semicolon of its own, or where an item begins. */
  predicate Resumes(ts: seq<G.TokenKind>, from: nat, i: nat, closes: bool, body: bool)
    requires from <= i
  {
    || G.KindAt(ts, i).Eof?
    || (closes && Depth(ts, from, i) == 0 && G.KindAt(ts, i).RBrace?)
    || (i > from && (if body then BeginsInBody(ts, from, i) else BeginsTop(ts, i)))
    || (i > from && G.KindAt(ts, i - 1).Semi? && Depth(ts, from, i - 1) == 0)
  }

  /** Recovery goes on at the first such place. */
  ghost predicate FirstResumes(ts: seq<G.TokenKind>, from: nat, i: nat, closes: bool, body: bool)
  {
    from <= i && Resumes(ts, from, i, closes, body) && forall j | from <= j < i :: !Resumes(ts, from, j, closes, body)
  }

  class Parser {
    const ts: seq<G.TokenKind>
    /** The walk's position, declared names, scope and sink. */
    var s: G.P
    /** The recovered errors; none in fatal mode. */
    var recovered: Option<seq<G.SyntaxError>>

    constructor (tokens: seq<G.TokenKind>, resilient: bool)
      ensures ts == tokens && s == G.File0()
      ensures recovered == if resilient then Some([]) else None
    {
      ts := tokens;
      s := G.File0();
      recovered := if resilient then Some([]) else None;
    }

    // ----- single steps -----

    method Bump(ghost frames: seq<Frame>, ghost floor: nat)
      requires G.Lexed(ts) && Ready(ts, s, frames, floor)
      modifies this`s
      ensures s == G.Bump(ts, old(s))
      ensures Ready(ts, s, frames, floor) && s.sink.frames == old(s.sink.frames)
    {
      hide Faithful, Above;
      if !G.Peek(ts, s).Eof? {
        EmitKeeps(s.sink, s.pos, frames, floor);
      }
      s := G.Bump(ts, s);
    }

    method FlushStart(kind: Kind, ghost frames: seq<Frame>, ghost floor: nat)
      requires Ready(ts, s, frames, floor)
      modifies this`s
      ensures s == G.FlushStart(old(s), kind) && s.pos == old(s.pos)
      ensures Ready(ts, s, frames, floor)
      ensures |s.sink.frames| == |old(s.sink.frames)| + 1 > |frames|
      ensures s.sink.frames[..|s.sink.frames| - 1] == old(s.sink.frames)
    {
      hide Faithful, Above, Flush;
      SeamBelow(s.sink, frames, floor);
      FlushKeeps(s.sink, s.pos, frames, floor);
      StartKeeps(Flush(s.sink, s.pos), s.pos, kind, frames, floor);
      s := G.FlushStart(s, kind);
    }

    method StartNodeAt(at: nat, kind: Kind, ghost frames: seq<Frame>, ghost floor: nat)
      requires Ready(ts, s, frames, floor) && floor <= at <= |s.sink.children|
      requires |s.sink.frames| > |frames| ==> s.sink.frames[|s.sink.frames| - 1].first <= at
      modifies this`s
      ensures s == G.StartNodeAt(old(s), at, kind) && s.pos == old(s.pos)
      ensures Ready(ts, s, frames, floor)
      ensures |s.sink.frames| == |old(s.sink.frames)| + 1 > |frames|
      ensures s.sink.frames[..|s.sink.frames| - 1] == old(s.sink.frames)
    {
      hide Faithful, Above;
      SeamBelow(s.sink, frames, floor);
      StartAtKeeps(s.sink, s.pos, at, kind, frames, floor);
      s := G.StartNodeAt(s, at, kind);
    }

    method FinishNode(ghost frames: seq<Frame>, ghost floor: nat)
      requires Ready(ts, s, frames, floor) && |s.sink.frames| > |frames|
      modifies this`s
      ensures s == G.FinishNode(old(s)) && s.pos == old(s.pos)
      ensures Ready(ts, s, frames, floor)
      ensures s.sink.frames == old(s.sink.frames[..|s.sink.frames| - 1])
    {
      hide Faithful, Above, Finish;
      FinishKeeps(s.sink, s.pos, frames, floor);
      s := G.FinishNode(s);
    }

    /** Flushes the trivia before the next token; the place reached is a checkpoint. */
    method Checkpoint(ghost frames: seq<Frame>, ghost floor: nat) returns (at: nat)
      requires Ready(ts, s, frames, floor)
      modifies this`s
      ensures s == G.Seam(old(s)) && at == |s.sink.children|
      ensures Ready(ts, s, frames, floor) && s.sink.frames == old(s.sink.frames)
      ensures Ready(ts, s, s.sink.frames, at)
    {
      hide Faithful, Above, Flush;
      FlushKeeps(s.sink, s.pos, frames, floor);
      s := G.Seam(s);
      at := |s.sink.children|;
      SeamHere(s.sink, s.pos);
    }

    method Expect(kind: G.TokenKind, what: string, ghost frames: seq<Frame>, ghost floor: nat)
      returns (error: Option<G.SyntaxError>)
      requires G.Lexed(ts) && Ready(ts, s, frames, floor) && !kind.Eof?
      modifies this`s
      ensures Outcome(error, G.Unit, s) == G.Expect(ts, old(s), kind, what)
      ensures Ready(ts, s, frames, floor) && s.sink.frames == old(s.sink.frames)
    {
      hide Faithful, Above, G.Bump;
      if G.Peek(ts, s) != kind {
        return Some(G.SyntaxError(s.pos, G.Expected(what, G.Peek(ts, s))));
      }
      Bump(frames, floor);
      error := None;
    }

    // ----- doc runs -----

    method DocLines(ghost frames: seq<Frame>, ghost floor: nat) returns (error: Option<G.SyntaxError>)
      requires G.Lexed(ts) && Ready(ts, s, frames, floor)
      modifies this`s
      ensures Outcome(error, G.Unit, s) == G.DocLines(ts, old(s), false, false)
      ensures Ready(ts, s, frames, floor) && s.sink.frames == old(s.sink.frames)
    {
      hide Faithful, Above, Ready, G.Bump, G.ParseAttr, G.Lexed;
      var attention, deprecated := false, false;
      while G.IsDoc(G.Peek(ts, s))
        invariant Ready(ts, s, frames, floor) && s.sink.frames == old(s.sink.frames) && s.pos <= |ts|
        invariant G.DocLines(ts, s, attention, deprecated) == G.DocLines(ts, old(s), false, false)
        decreases |ts| - s.pos
      {
        var at := s.pos;
        match G.Peek(ts, s)
        case DocLine =>
          if attention {
            return Some(G.SyntaxError(at, G.DocLineOrder));
          }
          Bump(frames, floor);
        case AttentionLine(text) =>
          Bump(frames, floor);
          attention := true;
          match G.ParseAttr(text) {
            case None =>
            case Some(name) =>
              if name != "deprecated" {
                return Some(G.SyntaxError(at, G.UnknownAttribute(name)));
              }
              if deprecated {
                return Some(G.SyntaxError(at, G.DuplicateAttribute));
              }
              deprecated := true;
          }
        case _ =>
      }
      error := None;
    }
  
    method DocRunNode(ghost frames: seq<Frame>, ghost floor: nat) returns (error: Option<G.SyntaxError>)
      requires G.Lexed(ts) && Ready(ts, s, frames, floor)
      modifies this`s
      ensures Outcome(error, G.Unit, s) == G.DocRunNode(ts, old(s))
      ensures Ready(ts, s, frames, floor) && (error.None? ==> s.sink.frames == old(s.sink.frames))
    {
      hide Faithful, Above, Ready, G.Bump, G.FlushStart, G.FinishNode, G.Lexed, G.DocLines;
      FlushStart(Kind.DocRun, frames, floor);
      error := DocLines(frames, floor);
      if error.None? {
        FinishNode(frames, floor);
      }
    }

    // ----- paths and imports -----

    method PathTail(ghost frames: seq<Frame>, ghost floor: nat) returns (error: Option<G.SyntaxError>)
      requires G.Lexed(ts) && Ready(ts, s, frames, floor)
      modifies this`s
      ensures Outcome(error, G.Unit, s) == G.PathTail(ts, old(s))
      ensures Ready(ts, s, frames, floor) && (error.None? ==> s.sink.frames == old(s.sink.frames))
    {
      hide Faithful, Above, Ready, G.Bump, G.FlushStart, G.FinishNode, G.Lexed;
      while G.Peek(ts, s).ColonColon?
        invariant Ready(ts, s, frames, floor) && s.sink.frames == old(s.sink.frames) && s.pos <= |ts|
        invariant G.PathTail(ts, s) == G.PathTail(ts, old(s))
        decreases |ts| - s.pos
      {
        Bump(frames, floor);
        var k := G.Peek(ts, s);
        if !k.Ident? {
          return Some(G.SyntaxError(s.pos, G.Expected("a name after `::`", k)));
        }
        if k.name in G.RESERVED {
          return Some(G.SyntaxError(s.pos, G.ReservedName(k.name, "path segment")));
        }
        Bump(frames, floor);
      }
      error := None;
    }

    method Alias(ghost frames: seq<Frame>, ghost floor: nat) returns (error: Option<G.SyntaxError>)
      requires G.Lexed(ts) && Ready(ts, s, frames, floor)
      modifies this`s
      ensures Outcome(error, G.Unit, s) == G.Alias(ts, old(s))
      ensures Ready(ts, s, frames, floor) && (error.None? ==> s.sink.frames == old(s.sink.frames))
    {
      hide Faithful, Above, Ready, G.Bump, G.FlushStart, G.FinishNode, G.Lexed;
      if G.Peek(ts, s) == G.Ident("as") {
        Bump(frames, floor);
        if !G.Peek(ts, s).Ident? {
          return Some(G.SyntaxError(s.pos, G.Expected("an alias after `as`", G.Peek(ts, s))));
        }
        Bump(frames, floor);
      }
      error := None;
    }

    method Import(ghost frames: seq<Frame>, ghost floor: nat) returns (error: Option<G.SyntaxError>)
      requires G.Lexed(ts) && Ready(ts, s, frames, floor)
      modifies this`s
      ensures Outcome(error, G.Unit, s) == G.Import(ts, old(s))
      ensures Ready(ts, s, frames, floor) && (error.None? ==> s.sink.frames == old(s.sink.frames))
    {
      hide Faithful, Above, Ready, G.Bump, G.FlushStart, G.FinishNode, G.Lexed, G.PathTail, G.Alias;
      var k := G.Peek(ts, s);
      if !k.Ident? || k.name in G.RESERVED {
        return Some(G.SyntaxError(s.pos, G.Expected("an imported function name", k)));
      }
      FlushStart(UsePath, frames, floor);
      Bump(frames, floor);
      error := PathTail(frames, floor);
      if error.None? {
        error := Alias(frames, floor);
        if error.None? {
          FinishNode(frames, floor);
        }
      }
    }

    method Imports(ghost frames: seq<Frame>, ghost floor: nat) returns (error: Option<G.SyntaxError>)
      requires G.Lexed(ts) && Ready(ts, s, frames, floor)
      modifies this`s
      ensures Outcome(error, G.Unit, s) == G.Imports(ts, old(s))
      ensures Ready(ts, s, frames, floor) && (error.None? ==> s.sink.frames == old(s.sink.frames))
    {
      hide Faithful, Above, Ready, G.Bump, G.FlushStart, G.FinishNode, G.Lexed, G.Import;
      while true
        invariant Ready(ts, s, frames, floor) && s.sink.frames == old(s.sink.frames) && s.pos <= |ts|
        invariant G.Imports(ts, s) == G.Imports(ts, old(s))
        decreases |ts| - s.pos
      {
        error := Import(frames, floor);
        if error.Some? {
          return;
        }
        match G.Peek(ts, s)
        case Comma =>
          Bump(frames, floor);
        case Semi =>
          Bump(frames, floor);
          return;
        case Colon =>
          return Some(G.SyntaxError(s.pos, G.SingleColonInPath));
        case _ =>
          return Some(G.SyntaxError(s.pos, G.Expected("`,` or `;`", G.Peek(ts, s))));
      }
    }

    // ----- statements -----

    method Successor(ghost frames: seq<Frame>, ghost floor: nat) returns (given: bool)
      requires G.Lexed(ts) && Ready(ts, s, frames, floor)
      modifies this`s
      ensures (given, s) == G.Successor(ts, old(s))
      ensures Ready(ts, s, frames, floor) && s.sink.frames == old(s.sink.frames)
    {
      hide Faithful, Above, Ready, G.Bump, G.FlushStart, G.FinishNode, G.Lexed;
      given := G.Peek(ts, s).Number? || G.Peek(ts, s).Bang?;
      if given {
        Bump(frames, floor);
      }
    }

    method Arm(ghost frames: seq<Frame>, ghost floor: nat) returns (error: Option<G.SyntaxError>)
      requires G.Lexed(ts) && Ready(ts, s, frames, floor)
      modifies this`s
      ensures Outcome(error, G.Unit, s) == G.Arm(ts, old(s))
      ensures Ready(ts, s, frames, floor) && (error.None? ==> s.sink.frames == old(s.sink.frames))
    {
      hide Faithful, Above, Ready, G.Bump, G.FlushStart, G.FinishNode, G.Lexed;
      if !(G.Peek(ts, s).Number? || G.Peek(ts, s).Bang?) {
        return Some(G.SyntaxError(s.pos, G.Expected("a label number or `!`", G.Peek(ts, s))));
      }
      Bump(frames, floor);
      error := None;
    }

    method CallItem(ghost frames: seq<Frame>, ghost floor: nat) returns (error: Option<G.SyntaxError>, shape: G.Shape)
      requires G.Lexed(ts) && Ready(ts, s, frames, floor)
      modifies this`s
      ensures Outcome(error, shape, s) == G.CallItem(ts, old(s))
      ensures Ready(ts, s, frames, floor) && (error.None? ==> s.sink.frames == old(s.sink.frames))
    {
      hide Faithful, Above, Ready, G.Bump, G.FlushStart, G.FinishNode, G.Lexed, G.PathTail, G.Expect, G.Successor;
      shape := G.BareShape;
      var k := G.Peek(ts, s);
      if !k.Ident? {
        return Some(G.SyntaxError(s.pos, G.Expected("a function name after `@`", k))), shape;
      }
      if k.name in G.RESERVED {
        return Some(G.SyntaxError(s.pos, G.BuiltinCalled(k.name))), shape;
      }
      Bump(frames, floor);
      error := PathTail(frames, floor);
      if error.Some? {
        return;
      }
      if G.Peek(ts, s).Colon? {
        return Some(G.SyntaxError(s.pos, G.SingleColonInPath)), shape;
      }
      error := Expect(G.LParen, "`(` (user calls are written `@name()`)", frames, floor);
      if error.Some? {
        return;
      }
      var given := Successor(frames, floor);
      shape := if given then G.SuccessorShape else G.BareShape;
      error := Expect(G.RParen, "`)`", frames, floor);
    }

    method GotoTarget(ghost frames: seq<Frame>, ghost floor: nat) returns (error: Option<G.SyntaxError>)
      requires G.Lexed(ts) && Ready(ts, s, frames, floor)
      modifies this`s
      ensures Outcome(error, G.GotoShape, s) == G.GotoTarget(ts, old(s))
      ensures Ready(ts, s, frames, floor) && (error.None? ==> s.sink.frames == old(s.sink.frames))
    {
      hide Faithful, Above, Ready, G.Bump, G.FlushStart, G.FinishNode, G.Lexed;
      match G.Peek(ts, s)
      case Number(_, _) =>
        Bump(frames, floor);
        error := None;
      case Bang =>
        error := Some(G.SyntaxError(s.pos, G.GotoReturn));
      case _ =>
        error := Some(G.SyntaxError(s.pos, G.Expected("a numeric label after `goto`", G.Peek(ts, s))));
    }

    method CheckArms(ghost frames: seq<Frame>, ghost floor: nat) returns (error: Option<G.SyntaxError>)
      requires G.Lexed(ts) && Ready(ts, s, frames, floor)
      modifies this`s
      ensures Outcome(error, G.CheckShape, s) == G.CheckArms(ts, old(s))
      ensures Ready(ts, s, frames, floor) && (error.None? ==> s.sink.frames == old(s.sink.frames))
    {
      hide Faithful, Above, Ready, G.Bump, G.FlushStart, G.FinishNode, G.Lexed, G.Expect, G.Arm;
      error := Expect(G.LParen, "`(` after `check`", frames, floor);
      if error.Some? {
        return;
      }
      FlushStart(CheckArm, frames, floor);
      error := Arm(frames, floor);
      if error.Some? {
        return;
      }
      FinishNode(frames, floor);
      error := Expect(G.Comma, "`,` between check arms", frames, floor);
      if error.Some? {
        return;
      }
      FlushStart(CheckArm, frames, floor);
      error := Arm(frames, floor);
      if error.Some? {
        return;
      }
      FinishNode(frames, floor);
      error := Expect(G.RParen, "`)`", frames, floor);
    }

    method BuiltinTail(word: string, ghost frames: seq<Frame>, ghost floor: nat)
      returns (error: Option<G.SyntaxError>, shape: G.Shape)
      requires G.Lexed(ts) && Ready(ts, s, frames, floor)
      modifies this`s
      ensures Outcome(error, shape, s) == G.BuiltinTail(ts, old(s), word)
      ensures Ready(ts, s, frames, floor) && (error.None? ==> s.sink.frames == old(s.sink.frames))
    {
      hide Faithful, Above, Ready, G.Bump, G.FlushStart, G.FinishNode, G.Lexed, G.Expect, G.Successor;
      shape := G.BareShape;
      if !G.Peek(ts, s).LParen? {
        return None, shape;
      }
      var at := s.pos;
      Bump(frames, floor);
      if G.Peek(ts, s).RParen? {
        return Some(G.SyntaxError(at, G.EmptyBuiltinParens(word))), shape;
      }
      var given := Successor(frames, floor);
      shape := if given then G.SuccessorShape else G.BareShape;
      error := Expect(G.RParen, "`)`", frames, floor);
    }

    method OneItem(inGroup: bool, ghost frames: seq<Frame>, ghost floor: nat)
      returns (error: Option<G.SyntaxError>, shape: G.Shape)
      requires G.Lexed(ts) && Ready(ts, s, frames, floor)
      modifies this`s
      ensures Outcome(error, shape, s) == G.OneItem(ts, old(s), inGroup)
      ensures Ready(ts, s, frames, floor) && (error.None? ==> s.sink.frames == old(s.sink.frames))
    {
      hide Faithful, Above, Ready, G.Bump, G.FlushStart, G.FinishNode, G.Lexed, G.CallItem, G.GotoTarget, G.CheckArms,
        G.BuiltinTail;
      error, shape := None, G.BareShape;
      match G.Peek(ts, s)
      case At =>
        Bump(frames, floor);
        error, shape := CallItem(frames, floor);
      case Ident(word) =>
        if word == "goto" {
          if inGroup {
            return Some(G.SyntaxError(s.pos, G.GroupPosition("goto cannot appear in a comma group"))), shape;
          }
          Bump(frames, floor);
          shape := G.GotoShape;
          error := GotoTarget(frames, floor);
        } else if word == "check" {
          Bump(frames, floor);
          shape := G.CheckShape;
          error := CheckArms(frames, floor);
        } else if word == "halt" {
          Bump(frames, floor);
          shape := G.HaltShape;
        } else if word == "debugger" {
          Bump(frames, floor);
        } else if word in {"left", "right", "mark", "unmark"} {
          Bump(frames, floor);
          error, shape := BuiltinTail(word, frames, floor);
        } else if word in {"use", "namespace"} {
          error := Some(G.SyntaxError(s.pos, G.KeywordInBody(word)));
        } else {
          error := Some(G.SyntaxError(s.pos, G.UnknownCommand(word)));
        }
      case _ =>
        error := Some(G.SyntaxError(s.pos, G.Expected("a command", G.Peek(ts, s))));
    }

    method StatementBody(ghost frames: seq<Frame>, ghost floor: nat) returns (error: Option<G.SyntaxError>)
      requires G.Lexed(ts) && Ready(ts, s, frames, floor)
      modifies this`s
      ensures Outcome(error, G.Unit, s) == G.StatementBody(ts, old(s))
      ensures Ready(ts, s, frames, floor) && (error.None? ==> s.sink.frames == old(s.sink.frames))
    {
      hide Faithful, Above, G.Bump, G.FlushStart, G.FinishNode, G.Lexed, G.OneItem, G.Expect, G.GroupRule;
      var last;
      FlushStart(Item, frames, floor);
      error, last := OneItem(false, frames, floor);
      if error.Some? {
        return;
      }
      FinishNode(frames, floor);
      while G.Peek(ts, s).Comma?
        invariant Ready(ts, s, frames, floor) && s.sink.frames == old(s.sink.frames) && s.pos <= |ts|
        invariant G.GroupTail(ts, s, last) == G.StatementBody(ts, old(s))
        decreases |ts| - s.pos
      {
        if G.GroupRule(last).Some? {
          return Some(G.SyntaxError(s.pos, G.GroupPosition(G.GroupRule(last).value)));
        }
        Bump(frames, floor);
        FlushStart(Item, frames, floor);
        error, last := OneItem(true, frames, floor);
        if error.Some? {
          return;
        }
        FinishNode(frames, floor);
      }
      error := Expect(G.Semi, "`;`", frames, floor);
    }

    method Labels(ghost frames: seq<Frame>, ghost floor: nat)
      returns (error: Option<G.SyntaxError>, first: Option<nat>)
      requires G.Lexed(ts) && Ready(ts, s, frames, floor)
      modifies this`s
      ensures Outcome(error, first, s) == G.Labels(ts, old(s), None)
      ensures Ready(ts, s, frames, floor) && (error.None? ==> s.sink.frames == old(s.sink.frames))
    {
      hide Faithful, Above, Ready, G.Bump, G.FlushStart, G.FinishNode, G.Lexed, G.Expect;
      error, first := None, None;
      while G.Peek(ts, s).Number?
        invariant Ready(ts, s, frames, floor) && s.sink.frames == old(s.sink.frames) && s.pos <= |ts|
        invariant G.Labels(ts, s, first) == G.Labels(ts, old(s), None) && error.None?
        decreases |ts| - s.pos
      {
        var at, n := s.pos, G.Peek(ts, s).value;
        FlushStart(Label, frames, floor);
        Bump(frames, floor);
        error := Expect(G.Colon, "`:` after a label number", frames, floor);
        if error.Some? {
          return;
        }
        FinishNode(frames, floor);
        if n in s.scope.labels {
          return Some(G.SyntaxError(at, G.DuplicateLabel(n))), first;
        }
        AddLabel(n, frames, floor);
        first := if first.Some? then first else Some(n);
      }
    }

    method AddLabel(n: nat, ghost frames: seq<Frame>, ghost floor: nat)
      requires Ready(ts, s, frames, floor)
      modifies this`s
      ensures s == old(s).(scope := old(s).scope.(labels := old(s).scope.labels + {n}))
      ensures Ready(ts, s, frames, floor)
    {
      s := s.(scope := s.scope.(labels := s.scope.labels + {n}));
    }
  
    // ----- recovery -----

    method Unwind(ghost seam: Sink, depth: nat)
      requires Ready(ts, s, seam.frames, |seam.children|) && depth == |seam.frames|
      modifies this`s
      ensures s.pos == old(s.pos) && s.scope == old(s.scope)
      ensures Ready(ts, s, seam.frames, |seam.children|) && s.sink.frames == seam.frames
    {
      hide Faithful, Above, FinishTo;
      FinishToKeeps(s.sink, s.pos, seam.frames, |seam.children|);
      s := s.(sink := FinishTo(s.sink, depth));
    }

    predicate StartsItem(i: nat)
    {
      var k := G.KindAt(ts, i);
      G.IsDoc(k) || (k.Ident? && (k.name in {"use", "namespace", "export", "volatile"}
                                  || (k.name !in G.RESERVED && G.KindAt(ts, i + 1).LParen?)))
    }

    predicate StartsBodyItem(i: nat, depth: nat)
    {
      var k := G.KindAt(ts, i);
      || G.IsDoc(k)
      || ((k.Number? || G.IsCommand(k)) && depth == 0)
      || (k.Ident? && k.name !in G.RESERVED && G.KindAt(ts, i + 1).LParen?)
    }

    /** Skips to where the next item can start; only an end of the level stops it at once. */
    method SkipToSync(block: bool, ghost frames: seq<Frame>, ghost floor: nat)
      requires G.Lexed(ts) && Ready(ts, s, frames, floor)
      modifies this`s
      ensures Ready(ts, s, frames, floor) && s.sink.frames == old(s.sink.frames) && s.scope == old(s.scope)
      ensures FirstResumes(ts, old(s.pos), s.pos, block, false)
      ensures s.pos == old(s.pos) ==> G.Peek(ts, s).Eof? || (block && G.Peek(ts, s).RBrace?)
    {
      hide Faithful, Above, G.Lexed, Emit;
      var first, depth := true, 0;
      while true
        invariant Ready(ts, s, frames, floor) && s.sink.frames == old(s.sink.frames) && s.scope == old(s.scope)
        invariant s.pos >= old(s.pos) && (first ==> s.pos == old(s.pos) && depth == 0) && (!first ==> s.pos > old(s.pos))
        invariant depth == Depth(ts, old(s.pos), s.pos)
        invariant forall j | old(s.pos) <= j < s.pos :: !Resumes(ts, old(s.pos), j, block, false)
        invariant !first ==> !(G.KindAt(ts, s.pos - 1).Semi? && Depth(ts, old(s.pos), s.pos - 1) == 0)
        decreases |ts| - s.pos
      {
        var k := G.Peek(ts, s);
        if k.Eof? || (depth == 0 && block && k.RBrace?) || (!first && StartsItem(s.pos)) {
          return;
        }
        if k.LBrace? {
          depth := depth + 1;
        } else if k.RBrace? && depth > 0 {
          depth := depth - 1;
        }
        var semi := k.Semi? && depth == 0;
        Bump(frames, floor);
        first := false;
        if semi {
          return;
        }
      }
    }

    /** Skips to where the next statement can start; only the body's end stops it at once. */
    method SkipToStatementSync(ghost frames: seq<Frame>, ghost floor: nat)
      requires G.Lexed(ts) && Ready(ts, s, frames, floor)
      modifies this`s
      ensures Ready(ts, s, frames, floor) && s.sink.frames == old(s.sink.frames) && s.scope == old(s.scope)
      ensures FirstResumes(ts, old(s.pos), s.pos, true, true)
      ensures s.pos == old(s.pos) ==> G.Peek(ts, s).Eof? || G.Peek(ts, s).RBrace?
    {
      hide Faithful, Above, G.Lexed, Emit;
      var first, depth := true, 0;
      while true
        invariant Ready(ts, s, frames, floor) && s.sink.frames == old(s.sink.frames) && s.scope == old(s.scope)
        invariant s.pos >= old(s.pos) && (first ==> s.pos == old(s.pos) && depth == 0) && (!first ==> s.pos > old(s.pos))
        invariant depth == Depth(ts, old(s.pos), s.pos)
        invariant forall j | old(s.pos) <= j < s.pos :: !Resumes(ts, old(s.pos), j, true, true)
        invariant !first ==> !(G.KindAt(ts, s.pos - 1).Semi? && Depth(ts, old(s.pos), s.pos - 1) == 0)
        decreases |ts| - s.pos
      {
        var k := G.Peek(ts, s);
        if k.Eof? || (depth == 0 && k.RBrace?) || (!first && StartsBodyItem(s.pos, depth)) {
          return;
        }
        if k.LBrace? {
          depth := depth + 1;
        } else if k.RBrace? && depth > 0 {
          depth := depth - 1;
        }
        var semi := k.Semi? && depth == 0;
        Bump(frames, floor);
        first := false;
        if semi {
          return;
        }
      }
    }

    /** Records an error and wraps the broken region, up to the next sync point, into an ERROR node. */
    method Recover(error: G.SyntaxError, at: nat, depth: nat, body: bool, block: bool, ghost seam: Sink)
      requires G.Lexed(ts) && Ready(ts, s, seam.frames, |seam.children|) && at == |seam.children| && depth == |seam.frames|
      requires recovered.Some?
      modifies this
      ensures recovered == Some(old(recovered).value + [error]) && s.scope == old(s.scope)
      ensures Ready(ts, s, seam.frames, |seam.children|) && s.sink.frames == seam.frames
      ensures FirstResumes(ts, old(s.pos), s.pos, body || block, body)
      ensures s.pos == old(s.pos) ==> G.Peek(ts, s).Eof? || ((body || block) && G.Peek(ts, s).RBrace?)
    {
      hide Faithful, Above, Finish, G.Lexed;
      recovered := Some(recovered.value + [error]);
      Unwind(seam, depth);
      ReadyChildren(ts, s, seam.frames, |seam.children|);
      StartNodeAt(at, Kind.Error, seam.frames, |seam.children|);
      if body {
        SkipToStatementSync(seam.frames, |seam.children|);
      } else {
        SkipToSync(block, seam.frames, |seam.children|);
      }
      FinishNode(seam.frames, |seam.children|);
    }
  
    // ----- functions -----

    method Header(ghost frames: seq<Frame>, ghost floor: nat) returns (error: Option<G.SyntaxError>, fn: G.FnName)
      requires G.Lexed(ts) && Ready(ts, s, frames, floor)
      modifies this`s
      ensures Outcome(error, fn, s) == G.Header(ts, old(s))
      ensures Ready(ts, s, frames, floor) && (error.None? ==> s.sink.frames == old(s.sink.frames))
    {
      hide Faithful, Above, Ready, G.Bump, G.Lexed, G.Expect;
      var k := G.Peek(ts, s);
      fn := G.FnName("", s.pos);
      if !k.Ident? {
        return Some(G.SyntaxError(s.pos, G.Expected("a function name", k))), fn;
      }
      if G.IsReservedDefinition(k.name) {
        return Some(G.SyntaxError(s.pos, G.ReservedName(k.name, "function"))), fn;
      }
      fn := G.FnName(k.name, s.pos);
      Bump(frames, floor);
      error := Expect(G.LParen, "`(` after the function name", frames, floor);
      if error.Some? {
        return;
      }
      error := Expect(G.RParen, "`)` (functions take no parameters)", frames, floor);
      if error.Some? {
        return;
      }
      error := Expect(G.LBrace, "`{`", frames, floor);
    }

    method EnterScope(scope: G.Scope, ghost frames: seq<Frame>, ghost floor: nat)
      requires Ready(ts, s, frames, floor)
      modifies this`s
      ensures s == old(s).(scope := scope) && Ready(ts, s, frames, floor)
    {
      s := s.(scope := scope);
    }

    /** A function, its node already open; the node is closed with the body. */
    method FunctionBody(ghost frames: seq<Frame>, ghost floor: nat)
      returns (error: Option<G.SyntaxError>, fn: G.FnName)
      requires G.Lexed(ts) && Ready(ts, s, frames, floor) && |s.sink.frames| > |frames|
      modifies this
      ensures Follows(G.FunctionBody(ts, old(s)), old(recovered), error, fn, s, recovered)
      ensures Ready(ts, s, frames, floor) && old(s.pos) <= s.pos < |ts|
      ensures error.None? ==> s.sink.frames == old(s.sink.frames[..|s.sink.frames| - 1]) && s.pos > old(s.pos)
      decreases |ts| - s.pos, 1
    {
      hide Faithful, Above, G.Lexed, G.Header, G.BodyItems, Ready;
      ReadyChildren(ts, s, frames, floor);
      ghost var start := s;
      var outer := s.scope;
      error, fn := Header(frames, floor);
      ReadyChildren(ts, s, frames, floor);
      if error.Some? {
        HeaderFails(ts, start, error, fn, s, recovered);
        return;
      }
      ReadyChildren(ts, s, frames, floor);
      ghost var begun := s;
      EnterScope(G.NO_SCOPE, frames, floor);
      ReadyChildren(ts, s, frames, floor);
      error := BodyItems(frames, floor);
      BodyFollows(ts, start, begun, fn, old(recovered), error, s, recovered, outer);
      EnterScope(outer, frames, floor);
    }

    /** The body's loop, the inner place where errors are recovered. */
    method BodyItems(ghost frames: seq<Frame>, ghost floor: nat) returns (error: Option<G.SyntaxError>)
      requires G.Lexed(ts) && Ready(ts, s, frames, floor) && |s.sink.frames| > |frames|
      modifies this
      ensures s.pos < |ts| && Follows(G.BodyItems(ts, old(s)), old(recovered), error, G.Unit, s, recovered)
      ensures Ready(ts, s, frames, floor) && s.pos >= old(s.pos)
      ensures error.None? ==> s.sink.frames == old(s.sink.frames[..|s.sink.frames| - 1])
      decreases |ts| - s.pos, 5
    {
      hide Faithful, Above, G.Lexed, G.BodyItem, G.BodyItems, Ready, Flush, Finish, Follows, SoFar, Recorded, Unfolds;
      ReadyChildren(ts, s, frames, floor);
      ghost var first := recovered;
      ghost var spec := G.BodyItems(ts, s);
      ghost var open := s.sink.frames;
      SoFarStarts(spec, first);
      while true
        invariant Ready(ts, s, frames, floor) && s.sink.frames == open && old(s.pos) <= s.pos < |ts|
        invariant SoFar(spec, G.BodyItems(ts, s), first, recovered)
        decreases |ts| - s.pos
      {
        ghost var last, before := s, recovered;
        var at := Checkpoint(frames, floor);
        var depth := |s.sink.frames|;
        ghost var seam := s.sink;
        ReadyAbove(ts, s, frames, floor);
        ReadyChildren(ts, s, frames, floor);
        var step;
        error, step := BodyItem(at, seam, frames, floor);
        BodyUnfolds(ts, last, s);
        LoopAdvances(spec, G.BodyItems(ts, last), G.BodyItem(ts, G.Seam(last), at), G.BodyItems(ts, s),
                     first, before, error, step, s, recovered);
        if error.Some? {
          if recovered.None? {
            ReadyUnder(ts, s, seam, frames, floor);
            return;
          }
          Recover(error.value, at, depth, true, false, seam);
          ReadyUnder(ts, s, seam, frames, floor);
          ReadyChildren(ts, s, frames, floor);
          error := None;
          if G.Peek(ts, s).Eof? {
            FinishNode(frames, floor);
            RecordedFollows(spec, first, spec, s, recovered);
            return;
          }
          RecordedFollows(spec, first, G.BodyItems(ts, s), s, recovered);
        } else if step.Done? {
          return;
        } else {
          ReadyUnder(ts, s, seam, frames, floor);
          ReadyChildren(ts, s, frames, floor);
        }
      }
    }

    /** One item of a body.  `seam` is the sink as the loop left it. */
    method BodyItem(at: nat, ghost seam: Sink, ghost frames: seq<Frame>, ghost floor: nat)
      returns (error: Option<G.SyntaxError>, step: G.Step)
      requires G.Lexed(ts) && seam == s.sink && at == |seam.children| && Above(seam, frames, floor)
      requires Ready(ts, s, seam.frames, |seam.children|) && |seam.frames| > |frames|
      modifies this
      ensures Follows(G.BodyItem(ts, old(s), at), old(recovered), error, step, s, recovered)
      ensures old(s.pos) <= s.pos < |ts|
      ensures error.Some? || step.Continue? ==> Ready(ts, s, seam.frames, |seam.children|)
      ensures error.None? && step.Continue? ==> s.sink.frames == seam.frames && s.pos > old(s.pos)
      ensures error.None? && step.Done? ==> Ready(ts, s, frames, floor) && s.sink.frames == seam.frames[..|seam.frames| - 1]
      ensures G.Peek(ts, old(s)).RBrace? ==> error.None? && step.Done?
      decreases |ts| - s.pos, 4
    {
      hide Faithful, Above, G.Lexed, G.DocRunNode, G.Undocumented, Ready, G.IsNestedStart;
      ReadyChildren(ts, s, seam.frames, |seam.children|);
      step := G.Continue;
      if G.Peek(ts, s).Eof? {
        return Some(G.SyntaxError(s.pos, G.Expected("`}` to close the function body", G.Eof))), step;
      }
      if G.IsDoc(G.Peek(ts, s)) {
        var first := s.pos;
        error := DocRunNode(seam.frames, |seam.children|);
        ReadyChildren(ts, s, seam.frames, |seam.children|);
        if error.Some? {
          return;
        }
        if !G.IsNestedStart(ts, s) {
          return Some(G.SyntaxError(first, G.DanglingDocRun)), step;
        }
      }
      error, step := Undocumented(at, seam, frames, floor);
    }

    method Undocumented(at: nat, ghost seam: Sink, ghost frames: seq<Frame>, ghost floor: nat)
      returns (error: Option<G.SyntaxError>, step: G.Step)
      requires G.Lexed(ts) && at == |seam.children| && Above(seam, frames, floor)
      requires Ready(ts, s, seam.frames, |seam.children|) && s.sink.frames == seam.frames && |seam.frames| > |frames|
      modifies this
      ensures Follows(G.Undocumented(ts, old(s), at), old(recovered), error, step, s, recovered)
      ensures old(s.pos) <= s.pos < |ts|
      ensures error.Some? || step.Continue? ==> Ready(ts, s, seam.frames, |seam.children|)
      ensures error.None? && step.Continue? ==> s.sink.frames == seam.frames && s.pos > old(s.pos)
      ensures error.None? && step.Done? ==> Ready(ts, s, frames, floor) && s.sink.frames == seam.frames[..|seam.frames| - 1]
      ensures G.Peek(ts, old(s)).RBrace? ==> error.None? && step.Done?
      decreases |ts| - s.pos, 3
    {
      hide Faithful, Above, G.Lexed, Ready, G.FunctionBody, G.StatementBody, Finish, StartAt;
      ReadyChildren(ts, s, seam.frames, |seam.children|);
      step := G.Continue;
      error := None;
      if G.IsNestedStart(ts, s) {
        if G.IsModifier(ts, s) {
          return Some(G.SyntaxError(s.pos, G.VolatileNotOnMain(G.KindAt(ts, s.pos + 1).name))), step;
        }
        error := Nested(at, seam);
      } else if G.IsExport(ts, s) {
        return Some(G.SyntaxError(s.pos, G.NestedExport)), step;
      } else {
        error, step := Labelled(at, seam, frames, floor);
      }
    }

    /** A nested definition. */
    method Nested(at: nat, ghost seam: Sink) returns (error: Option<G.SyntaxError>)
      requires G.Lexed(ts) && at == |seam.children| && G.IsNestedStart(ts, s) && !G.IsModifier(ts, s)
      requires Ready(ts, s, seam.frames, |seam.children|) && s.sink.frames == seam.frames
      modifies this
      ensures Follows(G.Undocumented(ts, old(s), at), old(recovered), error, G.Continue, s, recovered)
      ensures old(s.pos) <= s.pos < |ts| && Ready(ts, s, seam.frames, |seam.children|)
      ensures error.None? ==> s.sink.frames == seam.frames && s.pos > old(s.pos)
      decreases |ts| - s.pos, 2
    {
      hide Faithful, Above, G.Lexed, Ready, G.FunctionBody, StartAt, G.IsNestedStart, G.IsModifier;
      ReadyChildren(ts, s, seam.frames, |seam.children|);
      StartNodeAt(at, Kind.Function, seam.frames, |seam.children|);
      var fn;
      error, fn := FunctionBody(seam.frames, |seam.children|);
      if error.None? {
        if fn.name in s.scope.nested {
          error := Some(G.SyntaxError(fn.at, G.DuplicateName(fn.name, "function")));
        } else {
          EnterScope(s.scope.(nested := s.scope.nested + {fn.name}), seam.frames, |seam.children|);
        }
      }
    }

    /** Labels, and then a statement or the end of the body. */
    method Labelled(at: nat, ghost seam: Sink, ghost frames: seq<Frame>, ghost floor: nat)
      returns (error: Option<G.SyntaxError>, step: G.Step)
      requires G.Lexed(ts) && at == |seam.children| && Above(seam, frames, floor)
      requires Ready(ts, s, seam.frames, |seam.children|) && s.sink.frames == seam.frames && |seam.frames| > |frames|
      requires !G.IsNestedStart(ts, s) && !G.IsExport(ts, s)
      modifies this`s
      ensures Outcome(error, step, s) == G.Undocumented(ts, old(s), at)
      ensures old(s.pos) <= s.pos < |ts|
      ensures error.Some? || step.Continue? ==> Ready(ts, s, seam.frames, |seam.children|)
      ensures error.None? && step.Continue? ==> s.sink.frames == seam.frames && s.pos > old(s.pos)
      ensures error.None? && step.Done? ==> Ready(ts, s, frames, floor) && s.sink.frames == seam.frames[..|seam.frames| - 1]
      ensures G.Peek(ts, old(s)).RBrace? ==> error.None? && step.Done?
    {
      hide Faithful, Above, G.Lexed, Ready, G.StatementBody, Finish, StartAt, G.IsNestedStart, G.IsExport, Emit;
      ReadyChildren(ts, s, seam.frames, |seam.children|);
      step := G.Continue;
      var first;
      error, first := Labels(seam.frames, |seam.children|);
      ReadyChildren(ts, s, seam.frames, |seam.children|);
      if error.Some? {
        return;
      }
      if G.Peek(ts, s).RBrace? {
        if first.Some? {
          return Some(G.SyntaxError(s.pos, G.DanglingLabel(first.value))), step;
        }
        Bump(seam.frames, |seam.children|);
        ReadyChildren(ts, s, seam.frames, |seam.children|);
        ReadyUnder(ts, s, seam, frames, floor);
        FinishNode(frames, floor);
        step := G.Done;
      } else {
        StartNodeAt(at, Kind.Statement, seam.frames, |seam.children|);
        error := StatementBody(seam.frames, |seam.children|);
        ReadyChildren(ts, s, seam.frames, |seam.children|);
        if error.None? {
          FinishNode(seam.frames, |seam.children|);
        }
      }
    }

    // ----- levels -----

    /** One namespace level's loop, the outer place where errors are recovered. */
    method TopItems(ns: seq<string>, block: bool, ghost frames: seq<Frame>, ghost floor: nat)
      returns (error: Option<G.SyntaxError>)
      requires G.Lexed(ts) && Ready(ts, s, frames, floor)
      modifies this
      ensures Follows(G.TopItems(ts, old(s), ns, block), old(recovered), error, G.Unit, s, recovered)
      ensures Ready(ts, s, frames, floor) && old(s.pos) <= s.pos < |ts|
      ensures error.None? ==> s.sink.frames == old(s.sink.frames) && (!block ==> G.Peek(ts, s).Eof?)
      ensures error.Some? ==> recovered.None?
      decreases |ts| - s.pos, 9
    {
      hide Faithful, Above, G.Lexed, G.TopItem, G.TopItems, Ready, Flush, Follows, SoFar, Recorded, Unfolds;
      ReadyChildren(ts, s, frames, floor);
      ghost var first := recovered;
      ghost var spec := G.TopItems(ts, s, ns, block);
      ghost var open := s.sink.frames;
      SoFarStarts(spec, first);
      while true
        invariant Ready(ts, s, frames, floor) && s.sink.frames == open && old(s.pos) <= s.pos < |ts|
        invariant SoFar(spec, G.TopItems(ts, s, ns, block), first, recovered)
        decreases |ts| - s.pos
      {
        ghost var last, before := s, recovered;
        var at := Checkpoint(frames, floor);
        var depth := |s.sink.frames|;
        ghost var seam := s.sink;
        ReadyAbove(ts, s, frames, floor);
        ReadyChildren(ts, s, frames, floor);
        var step;
        error, step := TopItem(ns, block, at, seam);
        TopUnfolds(ts, last, s, ns, block);
        LoopAdvances(spec, G.TopItems(ts, last, ns, block), G.TopItem(ts, G.Seam(last), ns, block, at),
                     G.TopItems(ts, s, ns, block), first, before, error, step, s, recovered);
        if error.Some? {
          if recovered.None? {
            ReadyUnder(ts, s, seam, frames, floor);
            return;
          }
          Recover(error.value, at, depth, false, block, seam);
          ReadyUnder(ts, s, seam, frames, floor);
          ReadyChildren(ts, s, frames, floor);
          error := None;
          if G.Peek(ts, s).Eof? {
            RecordedFollows(spec, first, spec, s, recovered);
            return;
          }
          RecordedFollows(spec, first, G.TopItems(ts, s, ns, block), s, recovered);
        } else {
          ReadyUnder(ts, s, seam, frames, floor);
          ReadyChildren(ts, s, frames, floor);
          if step.Done? {
            return;
          }
        }
      }
    }

    method TopItem(ns: seq<string>, block: bool, at: nat, ghost seam: Sink)
      returns (error: Option<G.SyntaxError>, step: G.Step)
      requires G.Lexed(ts) && seam == s.sink && at == |seam.children|
      requires Ready(ts, s, seam.frames, |seam.children|)
      modifies this
      ensures Follows(G.TopItem(ts, old(s), ns, block, at), old(recovered), error, step, s, recovered)
      ensures old(s.pos) <= s.pos < |ts| && Ready(ts, s, seam.frames, |seam.children|)
      ensures error.None? ==> s.sink.frames == seam.frames
      ensures error.None? && step.Continue? ==> s.pos > old(s.pos)
      ensures error.None? && step.Done? && !block ==> G.Peek(ts, s).Eof?
      ensures block && G.Peek(ts, old(s)).RBrace? ==> error.None? && step.Done?
      decreases |ts| - s.pos, 8
    {
      hide Faithful, Above, G.Lexed, G.DocRunNode, G.Plain, Ready, G.IsFunctionStart;
      ReadyChildren(ts, s, seam.frames, |seam.children|);
      step := G.Continue;
      if G.IsDoc(G.Peek(ts, s)) {
        var first := s.pos;
        error := DocRunNode(seam.frames, |seam.children|);
        ReadyChildren(ts, s, seam.frames, |seam.children|);
        if error.Some? {
          return;
        }
        if !G.IsFunctionStart(ts, s, block) {
          return Some(G.SyntaxError(first, G.DanglingDocRun)), step;
        }
      }
      error, step := PlainItem(ns, block, at, seam);
    }

    /** An item behind its doc run. */
    method PlainItem(ns: seq<string>, block: bool, at: nat, ghost seam: Sink)
      returns (error: Option<G.SyntaxError>, step: G.Step)
      requires G.Lexed(ts) && at == |seam.children|
      requires Ready(ts, s, seam.frames, |seam.children|) && s.sink.frames == seam.frames
      modifies this
      ensures Follows(G.Plain(ts, old(s), ns, block, at), old(recovered), error, step, s, recovered)
      ensures old(s.pos) <= s.pos < |ts| && Ready(ts, s, seam.frames, |seam.children|)
      ensures error.None? ==> s.sink.frames == seam.frames
      ensures error.None? && step.Continue? ==> s.pos > old(s.pos)
      ensures error.None? && step.Done? && !block ==> G.Peek(ts, s).Eof?
      ensures block && G.Peek(ts, old(s)).RBrace? ==> error.None? && step.Done?
      decreases |ts| - s.pos, 7
    {
      hide Faithful, Above, G.Lexed, Ready, G.Imports, G.NamespaceBlock, G.Declaration, Finish, Flush, Start, Emit;
      ReadyChildren(ts, s, seam.frames, |seam.children|);
      error, step := None, G.Continue;
      var k := G.Peek(ts, s);
      if k.Eof? {
        if block {
          error := Some(G.SyntaxError(s.pos, G.Expected("`}` to close the namespace block", k)));
        } else {
          step := G.Done;
        }
      } else if block && k.RBrace? {
        Bump(seam.frames, |seam.children|);
        ReadyChildren(ts, s, seam.frames, |seam.children|);
        step := G.Done;
      } else if G.NeedsName(ts, s) {
        error := Some(G.SyntaxError(s.pos, G.KeywordNeedsName(k.name)));
      } else if G.IsCommand(k) {
        error := Some(G.SyntaxError(s.pos, G.TopLevelStatement(k)));
      } else if G.IsUse(ts, s) {
        FlushStart(UseDecl, seam.frames, |seam.children|);
        Bump(seam.frames, |seam.children|);
        ReadyChildren(ts, s, seam.frames, |seam.children|);
        error := Imports(seam.frames, |seam.children|);
        ReadyChildren(ts, s, seam.frames, |seam.children|);
        if error.None? {
          FinishNode(seam.frames, |seam.children|);
        }
      } else if G.IsNamespace(ts, s) {
        error := NamespaceItem(ns, seam);
      } else {
        error := DeclarationItem(ns, at, seam);
      }
    }

    method AddNamespace(path: seq<string>, ghost frames: seq<Frame>, ghost floor: nat)
      requires Ready(ts, s, frames, floor)
      modifies this`s
      ensures s == old(s).(namespaces := old(s).namespaces + {path}) && Ready(ts, s, frames, floor)
    {
      s := s.(namespaces := s.namespaces + {path});
    }

    /** `namespace NAME { … }`: the level inside it recurses. */
    method NamespaceItem(ns: seq<string>, ghost seam: Sink) returns (error: Option<G.SyntaxError>)
      requires G.Lexed(ts) && G.IsNamespace(ts, s)
      requires Ready(ts, s, seam.frames, |seam.children|) && s.sink.frames == seam.frames && s.pos <= |ts|
      modifies this
      ensures Follows(G.NamespaceBlock(ts, old(s), ns), old(recovered), error, G.Continue, s, recovered)
      ensures old(s.pos) <= s.pos < |ts| && Ready(ts, s, seam.frames, |seam.children|)
      ensures error.None? ==> s.sink.frames == seam.frames && s.pos > old(s.pos)
      decreases |ts| - s.pos, 6
    {
      hide Faithful, Above, G.Lexed, Ready, G.TopItems, Finish, Flush, Start, Emit;
      ReadyChildren(ts, s, seam.frames, |seam.children|);
      var name := G.KindAt(ts, s.pos + 1).name;
      FlushStart(Namespace, seam.frames, |seam.children|);
      Bump(seam.frames, |seam.children|);
      ReadyChildren(ts, s, seam.frames, |seam.children|);
      if G.IsReservedDefinition(name) {
        return Some(G.SyntaxError(s.pos, G.ReservedName(name, "namespace")));
      }
      if (ns, name) in s.declared {
        return Some(G.SyntaxError(s.pos, G.DuplicateName(name, "function")));
      }
      Bump(seam.frames, |seam.children|);
      ReadyChildren(ts, s, seam.frames, |seam.children|);
      Bump(seam.frames, |seam.children|);
      var child := ns + [name];
      AddNamespace(child, seam.frames, |seam.children|);
      ReadyChildren(ts, s, seam.frames, |seam.children|);
      error := TopItems(child, true, seam.frames, |seam.children|);
      if error.None? {
        FinishNode(seam.frames, |seam.children|);
      }
    }

    method Declare(at: nat, modified: bool, ns: seq<string>, fn: G.FnName, ghost frames: seq<Frame>, ghost floor: nat)
      returns (error: Option<G.SyntaxError>)
      requires Ready(ts, s, frames, floor)
      modifies this`s
      ensures Outcome(error, G.Continue, s) == G.Declare(at, modified, ns, fn, old(s))
      ensures Ready(ts, s, frames, floor) && s.sink == old(s.sink) && s.pos == old(s.pos)
    {
      if modified && !(ns == [] && fn.name == "main") {
        return Some(G.SyntaxError(at, G.VolatileNotOnMain(fn.name)));
      }
      if (ns, fn.name) in s.declared {
        return Some(G.SyntaxError(fn.at, G.DuplicateName(fn.name, "function")));
      }
      if ns + [fn.name] in s.namespaces {
        return Some(G.SyntaxError(fn.at, G.DuplicateName(fn.name, "namespace")));
      }
      s := s.(declared := s.declared + {(ns, fn.name)});
      error := None;
    }

    /** `[volatile] [export] name () { … }`. */
    method DeclarationItem(ns: seq<string>, at: nat, ghost seam: Sink) returns (error: Option<G.SyntaxError>)
      requires G.Lexed(ts) && at == |seam.children|
      requires Ready(ts, s, seam.frames, |seam.children|) && s.sink.frames == seam.frames && s.pos <= |ts|
      modifies this
      ensures Follows(G.Declaration(ts, old(s), ns, at), old(recovered), error, G.Continue, s, recovered)
      ensures old(s.pos) <= s.pos < |ts| && Ready(ts, s, seam.frames, |seam.children|)
      ensures error.None? ==> s.sink.frames == seam.frames && s.pos > old(s.pos)
      decreases |ts| - s.pos, 6
    {
      hide Faithful, Above, G.Lexed, Ready, G.FunctionBody, StartAt, Emit, G.Declare;
      ReadyChildren(ts, s, seam.frames, |seam.children|);
      var first, modified := s.pos, G.IsModifier(ts, s);
      if modified {
        Bump(seam.frames, |seam.children|);
        ReadyChildren(ts, s, seam.frames, |seam.children|);
      }
      if G.IsExport(ts, s) {
        Bump(seam.frames, |seam.children|);
        ReadyChildren(ts, s, seam.frames, |seam.children|);
      }
      StartNodeAt(at, Kind.Function, seam.frames, |seam.children|);
      var fn;
      error, fn := FunctionBody(seam.frames, |seam.children|);
      if error.None? {
        error := Declare(first, modified, ns, fn, seam.frames, |seam.children|);
      }
    }
  }

  lemma ReadyChildren(ts: seq<G.TokenKind>, s: G.P, frames: seq<Frame>, floor: nat)
    requires Ready(ts, s, frames, floor)
    ensures floor <= |s.sink.children| && |frames| <= |s.sink.frames| && s.pos < |ts|
  {
  }

  lemma ReadyAbove(ts: seq<G.TokenKind>, s: G.P, frames: seq<Frame>, floor: nat)
    requires Ready(ts, s, frames, floor)
    ensures Above(s.sink, frames, floor)
  {
  }

  /** What is ready above a seam is ready above the place the seam was taken in. */
  lemma ReadyUnder(ts: seq<G.TokenKind>, s: G.P, seam: Sink, frames: seq<Frame>, floor: nat)
    requires Ready(ts, s, seam.frames, |seam.children|) && Above(seam, frames, floor)
    ensures Ready(ts, s, frames, floor)
  {
    hide Faithful, Above;
    AboveBoth(s.sink, seam, frames, floor);
  }

  lemma HeaderFails(ts: seq<G.TokenKind>, start: G.P, error: Option<G.SyntaxError>, fn: G.FnName, s: G.P,
                    recovered: Option<seq<G.SyntaxError>>)
    requires start.pos <= |ts| && error.Some? && Outcome(error, fn, s) == G.Header(ts, start)
    ensures Follows(G.FunctionBody(ts, start), recovered, error, fn, s, recovered)
    ensures s.pos >= start.pos
  {
    hide G.Header, G.BodyItems;
  }

  lemma BodyFollows(ts: seq<G.TokenKind>, start: G.P, begun: G.P, fn: G.FnName, before: Option<seq<G.SyntaxError>>,
                    error: Option<G.SyntaxError>, s: G.P, recovered: Option<seq<G.SyntaxError>>, outer: G.Scope)
    requires start.pos <= |ts| && G.Header(ts, start) == G.Good(fn, begun) && outer == start.scope
    requires Follows(G.BodyItems(ts, begun.(scope := G.NO_SCOPE)), before, error, G.Unit, s, recovered)
    ensures Follows(G.FunctionBody(ts, start), before, error, fn, s.(scope := outer), recovered)
    ensures begun.pos > start.pos
  {
    hide G.Header, G.BodyItems;
  }

  // ----- the loops that recover -----

  ghost predicate Recorded<T>(spec: G.Res<T>, first: Option<seq<G.SyntaxError>>, recovered: Option<seq<G.SyntaxError>>)
  {
    first.Some? && recovered.Some? && spec.Bad? && first.value + [spec.error] <= recovered.value
  }

  /** While no error was recorded, what is left of the loop is what is left of the grammar's; once
      one was, the first of them is the grammar's. */
  ghost predicate SoFar(spec: G.Res<G.Unit>, rest: G.Res<G.Unit>, first: Option<seq<G.SyntaxError>>,
                        recovered: Option<seq<G.SyntaxError>>)
  {
    if recovered == first then rest == spec else Recorded(spec, first, recovered)
  }

  /** How a loop's outcome comes from one item and the rest. */
  ghost predicate Unfolds(rest: G.Res<G.Unit>, item: G.Res<G.Step>, s: G.P, rest': G.Res<G.Unit>)
  {
    match item
    case Bad(e, p) => rest == G.Bad(e, p)
    case Good(step, p) => if step.Done? then rest == G.Good(G.Unit, p) else p == s ==> rest == rest'
  }

  lemma LoopAdvances(spec: G.Res<G.Unit>, rest: G.Res<G.Unit>, item: G.Res<G.Step>, rest': G.Res<G.Unit>,
                     first: Option<seq<G.SyntaxError>>, before: Option<seq<G.SyntaxError>>,
                     error: Option<G.SyntaxError>, step: G.Step, s: G.P, recovered: Option<seq<G.SyntaxError>>)
    requires SoFar(spec, rest, first, before) && Unfolds(rest, item, s, rest')
    requires Follows(item, before, error, step, s, recovered)
    ensures error.None? && step.Continue? ==> SoFar(spec, rest', first, recovered)
    ensures error.None? && step.Done? ==> Follows(spec, first, None, G.Unit, s, recovered)
    ensures error.Some? && recovered.None? ==> Follows(spec, first, error, G.Unit, s, recovered)
    ensures error.Some? && recovered.Some? ==> first.Some? && Recorded(spec, first, Some(recovered.value + [error.value]))
                                               && |first.value| <= |recovered.value|
  {
  }

  lemma SoFarStarts(spec: G.Res<G.Unit>, first: Option<seq<G.SyntaxError>>)
    ensures SoFar(spec, spec, first, first)
  {
  }

  /** Once an error is recorded the loop may go on and end as it likes. */
  lemma RecordedFollows(spec: G.Res<G.Unit>, first: Option<seq<G.SyntaxError>>, rest: G.Res<G.Unit>, s: G.P,
                        recovered: Option<seq<G.SyntaxError>>)
    requires Recorded(spec, first, recovered)
    ensures Follows(spec, first, None, G.Unit, s, recovered)
    ensures SoFar(spec, rest, first, recovered)
  {
  }

  lemma BodyUnfolds(ts: seq<G.TokenKind>, last: G.P, s: G.P)
    requires last.pos <= |ts| && s.pos <= |ts|
    ensures Unfolds(G.BodyItems(ts, last), G.BodyItem(ts, G.Seam(last), |G.Seam(last).sink.children|), s, G.BodyItems(ts, s))
  {
    hide G.BodyItem, Flush;
  }

  lemma TopUnfolds(ts: seq<G.TokenKind>, last: G.P, s: G.P, ns: seq<string>, block: bool)
    requires last.pos <= |ts| && s.pos <= |ts|
    ensures Unfolds(G.TopItems(ts, last, ns, block),
                    G.TopItem(ts, G.Seam(last), ns, block, |G.Seam(last).sink.children|), s, G.TopItems(ts, s, ns, block))
  {
    hide G.TopItem, Flush;
  }

  // ----- the two entries -----

  datatype Parsed = Tree(tree: PmGreen.Tree) | Failed(error: G.SyntaxError)

  /** What a lossless tree spells: every token with its trivia, once and in order, and the trivia
      at the end. */
  function Spelling(ts: seq<G.TokenKind>): seq<PmGreen.Tree>
    requires ts != []
  {
    Pieces(|ts| - 1) + [Trivia(|ts| - 1)]
  }

  lemma StartReady(ts: seq<G.TokenKind>)
    requires G.Lexed(ts)
    ensures Ready(ts, G.File0(), [Frame(File, 0)], 0)
    ensures G.File0().sink.frames == [Frame(File, 0)]
  {
  }

  /** At the end of the file the build closes on one root that spells the source. */
  lemma Closes(ts: seq<G.TokenKind>, s: G.P)
    requires G.Lexed(ts) && Ready(ts, s, [Frame(File, 0)], 0) && s.sink.frames == [Frame(File, 0)] && G.Peek(ts, s).Eof?
    ensures s.pos == |ts| - 1
    ensures var sink := Finish(Flush(s.sink, s.pos));
            && sink.ok && sink.frames == [] && |sink.children| == 1 && G.TreeOf(s) == sink.children
            && sink.children[0].Node? && sink.children[0].kind == File
            && Leaves(sink.children[0]) == Spelling(ts)
  {
    hide Leaves, AllLeaves, Pieces;
    FlushKeeps(s.sink, s.pos, [], 0);
    var f := Flush(s.sink, s.pos);
    FinishKeeps(f, s.pos, [], 0);
    var sink := Finish(f);
    assert sink.children == [Node(File, f.children)];
    LeavesOne(sink.children[0]);
  }

  /** The fatal entry: the tree, or the first error. */
  method ParseGreen(tokens: seq<G.TokenKind>) returns (r: Parsed)
    requires G.Lexed(tokens)
    ensures match G.Walk(tokens)
            case Good(_, p) => r.Tree? && [r.tree] == G.TreeOf(p) && Leaves(r.tree) == Spelling(tokens)
            case Bad(e, _) => r == Failed(e)
    ensures r.Tree? <==> exists items :: Language.Legal(items) && tokens == Language.Spell(items)
    ensures r.Tree? ==> Accept.ProgramTree(tokens, r.tree)
    ensures r.Failed? ==> Blame.Blames(tokens, r.error)
  {
    hide Leaves, Finish, Flush, Pieces, G.TopItems, G.Lexed, Ready, Language.Legal, Language.Spell, Blame.Blames,
      Accept.ProgramTree;
    Accept.AcceptsExactlyLegal(tokens);
    if G.Walk(tokens).Good? {
      Accept.AcceptedTree(tokens);
    }
    Blame.WalkBlames(tokens);
    StartReady(tokens);
    var parser := new Parser(tokens, false);
    var error := parser.TopItems([], false, [Frame(File, 0)], 0);
    if error.Some? {
      return Failed(error.value);
    }
    Closes(tokens, parser.s);
    r := Tree(Finish(Flush(parser.s.sink, parser.s.pos)).children[0]);
  }

  /** The resilient entry: always a lossless tree.  No error is recorded exactly when the fatal
      entry succeeds, and then the trees are the same; otherwise the first is the fatal one. */
  method ParseResilient(tokens: seq<G.TokenKind>) returns (tree: PmGreen.Tree, errors: seq<G.SyntaxError>)
    requires G.Lexed(tokens)
    ensures tree.Node? && tree.kind == File && Leaves(tree) == Spelling(tokens)
    ensures match G.Walk(tokens)
            case Good(_, p) => errors == [] && [tree] == G.TreeOf(p)
            case Bad(e, _) => errors != [] && errors[0] == e
    ensures errors == [] <==> exists items :: Language.Legal(items) && tokens == Language.Spell(items)
    ensures errors == [] ==> Accept.ProgramTree(tokens, tree)
    ensures errors != [] ==> Blame.Blames(tokens, errors[0])
  {
    hide Leaves, Finish, Flush, Pieces, G.TopItems, G.Lexed, Ready, Language.Legal, Language.Spell, Blame.Blames,
      Accept.ProgramTree;
    Accept.AcceptsExactlyLegal(tokens);
    if G.Walk(tokens).Good? {
      Accept.AcceptedTree(tokens);
    }
    Blame.WalkBlames(tokens);
    StartReady(tokens);
    var parser := new Parser(tokens, true);
    var error := parser.TopItems([], false, [Frame(File, 0)], 0);
    Closes(tokens, parser.s);
    tree := Finish(Flush(parser.s.sink, parser.s.pos)).children[0];
    errors := parser.recovered.value;
  }
}
