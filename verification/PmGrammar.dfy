/** The `.pmc` grammar as a walk over the significant tokens that stops at its first error: what
    the parser does in fatal mode, and what its resilient mode is measured against. */
module PmGrammar {
  import opened Options
  import opened PmGreen

  datatype TokenKind =
    | Ident(name: string)
    | Number(value: nat, written: string)
    | At | Bang | Comma | Semi | Colon | ColonColon | LParen | RParen | LBrace | RBrace
    | DocLine
    | AttentionLine(text: string)
    | Eof

  datatype ErrorKind =
    | Expected(what: string, found: TokenKind)
    | DocLineOrder | DuplicateAttribute | UnknownAttribute(name: string) | DanglingDocRun
    | KeywordNeedsName(keyword: string) | TopLevelStatement(found: TokenKind)
    | ReservedName(name: string, what: string) | SingleColonInPath
    | DuplicateName(name: string, what: string) | VolatileNotOnMain(name: string) | NestedExport
    | DuplicateLabel(value: nat) | DanglingLabel(value: nat)
    | BuiltinCalled(name: string) | GroupPosition(what: string) | GotoReturn | EmptyBuiltinParens(name: string)
    | KeywordInBody(keyword: string) | UnknownCommand(name: string)

  /** An error and the token it points at. */
  datatype SyntaxError = SyntaxError(at: nat, kind: ErrorKind)

  /** The names and labels of the function body being read. */
  datatype Scope = Scope(nested: set<string>, labels: set<nat>)

  /** The walk's state. */
  datatype P = P(
    pos: nat, namespaces: set<seq<string>>, declared: set<(seq<string>, string)>, scope: Scope, sink: Sink)

  datatype Res<T> = Good(value: T, p: P) | Bad(error: SyntaxError, p: P) {
    predicate IsFailure() { Bad? }
    function PropagateFailure<U>(): Res<U> requires Bad? { Bad(error, p) }
    function Extract(): (T, P) requires Good? { (value, p) }
  }

  datatype Unit = Unit

  datatype Step = Done | Continue

  const RESERVED: set<string> := {"goto", "check", "left", "right", "mark", "unmark", "halt", "debugger"}

  predicate IsReservedDefinition(name: string)
  {
    name in RESERVED || name == "volatile"
  }

  // ----- looking and moving -----

  /** Nothing stands behind the last token. */
  function KindAt(ts: seq<TokenKind>, i: nat): TokenKind
  {
    if i < |ts| then ts[i] else Eof
  }

  function Peek(ts: seq<TokenKind>, p: P): TokenKind
  {
    KindAt(ts, p.pos)
  }

  function Bump(ts: seq<TokenKind>, p: P): (r: P)
    ensures r.pos == if Peek(ts, p).Eof? then p.pos else p.pos + 1
    ensures p.pos <= |ts| ==> r.pos <= |ts|
  {
    if Peek(ts, p).Eof? then p else p.(pos := p.pos + 1, sink := Emit(p.sink, p.pos))
  }

  function FlushStart(p: P, kind: Kind): P
  {
    p.(sink := Start(Flush(p.sink, p.pos), kind))
  }

  function StartNodeAt(p: P, at: nat, kind: Kind): P
  {
    p.(sink := StartAt(p.sink, at, kind))
  }

  function FinishNode(p: P): P
  {
    p.(sink := Finish(p.sink))
  }

  /** Trivia belongs to what is still open; a checkpoint comes after it. */
  function Seam(p: P): P
  {
    p.(sink := Flush(p.sink, p.pos))
  }

  function Fail<T>(p: P, at: nat, kind: ErrorKind): Res<T>
  {
    Bad(SyntaxError(at, kind), p)
  }

  function FailHere<T>(ts: seq<TokenKind>, p: P, what: string): Res<T>
  {
    Fail(p, p.pos, Expected(what, Peek(ts, p)))
  }

  function Expect(ts: seq<TokenKind>, p: P, kind: TokenKind, what: string): (r: Res<Unit>)
    requires p.pos <= |ts| && !kind.Eof?
    ensures p.pos <= r.p.pos <= |ts| && (r.Good? ==> r.p.pos == p.pos + 1)
  {
    if Peek(ts, p) == kind then Good(Unit, Bump(ts, p)) else FailHere(ts, p, what)
  }

  // ----- doc runs -----

  predicate IsLetter(c: char)
  {
    'a' <= c <= 'z' || 'A' <= c <= 'Z' || c == '_'
  }

  predicate IsNamePart(c: char)
  {
    IsLetter(c) || '0' <= c <= '9'
  }

  function FindClose(text: string, i: nat): Option<nat>
    requires i <= |text|
    decreases |text| - i
  {
    if i == |text| then None else if text[i] == ']' then Some(i) else FindClose(text, i + 1)
  }

  predicate AllNameParts(text: string, i: nat, n: nat)
    requires i <= n <= |text|
    decreases n - i
  {
    i == n || (IsNamePart(text[i]) && AllNameParts(text, i + 1, n))
  }

  /** The `[ident]` at the very start of an attention line. */
  function ParseAttr(text: string): Option<string>
  {
    if text == [] || text[0] != '[' then None
    else
      match FindClose(text, 0)
      case None => None
      case Some(close) =>
        if 1 < close < |text| && IsLetter(text[1]) && AllNameParts(text, 2, close) then Some(text[1..close]) else None
  }

  predicate IsDoc(k: TokenKind)
  {
    k.DocLine? || k.AttentionLine?
  }

  /** A run of `?` lines and then `!` lines. */
  function DocLines(ts: seq<TokenKind>, p: P, attention: bool, deprecated: bool): (r: Res<Unit>)
    requires p.pos <= |ts|
    ensures p.pos <= r.p.pos <= |ts|
    ensures r.Good? && IsDoc(Peek(ts, p)) ==> p.pos < r.p.pos
    decreases |ts| - p.pos
  {
    match Peek(ts, p)
    case DocLine => if attention then Fail(p, p.pos, DocLineOrder) else DocLines(ts, Bump(ts, p), attention, deprecated)
    case AttentionLine(text) =>
      (match ParseAttr(text)
       case None => DocLines(ts, Bump(ts, p), true, deprecated)
       case Some(name) =>
         if name != "deprecated" then Fail(Bump(ts, p), p.pos, UnknownAttribute(name))
         else if deprecated then Fail(Bump(ts, p), p.pos, DuplicateAttribute)
         else DocLines(ts, Bump(ts, p), true, true))
    case _ => Good(Unit, p)
  }

  function DocRunNode(ts: seq<TokenKind>, p: P): (r: Res<Unit>)
    requires p.pos <= |ts|
    ensures p.pos <= r.p.pos <= |ts|
    ensures r.Good? && IsDoc(Peek(ts, p)) ==> p.pos < r.p.pos
  {
    var d :- DocLines(ts, FlushStart(p, DocRun), false, false);
    Good(Unit, FinishNode(d.1))
  }

  // ----- paths and imports -----

  /** `:: name` any number of times. */
  function PathTail(ts: seq<TokenKind>, p: P): (r: Res<Unit>)
    requires p.pos <= |ts|
    ensures p.pos <= r.p.pos <= |ts|
    decreases |ts| - p.pos
  {
    if !Peek(ts, p).ColonColon? then Good(Unit, p)
    else
      var q := Bump(ts, p);
      if !Peek(ts, q).Ident? then FailHere(ts, q, "a name after `::`")
      else if Peek(ts, q).name in RESERVED then Fail(q, q.pos, ReservedName(Peek(ts, q).name, "path segment"))
      else PathTail(ts, Bump(ts, q))
  }

  function Alias(ts: seq<TokenKind>, p: P): (r: Res<Unit>)
    requires p.pos <= |ts|
    ensures p.pos <= r.p.pos <= |ts|
  {
    if Peek(ts, p) != Ident("as") then Good(Unit, p)
    else
      var q := Bump(ts, p);
      if !Peek(ts, q).Ident? then FailHere(ts, q, "an alias after `as`") else Good(Unit, Bump(ts, q))
  }

  function Import(ts: seq<TokenKind>, p: P): (r: Res<Unit>)
    requires p.pos <= |ts|
    ensures p.pos <= r.p.pos <= |ts|
  {
    if !Peek(ts, p).Ident? || Peek(ts, p).name in RESERVED then FailHere(ts, p, "an imported function name")
    else
      var tail :- PathTail(ts, Bump(ts, FlushStart(p, UsePath)));
      var alias :- Alias(ts, tail.1);
      Good(Unit, FinishNode(alias.1))
  }

  function Imports(ts: seq<TokenKind>, p: P): (r: Res<Unit>)
    requires p.pos <= |ts|
    ensures p.pos <= r.p.pos <= |ts|
    decreases |ts| - p.pos
  {
    var path :- Import(ts, p);
    var q := path.1;
    match Peek(ts, q)
    case Comma => Imports(ts, Bump(ts, q))
    case Semi => Good(Unit, Bump(ts, q))
    case Colon => Fail(q, q.pos, SingleColonInPath)
    case _ => FailHere(ts, q, "`,` or `;`")
  }

  // ----- statements -----

  /** What a comma group has to know of an item. */
  datatype Shape = CheckShape | HaltShape | GotoShape | BareShape | SuccessorShape

  /** Inside `( )`: a label, `!`, or nothing. */
  function Successor(ts: seq<TokenKind>, p: P): (r: (bool, P))
    requires p.pos <= |ts|
    ensures p.pos <= r.1.pos <= |ts|
  {
    if Peek(ts, p).Number? || Peek(ts, p).Bang? then (true, Bump(ts, p)) else (false, p)
  }

  function Arm(ts: seq<TokenKind>, p: P): (r: Res<Unit>)
    requires p.pos <= |ts|
    ensures p.pos <= r.p.pos <= |ts|
  {
    if Peek(ts, p).Number? || Peek(ts, p).Bang? then Good(Unit, Bump(ts, p)) else FailHere(ts, p, "a label number or `!`")
  }

  function CallItem(ts: seq<TokenKind>, p: P): (r: Res<Shape>)
    requires p.pos <= |ts|
    ensures p.pos <= r.p.pos <= |ts|
  {
    if !Peek(ts, p).Ident? then FailHere(ts, p, "a function name after `@`")
    else if Peek(ts, p).name in RESERVED then Fail(p, p.pos, BuiltinCalled(Peek(ts, p).name))
    else
      var path :- PathTail(ts, Bump(ts, p));
      if Peek(ts, path.1).Colon? then Fail(path.1, path.1.pos, SingleColonInPath)
      else
        var open :- Expect(ts, path.1, LParen, "`(` (user calls are written `@name()`)");
        var succ := Successor(ts, open.1);
        var close :- Expect(ts, succ.1, RParen, "`)`");
        Good(if succ.0 then SuccessorShape else BareShape, close.1)
  }

  function GotoTarget(ts: seq<TokenKind>, p: P): (r: Res<Shape>)
    requires p.pos <= |ts|
    ensures p.pos <= r.p.pos <= |ts|
  {
    if Peek(ts, p).Number? then Good(GotoShape, Bump(ts, p))
    else if Peek(ts, p).Bang? then Fail(p, p.pos, GotoReturn)
    else FailHere(ts, p, "a numeric label after `goto`")
  }

  function CheckArms(ts: seq<TokenKind>, p: P): (r: Res<Shape>)
    requires p.pos <= |ts|
    ensures p.pos <= r.p.pos <= |ts|
  {
    var open :- Expect(ts, p, LParen, "`(` after `check`");
    var marked :- Arm(ts, FlushStart(open.1, CheckArm));
    var comma :- Expect(ts, FinishNode(marked.1), Comma, "`,` between check arms");
    var blank :- Arm(ts, FlushStart(comma.1, CheckArm));
    var close :- Expect(ts, FinishNode(blank.1), RParen, "`)`");
    Good(CheckShape, close.1)
  }

  function BuiltinTail(ts: seq<TokenKind>, p: P, word: string): (r: Res<Shape>)
    requires p.pos <= |ts|
    ensures p.pos <= r.p.pos <= |ts|
  {
    if !Peek(ts, p).LParen? then Good(BareShape, p)
    else
      var open := Bump(ts, p);
      if Peek(ts, open).RParen? then Fail(open, p.pos, EmptyBuiltinParens(word))
      else
        var succ := Successor(ts, open);
        var close :- Expect(ts, succ.1, RParen, "`)`");
        Good(if succ.0 then SuccessorShape else BareShape, close.1)
  }

  function OneItem(ts: seq<TokenKind>, p: P, inGroup: bool): (r: Res<Shape>)
    requires p.pos <= |ts|
    ensures p.pos <= r.p.pos <= |ts|
  {
    match Peek(ts, p)
    case At => CallItem(ts, Bump(ts, p))
    case Ident(word) =>
      if word == "goto" then
        if inGroup then Fail(p, p.pos, GroupPosition("goto cannot appear in a comma group"))
        else GotoTarget(ts, Bump(ts, p))
      else if word == "check" then CheckArms(ts, Bump(ts, p))
      else if word == "halt" then Good(HaltShape, Bump(ts, p))
      else if word == "debugger" then Good(BareShape, Bump(ts, p))
      else if word in {"left", "right", "mark", "unmark"} then BuiltinTail(ts, Bump(ts, p), word)
      else if word in {"use", "namespace"} then Fail(p, p.pos, KeywordInBody(word))
      else Fail(p, p.pos, UnknownCommand(word))
    case _ => FailHere(ts, p, "a command")
  }

  /** Why an item may not stand before a comma. */
  function GroupRule(shape: Shape): Option<string>
  {
    match shape
    case CheckShape => Some("check must be the last command in a comma group")
    case HaltShape => Some("halt must be the last command in a comma group")
    case GotoShape => Some("goto cannot appear in a comma group")
    case SuccessorShape => Some("only the last command in a comma group may take a successor")
    case BareShape => None
  }

  function GroupTail(ts: seq<TokenKind>, p: P, last: Shape): (r: Res<Unit>)
    requires p.pos <= |ts|
    ensures p.pos <= r.p.pos <= |ts| && (r.Good? ==> p.pos < r.p.pos)
    decreases |ts| - p.pos
  {
    if !Peek(ts, p).Comma? then Expect(ts, p, Semi, "`;`")
    else if GroupRule(last).Some? then Fail(p, p.pos, GroupPosition(GroupRule(last).value))
    else
      var item :- OneItem(ts, FlushStart(Bump(ts, p), Item), true);
      GroupTail(ts, FinishNode(item.1), item.0)
  }

  function StatementBody(ts: seq<TokenKind>, p: P): (r: Res<Unit>)
    requires p.pos <= |ts|
    ensures p.pos <= r.p.pos <= |ts| && (r.Good? ==> p.pos < r.p.pos)
  {
    var item :- OneItem(ts, FlushStart(p, Item), false);
    GroupTail(ts, FinishNode(item.1), item.0)
  }

  /** Labels before a statement; the first of them is remembered. */
  function Labels(ts: seq<TokenKind>, p: P, first: Option<nat>): (r: Res<Option<nat>>)
    requires p.pos <= |ts|
    ensures p.pos <= r.p.pos <= |ts|
    decreases |ts| - p.pos
  {
    if !Peek(ts, p).Number? then Good(first, p)
    else
      var n := Peek(ts, p).value;
      var colon :- Expect(ts, Bump(ts, FlushStart(p, Label)), Colon, "`:` after a label number");
      var q := FinishNode(colon.1);
      if n in q.scope.labels then Fail(q, p.pos, DuplicateLabel(n))
      else Labels(ts, q.(scope := q.scope.(labels := q.scope.labels + {n})), if first.Some? then first else Some(n))
  }

  // ----- lookahead -----

  predicate IsModifier(ts: seq<TokenKind>, p: P)
  {
    Peek(ts, p) == Ident("volatile") && KindAt(ts, p.pos + 1).Ident?
  }

  predicate IsExport(ts: seq<TokenKind>, p: P)
  {
    Peek(ts, p) == Ident("export") && KindAt(ts, p.pos + 1).Ident?
  }

  predicate IsNestedStart(ts: seq<TokenKind>, p: P)
  {
    var i := p.pos + (if IsModifier(ts, p) then 1 else 0);
    && KindAt(ts, i).Ident? && KindAt(ts, i).name !in RESERVED
    && KindAt(ts, i + 1).LParen? && KindAt(ts, i + 2).RParen? && KindAt(ts, i + 3).LBrace?
  }

  predicate IsNamespace(ts: seq<TokenKind>, p: P)
  {
    Peek(ts, p) == Ident("namespace") && KindAt(ts, p.pos + 1).Ident? && KindAt(ts, p.pos + 2).LBrace?
  }

  predicate IsUse(ts: seq<TokenKind>, p: P)
  {
    Peek(ts, p) == Ident("use") && KindAt(ts, p.pos + 1).Ident?
  }

  predicate NeedsName(ts: seq<TokenKind>, p: P)
  {
    Peek(ts, p).Ident? && Peek(ts, p).name in {"namespace", "use", "export"} && KindAt(ts, p.pos + 1).LBrace?
  }

  predicate IsCommand(k: TokenKind)
  {
    k.At? || (k.Ident? && k.name in RESERVED)
  }

  /** A function declaration is what a level's own dispatch would read here. */
  predicate IsFunctionStart(ts: seq<TokenKind>, p: P, block: bool)
  {
    && !Peek(ts, p).Eof? && !(block && Peek(ts, p).RBrace?)
    && !IsNamespace(ts, p) && !IsUse(ts, p) && !NeedsName(ts, p) && !IsCommand(Peek(ts, p))
  }

  // ----- functions -----

  /** A function's name and its token. */
  datatype FnName = FnName(name: string, at: nat)

  function Header(ts: seq<TokenKind>, p: P): (r: Res<FnName>)
    requires p.pos <= |ts|
    ensures p.pos <= r.p.pos <= |ts| && (r.Good? ==> p.pos < r.p.pos)
  {
    if !Peek(ts, p).Ident? then FailHere(ts, p, "a function name")
    else if IsReservedDefinition(Peek(ts, p).name) then Fail(p, p.pos, ReservedName(Peek(ts, p).name, "function"))
    else
      var open :- Expect(ts, Bump(ts, p), LParen, "`(` after the function name");
      var close :- Expect(ts, open.1, RParen, "`)` (functions take no parameters)");
      var body :- Expect(ts, close.1, LBrace, "`{`");
      Good(FnName(Peek(ts, p).name, p.pos), body.1)
  }

  const NO_SCOPE := Scope({}, {})

  function FunctionBody(ts: seq<TokenKind>, p: P): (r: Res<FnName>)
    requires p.pos <= |ts|
    ensures p.pos <= r.p.pos <= |ts| && (r.Good? ==> p.pos < r.p.pos)
    decreases |ts| - p.pos, 1
  {
    var header :- Header(ts, p);
    var body := BodyItems(ts, header.1.(scope := NO_SCOPE));
    match body
    case Good(_, q) => Good(header.0, q.(scope := p.scope))
    case Bad(e, q) => Bad(e, q.(scope := p.scope))
  }

  function BodyItems(ts: seq<TokenKind>, p: P): (r: Res<Unit>)
    requires p.pos <= |ts|
    ensures p.pos <= r.p.pos <= |ts|
    decreases |ts| - p.pos, 4
  {
    var item :- BodyItem(ts, Seam(p), |Seam(p).sink.children|);
    if item.0.Done? then Good(Unit, item.1) else BodyItems(ts, item.1)
  }

  function BodyItem(ts: seq<TokenKind>, p: P, at: nat): (r: Res<Step>)
    requires p.pos <= |ts|
    ensures p.pos <= r.p.pos <= |ts| && (r.Good? && r.value.Continue? ==> p.pos < r.p.pos)
    decreases |ts| - p.pos, 3
  {
    if Peek(ts, p).Eof? then FailHere(ts, p, "`}` to close the function body")
    else if IsDoc(Peek(ts, p)) then
      var doc :- DocRunNode(ts, p);
      if !IsNestedStart(ts, doc.1) then Fail(doc.1, p.pos, DanglingDocRun) else Undocumented(ts, doc.1, at)
    else Undocumented(ts, p, at)
  }

  /** A body item behind its doc run. */
  function Undocumented(ts: seq<TokenKind>, p: P, at: nat): (r: Res<Step>)
    requires p.pos <= |ts|
    ensures p.pos <= r.p.pos <= |ts| && (r.Good? && r.value.Continue? ==> p.pos < r.p.pos)
    decreases |ts| - p.pos, 2
  {
    if IsNestedStart(ts, p) then
      if IsModifier(ts, p) then Fail(p, p.pos, VolatileNotOnMain(KindAt(ts, p.pos + 1).name))
      else
        var f :- FunctionBody(ts, StartNodeAt(p, at, Function));
        if f.0.name in f.1.scope.nested then Fail(f.1, f.0.at, DuplicateName(f.0.name, "function"))
        else Good(Continue, f.1.(scope := f.1.scope.(nested := f.1.scope.nested + {f.0.name})))
    else if IsExport(ts, p) then Fail(p, p.pos, NestedExport)
    else
      var labels :- Labels(ts, p, None);
      if Peek(ts, labels.1).RBrace? then
        if labels.0.Some? then Fail(labels.1, labels.1.pos, DanglingLabel(labels.0.value))
        else Good(Done, FinishNode(Bump(ts, labels.1)))
      else
        var body :- StatementBody(ts, StartNodeAt(labels.1, at, Statement));
        Good(Continue, FinishNode(body.1))
  }

  // ----- levels -----

  function TopItems(ts: seq<TokenKind>, p: P, ns: seq<string>, block: bool): (r: Res<Unit>)
    requires p.pos <= |ts|
    ensures p.pos <= r.p.pos <= |ts|
    decreases |ts| - p.pos, 8
  {
    var item :- TopItem(ts, Seam(p), ns, block, |Seam(p).sink.children|);
    if item.0.Done? then Good(Unit, item.1) else TopItems(ts, item.1, ns, block)
  }

  function TopItem(ts: seq<TokenKind>, p: P, ns: seq<string>, block: bool, at: nat): (r: Res<Step>)
    requires p.pos <= |ts|
    ensures p.pos <= r.p.pos <= |ts| && (r.Good? && r.value.Continue? ==> p.pos < r.p.pos)
    decreases |ts| - p.pos, 7
  {
    if IsDoc(Peek(ts, p)) then
      var doc :- DocRunNode(ts, p);
      if !IsFunctionStart(ts, doc.1, block) then Fail(doc.1, p.pos, DanglingDocRun) else Plain(ts, doc.1, ns, block, at)
    else Plain(ts, p, ns, block, at)
  }

  /** A level's item behind its doc run. */
  function Plain(ts: seq<TokenKind>, p: P, ns: seq<string>, block: bool, at: nat): (r: Res<Step>)
    requires p.pos <= |ts|
    ensures p.pos <= r.p.pos <= |ts| && (r.Good? && r.value.Continue? ==> p.pos < r.p.pos)
    decreases |ts| - p.pos, 6
  {
    var k := Peek(ts, p);
    if k.Eof? then if block then FailHere(ts, p, "`}` to close the namespace block") else Good(Done, p)
    else if block && k.RBrace? then Good(Done, Bump(ts, p))
    else if NeedsName(ts, p) then Fail(p, p.pos, KeywordNeedsName(k.name))
    else if IsCommand(k) then Fail(p, p.pos, TopLevelStatement(k))
    else if IsUse(ts, p) then
      var list :- Imports(ts, Bump(ts, FlushStart(p, UseDecl)));
      Good(Continue, FinishNode(list.1))
    else if IsNamespace(ts, p) then NamespaceBlock(ts, p, ns)
    else Declaration(ts, p, ns, at)
  }

  function NamespaceBlock(ts: seq<TokenKind>, p: P, ns: seq<string>): (r: Res<Step>)
    requires p.pos <= |ts| && IsNamespace(ts, p)
    ensures p.pos <= r.p.pos <= |ts| && (r.Good? && r.value.Continue? ==> p.pos < r.p.pos)
    decreases |ts| - p.pos, 5
  {
    var q := Bump(ts, FlushStart(p, Namespace));
    var name := KindAt(ts, p.pos + 1).name;
    if IsReservedDefinition(name) then Fail(q, q.pos, ReservedName(name, "namespace"))
    else if (ns, name) in q.declared then Fail(q, q.pos, DuplicateName(name, "function"))
    else
      var child := ns + [name];
      var inner := Bump(ts, Bump(ts, q));
      var body :- TopItems(ts, inner.(namespaces := inner.namespaces + {child}), child, true);
      Good(Continue, FinishNode(body.1))
  }

  /** `[volatile] [export] name () { … }`. */
  function Declaration(ts: seq<TokenKind>, p: P, ns: seq<string>, at: nat): (r: Res<Step>)
    requires p.pos <= |ts|
    ensures p.pos <= r.p.pos <= |ts| && (r.Good? && r.value.Continue? ==> p.pos < r.p.pos)
    decreases |ts| - p.pos, 5
  {
    var q := if IsModifier(ts, p) then Bump(ts, p) else p;
    var h := if IsExport(ts, q) then Bump(ts, q) else q;
    var f :- FunctionBody(ts, StartNodeAt(h, at, Function));
    Declare(p.pos, IsModifier(ts, p), ns, f.0, f.1)
  }

  /** The checks on a function that has been read. */
  function Declare(at: nat, modified: bool, ns: seq<string>, f: FnName, p: P): (r: Res<Step>)
    ensures r.p.pos == p.pos && (r.Good? ==> r.value.Continue?)
  {
    if modified && !(ns == [] && f.name == "main") then Fail(p, at, VolatileNotOnMain(f.name))
    else if (ns, f.name) in p.declared then Fail(p, f.at, DuplicateName(f.name, "function"))
    else if ns + [f.name] in p.namespaces then Fail(p, f.at, DuplicateName(f.name, "namespace"))
    else Good(Continue, p.(declared := p.declared + {(ns, f.name)}))
  }

  /** The whole file. */
  function File0(): P
  {
    P(0, {}, {}, NO_SCOPE, Start(Empty(), File))
  }

  function Walk(ts: seq<TokenKind>): Res<Unit>
  {
    TopItems(ts, File0(), [], false)
  }

  /** The finished tree: the end's trivia, and the root closed. */
  function TreeOf(p: P): seq<Tree>
  {
    Finish(Flush(p.sink, p.pos)).children
  }

  /** What the lexer always gives: one end of file, at the end. */
  ghost predicate Lexed(ts: seq<TokenKind>)
  {
    ts != [] && ts[|ts| - 1].Eof? && forall i | 0 <= i < |ts| - 1 :: !ts[i].Eof?
  }
}
