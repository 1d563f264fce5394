/** The `.pmc` language without a parser: what programs are made of, how each is spelled in tokens, and which
    are legal. */
module PmLanguage {
  import opened Options
  import G = PmGrammar
  import S = PmSyntax

  type Tokens = seq<G.TokenKind>

  // ----- programs -----

  /** A label as it is written. */
  datatype Label = Label(value: nat, written: string)

  /** Where control goes: to a label, or by return. */
  datatype Dest = To(target: Label) | Back

  datatype Command =
    | Tape(word: string, succ: Option<Dest>)
    | Debugger
    | Halt
    | Goto(target: Label)
    | Check(marked: Dest, blank: Dest)
    | Call(path: seq<string>, succ: Option<Dest>)

  datatype Doc = Line | Attention(text: string)

  datatype Fn = Fn(name: string, body: seq<Item>)

  /** An item of a body: a nested function, or labels and a comma group of commands. */
  datatype Item = Nested(docs: seq<Doc>, fn: Fn) | Do(labels: seq<Label>, commands: seq<Command>)

  datatype Import = Import(path: seq<string>, alias: Option<string>)

  datatype Top =
    | Use(imports: seq<Import>)
    | Namespace(name: string, items: seq<Top>)
    | Function(docs: seq<Doc>, isVolatile: bool, exported: bool, fn: Fn)

  // ----- spelling -----

  function SpellLabel(l: Label): G.TokenKind
  {
    G.Number(l.value, l.written)
  }

  function SpellDest(d: Dest): G.TokenKind
  {
    match d
    case To(l) => SpellLabel(l)
    case Back => G.Bang
  }

  function SpellSucc(succ: Option<Dest>): Tokens
  {
    match succ
    case None => []
    case Some(d) => [SpellDest(d)]
  }

  /** `:: name` for each. */
  function SpellTail(names: seq<string>): Tokens
  {
    if names == [] then [] else [G.ColonColon, G.Ident(names[0])] + SpellTail(names[1..])
  }

  function SpellPath(path: seq<string>): Tokens
    requires path != []
  {
    [G.Ident(path[0])] + SpellTail(path[1..])
  }

  function SpellCommand(c: Command): Tokens
  {
    match c
    case Tape(word, None) => [G.Ident(word)]
    case Tape(word, Some(d)) => [G.Ident(word), G.LParen, SpellDest(d), G.RParen]
    case Debugger => [G.Ident("debugger")]
    case Halt => [G.Ident("halt")]
    case Goto(l) => [G.Ident("goto"), SpellLabel(l)]
    case Check(a, b) => [G.Ident("check"), G.LParen, SpellDest(a), G.Comma, SpellDest(b), G.RParen]
    case Call(path, succ) => [G.At] + (if path == [] then [] else SpellPath(path)) + [G.LParen] + SpellSucc(succ) + [G.RParen]
  }

  /** `, command` for each, and the semicolon. */
  function SpellRest(commands: seq<Command>): Tokens
  {
    if commands == [] then [G.Semi] else [G.Comma] + SpellCommand(commands[0]) + SpellRest(commands[1..])
  }

  function SpellGroup(commands: seq<Command>): Tokens
  {
    if commands == [] then [] else SpellCommand(commands[0]) + SpellRest(commands[1..])
  }

  function SpellLabels(labels: seq<Label>): Tokens
  {
    if labels == [] then [] else [SpellLabel(labels[0]), G.Colon] + SpellLabels(labels[1..])
  }

  function SpellDoc(d: Doc): G.TokenKind
  {
    match d
    case Line => G.DocLine
    case Attention(text) => G.AttentionLine(text)
  }

  function SpellDocs(docs: seq<Doc>): Tokens
  {
    if docs == [] then [] else [SpellDoc(docs[0])] + SpellDocs(docs[1..])
  }

  function SpellHead(name: string): Tokens
  {
    [G.Ident(name), G.LParen, G.RParen, G.LBrace]
  }

  function SpellFn(fn: Fn): Tokens
    decreases fn
  {
    SpellHead(fn.name) + SpellBody(fn.body)
  }

  /** The items, and the closing brace. */
  function SpellBody(items: seq<Item>): Tokens
    decreases items
  {
    if items == [] then [G.RBrace] else SpellItem(items[0]) + SpellBody(items[1..])
  }

  function SpellItem(item: Item): Tokens
    decreases item
  {
    match item
    case Nested(docs, fn) => SpellDocs(docs) + SpellFn(fn)
    case Do(labels, commands) => SpellLabels(labels) + SpellGroup(commands)
  }

  function SpellImport(i: Import): Tokens
  {
    (if i.path == [] then [] else SpellPath(i.path)) + (if i.alias.Some? then [G.Ident("as"), G.Ident(i.alias.value)] else [])
  }

  /** Imports between commas, and the semicolon. */
  function SpellImports(imports: seq<Import>): Tokens
  {
    if imports == [] then []
    else SpellImport(imports[0]) + (if |imports| == 1 then [G.Semi] else [G.Comma] + SpellImports(imports[1..]))
  }

  function SpellTop(item: Top): Tokens
    decreases item
  {
    match item
    case Use(imports) => [G.Ident("use")] + SpellImports(imports)
    case Namespace(name, items) => [G.Ident("namespace"), G.Ident(name), G.LBrace] + SpellTops(items) + [G.RBrace]
    case Function(docs, isVolatile, exported, fn) =>
      SpellDocs(docs) + (if isVolatile then [G.Ident("volatile")] else []) + (if exported then [G.Ident("export")]
                                                                              else []) + SpellFn(fn)
  }

  function SpellTops(items: seq<Top>): Tokens
    decreases items
  {
    if items == [] then [] else SpellTop(items[0]) + SpellTops(items[1..])
  }

  /** A file: its items and the end. */
  function Spell(items: seq<Top>): Tokens
  {
    SpellTops(items) + [G.Eof]
  }

  // ----- legality -----

  const KEYWORDS: set<string> := {"goto", "check", "left", "right", "mark", "unmark", "halt", "debugger"}

  /** What a path may be made of. */
  predicate Usable(name: string)
  {
    name !in KEYWORDS
  }

  /** What may be defined. */
  predicate Definable(name: string)
  {
    Usable(name) && name != "volatile"
  }

  predicate LegalPath(path: seq<string>)
  {
    path != [] && forall k | 0 <= k < |path| :: Usable(path[k])
  }

  predicate LegalCommand(c: Command)
  {
    match c
    case Tape(word, _) => word == "left" || word == "right" || word == "mark" || word == "unmark"
    case Call(path, _) => LegalPath(path)
    case _ => true
  }

  /** It does something and then falls through. */
  predicate Bare(c: Command)
  {
    c.Debugger? || ((c.Tape? || c.Call?) && c.succ.None?)
  }

  /** Only the last command of a group may transfer control, and a `goto` stands alone. */
  predicate LegalGroup(commands: seq<Command>)
  {
    && commands != [] && (forall k | 0 <= k < |commands| :: LegalCommand(commands[k]))
    && (forall k | 0 <= k < |commands| - 1 :: Bare(commands[k]))
    && (forall k | 0 <= k < |commands| && commands[k].Goto? :: |commands| == 1)
  }

  /** An attention line that begins with `[name]`, the name of letters, digits and underscores, no digit
      first. */
  predicate HasAttribute(text: string, name: string)
  {
    && name != [] && !('0' <= name[0] <= '9')
    && (forall k | 0 <= k < |name| :: 'a' <= name[k] <= 'z' || 'A' <= name[k] <= 'Z' || name[k] == '_' || '0' <= name[k] <= '9')
    && "[" + name + "]" <= text
  }

  lemma {:induction false} CloseFound(text: string, i: nat)
    requires i <= |text|
    ensures var c := G.FindClose(text, i);
            && (c.Some? ==> i <= c.value < |text| && text[c.value] == ']' && forall k | i <= k < c.value :: text[k] != ']')
            && (c.None? ==> forall k | i <= k < |text| :: text[k] != ']')
    decreases |text| - i
  {
    if i < |text| {
      CloseFound(text, i + 1);
    }
  }

  lemma {:induction false} PartsAre(text: string, i: nat, n: nat)
    requires i <= n <= |text|
    ensures G.AllNameParts(text, i, n) <==> forall k | i <= k < n :: G.IsNamePart(text[k])
    decreases n - i
  {
    if i < n {
      PartsAre(text, i + 1, n);
    }
  }

  /** The attribute that is read off a line is the one it has. */
  lemma AttributeIs(text: string, name: string)
    ensures G.ParseAttr(text) == Some(name) <==> HasAttribute(text, name)
  {
    hide G.FindClose, G.AllNameParts;
    CloseFound(text, 0);
    var close := G.FindClose(text, 0);
    if close.Some? && 1 < close.value {
      PartsAre(text, 2, close.value);
      if G.ParseAttr(text) == Some(name) {
        assert name == text[1..close.value];
        assert "[" + name + "]" == text[..close.value + 1];
      }
    }
    if HasAttribute(text, name) {
      var whole := "[" + name + "]";
      assert forall k | 0 <= k < |name| :: whole[k + 1] == name[k] == text[k + 1];
      assert whole[|name| + 1] == ']' == text[|name| + 1];
      assert text[1..|name| + 1] == name;
      PartsAre(text, 2, |name| + 1);
    }
  }

  predicate IsAttribute(d: Doc)
  {
    d.Attention? && G.ParseAttr(d.text).Some?
  }

  /** Attention lines come last; `deprecated` is the only attribute, and stands once. */
  predicate LegalDocs(docs: seq<Doc>)
  {
    && (forall i, k | 0 <= i < k < |docs| && docs[i].Attention? :: docs[k].Attention?)
    && (forall k | 0 <= k < |docs| && IsAttribute(docs[k]) :: G.ParseAttr(docs[k].text) == Some("deprecated"))
    && forall i, k | 0 <= i < k < |docs| :: !(IsAttribute(docs[i]) && IsAttribute(docs[k]))
  }

  /** The labels of a body, in order; those of its nested functions are their own. */
  function LabelsOf(items: seq<Item>): seq<nat>
  {
    if items == [] then []
    else (if items[0].Do? then Values(items[0].labels) else []) + LabelsOf(items[1..])
  }

  function Values(labels: seq<Label>): seq<nat>
  {
    seq(|labels|, (k: nat) requires k < |labels| => labels[k].value)
  }

  function NestedNames(items: seq<Item>): seq<string>
  {
    if items == [] then []
    else (if items[0].Nested? then [items[0].fn.name] else []) + NestedNames(items[1..])
  }

  predicate Distinct<T(==)>(xs: seq<T>)
  {
    forall i, k | 0 <= i < k < |xs| :: xs[i] != xs[k]
  }

  /** No label twice in a body, no two nested functions of one name. */
  predicate LegalFn(fn: Fn)
    decreases fn
  {
    Definable(fn.name) && LegalItems(fn.body) && Distinct(LabelsOf(fn.body)) && Distinct(NestedNames(fn.body))
  }

  predicate LegalItems(items: seq<Item>)
    decreases items
  {
    items == [] || (LegalItem(items[0]) && LegalItems(items[1..]))
  }

  predicate LegalItem(item: Item)
    decreases item
  {
    match item
    case Nested(docs, fn) => LegalDocs(docs) && LegalFn(fn)
    case Do(_, commands) => LegalGroup(commands)
  }

  predicate LegalImports(imports: seq<Import>)
  {
    imports != [] && forall k | 0 <= k < |imports| :: LegalPath(imports[k].path)
  }

  /** Functions by namespace and name. */
  type Declared = (seq<string>, string)

  function FunctionsOf(items: seq<Top>, ns: seq<string>): seq<Declared>
    decreases items
  {
    if items == [] then [] else FunctionsIn(items[0], ns) + FunctionsOf(items[1..], ns)
  }

  function FunctionsIn(item: Top, ns: seq<string>): seq<Declared>
    decreases item
  {
    match item
    case Use(_) => []
    case Namespace(name, items) => FunctionsOf(items, ns + [name])
    case Function(_, _, _, fn) => [(ns, fn.name)]
  }

  /** The namespaces that are opened, in order; one may be opened again. */
  function NamespacesOf(items: seq<Top>, ns: seq<string>): seq<seq<string>>
    decreases items
  {
    if items == [] then [] else NamespacesIn(items[0], ns) + NamespacesOf(items[1..], ns)
  }

  function NamespacesIn(item: Top, ns: seq<string>): seq<seq<string>>
    decreases item
  {
    if item.Namespace? then [ns + [item.name]] + NamespacesOf(item.items, ns + [item.name]) else []
  }

  predicate LegalTop(item: Top, ns: seq<string>)
    decreases item
  {
    match item
    case Use(imports) => LegalImports(imports)
    case Namespace(name, items) => Definable(name) && LegalTops(items, ns + [name])
    case Function(docs, isVolatile, _, fn) =>
      LegalDocs(docs) && LegalFn(fn) && (isVolatile ==> ns == [] && fn.name == "main")
  }

  predicate LegalTops(items: seq<Top>, ns: seq<string>)
    decreases items
  {
    items == [] || (LegalTop(items[0], ns) && LegalTops(items[1..], ns))
  }

  /** No function is declared twice, and none has a namespace's name. */
  predicate Legal(items: seq<Top>)
  {
    var fns, spaces := FunctionsOf(items, []), NamespacesOf(items, []);
    && LegalTops(items, []) && Distinct(fns)
    && forall i, k | 0 <= i < |fns| && 0 <= k < |spaces| :: fns[i].0 + [fns[i].1] != spaces[k]
  }
}
