/** The TM-1 lexer: one cursor over the source, in two modes that differ only in whether comments are
    kept. */
module TmLexer {

  datatype CommentKind = Line | Block

  datatype Kind =
    | Ident(name: string)
    | Number(value: nat, digits: string)
    | Glyph(text: string)
    | DocLine(text: string)
    | AttentionLine(text: string)
    | Comment(text: string, form: CommentKind, ownLine: bool)
    | DotDot | Arrow | FatArrow | ColonColon | Dot | Dash | Plus | Eq | Star | Percent | Lt | Gt
    | LBracket | RBracket | LBrace | RBrace | LParen | RParen | Comma | Semi | Colon | At | Bang
    | Eof

  datatype Token = Token(kind: Kind, line: nat, col: nat, len: nat)

  datatype Problem =
    | Unexpected(c: char)
    | OpenComment
    | OpenGlyph
    | EmptyGlyph
    | InvalidEscape(c: char)
    | DigitFirst
    | TooLarge(digits: string)

  datatype Lexed = Ok(tokens: seq<Token>) | Err(problem: Problem, line: nat, col: nat)

  /** The Unicode letter classes, as the host language has them. */
  datatype Classes = Classes(alphabetic: char -> bool, numeric: char -> bool)

  // ----- characters -----

  /** Unicode `White_Space`. */
  predicate IsWhite(c: char)
  {
    var n := c as int;
    || 0x09 <= n <= 0x0D || n == 0x20 || n == 0x85 || n == 0xA0 || n == 0x1680
    || 0x2000 <= n <= 0x200A || n == 0x2028 || n == 0x2029 || n == 0x202F || n == 0x205F || n == 0x3000
  }

  predicate IsDigit(c: char)
  {
    '0' <= c <= '9'
  }

  predicate StartsWord(cls: Classes, c: char)
  {
    cls.alphabetic(c) || c == '_'
  }

  predicate InWord(cls: Classes, c: char)
  {
    cls.alphabetic(c) || cls.numeric(c) || c == '_'
  }

  predicate IsEscape(c: char)
  {
    c == '\'' || c == '\\'
  }

  // ----- positions -----

  function LineOf(s: string, i: nat): nat
    requires i <= |s|
  {
    if i == 0 then 1 else LineOf(s, i - 1) + (if s[i - 1] == '\n' then 1 else 0)
  }

  /** Where the line that holds position i begins. */
  function LineStart(s: string, i: nat): (r: nat)
    requires i <= |s|
    ensures r <= i
  {
    if i == 0 then 0 else if s[i - 1] == '\n' then i else LineStart(s, i - 1)
  }

  function ColOf(s: string, i: nat): nat
    requires i <= |s|
  {
    i - LineStart(s, i) + 1
  }

  /** Is there only white space before i on its line? */
  predicate AtLineStart(s: string, i: nat)
    requires i <= |s|
  {
    forall k | LineStart(s, i) <= k < i :: IsWhite(s[k])
  }

  // ----- what stands at a position -----

  /** One lexeme: nothing to keep, a token of `len` characters, or a problem; then where to go on. */
  datatype Lexeme = Skip(next: nat) | Found(kind: Kind, len: nat, next: nat) | Bad(problem: Problem)

  function EndOfLine(s: string, i: nat): (e: nat)
    requires i <= |s|
    ensures i <= e <= |s| && (e < |s| ==> s[e] == '\n')
    ensures forall k | i <= k < e :: s[k] != '\n'
    decreases |s| - i
  {
    if i == |s| || s[i] == '\n' then i else EndOfLine(s, i + 1)
  }

  function EndOfRun(s: string, i: nat, keep: char -> bool): (e: nat)
    requires i <= |s|
    ensures i <= e <= |s| && (e < |s| ==> !keep(s[e]))
    ensures forall k | i <= k < e :: keep(s[k])
    decreases |s| - i
  {
    if i == |s| || !keep(s[i]) then i else EndOfRun(s, i + 1, keep)
  }

  /** The end of a block comment, whose body begins at `body`; 0 if it never ends. */
  function EndOfBlock(s: string, body: nat, i: nat): (e: nat)
    requires body <= i <= |s|
    ensures e == 0 || i < e <= |s|
    decreases |s| - i
  {
    if i == |s| then 0
    else if body < i && s[i - 1] == '*' && s[i] == '/' then i + 1
    else EndOfBlock(s, body, i + 1)
  }

  datatype GlyphEnd = Closed(text: string, next: nat) | Open | BadEscape(c: char)

  function After(c: char, g: GlyphEnd): GlyphEnd
  {
    if g.Closed? then Closed([c] + g.text, g.next) else g
  }

  /** The rest of a glyph literal from i, its escapes resolved. */
  function GlyphFrom(s: string, i: nat): (g: GlyphEnd)
    requires i <= |s|
    ensures g.Closed? ==> i < g.next <= |s|
    decreases |s| - i
  {
    if i == |s| || s[i] == '\n' then Open
    else if s[i] == '\'' then Closed("", i + 1)
    else if s[i] == '\\' then
      if i + 1 == |s| || s[i + 1] == '\n' then Open
      else if IsEscape(s[i + 1]) then After(s[i + 1], GlyphFrom(s, i + 2))
      else BadEscape(s[i + 1])
    else After(s[i], GlyphFrom(s, i + 1))
  }

  function NumberOf(digits: string): nat
    requires forall k | 0 <= k < |digits| :: IsDigit(digits[k])
  {
    if digits == [] then 0
    else
      assert IsDigit(digits[|digits| - 1]);
      10 * NumberOf(digits[..|digits| - 1]) + (digits[|digits| - 1] as int - '0' as int)
  }

  /** One leading space of a doc payload goes. */
  function Payload(raw: string): string
  {
    if raw != [] && raw[0] == ' ' then raw[1..] else raw
  }

  predicate Next(s: string, i: nat, c: char)
  {
    i + 1 < |s| && s[i + 1] == c
  }

  function Single(c: char): Kind
  {
    match c
    case '!' => Bang
    case '+' => Plus
    case ',' => Comma
    case ';' => Semi
    case '*' => Star
    case '%' => Percent
    case '<' => Lt
    case '>' => Gt
    case '[' => LBracket
    case ']' => RBracket
    case '{' => LBrace
    case '}' => RBrace
    case '(' => LParen
    case ')' => RParen
    case '@' => At
    case _ => Eof
  }

  function DocAt(s: string, i: nat): (r: Lexeme)
    requires i < |s|
    ensures !r.Bad? ==> i < r.next <= |s|
  {
    var e := EndOfLine(s, i + 1);
    var text := Payload(s[i + 1..e]);
    Found(if s[i] == '?' then DocLine(text) else AttentionLine(text), e - i, e)
  }

  function CommentAt(s: string, i: nat): (r: Lexeme)
    requires i < |s|
    ensures !r.Bad? ==> i < r.next <= |s|
  {
    if Next(s, i, '/') then
      var e := EndOfLine(s, i + 2);
      Found(Comment(s[i..e], Line, AtLineStart(s, i)), e - i, if e < |s| then e + 1 else e)
    else if Next(s, i, '*') then
      var e := EndOfBlock(s, i + 2, i + 2);
      if e == 0 then Bad(OpenComment) else Found(Comment(s[i..e], Block, AtLineStart(s, i)), e - i, e)
    else Bad(Unexpected('/'))
  }

  function GlyphAt(s: string, i: nat): (r: Lexeme)
    requires i < |s|
    ensures !r.Bad? ==> i < r.next <= |s|
  {
    match GlyphFrom(s, i + 1)
    case Open => Bad(OpenGlyph)
    case BadEscape(c) => Bad(InvalidEscape(c))
    case Closed(text, next) => if text == "" then Bad(EmptyGlyph) else Found(Glyph(text), next - i, next)
  }

  function PairAt(s: string, i: nat): (r: Lexeme)
    requires i < |s|
    ensures !r.Bad? ==> i < r.next <= |s|
  {
    match s[i]
    case ':' => if Next(s, i, ':') then Found(ColonColon, 2, i + 2) else Found(Colon, 1, i + 1)
    case '-' => if Next(s, i, '>') then Found(Arrow, 2, i + 2) else Found(Dash, 1, i + 1)
    case '=' => if Next(s, i, '>') then Found(FatArrow, 2, i + 2) else Found(Eq, 1, i + 1)
    case _ => if Next(s, i, '.') then Found(DotDot, 2, i + 2) else Found(Dot, 1, i + 1)
  }

  function NumberAt(cls: Classes, s: string, i: nat): (r: Lexeme)
    requires i < |s| && IsDigit(s[i])
    ensures !r.Bad? ==> i < r.next <= |s|
  {
    var e := EndOfRun(s, i, IsDigit);
    if e < |s| && StartsWord(cls, s[e]) then Bad(DigitFirst)
    else if NumberOf(s[i..e]) >= 0x1_0000_0000 then Bad(TooLarge(s[i..e]))
    else Found(Number(NumberOf(s[i..e]), s[i..e]), e - i, e)
  }

  function Scan(cls: Classes, s: string, i: nat): (r: Lexeme)
    requires i < |s|
    ensures !r.Bad? ==> i < r.next <= |s|
  {
    var c := s[i];
    if IsWhite(c) then Skip(i + 1)
    else if AtLineStart(s, i) && (c == '?' || c == '!') then DocAt(s, i)
    else if c == '/' then CommentAt(s, i)
    else if c == '\'' then GlyphAt(s, i)
    else if c in ":-=." then PairAt(s, i)
    else if Single(c) != Eof then Found(Single(c), 1, i + 1)
    else if IsDigit(c) then NumberAt(cls, s, i)
    else if StartsWord(cls, c) then
      var e := EndOfRun(s, i, c => InWord(cls, c));
      Found(Ident(s[i..e]), e - i, e)
    else Bad(Unexpected(c))
  }

  // ----- the token stream -----

  function Prepend(t: Token, r: Lexed): Lexed
  {
    if r.Ok? then Ok([t] + r.tokens) else r
  }

  function LexFrom(cls: Classes, s: string, i: nat, comments: bool): (r: Lexed)
    requires i <= |s|
    decreases |s| - i
  {
    if i == |s| then Ok([Token(Eof, LineOf(s, i), ColOf(s, i), 0)])
    else
      match Scan(cls, s, i)
      case Bad(problem) => Err(problem, LineOf(s, i), ColOf(s, i))
      case Skip(next) => LexFrom(cls, s, next, comments)
      case Found(kind, len, next) =>
        if kind.Comment? && !comments then LexFrom(cls, s, next, comments)
        else Prepend(Token(kind, LineOf(s, i), ColOf(s, i), len), LexFrom(cls, s, next, comments))
  }

  function Lex(cls: Classes, s: string, comments: bool): Lexed
  {
    LexFrom(cls, s, 0, comments)
  }

  function WithoutComments(tokens: seq<Token>): seq<Token>
  {
    if tokens == [] then []
    else if tokens[0].kind.Comment? then WithoutComments(tokens[1..])
    else [tokens[0]] + WithoutComments(tokens[1..])
  }

  /** The two modes fail together, in the same place for the same reason, or both succeed, and then the
      stream without comments is the other one with its comments taken out. */
  lemma {:induction false} ModeLaw(cls: Classes, s: string, i: nat)
    requires i <= |s|
    ensures match LexFrom(cls, s, i, true)
            case Err(_, _, _) => LexFrom(cls, s, i, false) == LexFrom(cls, s, i, true)
            case Ok(tokens) => LexFrom(cls, s, i, false) == Ok(WithoutComments(tokens))
    decreases |s| - i
  {
    hide Scan, LineOf, ColOf;
    if i < |s| {
      var lexeme := Scan(cls, s, i);
      if !lexeme.Bad? {
        ModeLaw(cls, s, lexeme.next);
      }
    }
  }

  // ----- spelling -----

  function Escape(c: char): string
  {
    if IsEscape(c) then ['\\', c] else [c]
  }

  /** A glyph's content as it is written between the quotes. */
  function Escaped(text: string): string
  {
    if text == "" then "" else Escape(text[0]) + Escaped(text[1..])
  }

  function Quoted(text: string): string
  {
    "'" + Escaped(text) + "'"
  }

  /** The characters of a token that is always written the same way. */
  function Fixed(k: Kind): string
  {
    match k
    case DotDot => ".."
    case Arrow => "->"
    case FatArrow => "=>"
    case ColonColon => "::"
    case Dot => "."
    case Dash => "-"
    case Plus => "+"
    case Eq => "="
    case Star => "*"
    case Percent => "%"
    case Lt => "<"
    case Gt => ">"
    case LBracket => "["
    case RBracket => "]"
    case LBrace => "{"
    case RBrace => "}"
    case LParen => "("
    case RParen => ")"
    case Comma => ","
    case Semi => ";"
    case Colon => ":"
    case At => "@"
    case Bang => "!"
    case _ => ""
  }

  /** The text is what the token stands for, character for character. */
  ghost predicate Spells(cls: Classes, k: Kind, text: string)
  {
    match k
    case Ident(name) => text == name && text != "" && StartsWord(cls, text[0]) && forall c | c in text :: InWord(cls, c)
    case Number(value, digits) =>
      && text == digits && text != "" && (forall k | 0 <= k < |digits| :: IsDigit(digits[k]))
      && value == NumberOf(digits) < 0x1_0000_0000
    case Glyph(content) => content != "" && '\n' !in content && text == Quoted(content)
    case DocLine(content) => text != "" && text[0] == '?' && '\n' !in text && content == Payload(text[1..])
    case AttentionLine(content) => text != "" && text[0] == '!' && '\n' !in text && content == Payload(text[1..])
    case Comment(content, Line, _) => text == content && |text| >= 2 && text[..2] == "//" && '\n' !in text
    case Comment(content, Block, _) => text == content && |text| >= 4 && text[..2] == "/*" && text[|text| - 2..] == "*/"
    case _ => text == Fixed(k)
  }

  /** Doc and attention lines begin their line, and a `!` that does is an attention line. */
  ghost predicate OnItsLine(k: Kind, s: string, a: nat)
    requires a <= |s|
  {
    match k
    case Comment(_, _, ownLine) => ownLine <==> AtLineStart(s, a)
    case DocLine(_) => AtLineStart(s, a)
    case AttentionLine(_) => AtLineStart(s, a)
    case Bang => !AtLineStart(s, a)
    case _ => true
  }

  /** The token at a goes on as far as it can, and ends at e. */
  ghost predicate EndsAt(cls: Classes, k: Kind, s: string, a: nat, e: nat)
    requires a <= e <= |s|
  {
    match k
    case Ident(_) => e < |s| ==> !InWord(cls, s[e])
    case Number(_, _) => e < |s| ==> !IsDigit(s[e]) && !StartsWord(cls, s[e])
    case DocLine(_) => e < |s| ==> s[e] == '\n'
    case AttentionLine(_) => e < |s| ==> s[e] == '\n'
    case Comment(_, Line, _) => e < |s| ==> s[e] == '\n'
    case Comment(_, Block, _) => forall k | a + 2 < k < e - 1 :: !(s[k - 1] == '*' && s[k] == '/')
    case Colon => e < |s| ==> s[e] != ':'
    case Dash => e < |s| ==> s[e] != '>'
    case Eq => e < |s| ==> s[e] != '>'
    case Dot => e < |s| ==> s[e] != '.'
    case _ => true
  }

  /** The len characters at a are the token of this kind that stands there. */
  ghost predicate Fits(cls: Classes, s: string, a: nat, k: Kind, len: nat)
  {
    a + len <= |s| && Spells(cls, k, s[a..a + len]) && OnItsLine(k, s, a) && EndsAt(cls, k, s, a, a + len)
  }

  lemma {:induction false} GlyphSpelled(s: string, i: nat)
    requires i <= |s| && GlyphFrom(s, i).Closed?
    ensures var g := GlyphFrom(s, i);
            s[i..g.next] == Escaped(g.text) + "'" && '\n' !in g.text
    decreases |s| - i
  {
    hide Escaped;
    if s[i] == '\'' {
      assert Escaped("") == "" by { NothingEscaped(""); }
    } else {
      var step := if s[i] == '\\' then 2 else 1;
      var c := s[i + step - 1];
      GlyphSpelled(s, i + step);
      var inner := GlyphFrom(s, i + step);
      assert GlyphFrom(s, i) == After(c, inner);
      EscapedFirst(c, inner.text);
      assert s[i..inner.next] == s[i..i + step] + s[i + step..inner.next];
      assert s[i..i + step] == Escape(c);
    }
  }

  lemma EscapedFirst(c: char, text: string)
    ensures Escaped([c] + text) == Escape(c) + Escaped(text)
  {
    assert ([c] + text)[1..] == text;
  }

  /** The characters of t stand in s from i on. */
  ghost predicate Stands(s: string, i: nat, t: string)
  {
    i + |t| <= |s| && forall k | 0 <= k < |t| :: s[i + k] == t[k]
  }

  lemma StandsSplit(s: string, i: nat, a: string, b: string)
    requires Stands(s, i, a + b)
    ensures Stands(s, i, a) && Stands(s, i + |a|, b)
  {
    assert forall k | 0 <= k < |a| :: (a + b)[k] == a[k];
    assert forall k | 0 <= k < |b| :: (a + b)[|a| + k] == b[k] && s[i + |a| + k] == s[i + (|a| + k)];
  }

  /** A character as it is written in a literal reads as itself. */
  lemma EscapeRead(s: string, i: nat, c: char)
    requires c != '\n' && Stands(s, i, Escape(c)) && i + |Escape(c)| <= |s|
    ensures GlyphFrom(s, i) == After(c, GlyphFrom(s, i + |Escape(c)|))
  {
    StandsFirst(s, i, Escape(c));
  }

  lemma ClosingRead(s: string, i: nat)
    requires Stands(s, i, "'")
    ensures i < |s| && GlyphFrom(s, i) == Closed("", i + 1)
  {
    StandsFirst(s, i, "'");
  }

  /** Reading a quoted content gives it back, whatever follows. */
  lemma {:induction false} GlyphRead(s: string, i: nat, text: string)
    requires '\n' !in text && Stands(s, i, Escaped(text) + "'")
    ensures i <= |s| && GlyphFrom(s, i) == Closed(text, i + |Escaped(text)| + 1)
    decreases |text|
  {
    hide Stands, GlyphFrom, Escaped, Escape;
    if text == "" {
      NothingEscaped(text);
      assert Escaped(text) + "'" == "'";
      ClosingRead(s, i);
    } else {
      var c, more := text[0], text[1..];
      assert text == [c] + more && c in text;
      EscapedFirst(c, more);
      assert Escaped(text) + "'" == Escape(c) + (Escaped(more) + "'");
      StandsSplit(s, i, Escape(c), Escaped(more) + "'");
      GlyphRead(s, i + |Escape(c)|, more);
      EscapeRead(s, i, c);
    }
  }

  lemma StandsFirst(s: string, i: nat, t: string)
    requires Stands(s, i, t) && |t| > 0
    ensures i + |t| <= |s| && s[i] == t[0] && (|t| > 1 ==> s[i + 1] == t[1])
  {
    assert s[i + 0] == t[0];
  }

  /** Decoding undoes encoding: a quoted content without a line break lexes to that content wherever it
      stands. */
  lemma GlyphRoundTrip(cls: Classes, s: string, i: nat, text: string)
    requires text != "" && '\n' !in text && Stands(s, i, Quoted(text))
    ensures i < |s| && Scan(cls, s, i) == Found(Glyph(text), |Quoted(text)|, i + |Quoted(text)|)
  {
    hide GlyphFrom, Escaped, AtLineStart, Stands;
    assert Quoted(text) == "'" + (Escaped(text) + "'");
    StandsSplit(s, i, "'", Escaped(text) + "'");
    StandsFirst(s, i, "'");
    GlyphRead(s, i + 1, text);
  }

  lemma {:induction false} BlockEnds(s: string, body: nat, i: nat)
    requires 2 <= body <= i <= |s| && EndOfBlock(s, body, i) != 0
    ensures var e := EndOfBlock(s, body, i);
            && body + 2 <= e <= |s| && s[e - 2] == '*' && s[e - 1] == '/'
            && forall k | i <= k < e - 1 && body < k :: !(s[k - 1] == '*' && s[k] == '/')
    decreases |s| - i
  {
    if !(body < i && s[i - 1] == '*' && s[i] == '/') {
      BlockEnds(s, body, i + 1);
    }
  }

  /** What a lexeme at i is: white space, or a token whose own characters stand there with only white
      space up to where lexing goes on. */
  ghost predicate Faithful(cls: Classes, s: string, i: nat, r: Lexeme)
    requires i < |s|
  {
    match r
    case Bad(_) => true
    case Skip(next) => next == i + 1 && IsWhite(s[i])
    case Found(kind, len, next) =>
      && len > 0 && i + len <= next <= |s| && kind != Eof && Fits(cls, s, i, kind, len)
      && (forall j | i + len <= j < next :: IsWhite(s[j]))
  }

  lemma DocFaithful(cls: Classes, s: string, i: nat)
    requires i < |s| && AtLineStart(s, i) && (s[i] == '?' || s[i] == '!')
    ensures Faithful(cls, s, i, DocAt(s, i))
  {
    hide AtLineStart, Payload;
    var e := EndOfLine(s, i + 1);
    assert s[i..e][1..] == s[i + 1..e];
  }

  lemma CommentFaithful(cls: Classes, s: string, i: nat)
    requires i < |s| && s[i] == '/'
    ensures Faithful(cls, s, i, CommentAt(s, i))
  {
    hide Faithful, CommentAt;
    LineFaithful(cls, s, i);
    BlockFaithful(cls, s, i);
    OtherSlash(s, i);
    NoFault(cls, s, i);
  }

  lemma NoFault(cls: Classes, s: string, i: nat)
    requires i < |s|
    ensures Faithful(cls, s, i, Bad(Unexpected('/')))
  {
  }

  lemma OtherSlash(s: string, i: nat)
    requires i < |s|
    ensures !Next(s, i, '/') && !Next(s, i, '*') ==> CommentAt(s, i) == Bad(Unexpected('/'))
  {
  }

  lemma LineFaithful(cls: Classes, s: string, i: nat)
    requires i < |s| && s[i] == '/'
    ensures Next(s, i, '/') ==> Faithful(cls, s, i, CommentAt(s, i))
  {
    hide AtLineStart, EndOfLine, EndOfBlock;
    if Next(s, i, '/') {
      var e := EndOfLine(s, i + 2);
      Slice(s, i, e);
      NoBreak(s, i, e);
      var k := Comment(s[i..e], Line, AtLineStart(s, i));
      assert Fits(cls, s, i, k, e - i);
    }
  }

  lemma NoBreak(s: string, i: nat, e: nat)
    requires i <= e <= |s| && forall k | i <= k < e :: s[k] != '\n'
    ensures '\n' !in s[i..e]
  {
  }

  lemma BlockFaithful(cls: Classes, s: string, i: nat)
    requires i < |s| && s[i] == '/'
    ensures Next(s, i, '*') ==> Faithful(cls, s, i, CommentAt(s, i))
  {
    hide AtLineStart, EndOfBlock, EndOfLine;
    if Next(s, i, '*') && EndOfBlock(s, i + 2, i + 2) != 0 {
      BlockEnds(s, i + 2, i + 2);
      Slice(s, i, EndOfBlock(s, i + 2, i + 2));
    }
  }

  lemma Slice(s: string, i: nat, e: nat)
    requires i + 2 <= e <= |s|
    ensures s[i..e][..2] == [s[i], s[i + 1]] && s[i..e][e - i - 2..] == [s[e - 2], s[e - 1]]
  {
  }

  lemma GlyphFaithful(cls: Classes, s: string, i: nat)
    requires i < |s| && s[i] == '\''
    ensures Faithful(cls, s, i, GlyphAt(s, i))
  {
    hide GlyphFrom, Escaped;
    var g := GlyphFrom(s, i + 1);
    if g.Closed? {
      GlyphSpelled(s, i + 1);
      assert s[i..g.next] == [s[i]] + s[i + 1..g.next];
    }
  }

  lemma NumberFaithful(cls: Classes, s: string, i: nat)
    requires i < |s| && IsDigit(s[i])
    ensures Faithful(cls, s, i, NumberAt(cls, s, i))
  {
    hide NumberOf;
    var e := EndOfRun(s, i, IsDigit);
  }

  lemma PairFaithful(cls: Classes, s: string, i: nat)
    requires i < |s| && s[i] in ":-=."
    ensures Faithful(cls, s, i, PairAt(s, i))
  {
    hide AtLineStart;
    assert s[i..i + 1] == [s[i]];
    assert i + 1 < |s| ==> s[i..i + 2] == [s[i], s[i + 1]];
  }

  lemma SingleFaithful(cls: Classes, s: string, i: nat)
    requires i < |s| && Single(s[i]) != Eof && (s[i] == '!' ==> !AtLineStart(s, i))
    ensures Faithful(cls, s, i, Found(Single(s[i]), 1, i + 1))
  {
    hide AtLineStart;
    assert s[i..i + 1] == [s[i]];
  }

  lemma WordFaithful(cls: Classes, s: string, i: nat)
    requires i < |s| && StartsWord(cls, s[i])
    ensures var e := EndOfRun(s, i, c => InWord(cls, c));
            Faithful(cls, s, i, Found(Ident(s[i..e]), e - i, e))
  {
    hide AtLineStart, IsWhite, EndOfRun, Fits;
    var e := EndOfRun(s, i, c => InWord(cls, c));
    WordFits(cls, s, i, e);
  }

  lemma WordFits(cls: Classes, s: string, i: nat, e: nat)
    requires i < e <= |s| && StartsWord(cls, s[i]) && forall k | i <= k < e :: InWord(cls, s[k])
    requires e < |s| ==> !InWord(cls, s[e])
    ensures Fits(cls, s, i, Ident(s[i..e]), e - i)
  {
    hide AtLineStart, IsWhite;
    WordCharacters(cls, s, i, e);
  }

  lemma WordCharacters(cls: Classes, s: string, i: nat, e: nat)
    requires i <= e <= |s| && forall k | i <= k < e :: InWord(cls, s[k])
    ensures forall c | c in s[i..e] :: InWord(cls, c)
  {
  }

  lemma ScanFaithful(cls: Classes, s: string, i: nat)
    requires i < |s|
    ensures Faithful(cls, s, i, Scan(cls, s, i))
  {
    hide AtLineStart, DocAt, CommentAt, GlyphAt, PairAt, NumberAt, IsWhite, Fits, Single;
    var c := s[i];
    if !IsWhite(c) {
      if AtLineStart(s, i) && (c == '?' || c == '!') {
        DocFaithful(cls, s, i);
      } else if c == '/' {
        CommentFaithful(cls, s, i);
      } else if c == '\'' {
        GlyphFaithful(cls, s, i);
      } else if c in ":-=." {
        PairFaithful(cls, s, i);
      } else if Single(c) != Eof {
        SingleFaithful(cls, s, i);
      } else if IsDigit(c) {
        NumberFaithful(cls, s, i);
      } else if StartsWord(cls, c) {
        WordFaithful(cls, s, i);
      }
    }
  }

  // ----- where the tokens stand -----

  /** Token t stands at position a: it is placed by the first of its characters, and spelled by them. */
  ghost predicate StandsAt(cls: Classes, s: string, t: Token, a: nat)
  {
    Fits(cls, s, a, t.kind, t.len) && t.line == LineOf(s, a) && t.col == ColOf(s, a)
  }

  /** The end of what comes before token k. */
  function Gap(from: nat, tokens: seq<Token>, at: seq<nat>, k: nat): nat
    requires k <= |at| == |tokens|
  {
    if k == 0 then from else at[k - 1] + tokens[k - 1].len
  }

  /** Token k stands where it should, behind nothing but white space. */
  ghost predicate Placed(cls: Classes, s: string, from: nat, tokens: seq<Token>, at: seq<nat>, k: nat)
    requires k < |at| == |tokens|
  {
    && StandsAt(cls, s, tokens[k], at[k])
    && (tokens[k].kind == Eof <==> k == |at| - 1)
    && (tokens[k].len > 0 <==> k < |at| - 1)
    && Blank(s, Gap(from, tokens, at, k), at[k])
  }

  /** From `from` on the source is the tokens' characters in order, with only white space between. */
  ghost predicate LaidOut(cls: Classes, s: string, from: nat, tokens: seq<Token>, at: seq<nat>)
  {
    && |at| == |tokens| > 0 && at[|at| - 1] == |s|
    && (forall k | 0 <= k < |at| :: Placed(cls, s, from, tokens, at, k))
  }

  ghost predicate Blank(s: string, i: nat, j: nat)
  {
    i <= j <= |s| && forall k | i <= k < j :: IsWhite(s[k])
  }

  /** The stream with comments lays out the whole source: nothing but white space is lost. */
  lemma {:induction false} SourceLaidOut(cls: Classes, s: string, i: nat) returns (at: seq<nat>)
    requires i <= |s| && LexFrom(cls, s, i, true).Ok?
    ensures LaidOut(cls, s, i, LexFrom(cls, s, i, true).tokens, at)
    decreases |s| - i
  {
    hide Scan, LineOf, ColOf, Fits;
    if i == |s| {
      at := [i];
      EofStands(cls, s);
    } else {
      ScanFaithful(cls, s, i);
      var lexeme := Scan(cls, s, i);
      var rest := SourceLaidOut(cls, s, lexeme.next);
      var tokens := LexFrom(cls, s, lexeme.next, true).tokens;
      if lexeme.Skip? {
        at := rest;
        SkipLaidOut(cls, s, i, lexeme.next, tokens, rest);
      } else {
        at := [i] + rest;
        TokenLaidOut(cls, s, i, lexeme, tokens, rest);
      }
    }
  }

  lemma EofStands(cls: Classes, s: string)
    ensures StandsAt(cls, s, Token(Eof, LineOf(s, |s|), ColOf(s, |s|), 0), |s|)
  {
    assert s[|s|..] == "";
  }

  lemma SkipLaidOut(cls: Classes, s: string, i: nat, next: nat, tokens: seq<Token>, at: seq<nat>)
    requires i < |s| && LaidOut(cls, s, next, tokens, at) && next == i + 1 && IsWhite(s[i])
    ensures LaidOut(cls, s, i, tokens, at)
  {
    hide StandsAt, IsWhite;
    forall k: nat | k < |at| ensures Placed(cls, s, i, tokens, at, k) {
      assert Placed(cls, s, next, tokens, at, k);
    }
  }

  lemma TokenLaidOut(cls: Classes, s: string, i: nat, lexeme: Lexeme, tokens: seq<Token>, at: seq<nat>)
    requires i < |s| && lexeme.Found? && Faithful(cls, s, i, lexeme) && LaidOut(cls, s, lexeme.next, tokens, at)
    ensures LaidOut(cls, s, i, [Token(lexeme.kind, LineOf(s, i), ColOf(s, i), lexeme.len)] + tokens, [i] + at)
  {
    hide LineOf, ColOf, Fits, IsWhite, Placed;
    var first := Token(lexeme.kind, LineOf(s, i), ColOf(s, i), lexeme.len);
    var longer, places := [first] + tokens, [i] + at;
    FirstPlaced(cls, s, i, lexeme, tokens, at);
    forall k: nat | k < |places| ensures Placed(cls, s, i, longer, places, k) {
      if k > 0 {
        LaterPlaced(cls, s, i, first, lexeme.next, tokens, at, k - 1);
      }
    }
  }

  lemma FirstPlaced(cls: Classes, s: string, i: nat, lexeme: Lexeme, tokens: seq<Token>, at: seq<nat>)
    requires i < |s| && lexeme.Found? && Faithful(cls, s, i, lexeme) && |tokens| == |at| > 0
    ensures Placed(cls, s, i, [Token(lexeme.kind, LineOf(s, i), ColOf(s, i), lexeme.len)] + tokens, [i] + at, 0)
    ensures Blank(s, i + lexeme.len, lexeme.next)
  {
    hide LineOf, ColOf, Fits, IsWhite;
  }

  lemma LaterPlaced(
    cls: Classes, s: string, i: nat, first: Token, next: nat, tokens: seq<Token>, at: seq<nat>, k: nat)
    requires k < |at| == |tokens| && Placed(cls, s, next, tokens, at, k) && Blank(s, i + first.len, next)
    ensures Placed(cls, s, i, [first] + tokens, [i] + at, k + 1)
  {
    hide StandsAt, IsWhite;
    var longer, places := [first] + tokens, [i] + at;
    assert longer[k + 1] == tokens[k] && places[k + 1] == at[k];
    if k > 0 {
      assert longer[k] == tokens[k - 1] && places[k] == at[k - 1];
    }
  }

  predicate Before(a: Token, b: Token)
  {
    a.line < b.line || (a.line == b.line && a.col < b.col)
  }

  /** A later position is a later line or a later column of the same line. */
  lemma {:induction false} PositionsIncrease(s: string, i: nat, j: nat)
    requires i < j <= |s|
    ensures LineOf(s, i) < LineOf(s, j) || (LineOf(s, i) == LineOf(s, j) && ColOf(s, i) < ColOf(s, j))
    ensures LineOf(s, i) <= LineOf(s, j) && (LineOf(s, i) == LineOf(s, j) ==> LineStart(s, i) == LineStart(s, j))
  {
    if i < j - 1 {
      PositionsIncrease(s, i, j - 1);
    }
  }

  lemma NextPlace(cls: Classes, s: string, from: nat, tokens: seq<Token>, at: seq<nat>, k: nat)
    requires LaidOut(cls, s, from, tokens, at) && k + 1 < |at|
    ensures at[k] < at[k + 1] <= |s|
  {
    hide StandsAt, IsWhite;
    assert Placed(cls, s, from, tokens, at, k) && Placed(cls, s, from, tokens, at, k + 1);
  }

  lemma {:induction false} PlacesIncrease(cls: Classes, s: string, from: nat, tokens: seq<Token>, at: seq<nat>, k: nat, m: nat)
    requires LaidOut(cls, s, from, tokens, at) && k < m < |at| && |at| == |tokens|
    ensures at[k] < at[m] <= |s|
  {
    hide LaidOut;
    NextPlace(cls, s, from, tokens, at, m - 1);
    if k < m - 1 {
      PlacesIncrease(cls, s, from, tokens, at, k, m - 1);
    }
  }

  ghost predicate Ascending(tokens: seq<Token>)
  {
    forall k, m | 0 <= k < m < |tokens| :: Before(tokens[k], tokens[m])
  }

  /** Tokens come in strictly ascending positions, with and without comments. */
  lemma TokensAscend(cls: Classes, s: string, comments: bool)
    requires Lex(cls, s, comments).Ok?
    ensures Ascending(Lex(cls, s, comments).tokens)
  {
    hide LexFrom, LineOf, ColOf, LaidOut, WithoutComments;
    ModeLaw(cls, s, 0);
    var at := SourceLaidOut(cls, s, 0);
    var tokens := Lex(cls, s, true).tokens;
    Places(cls, s, tokens, at);
    if !comments {
      FilterAscends(tokens);
    }
  }

  lemma Places(cls: Classes, s: string, tokens: seq<Token>, at: seq<nat>)
    requires LaidOut(cls, s, 0, tokens, at)
    ensures Ascending(tokens)
  {
    hide LineOf, ColOf, Fits, Blank;
    forall k: nat, m: nat | k < m < |tokens| ensures Before(tokens[k], tokens[m]) {
      PlacesIncrease(cls, s, 0, tokens, at, k, m);
      PositionsIncrease(s, at[k], at[m]);
      assert Placed(cls, s, 0, tokens, at, k) && Placed(cls, s, 0, tokens, at, m);
    }
  }

  lemma {:induction false} FilterAscends(tokens: seq<Token>)
    requires Ascending(tokens)
    ensures Ascending(WithoutComments(tokens))
    ensures forall t | t in WithoutComments(tokens) :: t in tokens
  {
    if tokens != [] {
      FilterAscends(tokens[1..]);
      var rest := WithoutComments(tokens[1..]);
      forall t | t in rest ensures t in tokens && Before(tokens[0], t) {
        var k :| 0 <= k < |tokens[1..]| && tokens[1..][k] == t;
        assert tokens[k + 1] == t;
      }
      FirstAscends(tokens[0], rest);
    }
  }

  lemma FirstAscends(first: Token, rest: seq<Token>)
    requires Ascending(rest) && forall t | t in rest :: Before(first, t)
    ensures Ascending([first] + rest)
  {
    var all := [first] + rest;
    forall k, m | 0 <= k < m < |all| ensures Before(all[k], all[m]) {
      assert all[m] in rest && all[m] == rest[m - 1];
      assert k > 0 ==> all[k] == rest[k - 1];
    }
  }

  // ----- the layout determines the tokens -----

  /** Letters are neither white space nor digits, and no punctuation of the language. */
  ghost predicate Ordinary(cls: Classes)
  {
    forall c | cls.alphabetic(c) :: !IsWhite(c) && !IsDigit(c) && c !in "?!/':-=." && Single(c) == Eof
  }

  lemma {:induction false} RunIs(s: string, i: nat, e: nat, keep: char -> bool)
    requires i <= e <= |s| && (forall k | i <= k < e :: keep(s[k])) && (e < |s| ==> !keep(s[e]))
    ensures EndOfRun(s, i, keep) == e
    decreases e - i
  {
    if i < e {
      RunIs(s, i + 1, e, keep);
    }
  }

  lemma {:induction false} LineIs(s: string, i: nat, e: nat)
    requires i <= e <= |s| && (forall k | i <= k < e :: s[k] != '\n') && (e < |s| ==> s[e] == '\n')
    ensures EndOfLine(s, i) == e
    decreases e - i
  {
    if i < e {
      LineIs(s, i + 1, e);
    }
  }

  lemma {:induction false} BlockIs(s: string, body: nat, i: nat, e: nat)
    requires body <= i < e <= |s| && body + 2 <= e && s[e - 2] == '*' && s[e - 1] == '/'
    requires forall k | body < k < e - 1 :: !(s[k - 1] == '*' && s[k] == '/')
    ensures EndOfBlock(s, body, i) == e
    decreases e - i
  {
    if i < e - 1 {
      BlockIs(s, body, i + 1, e);
    }
  }

  /** Scanning at a finds this token, and goes on behind it or behind the line break that ends it. */
  ghost predicate Finds(cls: Classes, s: string, a: nat, k: Kind, len: nat)
  {
    && a < |s| && a + len <= |s|
    && var r := Scan(cls, s, a);
       r.Found? && r.kind == k && r.len == len
       && (r.next == a + len || (r.next == a + len + 1 && a + len < |s| && IsWhite(s[a + len])))
  }

  lemma WordFound(cls: Classes, s: string, a: nat, k: Kind, len: nat)
    requires Ordinary(cls) && k.Ident? && Fits(cls, s, a, k, len)
    ensures Finds(cls, s, a, k, len)
  {
    hide AtLineStart, IsWhite, EndOfRun;
    var text := s[a..a + len];
    forall j | a <= j < a + len ensures InWord(cls, s[j]) {
      assert text[j - a] in text;
    }
    assert s[a] == text[0];
    Underscore();
    RunIs(s, a, a + len, c => InWord(cls, c));
  }

  lemma Underscore()
    ensures !IsWhite('_') && !IsWhite('/') && !IsWhite('\'') && !IsWhite('?') && !IsWhite('!')
  {
  }

  lemma NumberFound(cls: Classes, s: string, a: nat, k: Kind, len: nat)
    requires k.Number? && Fits(cls, s, a, k, len)
    ensures Finds(cls, s, a, k, len)
  {
    hide AtLineStart, EndOfRun, NumberOf;
    var text := s[a..a + len];
    forall j | a <= j < a + len ensures IsDigit(s[j]) {
      assert IsDigit(text[j - a]);
    }
    RunIs(s, a, a + len, IsDigit);
  }

  lemma GlyphFound(cls: Classes, s: string, a: nat, k: Kind, len: nat)
    requires k.Glyph? && Fits(cls, s, a, k, len)
    ensures Finds(cls, s, a, k, len)
  {
    hide Scan, Escaped;
    var text := s[a..a + len];
    assert forall j | 0 <= j < |text| :: s[a + j] == text[j];
    assert Stands(s, a, Quoted(k.text));
    GlyphRoundTrip(cls, s, a, k.text);
  }

  lemma DocFound(cls: Classes, s: string, a: nat, k: Kind, len: nat)
    requires (k.DocLine? || k.AttentionLine?) && Fits(cls, s, a, k, len)
    ensures Finds(cls, s, a, k, len)
  {
    hide AtLineStart, IsWhite, EndOfLine, Payload;
    var text := s[a..a + len];
    forall j | a <= j < a + len ensures s[j] != '\n' {
      assert text[j - a] in text;
    }
    assert s[a] == text[0];
    Underscore();
    LineIs(s, a + 1, a + len);
    assert text[1..] == s[a + 1..a + len];
  }

  lemma LineFound(cls: Classes, s: string, a: nat, k: Kind, len: nat)
    requires k.Comment? && k.form == Line && Fits(cls, s, a, k, len)
    ensures Finds(cls, s, a, k, len)
  {
    hide AtLineStart, EndOfLine, EndOfBlock;
    var text := s[a..a + len];
    forall j | a <= j < a + len ensures s[j] != '\n' {
      assert text[j - a] in text;
    }
    assert s[a] == text[..2][0] && s[a + 1] == text[..2][1];
    LineIs(s, a + 2, a + len);
  }

  lemma BlockFound(cls: Classes, s: string, a: nat, k: Kind, len: nat)
    requires k.Comment? && k.form == Block && Fits(cls, s, a, k, len)
    ensures Finds(cls, s, a, k, len)
  {
    hide AtLineStart, EndOfLine, EndOfBlock;
    var text := s[a..a + len];
    assert s[a] == text[..2][0] && s[a + 1] == text[..2][1];
    assert s[a + len - 2] == text[|text| - 2..][0] && s[a + len - 1] == text[|text| - 2..][1];
    BlockIs(s, a + 2, a + 2, a + len);
  }

  predicate IsFixed(k: Kind)
  {
    !(k.Ident? || k.Number? || k.Glyph? || k.DocLine? || k.AttentionLine? || k.Comment? || k.Eof?)
  }

  predicate IsDouble(k: Kind)
  {
    k.DotDot? || k.Arrow? || k.FatArrow? || k.ColonColon?
  }

  lemma DoubleFound(cls: Classes, s: string, a: nat, k: Kind, len: nat)
    requires IsDouble(k) && Fits(cls, s, a, k, len)
    ensures Finds(cls, s, a, k, len)
  {
    hide AtLineStart, DocAt, CommentAt, GlyphAt, NumberAt;
    var text := s[a..a + len];
    assert s[a] == text[0] && s[a + 1] == text[1];
  }

  predicate BeginsPair(k: Kind)
  {
    k.Dot? || k.Dash? || k.Eq? || k.Colon?
  }

  lemma HalfFound(cls: Classes, s: string, a: nat, k: Kind, len: nat)
    requires BeginsPair(k) && Fits(cls, s, a, k, len)
    ensures Finds(cls, s, a, k, len)
  {
    hide AtLineStart, DocAt, CommentAt, GlyphAt, NumberAt;
    assert s[a] == s[a..a + len][0];
  }

  lemma SingleFound(cls: Classes, s: string, a: nat, k: Kind, len: nat)
    requires IsFixed(k) && !IsDouble(k) && !BeginsPair(k) && Fits(cls, s, a, k, len)
    ensures Finds(cls, s, a, k, len)
  {
    hide AtLineStart, DocAt, CommentAt, GlyphAt, PairAt, NumberAt;
    assert s[a] == s[a..a + len][0];
  }

  lemma FixedFound(cls: Classes, s: string, a: nat, k: Kind, len: nat)
    requires IsFixed(k) && Fits(cls, s, a, k, len)
    ensures Finds(cls, s, a, k, len)
  {
    hide Fits, Finds;
    if IsDouble(k) {
      DoubleFound(cls, s, a, k, len);
    } else if BeginsPair(k) {
      HalfFound(cls, s, a, k, len);
    } else {
      SingleFound(cls, s, a, k, len);
    }
  }

  lemma TokenFound(cls: Classes, s: string, a: nat, k: Kind, len: nat)
    requires Ordinary(cls) && k != Eof && Fits(cls, s, a, k, len)
    ensures Finds(cls, s, a, k, len)
  {
    hide Ordinary, Fits, Finds;
    match k
    case Ident(_) => WordFound(cls, s, a, k, len);
    case Number(_, _) => NumberFound(cls, s, a, k, len);
    case Glyph(_) => GlyphFound(cls, s, a, k, len);
    case DocLine(_) => DocFound(cls, s, a, k, len);
    case AttentionLine(_) => DocFound(cls, s, a, k, len);
    case Comment(_, Line, _) => LineFound(cls, s, a, k, len);
    case Comment(_, Block, _) => BlockFound(cls, s, a, k, len);
    case _ => FixedFound(cls, s, a, k, len);
  }

  /** White space cannot begin a token. */
  lemma NoWhiteStart(cls: Classes, s: string, from: nat, tokens: seq<Token>, at: seq<nat>, k: nat)
    requires Ordinary(cls) && LaidOut(cls, s, from, tokens, at) && k < |at| == |tokens|
    ensures at[k] < |s| ==> !IsWhite(s[at[k]])
  {
    hide Ordinary, Fits, IsWhite, LineOf, ColOf;
    assert Placed(cls, s, from, tokens, at, k);
    if at[k] < |s| {
      TokenFound(cls, s, at[k], tokens[k].kind, tokens[k].len);
      WhiteSkips(cls, s, at[k]);
    }
  }

  lemma {:induction false} LayoutLexed(cls: Classes, s: string, from: nat, tokens: seq<Token>, at: seq<nat>, k: nat, j: nat)
    requires Ordinary(cls) && LaidOut(cls, s, from, tokens, at) && k < |at| == |tokens|
    requires Gap(from, tokens, at, k) <= j <= at[k] <= |s|
    ensures LexFrom(cls, s, j, true) == Ok(tokens[k..])
    decreases |at| - k, at[k] - j
  {
    hide Ordinary, Fits, IsWhite, LineOf, ColOf, Scan, LexFrom;
    assert Placed(cls, s, from, tokens, at, k);
    var t := tokens[k];
    if j < at[k] {
      WhiteSkips(cls, s, j);
      OneLexeme(cls, s, j, true);
      LayoutLexed(cls, s, from, tokens, at, k, j + 1);
    } else if k == |at| - 1 {
      AtEnd(cls, s, true);
      assert tokens[k..] == [t];
    } else {
      assert Placed(cls, s, from, tokens, at, k + 1);
      TokenFound(cls, s, j, t.kind, t.len);
      NoWhiteStart(cls, s, from, tokens, at, k + 1);
      OneLexeme(cls, s, j, true);
      LayoutLexed(cls, s, from, tokens, at, k + 1, Scan(cls, s, j).next);
      assert tokens[k..] == [t] + tokens[k + 1..];
    }
  }

  /** The lexer succeeds exactly on the sources that tokens can lay out - each spelled as it stands, as
      long as it can be, nothing but white space between - and yields the one way to do so. */
  lemma LexesExactlyLayouts(cls: Classes, s: string, tokens: seq<Token>)
    requires Ordinary(cls)
    ensures Lex(cls, s, true) == Ok(tokens) <==> exists at :: LaidOut(cls, s, 0, tokens, at)
  {
    hide LexFrom, Ordinary, Placed;
    if Lex(cls, s, true) == Ok(tokens) {
      var at := SourceLaidOut(cls, s, 0);
    }
    forall at | LaidOut(cls, s, 0, tokens, at) ensures Lex(cls, s, true) == Ok(tokens) {
      FirstGap(cls, s, tokens, at);
      LayoutLexed(cls, s, 0, tokens, at, 0, 0);
      assert tokens[0..] == tokens;
    }
  }

  lemma FirstGap(cls: Classes, s: string, tokens: seq<Token>, at: seq<nat>)
    requires LaidOut(cls, s, 0, tokens, at)
    ensures |at| > 0 && at[0] <= |s|
  {
    hide StandsAt, IsWhite;
    assert Placed(cls, s, 0, tokens, at, 0);
  }

  // ----- the lexer -----

  class Cursor {
    const s: string
    var i: nat
    var line: nat
    var col: nat
    var atLineStart: bool

    /** The cursor knows the position of the character it is at. */
    predicate Valid()
      reads this
    {
      i <= |s| && line == LineOf(s, i) && col == ColOf(s, i) && (atLineStart <==> AtLineStart(s, i))
    }

    constructor (s: string)
      ensures Valid() && this.s == s && i == 0
    {
      this.s := s;
      i, line, col, atLineStart := 0, 1, 1, true;
    }

    method Bump()
      requires Valid() && i < |s|
      modifies this
      ensures Valid() && i == old(i) + 1
    {
      hide LineOf;
      Advance(s, i);
      var c := s[i];
      i := i + 1;
      if c == '\n' {
        line, col, atLineStart := line + 1, 1, true;
      } else {
        col := col + 1;
        if !IsWhite(c) {
          atLineStart := false;
        }
      }
    }

    /** Takes characters as long as they may be kept. */
    method Run(keep: char -> bool) returns (text: string)
      requires Valid()
      modifies this
      ensures Valid() && i == EndOfRun(s, old(i), keep) && text == s[old(i)..i]
    {
      hide LineOf, ColOf, AtLineStart;
      text := "";
      while i < |s| && keep(s[i])
        invariant Valid() && old(i) <= i && text == s[old(i)..i]
        invariant EndOfRun(s, old(i), keep) == EndOfRun(s, i, keep)
        decreases |s| - i
      {
        text := text + [s[i]];
        Bump();
      }
    }

    method Doc() returns (kind: Kind, len: nat)
      requires Valid() && i < |s|
      modifies this
      ensures Valid() && DocAt(s, old(i)) == Found(kind, len, i)
    {
      hide LineOf, ColOf, AtLineStart, Payload;
      ghost var start := i;
      var sigil := s[i];
      Bump();
      var raw := "";
      while i < |s| && s[i] != '\n'
        invariant Valid() && start + 1 <= i && raw == s[start + 1..i]
        invariant EndOfLine(s, start + 1) == EndOfLine(s, i)
        decreases |s| - i
      {
        raw := raw + [s[i]];
        Bump();
      }
      len := 1 + |raw|;
      kind := if sigil == '?' then DocLine(Payload(raw)) else AttentionLine(Payload(raw));
    }

    method CommentOrSlash(ownLine: bool) returns (r: Lexeme)
      requires Valid() && i < |s| && s[i] == '/' && (ownLine <==> AtLineStart(s, i))
      modifies this
      ensures Valid() && r == CommentAt(s, old(i)) && (!r.Bad? ==> r.next == i)
    {
      hide LineOf, ColOf, AtLineStart;
      Bump();
      if i < |s| && s[i] == '/' {
        Bump();
        r := LineComment(i - 2, ownLine);
      } else if i < |s| && s[i] == '*' {
        Bump();
        r := BlockComment(i - 2, ownLine);
      } else {
        r := Bad(Unexpected('/'));
      }
    }

    method LineComment(start: nat, ownLine: bool) returns (r: Lexeme)
      requires Valid() && i == start + 2 && s[start] == '/' && s[start + 1] == '/'
      modifies this
      ensures Valid()
      ensures var e := EndOfLine(s, start + 2);
              i == (if e < |s| then e + 1 else e) && r == Found(Comment(s[start..e], Line, ownLine), e - start, i)
    {
      hide LineOf, ColOf, AtLineStart;
      var text := "//";
      while i < |s| && s[i] != '\n'
        invariant Valid() && start + 2 <= i && text == s[start..i]
        invariant EndOfLine(s, start + 2) == EndOfLine(s, i)
        decreases |s| - i
      {
        text := text + [s[i]];
        Bump();
      }
      if i < |s| {
        Bump();
      }
      r := Found(Comment(text, Line, ownLine), |text|, i);
    }

    method BlockComment(start: nat, ownLine: bool) returns (r: Lexeme)
      requires Valid() && i == start + 2 && s[start] == '/' && s[start + 1] == '*'
      modifies this
      ensures Valid()
      ensures var e := EndOfBlock(s, start + 2, start + 2);
              if e == 0 then r == Bad(OpenComment)
              else i == e && r == Found(Comment(s[start..e], Block, ownLine), e - start, e)
    {
      hide LineOf, ColOf, AtLineStart;
      var text := "/*";
      var prev := '\0';
      while i < |s|
        invariant Valid() && start + 2 <= i && text == s[start..i]
        invariant prev == if i == start + 2 then '\0' else s[i - 1]
        invariant EndOfBlock(s, start + 2, start + 2) == EndOfBlock(s, start + 2, i)
        decreases |s| - i
      {
        var c := s[i];
        text := text + [c];
        Bump();
        if prev == '*' && c == '/' {
          assert EndOfBlock(s, start + 2, i - 1) == i;
          assert s[start..i] == s[start..i - 1] + [c];
          return Found(Comment(text, Block, ownLine), |text|, i);
        }
        prev := c;
      }
      r := Bad(OpenComment);
    }

    method GlyphLiteral() returns (r: Lexeme)
      requires Valid() && i < |s| && s[i] == '\''
      modifies this
      ensures Valid() && r == GlyphAt(s, old(i)) && (!r.Bad? ==> r.next == i)
    {
      hide LineOf, ColOf, AtLineStart, GlyphFrom, After, Onto;
      ghost var start := i;
      Bump();
      NothingYet(GlyphFrom(s, i));
      var value, len, closed := "", 1, false;
      while i < |s| && s[i] != '\n'
        invariant Valid() && start + 1 <= i && len == i - start && !closed
        invariant GlyphFrom(s, start + 1) == Onto(value, GlyphFrom(s, i))
        decreases |s| - i
      {
        GlyphStep(value, s, i);
        if s[i] == '\'' {
          Bump();
          len, closed := len + 1, true;
          assert GlyphFrom(s, start + 1) == Closed(value, i);
          break;
        } else if s[i] == '\\' {
          Bump();
          len := len + 1;
          if i == |s| || s[i] == '\n' {
            assert GlyphFrom(s, start + 1) == Open;
            break;
          } else if IsEscape(s[i]) {
            value := value + [s[i]];
            Bump();
            len := len + 1;
          } else {
            return Bad(InvalidEscape(s[i]));
          }
        } else {
          value := value + [s[i]];
          Bump();
          len := len + 1;
        }
      }
      if !closed {
        OpenHere(value, s, i);
        return Bad(OpenGlyph);
      }
      if value == "" {
        return Bad(EmptyGlyph);
      }
      r := Found(Glyph(value), len, i);
    }

    method Pair() returns (kind: Kind, len: nat)
      requires Valid() && i < |s| && s[i] in ":-=."
      modifies this
      ensures Valid() && PairAt(s, old(i)) == Found(kind, len, i)
    {
      hide LineOf, ColOf, AtLineStart;
      var c := s[i];
      Bump();
      var second := if c == ':' then ':' else if c == '.' then '.' else '>';
      if i < |s| && s[i] == second {
        Bump();
        kind := if c == ':' then ColonColon else if c == '-' then Arrow else if c == '=' then FatArrow else DotDot;
        len := 2;
      } else {
        kind := if c == ':' then Colon else if c == '-' then Dash else if c == '=' then Eq else Dot;
        len := 1;
      }
    }

    method Digits(cls: Classes) returns (r: Lexeme)
      requires Valid() && i < |s| && IsDigit(s[i])
      modifies this
      ensures Valid() && r == NumberAt(cls, s, old(i)) && (!r.Bad? ==> r.next == i)
    {
      hide LineOf, ColOf, AtLineStart;
      var digits := Run(IsDigit);
      if i < |s| && StartsWord(cls, s[i]) {
        return Bad(DigitFirst);
      }
      var value := Parse(digits);
      if value >= 0x1_0000_0000 {
        return Bad(TooLarge(digits));
      }
      r := Found(Number(value, digits), |digits|, i);
    }

    /** The lexeme at the cursor, which is not white space. */
    method Lexeme(cls: Classes) returns (r: Lexeme)
      requires Valid() && i < |s| && !IsWhite(s[i])
      modifies this
      ensures Valid() && r == Scan(cls, s, old(i)) && (!r.Bad? ==> r.next == i)
    {
      hide LineOf, ColOf, AtLineStart, IsWhite, DocAt, CommentAt, GlyphAt, PairAt, NumberAt, EndOfRun, Single;
      var c := s[i];
      if atLineStart && (c == '?' || c == '!') {
        var kind, len := Doc();
        r := Found(kind, len, i);
      } else if c == '/' {
        r := CommentOrSlash(atLineStart);
      } else if c == '\'' {
        r := GlyphLiteral();
      } else if c in ":-=." {
        var kind, len := Pair();
        r := Found(kind, len, i);
      } else if Single(c) != Eof {
        Bump();
        r := Found(Single(c), 1, i);
      } else if IsDigit(c) {
        r := Digits(cls);
      } else if StartsWord(cls, c) {
        var name := Run(c => InWord(cls, c));
        r := Found(Ident(name), |name|, i);
      } else {
        r := Bad(Unexpected(c));
      }
    }
  }

  method Parse(digits: string) returns (value: nat)
    requires forall k | 0 <= k < |digits| :: IsDigit(digits[k])
    ensures value == NumberOf(digits)
  {
    value := 0;
    for k := 0 to |digits|
      invariant value == NumberOf(digits[..k])
    {
      assert digits[..k + 1][..k] == digits[..k];
      value := 10 * value + (digits[k] as int - '0' as int);
    }
    assert digits[..|digits|] == digits;
  }

  function Onward(tokens: seq<Token>, r: Lexed): Lexed
  {
    if r.Ok? then Ok(tokens + r.tokens) else r
  }

  /** The lexer: keeps the comments or drops them. */
  method LexWith(cls: Classes, source: string, comments: bool) returns (r: Lexed)
    ensures r == Lex(cls, source, comments)
  {
    hide Scan, LineOf, ColOf, AtLineStart, LexFrom;
    var cur := new Cursor(source);
    var tokens: seq<Token> := [];
    while cur.i < |source|
      invariant cur.s == source && cur.Valid()
      invariant Lex(cls, source, comments) == Onward(tokens, LexFrom(cls, source, cur.i, comments))
      decreases |source| - cur.i
    {
      var line, col := cur.line, cur.col;
      ghost var start := cur.i;
      OneLexeme(cls, source, start, comments);
      if IsWhite(source[cur.i]) {
        WhiteSkips(cls, source, cur.i);
        cur.Bump();
      } else {
        var lexeme := cur.Lexeme(cls);
        if lexeme.Bad? {
          return Err(lexeme.problem, line, col);
        }
        NotSkipped(cls, source, start);
        if !lexeme.kind.Comment? || comments {
          tokens := tokens + [Token(lexeme.kind, line, col, lexeme.len)];
        }
      }
    }
    AtEnd(cls, source, comments);
    r := Ok(tokens + [Token(Eof, cur.line, cur.col, 0)]);
  }

  lemma OneLexeme(cls: Classes, s: string, i: nat, comments: bool)
    requires i < |s|
    ensures var x, all := Scan(cls, s, i), LexFrom(cls, s, i, comments);
            && (x.Bad? ==> all == Err(x.problem, LineOf(s, i), ColOf(s, i)))
            && (x.Skip? ==> all == LexFrom(cls, s, x.next, comments))
            && (x.Found? && x.kind.Comment? && !comments ==> all == LexFrom(cls, s, x.next, comments))
            && (x.Found? && (comments || !x.kind.Comment?) ==>
                  all == Prepend(Token(x.kind, LineOf(s, i), ColOf(s, i), x.len), LexFrom(cls, s, x.next, comments)))
  {
    hide Scan, LineOf, ColOf;
  }

  lemma AtEnd(cls: Classes, s: string, comments: bool)
    ensures LexFrom(cls, s, |s|, comments) == Ok([Token(Eof, LineOf(s, |s|), ColOf(s, |s|), 0)])
  {
  }

  lemma WhiteSkips(cls: Classes, s: string, i: nat)
    requires i < |s|
    ensures IsWhite(s[i]) ==> Scan(cls, s, i) == Skip(i + 1)
  {
  }

  lemma NotSkipped(cls: Classes, s: string, i: nat)
    requires i < |s| && !IsWhite(s[i])
    ensures !Scan(cls, s, i).Skip?
  {
    hide IsWhite, AtLineStart;
  }

  /** Writes a glyph literal, escaping only what must be. */
  method GlyphText(value: string) returns (out: string)
    ensures out == Quoted(value)
  {
    hide Escaped;
    out := "'";
    for k := 0 to |value|
      invariant out + Escaped(value[k..]) == "'" + Escaped(value)
    {
      EscapedNext(value, k);
      if value[k] == '\'' || value[k] == '\\' {
        out := out + "\\";
      }
      out := out + [value[k]];
    }
    NothingEscaped(value[|value|..]);
    out := out + "'";
  }

  lemma EscapedNext(value: string, k: nat)
    requires k < |value|
    ensures Escaped(value[k..]) == Escape(value[k]) + Escaped(value[k + 1..])
  {
    assert value[k..][1..] == value[k + 1..];
  }

  lemma NothingEscaped(text: string)
    requires text == ""
    ensures Escaped(text) == ""
  {
  }

  function Onto(front: string, g: GlyphEnd): GlyphEnd
  {
    if g.Closed? then Closed(front + g.text, g.next) else g
  }

  lemma NothingYet(g: GlyphEnd)
    ensures Onto("", g) == g
  {
  }

  /** What one character of a glyph literal adds to what was read before it. */
  lemma GlyphStep(front: string, s: string, i: nat)
    requires i < |s| && s[i] != '\n'
    ensures s[i] == '\'' ==> Onto(front, GlyphFrom(s, i)) == Closed(front, i + 1)
    ensures s[i] == '\\' && (i + 1 == |s| || s[i + 1] == '\n') ==> Onto(front, GlyphFrom(s, i)) == Open
    ensures s[i] == '\\' && i + 1 < |s| && s[i + 1] != '\n' ==>
              Onto(front, GlyphFrom(s, i))
                == if IsEscape(s[i + 1]) then Onto(front + [s[i + 1]], GlyphFrom(s, i + 2)) else BadEscape(s[i + 1])
    ensures s[i] != '\'' && s[i] != '\\' ==>
              Onto(front, GlyphFrom(s, i)) == Onto(front + [s[i]], GlyphFrom(s, i + 1))
  {
    if s[i] == '\'' {
      assert front + "" == front;
    } else if s[i] != '\\' {
      OntoAfter(front, s[i], GlyphFrom(s, i + 1));
    } else if i + 1 < |s| && IsEscape(s[i + 1]) {
      OntoAfter(front, s[i + 1], GlyphFrom(s, i + 2));
    }
  }

  lemma OntoAfter(front: string, c: char, g: GlyphEnd)
    ensures Onto(front, After(c, g)) == Onto(front + [c], g)
  {
    if g.Closed? {
      assert front + ([c] + g.text) == front + [c] + g.text;
    }
  }

  lemma OpenHere(front: string, s: string, i: nat)
    requires i <= |s|
    ensures i == |s| || s[i] == '\n' ==> Onto(front, GlyphFrom(s, i)) == Open
  {
  }

  lemma Advance(s: string, i: nat)
    requires i < |s|
    ensures LineOf(s, i + 1) == LineOf(s, i) + (if s[i] == '\n' then 1 else 0)
    ensures ColOf(s, i + 1) == if s[i] == '\n' then 1 else ColOf(s, i) + 1
    ensures AtLineStart(s, i + 1) <==> s[i] == '\n' || (AtLineStart(s, i) && IsWhite(s[i]))
  {
  }
}
