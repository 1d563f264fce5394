/** What the TM-1 lexer refuses, and where: every problem said of the text at the place it is reported. */
module TmLexErrors {
  import opened TmLexer
  import F = FreshNames

  // ----- places -----

  /** The first character is at line 1, column 1; a newline begins the next line, anything else moves one
      column on. */
  lemma PlaceIs(s: string, i: nat)
    requires i <= |s|
    ensures i == 0 ==> LineOf(s, i) == 1 && ColOf(s, i) == 1
    ensures i > 0 && s[i - 1] == '\n' ==> LineOf(s, i) == LineOf(s, i - 1) + 1 && ColOf(s, i) == 1
    ensures i > 0 && s[i - 1] != '\n' ==> LineOf(s, i) == LineOf(s, i - 1) && ColOf(s, i) == ColOf(s, i - 1) + 1
  {
  }

  /** A number's value is its digits read to base ten. */
  lemma {:induction false} NumberReads(digits: string)
    requires forall k | 0 <= k < |digits| :: IsDigit(digits[k])
    ensures NumberOf(digits) == F.ReadDecimal(digits)
  {
    if digits != [] {
      assert IsDigit(digits[|digits| - 1]);
      NumberReads(digits[..|digits| - 1]);
    }
  }

  // ----- problems -----

  /** A piece of text stands at a place. */
  predicate Reads(s: string, i: nat, text: string)
  {
    i + |text| <= |s| && s[i..i + |text|] == text
  }

  predicate LineEnds(s: string, i: nat)
  {
    i == |s| || (i < |s| && s[i] == '\n')
  }

  /** A block comment that nothing closes. */
  ghost predicate NeverCloses(s: string, i: nat)
  {
    Reads(s, i, "/*") && forall k | i + 2 < k < |s| :: !(s[k - 1] == '*' && s[k] == '/')
  }

  /** A glyph that its line does not close. */
  ghost predicate LeftOpen(s: string, i: nat, text: string)
  {
    && '\n' !in text && Reads(s, i, "'" + Escaped(text))
    && (LineEnds(s, i + 1 + |Escaped(text)|)
        || (Reads(s, i + 1 + |Escaped(text)|, "\\") && LineEnds(s, i + 2 + |Escaped(text)|)))
  }

  /** A glyph with an escape that is none. */
  ghost predicate BadlyEscaped(s: string, i: nat, text: string, c: char)
  {
    && '\n' !in text && c != '\n' && !IsEscape(c) && Reads(s, i, "'" + Escaped(text) + ['\\', c])
  }

  ghost predicate DigitsTo(s: string, i: nat, e: nat)
  {
    i < e <= |s| && (forall k | i <= k < e :: IsDigit(s[k])) && (e < |s| ==> !IsDigit(s[e]))
  }

  /** What a problem says of the text where it is reported. */
  ghost predicate Means(cls: Classes, s: string, i: nat, problem: Problem)
    requires i < |s|
  {
    match problem
    case OpenComment => NeverCloses(s, i)
    case OpenGlyph => exists text :: LeftOpen(s, i, text)
    case EmptyGlyph => Reads(s, i, "''")
    case InvalidEscape(c) => exists text :: BadlyEscaped(s, i, text, c)
    case DigitFirst => exists e: nat :: DigitsTo(s, i, e) && e < |s| && StartsWord(cls, s[e])
    case TooLarge(digits) =>
      exists e: nat :: DigitsTo(s, i, e) && digits == s[i..e] && NumberOf(digits) >= 0x1_0000_0000
        && (e < |s| ==> !StartsWord(cls, s[e]))
    case Unexpected(c) =>
      && c == s[i] && !IsWhite(c) && !IsDigit(c) && c !in "'!+,;*%<>[]{}()@:-=."
      && (c == '/' ==> !(i + 1 < |s| && (s[i + 1] == '/' || s[i + 1] == '*')))
      && (c != '/' ==> !StartsWord(cls, c))
  }

  lemma {:induction false} BlockNever(s: string, body: nat, i: nat)
    requires body <= i <= |s| && EndOfBlock(s, body, i) == 0
    ensures forall k | i <= k < |s| && body < k :: !(s[k - 1] == '*' && s[k] == '/')
    decreases |s| - i
  {
    if i < |s| {
      BlockNever(s, body, i + 1);
    }
  }

  lemma EscapedMore(c: char, text: string)
    ensures Escaped([c] + text) == Escape(c) + Escaped(text)
  {
    assert ([c] + text)[1..] == text;
  }

  lemma ReadsJoin(s: string, i: nat, a: string, b: string)
    ensures Reads(s, i, a + b) <==> Reads(s, i, a) && Reads(s, i + |a|, b)
  {
    if Reads(s, i, a + b) {
      assert s[i..i + |a|] == s[i..i + |a + b|][..|a|];
      assert s[i + |a|..i + |a| + |b|] == s[i..i + |a + b|][|a|..];
    }
    if Reads(s, i, a) && Reads(s, i + |a|, b) {
      assert s[i..i + |a + b|] == s[i..i + |a|] + s[i + |a|..i + |a| + |b|];
    }
  }

  lemma ReadsOne(s: string, i: nat, c: char)
    ensures Reads(s, i, [c]) <==> i < |s| && s[i] == c
  {
    if i < |s| {
      assert s[i..i + 1] == [s[i]];
    }
  }

  /** What is left of a glyph that fails: content up to where it does. */
  ghost predicate Stuck(s: string, i: nat, text: string, g: GlyphEnd)
  {
    && '\n' !in text && Reads(s, i, Escaped(text))
    && var e := i + |Escaped(text)|;
       && (g.Open? ==> LineEnds(s, e) || (Reads(s, e, "\\") && LineEnds(s, e + 1)))
       && (g.BadEscape? ==> Reads(s, e, ['\\', g.c]) && !IsEscape(g.c) && g.c != '\n')
  }

  lemma {:induction false} GlyphStuck(s: string, i: nat) returns (text: string)
    requires i <= |s| && !GlyphFrom(s, i).Closed?
    ensures Stuck(s, i, text, GlyphFrom(s, i))
    decreases |s| - i
  {
    text := "";
    if i < |s| && s[i] != '\n' {
      if s[i] != '\\' {
        var rest := GlyphStuck(s, i + 1);
        text := [s[i]] + rest;
        StuckMore(s, i, s[i], [s[i]], rest, GlyphFrom(s, i));
      } else if i + 1 < |s| && s[i + 1] != '\n' && IsEscape(s[i + 1]) {
        var rest := GlyphStuck(s, i + 2);
        text := [s[i + 1]] + rest;
        ReadsOne(s, i, '\\');
        ReadsOne(s, i + 1, s[i + 1]);
        ReadsJoin(s, i, ['\\'], [s[i + 1]]);
        StuckMore(s, i, s[i + 1], ['\\', s[i + 1]], rest, GlyphFrom(s, i));
      } else {
        ReadsOne(s, i, '\\');
        if i + 1 < |s| {
          ReadsOne(s, i + 1, s[i + 1]);
          ReadsJoin(s, i, ['\\'], [s[i + 1]]);
        }
      }
    }
  }

  lemma StuckMore(s: string, i: nat, c: char, written: string, rest: string, g: GlyphEnd)
    requires written == Escape(c) && Reads(s, i, written) && c != '\n' && Stuck(s, i + |written|, rest, g)
    ensures Stuck(s, i, [c] + rest, g)
  {
    EscapedMore(c, rest);
    ReadsJoin(s, i, written, Escaped(rest));
  }

  lemma GlyphMeans(cls: Classes, s: string, i: nat)
    requires i < |s| && s[i] == '\'' && GlyphAt(s, i).Bad?
    ensures Means(cls, s, i, GlyphAt(s, i).problem)
  {
    hide GlyphFrom, NumberOf;
    var g := GlyphFrom(s, i + 1);
    ReadsOne(s, i, '\'');
    if g.Closed? {
      EmptyCloses(s, i + 1);
      ReadsOne(s, i + 1, '\'');
      ReadsJoin(s, i, ['\''], ['\'']);
    } else {
      var text := GlyphStuck(s, i + 1);
      ReadsJoin(s, i, "'", Escaped(text));
      if g.Open? {
        assert LeftOpen(s, i, text);
      } else {
        ReadsJoin(s, i, "'" + Escaped(text), ['\\', g.c]);
        assert BadlyEscaped(s, i, text, g.c);
      }
    }
  }

  lemma EmptyCloses(s: string, i: nat)
    requires i <= |s| && GlyphFrom(s, i).Closed? && GlyphFrom(s, i).text == ""
    ensures i < |s| && s[i] == '\''
  {
  }

  lemma CommentMeans(cls: Classes, s: string, i: nat)
    requires i < |s| && s[i] == '/' && CommentAt(s, i).Bad?
    ensures Means(cls, s, i, CommentAt(s, i).problem)
  {
    hide EndOfBlock, AtLineStart;
    if Next(s, i, '*') {
      BlockNever(s, i + 2, i + 2);
      ReadsOne(s, i, '/');
      ReadsOne(s, i + 1, '*');
      ReadsJoin(s, i, "/", "*");
    }
  }

  lemma NumberMeans(cls: Classes, s: string, i: nat)
    requires i < |s| && IsDigit(s[i]) && NumberAt(cls, s, i).Bad?
    ensures Means(cls, s, i, NumberAt(cls, s, i).problem)
  {
    hide NumberOf, StartsWord;
    var e := EndOfRun(s, i, IsDigit);
    assert DigitsTo(s, i, e);
  }

  /** A problem is what its place says. */
  lemma BadMeans(cls: Classes, s: string, i: nat)
    requires i < |s| && Scan(cls, s, i).Bad?
    ensures Means(cls, s, i, Scan(cls, s, i).problem)
  {
    hide CommentAt, GlyphAt, NumberAt, PairAt, DocAt, AtLineStart, Means, IsWhite, StartsWord, Single;
    var c := s[i];
    if c == '/' {
      CommentMeans(cls, s, i);
    } else if c == '\'' {
      GlyphMeans(cls, s, i);
    } else if IsDigit(c) && Single(c).Eof? {
      NumberMeans(cls, s, i);
    } else {
      NeverBad(s, i);
      StrayMeans(cls, s, i);
    }
  }

  lemma NeverBad(s: string, i: nat)
    requires i < |s|
    ensures !PairAt(s, i).Bad? && !DocAt(s, i).Bad?
  {
  }

  lemma StrayMeans(cls: Classes, s: string, i: nat)
    requires i < |s| && !IsWhite(s[i]) && !IsDigit(s[i]) && Single(s[i]).Eof? && !StartsWord(cls, s[i])
    requires s[i] != '/' && s[i] != '\'' && s[i] !in ":-=."
    ensures Means(cls, s, i, Unexpected(s[i]))
  {
    hide IsWhite, IsDigit, StartsWord;
    var c := s[i];
    assert c !in "!+,;*%" && c !in "<>[]{}()@";
    assert forall x :: x in "'!+,;*%<>[]{}()@:-=." ==> x == '\'' || x in "!+,;*%" || x in "<>[]{}()@" || x in ":-=.";
  }

  /** Where a failing run stops: behind lexemes, at a place whose text is the problem. */
  ghost predicate StopsAt(cls: Classes, s: string, i: nat, e: nat, r: Lexed)
  {
    && i <= e < |s| && Scan(cls, s, e).Bad? && r == Err(Scan(cls, s, e).problem, LineOf(s, e), ColOf(s, e))
    && Means(cls, s, e, Scan(cls, s, e).problem)
  }

  /** The lexer fails at a place whose text has the problem, and reports that place. */
  lemma {:induction false} FailsWhere(cls: Classes, s: string, i: nat, comments: bool) returns (e: nat)
    requires i <= |s| && LexFrom(cls, s, i, comments).Err?
    ensures StopsAt(cls, s, i, e, LexFrom(cls, s, i, comments))
    decreases |s| - i
  {
    hide Scan, LineOf, ColOf, Means;
    var lexeme := Scan(cls, s, i);
    if lexeme.Bad? {
      BadMeans(cls, s, i);
      e := i;
    } else {
      e := FailsWhere(cls, s, lexeme.next, comments);
    }
  }
}
