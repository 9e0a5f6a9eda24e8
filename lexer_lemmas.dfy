/**
 * Properties of the lexer of tokenizer.go, stated about the specification `Lex` that
 * `Tokenizer.Token` is proved to follow: line accounting, the automatic-semicolon flag,
 * the shape of identifier, string and comment tokens, end of input and progress.
 */
module LexerLemmas {
  import opened Wrappers
  import opened Text
  import opened Lexer

  /** What `skipWhiteSpace` passes over, where it stops, and how it counts lines. */
  lemma SkipFacts(data: string, c: Cursor, newLine: bool)
    requires c.offset <= |data|
    ensures var d := Skip(data, c, newLine);
      && d.line == c.line + Count(data[c.offset..d.offset], '\n')
      && d.insertSemicolon == c.insertSemicolon
      && (forall k | c.offset <= k < d.offset :: IsBlank(data[k]) || (!newLine && data[k] == '\n'))
      && (d.offset == |data| || (newLine && data[d.offset] == '\n') || (!IsBlank(data[d.offset]) && data[d.offset] != '\n'))
  {
    SkipLines(data, c, newLine);
    SkipStops(data, c, newLine);
  }

  /** Every line break skipped adds one to `line`; nothing else does. */
  lemma {:induction false} SkipLines(data: string, c: Cursor, newLine: bool)
    requires c.offset <= |data|
    ensures var d := Skip(data, c, newLine); d.line == c.line + Count(data[c.offset..d.offset], '\n')
    decreases |data| - c.offset
  {
    if c.offset < |data| {
      var x := data[c.offset];
      if (x == '\n' && !newLine) || (x != '\n' && IsBlank(x)) {
        var c' := if x == '\n' then Advance(data, c.(line := c.line + 1, currentLineOffset := c.offset, column := 1))
                  else Advance(data, c);
        SkipLines(data, c', newLine);
        var d := Skip(data, c', newLine);
        assert data[c.offset..d.offset] == [x] + data[c'.offset..d.offset];
      }
    }
  }

  /** Skipping passes over blanks (and line breaks unless `newLine`) and stops at anything else. */
  lemma {:induction false} SkipStops(data: string, c: Cursor, newLine: bool)
    requires c.offset <= |data|
    ensures var d := Skip(data, c, newLine);
      && d.insertSemicolon == c.insertSemicolon
      && (forall k | c.offset <= k < d.offset :: IsBlank(data[k]) || (!newLine && data[k] == '\n'))
      && (d.offset == |data| || (newLine && data[d.offset] == '\n') || (!IsBlank(data[d.offset]) && data[d.offset] != '\n'))
    decreases |data| - c.offset
  {
    if c.offset < |data| {
      var x := data[c.offset];
      if x == '\n' && !newLine {
        SkipStops(data, Advance(data, c.(line := c.line + 1, currentLineOffset := c.offset, column := 1)), newLine);
      } else if x != '\n' && IsBlank(x) {
        SkipStops(data, Advance(data, c), newLine);
      }
    }
  }

  /** No token but `Semicolon` changes the line, and it adds exactly one. */
  lemma ScanLine(data: string, s: Cursor)
    requires s.offset <= |data|
    ensures Scan(data, s).next.line == s.line + (if Scan(data, s).token.kind == Semicolon then 1 else 0)
    ensures var l := Scan(data, s);
      l.token.kind != Semicolon ==>
        l.next.insertSemicolon == (if l.token.kind == String then s.insertSemicolon
                                   else l.token.kind in {Identifier, LeftParen, RightParen})
    ensures Scan(data, s).token.kind == Semicolon ==> !Scan(data, s).next.insertSemicolon
  {
    hide Finish;
    var r := RuneAt(data, s.offset);
    if IsLetter(r) && r != RuneError && r != RuneEof && r != '\n' && r != ';' {
      var a := Advance(data, s);
      var k := KeywordKind(data[s.offset..IdentEnd(data, a.offset)]);
      assert k == Identifier || k in Keywords;
    }
  }

  /**
   * `line` grows by one for every line break skipped as white space, and by one more when the
   * token is a `Semicolon` (which includes a `;` in the source).
   */
  lemma LexLines(data: string, c: Cursor)
    requires c.offset <= |data|
    ensures var s := Skip(data, c, c.insertSemicolon); var l := Lex(data, c);
      l.next.line == c.line + Count(data[c.offset..s.offset], '\n') + (if l.token.kind == Semicolon then 1 else 0)
  {
    SkipFacts(data, c, c.insertSemicolon);
    ScanLine(data, Skip(data, c, c.insertSemicolon));
  }

  /**
   * After a token the flag is set for `Identifier`, `(` and `)`, left as it was for `String`,
   * and cleared for every other kind, `EOF` and `Semicolon` included.
   */
  lemma LexFlag(data: string, c: Cursor)
    requires c.offset <= |data|
    ensures var l := Lex(data, c);
      l.next.insertSemicolon == (
        if l.token.kind == String then c.insertSemicolon
        else l.token.kind in {Identifier, LeftParen, RightParen})
  {
    SkipFacts(data, c, c.insertSemicolon);
    ScanLine(data, Skip(data, c, c.insertSemicolon));
  }

  /**
   * While the flag is set, white space skipping stops at a line break, and that line break is
   * the next token: a `Semicolon` whose text is a line break.
   */
  lemma NewlineEndsStatement(data: string, c: Cursor, k: nat)
    requires c.insertSemicolon && c.offset <= k < |data| && data[k] == '\n'
    requires forall i | c.offset <= i < k :: IsBlank(data[i])
    ensures var l := Lex(data, c);
      l.token.kind == Semicolon && l.token.text == "\n" && l.token.pos.offset == k && l.next.offset == k + 1
  {
    SkipFacts(data, c, true);
  }

  /** Every token starts where scanning starts. */
  lemma ScanPos(data: string, s: Cursor)
    requires s.offset <= |data|
    ensures Scan(data, s).token.pos == Pos(s.offset, s.line, s.column)
  {
  }

  /** While the flag is clear, a line break is never a token: skipping passes over it. */
  lemma NewlineSkipped(data: string, c: Cursor)
    requires !c.insertSemicolon && c.offset <= |data|
    ensures var l := Lex(data, c);
      && RuneAt(data, l.token.pos.offset) != '\n'
      && (l.token.kind == Semicolon ==> RuneAt(data, l.token.pos.offset) == ';')
  {
    SkipFacts(data, c, false);
    var s := Skip(data, c, false);
    ScanPos(data, s);
    ScanSemicolon(data, s);
  }

  /** `Scan` yields a `Semicolon` exactly at a line break or a `;`. */
  lemma ScanSemicolon(data: string, s: Cursor)
    requires s.offset <= |data|
    ensures Scan(data, s).token.kind == Semicolon <==> RuneAt(data, s.offset) in {'\n', ';'}
  {
    hide Finish;
    var r := RuneAt(data, s.offset);
    if IsLetter(r) && r != RuneError && r != RuneEof && r != '\n' && r != ';' {
      var a := Advance(data, s);
      var k := KeywordKind(data[s.offset..IdentEnd(data, a.offset)]);
      assert k == Identifier || k in Keywords;
    }
  }

  /** An identifier is reclassified exactly when it spells one of the six keywords. */
  lemma KeywordKindSpec(text: string)
    ensures KeywordKind(text) != Identifier <==> text in {"foreign", "import", "fn", "type", "package", "use"}
    ensures KeywordKind(text) in {Identifier, Foreign, Import, Fn, TypeDef, Package, Use}
    ensures KeywordKind(text) != Identifier ==> KindText(KeywordKind(text)) == text
  {
    var k := KeywordKind(text);
    assert k == Identifier <==> forall i | 0 <= i < |Keywords| :: KindText(Keywords[i]) != text;
    assert k != Identifier ==> k in Keywords;
  }

  /** The identifier branch of `Scan`. */
  lemma ScanIdentifierToken(data: string, s: Cursor)
    requires s.offset < |data| && IsLetter(data[s.offset])
    ensures var l := Scan(data, s);
      && s.offset < l.next.offset
      && l.token.text == data[s.offset..l.next.offset]
      && (forall i | s.offset < i < l.next.offset :: IsIdentRune(data[i]))
      && (l.next.offset == |data| || !IsIdentRune(data[l.next.offset]))
      && l.token.kind == KeywordKind(l.token.text)
      && l.err.None?
  {
    hide Finish;
    var e := IdentEnd(data, s.offset + 1);
    var k := KeywordKind(data[s.offset..e]);
    KeywordKindSpec(data[s.offset..e]);
    assert Scan(data, s) == Finish(data, Pos(s.offset, s.line, s.column), k, None, Seek(Advance(data, s), e));
  }

  /**
   * An identifier is a letter followed by the longest run of letters, digits and `_`; it is a
   * keyword kind exactly when it spells one of the six keywords, and never `struct`.
   */
  lemma IdentifierToken(data: string, c: Cursor)
    requires c.offset <= |data|
    requires var s := Skip(data, c, c.insertSemicolon); s.offset < |data| && IsLetter(data[s.offset])
    ensures var s := Skip(data, c, c.insertSemicolon); var l := Lex(data, c);
      && s.offset < l.next.offset
      && l.token.text == data[s.offset..l.next.offset]
      && (forall i | s.offset < i < l.next.offset :: IsIdentRune(data[i]))
      && (l.next.offset == |data| || !IsIdentRune(data[l.next.offset]))
      && (l.token.kind != Identifier <==> l.token.text in {"foreign", "import", "fn", "type", "package", "use"})
      && l.token.kind in {Identifier, Foreign, Import, Fn, TypeDef, Package, Use}
      && l.err.None?
  {
    var s := Skip(data, c, c.insertSemicolon);
    ScanIdentifierToken(data, s);
    KeywordKindSpec(Scan(data, s).token.text);
  }

  /** A terminated string literal: its text is what lies between the quotes, and the closing quote is consumed. */
  lemma StringToken(data: string, c: Cursor, q: nat)
    requires c.offset <= |data|
    requires var s := Skip(data, c, c.insertSemicolon);
      && s.offset < q < |data| && data[s.offset] == '"' && data[q] == '"'
      && forall i | s.offset < i < q :: data[i] != '"'
    ensures var s := Skip(data, c, c.insertSemicolon); var l := Lex(data, c);
      l == Lexed(Tok(Pos(s.offset, s.line, s.column), String, data[s.offset + 1..q]), None,
                 s.(offset := q + 1, column := q + 1 - s.currentLineOffset))
  {
  }

  /** The string branch of `Scan` when no quote closes the literal. */
  lemma ScanUnterminatedString(data: string, s: Cursor)
    requires s.offset < |data| && data[s.offset] == '"' && forall i | s.offset < i < |data| :: data[i] != '"'
    ensures var l := Scan(data, s);
      && l.token.kind == String
      && l.next.offset == |data|
      && (s.offset + 1 == |data| ==> l.err == Some(SliceOutOfRange))
      && (s.offset + 1 < |data| ==> l.err.None? && l.token.text == data[s.offset + 1..|data| - 1])
  {
    var j := QuoteEnd(data, s.offset + 1);
    assert j == |data|;
    var a := Seek(Advance(data, s), j);
    assert a.offset == |data|;
    assert Scan(data, s) == Finish(data, Pos(s.offset, s.line, s.column), String, None, a);
    var text := data[s.offset..|data|];
    if |text| >= 2 {
      assert text[1..|text| - 1] == data[s.offset + 1..|data| - 1];
    }
  }

  /**
   * A string literal that is never closed runs to the end of the data and loses its last
   * character; when the opening quote is the last character, cutting its text is out of range.
   */
  lemma UnterminatedString(data: string, c: Cursor)
    requires c.offset <= |data|
    requires var s := Skip(data, c, c.insertSemicolon);
      s.offset < |data| && data[s.offset] == '"' && forall i | s.offset < i < |data| :: data[i] != '"'
    ensures var s := Skip(data, c, c.insertSemicolon); var l := Lex(data, c);
      && l.token.kind == String
      && l.next.offset == |data|
      && (s.offset + 1 == |data| ==> l.err == Some(SliceOutOfRange))
      && (s.offset + 1 < |data| ==> l.err.None? && l.token.text == data[s.offset + 1..|data| - 1])
  {
    ScanUnterminatedString(data, Skip(data, c, c.insertSemicolon));
  }

  /** `//` starts a comment token that runs up to, not including, the next line break. */
  lemma CommentToken(data: string, c: Cursor)
    requires c.offset <= |data|
    requires var s := Skip(data, c, c.insertSemicolon);
      s.offset + 1 < |data| && data[s.offset] == '/' && data[s.offset + 1] == '/'
    ensures var s := Skip(data, c, c.insertSemicolon); var l := Lex(data, c);
      && l.token.kind == Comment && l.err.None?
      && l.token.text == data[s.offset..l.next.offset]
      && (forall i | s.offset <= i < l.next.offset :: data[i] != '\n')
      && (l.next.offset == |data| || data[l.next.offset] == '\n')
  {
  }

  /** A `/` not followed by another is an `Invalid` token, without an error. */
  lemma LoneSlash(data: string, c: Cursor)
    requires c.offset <= |data|
    requires var s := Skip(data, c, c.insertSemicolon);
      s.offset < |data| && data[s.offset] == '/' && (s.offset + 1 == |data| || data[s.offset + 1] != '/')
    ensures var l := Lex(data, c); l.token.kind == Invalid && l.token.text == "/" && l.err.None?
  {
  }

  /** A character that starts no token reports "invalid character". */
  lemma InvalidCharacterToken(data: string, c: Cursor)
    requires c.offset <= |data|
    requires var s := Skip(data, c, c.insertSemicolon);
      s.offset < |data| && var x := data[s.offset];
      && !IsLetter(x) && x != RuneError && x != RuneEof
      && x != '\n' && x != ';' && x != '/' && x != '(' && x != ')' && x != '{' && x != '}'
      && x != ',' && x != ':' && x != '.' && x != '"'
    ensures var l := Lex(data, c); l.token.kind == Invalid && l.err == Some(InvalidCharacter)
  {
  }

  /**
   * At the end of non-empty data every token is an `EOF` with empty text and no error, and the
   * only thing that changes is the flag, which is cleared.
   */
  lemma ExhaustedInput(data: string, c: Cursor)
    requires 0 < |data| == c.offset
    ensures Lex(data, c) == Lexed(Tok(Pos(c.offset, c.line, c.column), EOF, ""), None, c.(insertSemicolon := false))
  {
  }

  /** Empty data reaches the other end-of-input branch, which reports an error. */
  lemma EmptyInput(c: Cursor)
    requires c.offset == 0
    ensures Lex("", c).token.kind == EOF && Lex("", c).err == Some(EndOfInput)
  {
  }
}
