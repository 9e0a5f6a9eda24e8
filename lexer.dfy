/**
 * The lexer of tokenizer.go: a cursor over the source text that yields one token per call and
 * turns a line break into a `Semicolon` token while its `insertSemicolon` flag is set.
 *
 * The source text is a sequence of characters, each of width 1 (the UTF-8 decoding of the
 * original is abstracted). Decoding past the end gives `RuneError` with width 0, as
 * `utf8.DecodeRuneInString` does on an empty string.
 *
 * The pure functions (`Advance`, `Skip`, `Lex`, ...) are the specification; the class
 * `Tokenizer` is the stateful scanner of the original, and each of its methods is proved to
 * move its fields exactly as the corresponding function says.
 */
module Lexer {
  import opened Wrappers

  const RuneBom: char := '\U{FEFF}'
  const RuneEof: char := '\0'
  const RuneError: char := '\U{FFFD}'

  datatype Pos = Pos(offset: int, line: int, column: int)

  /**
   * The token kinds. `Unset` is Go's zero `TokenKind{}`, which a fresh checker holds before
   * its first token; the lexer never produces it.
   */
  datatype TokenKind =
    | Unset
    | Invalid | EOF | Comment
    | Identifier | String
    | Package | Foreign | TypeDef | Import | Use | Fn | Struct
    | LeftParen | RightParen | LeftBrace | RightBrace | Comma | Colon | Semicolon | Dot

  /** The `str` field of each kind; for a keyword it is the keyword's spelling. */
  function KindText(k: TokenKind): string
  {
    match k
    case Unset => ""
    case Invalid => "invalid"
    case EOF => "EOF"
    case Comment => "comment"
    case Identifier => "identifier"
    case String => "string"
    case Package => "package"
    case Foreign => "foreign"
    case TypeDef => "type"
    case Import => "import"
    case Use => "use"
    case Fn => "fn"
    case Struct => "struct"
    case LeftParen => "("
    case RightParen => ")"
    case LeftBrace => "{"
    case RightBrace => "}"
    case Comma => ","
    case Colon => ":"
    case Semicolon => ";"
    case Dot => "."
  }

  datatype Token = Tok(pos: Pos, kind: TokenKind, text: string)

  /** The error values `Token` can report, and the slice panic of an unterminated quote at the end. */
  datatype LexError = InvalidCharacter | EndOfInput | SliceOutOfRange

  /** The keywords an identifier is reclassified into, in the order they are tried. */
  const Keywords: seq<TokenKind> := [Foreign, Import, Fn, TypeDef, Package, Use]

  predicate IsLetter(r: char)
  {
    ('a' <= r <= 'z') || ('A' <= r <= 'Z')
  }

  predicate IsDigit(r: char)
  {
    '0' <= r <= '9'
  }

  predicate IsIdentRune(r: char)
  {
    IsLetter(r) || IsDigit(r) || r == '_'
  }

  /** Characters `skipWhiteSpace` always steps over (line breaks are handled apart). */
  predicate IsBlank(r: char)
  {
    || r == ' ' || r == '\t' || r == '\U{B}' || r == '\U{C}' || r == '\r'
    || r == '\U{2028}' || r == '\U{2029}' || r == '\U{FEFF}'
  }

  /** `isAny(r, runes...)`: whether `r` is one of `runes`. */
  method IsAny(r: char, runes: seq<char>) returns (found: bool)
    ensures found <==> r in runes
  {
    for i := 0 to |runes|
      invariant r !in runes[..i]
    {
      if runes[i] == r {
        return true;
      }
    }
    return false;
  }

  /** The kind an identifier's text gets: the first keyword spelled like it, else `Identifier`. */
  function FirstKeyword(text: string, kinds: seq<TokenKind>): (k: TokenKind)
    requires Identifier !in kinds
    ensures k == Identifier <==> forall i | 0 <= i < |kinds| :: KindText(kinds[i]) != text
    ensures k != Identifier ==> k in kinds && KindText(k) == text
  {
    if |kinds| == 0 then Identifier
    else if KindText(kinds[0]) == text then kinds[0]
    else FirstKeyword(text, kinds[1..])
  }

  function KeywordKind(text: string): TokenKind
  {
    FirstKeyword(text, Keywords)
  }

  /** The scanner position without the decoded rune, which is a function of `offset`. */
  datatype Cursor = Cursor(offset: nat, line: int, column: int, currentLineOffset: int, insertSemicolon: bool)

  /** The rune the decoder yields at `offset`. */
  function RuneAt(data: string, offset: nat): char
  {
    if offset < |data| then data[offset] else if |data| == 0 then RuneEof else RuneError
  }

  /** `Tokenizer.Next`: one character forward, unless the data is exhausted. */
  function Advance(data: string, c: Cursor): Cursor
  {
    if c.offset >= |data| then c
    else c.(offset := c.offset + 1, column := c.offset + 1 - c.currentLineOffset)
  }

  /** The cursor after `Advance` has been applied until `offset` reaches `e`. */
  function Seek(c: Cursor, e: nat): Cursor
  {
    if e == c.offset then c else c.(offset := e, column := e - c.currentLineOffset)
  }

  /** The state `NewTokenizer` leaves: line 1, at the first character, one leading BOM skipped. */
  function Start(data: string): Cursor
  {
    var c := Cursor(0, 1, 0, 0, false);
    if |data| > 0 && data[0] == RuneBom then Advance(data, c) else c
  }

  /** `skipWhiteSpace(newLine)`: blanks are skipped; a line break is skipped (and counted) unless `newLine`. */
  function Skip(data: string, c: Cursor, newLine: bool): (d: Cursor)
    requires c.offset <= |data|
    ensures c.offset <= d.offset <= |data|
    decreases |data| - c.offset
  {
    if c.offset == |data| then c
    else if data[c.offset] == '\n' then
      if newLine then c
      else Skip(data, Advance(data, c.(line := c.line + 1, currentLineOffset := c.offset, column := 1)), newLine)
    else if IsBlank(data[c.offset]) then Skip(data, Advance(data, c), newLine)
    else c
  }

  /** End of the longest run of letters, digits and `_` starting at `i`. */
  function IdentEnd(data: string, i: nat): (j: nat)
    requires i <= |data|
    ensures i <= j <= |data|
    ensures forall k | i <= k < j :: IsIdentRune(data[k])
    ensures j == |data| || !IsIdentRune(data[j])
    decreases |data| - i
  {
    if i < |data| && IsIdentRune(data[i]) then IdentEnd(data, i + 1) else i
  }

  /** Position of the first line break at or after `i`, or the end of the data. */
  function LineEnd(data: string, i: nat): (j: nat)
    requires i <= |data|
    ensures i <= j <= |data|
    ensures forall k | i <= k < j :: data[k] != '\n'
    ensures j == |data| || data[j] == '\n'
    decreases |data| - i
  {
    if i < |data| && data[i] != '\n' then LineEnd(data, i + 1) else i
  }

  /** Position just after the first `"` at or after `i`, or the end of the data if there is none. */
  function QuoteEnd(data: string, i: nat): (j: nat)
    requires i <= |data|
    ensures i <= j <= |data|
    ensures j == |data| || (i < j && data[j - 1] == '"')
    ensures forall k | i <= k < j - 1 :: data[k] != '"'
    ensures j == |data| && (j == i || data[j - 1] != '"') ==> forall k | i <= k < j :: data[k] != '"'
    decreases |data| - i
  {
    if i == |data| then i
    else if data[i] == '"' then i + 1
    else QuoteEnd(data, i + 1)
  }

  /** What one call of `Token` yields: the token, the error it reports, and the new cursor. */
  datatype Lexed = Lexed(token: Token, err: Option<LexError>, next: Cursor)

  /** The common tail of `Token`: cut the text, strip a string's quotes, update the flag. */
  function Finish(data: string, pos: Pos, kind: TokenKind, err: Option<LexError>, c: Cursor): (l: Lexed)
    requires 0 <= pos.offset <= c.offset <= |data|
    ensures l.token.pos == pos && l.token.kind == kind
    ensures l.next == c.(insertSemicolon := l.next.insertSemicolon)
    ensures l.next.insertSemicolon == if kind == String then c.insertSemicolon else kind in {Identifier, LeftParen, RightParen}
    ensures kind != String ==> l.token.text == data[pos.offset..c.offset] && l.err == err
  {
    var text := data[pos.offset..c.offset];
    match kind
    case String =>
      if |text| < 2 then Lexed(Tok(pos, kind, ""), Some(SliceOutOfRange), c)
      else Lexed(Tok(pos, kind, text[1..|text| - 1]), err, c)
    case Identifier | LeftParen | RightParen => Lexed(Tok(pos, kind, text), err, c.(insertSemicolon := true))
    case _ => Lexed(Tok(pos, kind, text), err, c.(insertSemicolon := false))
  }

  /** `Tokenizer.Token`: skip white space, then scan one token from the cursor `c`. */
  function Lex(data: string, c: Cursor): (l: Lexed)
    requires c.offset <= |data|
    ensures c.offset <= l.next.offset <= |data|
    ensures c.offset < |data| ==> c.offset < l.next.offset
  {
    Scan(data, Skip(data, c, c.insertSemicolon))
  }

  /** The part of `Token` after white space is skipped: one token starting at `s`. */
  function Scan(data: string, s: Cursor): (l: Lexed)
    requires s.offset <= |data|
    ensures s.offset <= l.next.offset <= |data|
    ensures s.offset < |data| ==> s.offset < l.next.offset
  {
    var pos := Pos(s.offset, s.line, s.column);
    var r := RuneAt(data, s.offset);
    var a := Advance(data, s);
    if r == RuneError then Finish(data, pos, EOF, None, a)
    else if r == RuneEof then Finish(data, pos, EOF, Some(EndOfInput), a)
    else if r == '\n' || r == ';' then
      Lexed(Tok(pos, Semicolon, "\n"), None,
            a.(insertSemicolon := false, line := a.line + 1, currentLineOffset := a.offset, column := 1))
    else if IsLetter(r) then
      var e := IdentEnd(data, a.offset);
      Finish(data, pos, KeywordKind(data[s.offset..e]), None, Seek(a, e))
    else if r == '/' then
      if RuneAt(data, a.offset) == '/' then Finish(data, pos, Comment, None, Seek(a, LineEnd(data, a.offset)))
      else Finish(data, pos, Invalid, None, a)
    else if r == '(' then Finish(data, pos, LeftParen, None, a)
    else if r == ')' then Finish(data, pos, RightParen, None, a)
    else if r == '{' then Finish(data, pos, LeftBrace, None, a)
    else if r == '}' then Finish(data, pos, RightBrace, None, a)
    else if r == ',' then Finish(data, pos, Comma, None, a)
    else if r == ':' then Finish(data, pos, Colon, None, a)
    else if r == '.' then Finish(data, pos, Dot, None, a)
    else if r == '"' then Finish(data, pos, String, None, Seek(a, QuoteEnd(data, a.offset)))
    else Finish(data, pos, Invalid, Some(InvalidCharacter), a)
  }

  /** The scanner of tokenizer.go. `r` and `w` are the decoded rune at `offset` and its width. */
  class Tokenizer {
    const data: string
    var offset: nat
    var line: int
    var column: int
    var r: char
    var w: nat
    var currentLineOffset: int
    var insertSemicolon: bool

    ghost predicate Valid()
      reads this
    {
      && offset <= |data|
      && r == RuneAt(data, offset)
      && w == (if offset < |data| then 1 else 0)
    }

    function State(): Cursor
      reads this
    {
      Cursor(offset, line, column, currentLineOffset, insertSemicolon)
    }

    /** `NewTokenizer`. */
    constructor (data: string)
      ensures Valid() && this.data == data && State() == Start(data)
    {
      this.data := data;
      offset, line, column, currentLineOffset, insertSemicolon := 0, 1, 0, 0, false;
      // The first Next finds w == 0: it decodes the first rune without moving.
      if |data| > 0 {
        r, w := data[0], 1;
      } else {
        r, w := RuneEof, 0;
      }
      new;
      if r == RuneBom {
        var _ := Next();
      }
    }

    /** Moves one rune forward and reports the new rune, or `RuneEof` once the data is exhausted. */
    method Next() returns (rn: char)
      requires Valid()
      modifies this
      ensures Valid() && State() == Advance(data, old(State()))
      ensures rn == if offset < |data| then data[offset] else RuneEof
    {
      if offset >= |data| {
        return RuneEof;
      }
      offset := offset + w;
      if offset < |data| {
        r, w := data[offset], 1;
      } else {
        r, w := RuneError, 0;
      }
      column := offset - currentLineOffset;
      if offset >= |data| {
        return RuneEof;
      }
      return r;
    }

    method SkipWhiteSpace(newLine: bool)
      requires Valid()
      modifies this
      ensures Valid() && State() == Skip(data, old(State()), newLine)
    {
      while offset < |data|
        invariant Valid()
        invariant Skip(data, State(), newLine) == Skip(data, old(State()), newLine)
        decreases |data| - offset
      {
        if r in " \t\U{B}\U{C}\r" {
          var _ := Next();
        } else if r == '\n' {
          if newLine {
            break;
          }
          line := line + 1;
          currentLineOffset := offset;
          column := 1;
          var _ := Next();
        } else if r in "\U{2028}\U{2029}\U{FEFF}" {
          var _ := Next();
        } else {
          break;
        }
      }
    }

    /** The identifier loop of `Token`: steps over letters, digits and `_`. */
    method ScanIdentifier()
      requires Valid()
      modifies this
      ensures Valid() && State() == Seek(old(State()), IdentEnd(data, old(offset)))
    {
      ghost var a := State();
      ghost var e := IdentEnd(data, offset);
      while offset < |data| && (IsLetter(r) || IsDigit(r) || r == '_')
        invariant Valid() && a.offset <= offset <= e
        invariant IdentEnd(data, offset) == e
        invariant State() == Seek(a, offset)
        decreases |data| - offset
      {
        var _ := Next();
      }
    }

    /** The comment loop of `Token`: steps up to the next line break. */
    method ScanComment()
      requires Valid()
      modifies this
      ensures Valid() && State() == Seek(old(State()), LineEnd(data, old(offset)))
    {
      ghost var a := State();
      ghost var e := LineEnd(data, offset);
      while offset < |data|
        invariant Valid() && a.offset <= offset <= e
        invariant LineEnd(data, offset) == e
        invariant State() == Seek(a, offset)
        decreases |data| - offset
      {
        if r == '\n' {
          break;
        }
        var _ := Next();
      }
    }

    /** The string loop of `Token`: steps past the closing quote. */
    method ScanString()
      requires Valid()
      modifies this
      ensures Valid() && State() == Seek(old(State()), QuoteEnd(data, old(offset)))
    {
      ghost var a := State();
      ghost var e := QuoteEnd(data, offset);
      while offset < |data|
        invariant Valid() && a.offset <= offset <= e
        invariant QuoteEnd(data, offset) == e
        invariant State() == Seek(a, offset)
        decreases |data| - offset
      {
        if r == '"' {
          var _ := Next();
          break;
        }
        var _ := Next();
      }
    }

    /** Scans one token; its result and the new state are those `Lex` gives for the old state. */
    method Token() returns (token: Token, err: Option<LexError>)
      requires Valid()
      modifies this
      ensures Valid() && Lexed(token, err, State()) == Lex(data, old(State()))
    {
      SkipWhiteSpace(insertSemicolon);
      token, err := ScanToken();
    }

    /** `Token` after white space is skipped. */
    method ScanToken() returns (token: Token, err: Option<LexError>)
      requires Valid()
      modifies this
      ensures Valid() && Lexed(token, err, State()) == Scan(data, old(State()))
    {
      ghost var s := State();
      var pos := Pos(offset, line, column);
      var currRune := r;
      var _ := Next();
      var isSeparator := IsAny(currRune, ['\n', ';']);
      if currRune != RuneError && currRune != RuneEof && isSeparator {
        insertSemicolon := false;
        token, err := Tok(pos, Semicolon, "\n"), None;
        line := line + 1;
        currentLineOffset := offset;
        column := 1;
        return;
      }
      var kind;
      kind, err := ScanKind(currRune, pos, s);
      ghost var result := Finish(data, pos, kind, err, State());
      var text := data[pos.offset..offset];
      match kind {
        case String =>
          if |text| < 2 {
            // text[1 : len(text)-1] with len(text) == 1 is a slice out of range
            err := Some(SliceOutOfRange);
            text := "";
          } else {
            text := text[1..|text| - 1];
          }
        case EOF | Semicolon =>
          insertSemicolon := false;
        case Identifier | LeftParen | RightParen =>
          insertSemicolon := true;
        case _ =>
          insertSemicolon := false;
      }
      token := Tok(pos, kind, text);
      assert Lexed(token, err, State()) == result;
    }

    /** The keyword loop of `Token`: the kind an identifier's text gets. */
    static method Classify(text: string) returns (kind: TokenKind)
      ensures kind == KeywordKind(text)
    {
      kind := Identifier;
      for i := 0 to |Keywords|
        invariant kind == Identifier
        invariant FirstKeyword(text, Keywords[i..]) == KeywordKind(text)
      {
        if text == KindText(Keywords[i]) {
          kind := Keywords[i];
          break;
        }
        assert Keywords[i..][1..] == Keywords[i + 1..];
      }
    }

    /**
     * The switch of `Token` on the rune `currRune` found at the start of the token (other than a
     * line break or `;`), entered one rune past it: the kind, the error, and the end of the token.
     */
    method ScanKind(currRune: char, pos: Pos, ghost s: Cursor) returns (kind: TokenKind, err: Option<LexError>)
      requires Valid() && s.offset <= |data| && State() == Advance(data, s)
      requires pos == Pos(s.offset, s.line, s.column)
      requires currRune == RuneAt(data, s.offset)
      requires currRune == RuneError || currRune == RuneEof || (currRune != '\n' && currRune != ';')
      modifies this
      ensures Valid() && s.offset <= offset
      ensures Scan(data, s) == Finish(data, pos, kind, err, State())
    {
      hide Finish;
      kind := Invalid;
      err := None;
      if currRune == RuneError {
        kind := EOF;
      } else if currRune == RuneEof {
        kind := EOF;
        err := Some(EndOfInput);
      } else if IsLetter(currRune) {
        ScanIdentifier();
        kind := Classify(data[pos.offset..offset]);
      } else if currRune == '/' {
        if r == '/' {
          kind := Comment;
          ScanComment();
        }
      } else if currRune == '(' {
        kind := LeftParen;
      } else if currRune == ')' {
        kind := RightParen;
      } else if currRune == '{' {
        kind := LeftBrace;
      } else if currRune == '}' {
        kind := RightBrace;
      } else if currRune == ',' {
        kind := Comma;
      } else if currRune == ':' {
        kind := Colon;
      } else if currRune == '.' {
        kind := Dot;
      } else if currRune == '"' {
        kind := String;
        ScanString();
      } else {
        err := Some(InvalidCharacter);
      }
    }
  }
}
