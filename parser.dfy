/**
 * The checker of parser.go: a recursive-descent parser with one token of lookahead that reads
 * the declarations of a file into its package's `Builder`. Every `Fatalf` (which prints and
 * exits) is a `Failure` result here, and so are the runtime panic and the loops that never end.
 *
 * The tokens a checker reads are fixed by its data: `Stream` lists what the tokenizer yields,
 * and `Read(stream, i)` is the `i`-th token `Next` returns. A checker only counts how many it
 * has read, so every contract below speaks of the positions of the tokens a method consumed.
 */
module Parser {
  import opened Wrappers
  import opened Text
  import opened Lexer
  import opened LexerLemmas
  import opened Types
  import opened Generator
  import opened Emit

  /** What `Fatalf` reports. */
  datatype Message =
    | InvalidToken(err: LexError)
    | UnexpectedToken(expected: TokenKind, got: TokenKind)
    | UnknownPackage(name: string)
    | UnknownType(name: string)

  /** How a translation ends early. */
  datatype Failure =
    | Fatal(filename: string, pos: Pos, message: Message)
      // the slice of an unterminated quote at the very end is out of range
    | Panic
      // a token loop that reads `EOF` forever
    | Hangs
      // imports nested deeper than the fuel allows
    | ImportTooDeep

  /** A file of a package directory `./lib/<package>/`. */
  datatype SourceFile = SourceFile(name: string, text: string)

  /** The package directories: the files of each, in directory order. */
  type Library = map<string, seq<SourceFile>>

  /** The zero `Token` a checker starts with as its lookahead. */
  const NoToken := Tok(Pos(0, 0, 0), Unset, "")

  /** The failure `Next` reports for a token that came with an error. */
  function LexFailure(filename: string, l: Lexed): Failure
    requires l.err.Some?
  {
    if l.err.value == SliceOutOfRange then Panic
    else Fatal(filename, Pos(l.next.offset, l.next.line, l.next.column), InvalidToken(l.err.value))
  }

  /** `Checker.Type` as a lookup: the package's own entry, else the built-in one, else none. */
  function LookupType(local: map<string, Type>, name: string): Option<Type>
  {
    if name in local then Some(local[name]) else if name in Builtins then Some(Builtins[name]) else None
  }

  /** The text a call argument is written with: a string literal gets its quotes back. */
  function Render(t: Token): string
  {
    if t.kind == String then "\"" + t.text + "\"" else t.text
  }

  /** The arguments of a call as written, in order. */
  function RenderAll(toks: seq<Token>): (r: seq<string>)
    ensures |r| == |toks|
  {
    if toks == [] then [] else RenderAll(toks[..|toks| - 1]) + [Render(toks[|toks| - 1])]
  }

  /**
   * `args` are the slots the identifiers `ids` declare, in order: each is a name followed by a
   * type name, and the type is what that name resolves to in `types`.
   */
  ghost predicate Slots(ids: seq<Token>, args: seq<Arg>, types: map<string, Type>)
  {
    && |ids| == 2 * |args|
    && forall i | 0 <= i < |args| ::
      && args[i].name == ids[2 * i].text
      && LookupType(types, ids[2 * i + 1].text) == Some(args[i].typ)
  }

  /** A non-empty list of lexing steps. */
  type TokenStream = s: seq<Lexed> | s != [] witness [Lexed(NoToken, None, Cursor(0, 1, 0, 0, false))]

  /**
   * The tokens the tokenizer yields from `c` onward: up to and including the first one that
   * comes with an error or is lexed at the end of the data, after which it repeats.
   */
  ghost function Stream(data: string, c: Cursor): (s: TokenStream)
    requires c.offset <= |data|
    ensures forall i | 0 <= i < |s| :: s[i].next.offset <= |data|
    decreases |data| - c.offset
  {
    var l := Lex(data, c);
    if l.err.Some? || c.offset == |data| then [l] else [l] + Stream(data, l.next)
  }

  /**
   * What a checker reads from `data`: the zero lookahead where the tokenizer starts, then every
   * step of `Stream`.
   */
  ghost function Tokens(data: string): TokenStream
  {
    [Lexed(NoToken, None, Start(data))] + Stream(data, Start(data))
  }

  /** The `j`-th step of `s` is what lexing yields right after the one before, which came without an error. */
  ghost predicate Follows(data: string, s: TokenStream, j: nat)
  {
    0 < j < |s| ==> s[j - 1].err.None? && s[j - 1].next.offset <= |data| && s[j] == Lex(data, s[j - 1].next)
  }

  /**
   * The last step of a stream: unless it came with an error, it is the `EOF` lexed at the end
   * of non-empty data, which lexing from where it left the cursor yields again.
   */
  ghost predicate Final(data: string, l: Lexed)
  {
    l.err.None? ==>
      && 0 < |data| && l.next.offset == |data| && !l.next.insertSemicolon
      && l.token == Tok(Pos(l.next.offset, l.next.line, l.next.column), EOF, "")
  }

  /**
   * `s` is what a checker reads from `data`: the zero lookahead at the start, then each step
   * lexed from where the one before left the cursor, up to a final one.
   */
  ghost predicate Lexes(data: string, s: TokenStream)
  {
    && s[0] == Lexed(NoToken, None, Start(data))
    && (forall j: nat :: Follows(data, s, j))
    && Final(data, s[|s| - 1])
  }

  /** The `i`-th step of a stream, counting from 0; past its end the last one recurs. */
  ghost function At(s: TokenStream, i: nat): Lexed
  {
    if i < |s| then s[i] else s[|s| - 1]
  }

  /** The `i`-th token `Next` returns. */
  ghost function Read(s: TokenStream, i: nat): Token
  {
    At(s, i).token
  }

  /** The tokens `Next` returns from the `a`-th up to, not including, the `b`-th. */
  ghost function Window(s: TokenStream, a: nat, b: nat): (w: seq<Token>)
    ensures |w| == if a <= b then b - a else 0
    decreases b
  {
    if b <= a then [] else Window(s, a, b - 1) + [Read(s, b - 1)]
  }

  /** The identifiers among the tokens `Next` returns from the `a`-th up to the `b`-th. */
  ghost function Declared(s: TokenStream, a: nat, b: nat): seq<Token>
    decreases b
  {
    if b <= a then []
    else Declared(s, a, b - 1) + (if Read(s, b - 1).kind == Identifier then [Read(s, b - 1)] else [])
  }

  /** The second token of a file: the package name of its `package` clause. */
  function PackageClause(text: string): Token
  {
    var first := Lex(text, Start(text));
    Lex(text, first.next).token
  }

  /** Everything the declarations of a file add to a builder only grows. */
  ghost predicate Extends(b0: Builder, b1: Builder)
  {
    && b0.includes <= b1.includes
    && b0.functions <= b1.functions
    && b0.types.Keys <= b1.types.Keys
  }

  /** The functions of `fs` named `n`, in order: the ones a qualified call matches. */
  function Matches(fs: seq<Func>, n: string): seq<Func>
  {
    if fs == [] then []
    else Matches(fs[..|fs| - 1], n) + (if fs[|fs| - 1].name == n then [fs[|fs| - 1]] else [])
  }

  /** The parameters of all of `fs` together. */
  function ArgCount(fs: seq<Func>): nat
  {
    if fs == [] then 0 else ArgCount(fs[..|fs| - 1]) + |fs[|fs| - 1].args|
  }

  /**
   * The tokens from position `a` to `b` of `s` are those a qualified call reads after the
   * callee's name, and `args` its argument tokens: for each matching function `ms[i]` in turn,
   * `(`, exactly as many tokens as it has parameters, whatever they are, and `)`.
   */
  ghost predicate CallTokens(s: TokenStream, ms: seq<Func>, a: nat, b: nat, args: seq<Token>)
    decreases |ms|
  {
    if ms == [] then a == b && args == []
    else
      var m := |ms[|ms| - 1].args|;
      && a + m + 2 <= b && m <= |args|
      && Read(s, b - m - 2).kind == LeftParen && Read(s, b - 1).kind == RightParen
      && Window(s, b - m - 1, b - 1) == args[|args| - m..]
      && CallTokens(s, ms[..|ms| - 1], a, b - m - 2, args[..|args| - m])
  }

  /** What an identifier of a body gives: nothing, a kept package call, or the foreign call that ends the body. */
  datatype Step = Skip | Keep(line: string) | Stop(line: string)

  /** No token of `toks` is a `)`. */
  ghost predicate NoRightParen(toks: seq<Token>)
  {
    forall j | 0 <= j < |toks| :: toks[j].kind != RightParen
  }

  lemma NoRightParenSnoc(toks: seq<Token>, tok: Token)
    ensures NoRightParen([])
    ensures NoRightParen(toks) && tok.kind != RightParen ==> NoRightParen(toks + [tok])
  {
  }

  /** A call a function body keeps: `C.callee(args)`, or `pkg.callee(args)` on an imported package. */
  datatype Call =
    | Native(callee: Token, args: seq<Token>)
    | Qualified(pkg: Pkg, callee: Token, args: seq<Token>)

  /**
   * The body line of a call. A foreign call keeps its callee; a package call is written with
   * the package prefix, and with an empty name when the package has no function of that name.
   */
  function CallLine(c: Call): string
  {
    match c
    case Native(callee, args) => callee.text + "(" + Join(RenderAll(args), ",") + ")"
    case Qualified(pkg, callee, args) =>
      var n := if Matches(pkg.builder.functions, callee.text) != [] then callee.text else "";
      pkg.name + "_" + n + "(" + Join(RenderAll(args), ",") + ")"
  }

  /**
   * A package call is on one of `packages` and reads as many tokens as the matching functions
   * have parameters; a foreign call's arguments are every token up to the first `)`.
   */
  ghost predicate CallOf(c: Call, packages: seq<Pkg>)
  {
    && (c.Qualified? ==>
          && c.pkg in packages
          && |c.args| == ArgCount(Matches(c.pkg.builder.functions, c.callee.text)))
    && (c.Native? ==> NoRightParen(c.args))
  }

  /** The first of `packages` named `name`: the one a call `name.` in a body goes to. */
  function FirstNamed(packages: seq<Pkg>, name: string): (r: Option<Pkg>)
    ensures r.None? <==> forall i | 0 <= i < |packages| :: packages[i].name != name
    ensures r.Some? ==>
      exists i | 0 <= i < |packages| :: packages[i] == r.value && r.value.name == name && forall j | 0 <= j < i :: packages[j].name != name
  {
    if packages == [] then None
    else if packages[0].name == name then Some(packages[0])
    else
      var r := FirstNamed(packages[1..], name);
      assert r.Some? ==> exists i | 1 <= i < |packages| :: packages[i] == r.value && forall j | 0 <= j < i :: packages[j].name != name by {
        if r.Some? {
          var i :| 0 <= i < |packages[1..]| && packages[1..][i] == r.value && r.value.name == name
            && forall j | 0 <= j < i :: packages[1..][j].name != name;
          assert packages[i + 1] == r.value;
          assert forall j | 0 <= j < i + 1 :: packages[j].name != name by {
            forall j | 0 <= j < i + 1 ensures packages[j].name != name {
              if j > 0 {
                assert packages[j] == packages[1..][j - 1];
              }
            }
          }
        }
      }
      r
  }

  /**
   * The argument tokens of a package call whose first `(` is at position `a`: for each matching
   * function in turn, the tokens between its `(` and its `)`.
   */
  ghost function QualifiedArgs(s: TokenStream, ms: seq<Func>, a: nat): seq<Token>
    decreases |ms|
  {
    if ms == [] then []
    else
      var init := ms[..|ms| - 1];
      var e := a + ArgCount(init) + 2 * |init|;
      QualifiedArgs(s, init, a) + Window(s, e + 1, e + 1 + |ms[|ms| - 1].args|)
  }

  /** The position of the first `)` at or after `j`, if the stream has one. */
  ghost function CloseParen(s: TokenStream, j: nat): (r: Option<nat>)
    ensures r.Some? ==>
      && j <= r.value < |s| && Read(s, r.value).kind == RightParen
      && forall p | j <= p < r.value :: Read(s, p).kind != RightParen
    decreases |s| - j
  {
    if j >= |s| then None
    else if Read(s, j).kind == RightParen then Some(j)
    else CloseParen(s, j + 1)
  }

  /** The lines the body loop keeps, and how many tokens `Next` has returned when it ends. */
  datatype BodyRead = BodyRead(lines: seq<string>, end: nat)

  /** `lines` kept before the rest of a body loop. */
  function Extend(lines: seq<string>, r: Option<BodyRead>): Option<BodyRead>
  {
    if r.None? then None else Some(BodyRead(lines + r.value.lines, r.value.end))
  }

  /**
   * The body loop of `Checker.FunctionDecl` from the token at position `i`, as parser.go reads
   * it: `}` ends the body. An identifier is followed by one more token. When that token is a `.`,
   * the identifier `C` starts a foreign call that ends the body: the callee, `(`, the tokens up
   * to the first `)` and one more. Any other identifier starts a call on the first imported
   * package of that name, if there is one: the callee, then `(`, as many tokens as parameters
   * and `)` for each function of the package with the callee's name. Every other token is
   * skipped. `None` when the stream ends first.
   */
  ghost function BodyScan(s: TokenStream, i: nat, packages: seq<Pkg>): (r: Option<BodyRead>)
    ensures r.Some? ==> i < |s| && i < r.value.end <= |s| + 1
    decreases |s| - i
  {
    if i >= |s| then None
    else
      var tok := Read(s, i);
      if tok.kind == RightBrace then Some(BodyRead([], i + 1))
      else if tok.kind != Identifier then BodyScan(s, i + 1, packages)
      else if Read(s, i + 1).kind != Dot then BodyScan(s, i + 2, packages)
      else if tok.text == "C" then
        match CloseParen(s, i + 4)
        case None => None
        case Some(q) => Some(BodyRead([CallLine(Native(Read(s, i + 2), Window(s, i + 4, q)))], q + 2))
      else
        match FirstNamed(packages, tok.text)
        case None => BodyScan(s, i + 2, packages)
        case Some(p) =>
          var callee := Read(s, i + 2);
          var ms := Matches(p.builder.functions, callee.text);
          var line := CallLine(Qualified(p, callee, QualifiedArgs(s, ms, i + 3)));
          Extend([line], BodyScan(s, i + 3 + ArgCount(ms) + 2 * |ms|, packages))
  }

  /** `lines` are the body lines of `calls`, of which only the last can be a foreign one. */
  ghost predicate BodyOf(lines: seq<string>, calls: seq<Call>, packages: seq<Pkg>)
  {
    && |lines| == |calls|
    && (forall i | 0 <= i < |calls| :: lines[i] == CallLine(calls[i]))
    && (forall i | 0 <= i < |calls| - 1 :: calls[i].Qualified?)
    && (forall i | 0 <= i < |calls| :: CallOf(calls[i], packages))
  }

  class Checker {
    const tokenizer: Tokenizer
    const filename: string
    /** `Pkg.name` and `Pkg.builder` of the embedded package. */
    var name: string
    var builder: Builder
    var packages: seq<Pkg>
    var prevToken: Token
    var currToken: Token
    /** The tokens the tokenizer yields for the file, up to the first error or the end. */
    ghost const stream: TokenStream
    /** How many tokens `Next` has returned. */
    ghost var count: nat

    /**
     * The lookahead is the next token `Next` returns: the one the tokenizer yielded last,
     * without an error, and the tokenizer stands just after it.
     */
    ghost predicate Valid()
      reads this`count, this`currToken, tokenizer
    {
      && tokenizer.Valid()
      && Lexes(tokenizer.data, stream)
      && currToken == Read(stream, count)
      && At(stream, count).err.None? && tokenizer.State() == At(stream, count).next
      && (count + 1 >= |stream| ==> AtEnd())
    }

    /** The tokens left to lex before the end: what every token loop that ends uses up. */
    ghost function Measure(): nat
      reads this`count
    {
      if count < |stream| then |stream| - count else 0
    }

    /** The input is used up and the lookahead is `EOF`: from here `Next` returns `EOF` for ever. */
    predicate AtEnd()
      reads this`currToken, tokenizer
    {
      0 < |tokenizer.data| == tokenizer.offset && currToken.kind == EOF
    }

    /** The package being built is as it was. */
    twostate predicate Kept()
      reads this
    {
      name == old(name) && builder == old(builder) && packages == old(packages)
    }

    /** A checker for `data`, filling `pkg`. */
    constructor (data: string, filename: string, pkg: Pkg)
      ensures Valid() && fresh(tokenizer) && tokenizer.data == data && this.filename == filename
      ensures name == pkg.name && builder == pkg.builder && packages == []
      ensures count == 0 && currToken == NoToken && prevToken == NoToken
    {
      tokenizer := new Tokenizer(data);
      this.filename := filename;
      stream := Tokens(data);
      TokensLex(data);
      name, builder, packages := pkg.name, pkg.builder, [];
      prevToken, currToken := NoToken, NoToken;
      count := 0;
    }

    /**
     * `Checker.Next`: lex one token; fail if it came with an error; otherwise return the old
     * lookahead and make the new token the lookahead.
     */
    method Next() returns (res: Result<Token, Failure>)
      requires Valid()
      modifies this, tokenizer
      ensures Kept()
      ensures res.Ok? <==> At(stream, old(count) + 1).err.None?
      ensures res.Err? ==> res == Err(LexFailure(filename, At(stream, old(count) + 1)))
      ensures res.Ok? ==>
        && Valid() && count == old(count) + 1 && res.value == Read(stream, old(count)) && prevToken == res.value
        && Measure() <= old(Measure()) && (!old(AtEnd()) ==> Measure() < old(Measure()))
      ensures res.Ok? && old(AtEnd()) ==> AtEnd() && res.value.kind == EOF
    {
      ghost var k := count;
      ghost var data := tokenizer.data;
      if k + 1 < |stream| {
        assert Follows(data, stream, k + 1);
      } else {
        ExhaustedInput(data, tokenizer.State());
      }
      var token, err := tokenizer.Token();
      if err.Some? {
        if err.value == SliceOutOfRange {
          return Err(Panic);
        }
        return Err(Fatal(filename, Pos(tokenizer.offset, tokenizer.line, tokenizer.column), InvalidToken(err.value)));
      }
      count := count + 1;
      prevToken, currToken := currToken, token;
      return Ok(prevToken);
    }

    /** `Checker.Expect`: consume the lookahead, which must be of `kind`. */
    method Expect(kind: TokenKind) returns (res: Result<Token, Failure>)
      requires Valid()
      modifies this, tokenizer
      ensures Kept()
      ensures res.Ok? ==>
        && Valid() && count == old(count) + 1 && res.value == Read(stream, old(count)) && res.value.kind == kind
        && Measure() <= old(Measure()) && (kind != EOF ==> Measure() < old(Measure()))
      ensures var l, t := At(stream, old(count) + 1), Read(stream, old(count));
        && (res.Ok? <==> l.err.None? && t.kind == kind)
        && (l.err.Some? ==> res == Err(LexFailure(filename, l)))
        && (l.err.None? && t.kind != kind ==> res == Err(Fatal(filename, t.pos, UnexpectedToken(kind, t.kind))))
    {
      var token :- Next();
      if token.kind != kind {
        return Err(Fatal(filename, token.pos, UnexpectedToken(kind, token.kind)));
      }
      return Ok(token);
    }

    /** `Checker.Allow`: consume the lookahead only if it is of `kind`, and say whether it was. */
    method Allow(kind: TokenKind) returns (res: Result<bool, Failure>)
      requires Valid()
      modifies this, tokenizer
      ensures Kept()
      ensures Read(stream, old(count)).kind != kind ==> res == Ok(false) && unchanged(this, tokenizer)
      ensures Read(stream, old(count)).kind == kind ==>
        var l := At(stream, old(count) + 1);
        && (l.err.Some? ==> res == Err(LexFailure(filename, l)))
        && (l.err.None? ==> res == Ok(true))
      ensures res.Ok? ==> Valid() && Measure() <= old(Measure())
      ensures res.Ok? ==> count == old(count) + (if res.value then 1 else 0)
    {
      if currToken.kind == kind {
        var _ :- Next();
        return Ok(true);
      }
      return Ok(false);
    }

    /** `Checker.Current`: the kind of the lookahead, after consuming any comments. */
    method Current() returns (res: Result<TokenKind, Failure>)
      requires Valid()
      modifies this, tokenizer
      ensures Kept()
      ensures Read(stream, old(count)).kind != Comment ==>
        res == Ok(Read(stream, old(count)).kind) && unchanged(this, tokenizer)
      ensures res.Ok? ==> Valid() && old(count) <= count && Measure() <= old(Measure())
      ensures res.Ok? ==> res.value == Read(stream, count).kind && res.value != Comment
      ensures res.Ok? ==> forall i | old(count) <= i < count :: Read(stream, i).kind == Comment
      decreases Measure()
    {
      if currToken.kind == Comment {
        var _ :- Next();
        res := Current();
        return;
      }
      return Ok(currToken.kind);
    }

    /**
     * `Checker.Type`: the type `kind`'s text names, looked up in the built-in table and then in
     * the package's own table, whose entry wins; an unknown name is fatal.
     */
    method Type(kind: Token) returns (res: Result<Type, Failure>)
      ensures LookupType(builder.types, kind.text).Some? ==> res == Ok(LookupType(builder.types, kind.text).value)
      ensures LookupType(builder.types, kind.text).None? ==> res == Err(Fatal(filename, kind.pos, UnknownType(kind.text)))
    {
      var typ: Option<Type> := None;
      var names := Builtins.Keys;
      while names != {}
        invariant names <= Builtins.Keys
        invariant typ.None? ==> kind.text !in Builtins.Keys - names
        invariant typ.Some? ==> kind.text in Builtins && typ == Some(Builtins[kind.text])
        decreases names
      {
        var n :| n in names;
        if n == kind.text {
          typ := Some(Builtins[n]);
          break;
        }
        names := names - {n};
      }
      ghost var builtin := typ;
      assert builtin == LookupType(map[], kind.text);
      names := builder.types.Keys;
      while names != {}
        invariant names <= builder.types.Keys
        invariant kind.text in builder.types.Keys - names ==> typ == Some(builder.types[kind.text])
        invariant kind.text !in builder.types.Keys - names ==> typ == builtin
        decreases names
      {
        var n :| n in names;
        if n == kind.text {
          typ := Some(builder.types[n]);
          break;
        }
        names := names - {n};
      }
      if typ.None? {
        return Err(Fatal(filename, kind.pos, UnknownType(kind.text)));
      }
      return Ok(typ.value);
    }

    /** `Checker.Argument`: a name and a type name, both identifiers; the type must resolve. */
    method Argument() returns (res: Result<Arg, Failure>)
      requires Valid()
      modifies this, tokenizer
      ensures Kept()
      ensures res.Ok? ==> Valid() && count == old(count) + 2 && Measure() < old(Measure())
      ensures res.Ok? ==>
        var n, t := Read(stream, old(count)), Read(stream, old(count) + 1);
        && n.kind == Identifier && t.kind == Identifier
        && res.value.name == n.text && LookupType(builder.types, t.text) == Some(res.value.typ)
    {
      hide Valid, Read, At, Declared, Slots, Window, RenderAll, BodyOf, CallLine, CallOf, LookupType, Matches, ArgCount, CallTokens;
      var n :- Expect(Identifier);
      var t :- Expect(Identifier);
      var typ :- Type(t);
      return Ok(Arg(n.text, typ));
    }

    /**
     * The slot loop of `FunctionDecl` and `TypeDefDecl`: arguments, each optionally followed by
     * `sep`, until the lookahead is `close`. The slots are exactly the identifiers read.
     */
    method Arguments(close: TokenKind, sep: TokenKind) returns (res: Result<seq<Arg>, Failure>)
      requires Valid() && sep != Identifier
      modifies this, tokenizer
      ensures Kept()
      ensures res.Ok? ==> Valid() && old(count) <= count && Measure() <= old(Measure())
      ensures res.Ok? ==> Read(stream, count).kind == close
      ensures res.Ok? ==> Slots(Declared(stream, old(count), count), res.value, builder.types)
    {
      hide Valid;
      ghost var k := count;
      var args: seq<Arg> := [];
      while true
        invariant Valid() && Kept() && k <= count && Measure() <= old(Measure())
        invariant Slots(Declared(stream, k, count), args, builder.types)
        decreases Measure()
      {
        ghost var c0 := count;
        var cur :- Current();
        DeclaredSkip(stream, k, c0, count);
        if cur == close {
          return Ok(args);
        }
        ghost var c1 := count;
        var arg :- Argument();
        assert Declared(stream, k, count) == Declared(stream, k, c1) + [Read(stream, c1), Read(stream, c1 + 1)];
        SlotsSnoc(Declared(stream, k, c1), args, builder.types, Read(stream, c1), Read(stream, c1 + 1), arg);
        args := args + [arg];
        ghost var c2 := count;
        var _ :- Allow(sep);
        DeclaredSkip(stream, k, c2, count);
      }
    }

    /**
     * `Checker.ForeignDecl`: `foreign import` then either a string, which is both the alias
     * and the file, or an identifier and a string, which is the file with no alias.
     */
    method ForeignDecl() returns (res: Result<(), Failure>)
      requires Valid()
      modifies this, tokenizer
      ensures name == old(name) && packages == old(packages)
      ensures Read(stream, old(count)).kind != Foreign ==> res.Err?
      ensures res.Ok? ==> Valid() && Measure() < old(Measure())
      ensures res.Ok? ==>
        var k := old(count);
        var tok := Read(stream, k + 2);
        && Read(stream, k).kind == Foreign && Read(stream, k + 1).kind == Import
        && (tok.kind == Identifier ==>
              && count == k + 4 && Read(stream, k + 3).kind == String
              && builder == old(builder).(includes := old(builder).includes + [Include("", Read(stream, k + 3).text)]))
        && (tok.kind != Identifier ==>
              && count == k + 3
              && builder == old(builder).(includes := old(builder).includes + [Include(tok.text, tok.text)]))
    {
      hide Valid, Read, At, Declared, Slots, Window, RenderAll, BodyOf, CallLine, CallOf, LookupType, Matches, ArgCount, CallTokens;
      var _ :- Expect(Foreign);
      var _ :- Expect(Import);
      var tok :- Next();
      var alias := tok.text;
      if tok.kind == Identifier {
        tok :- Expect(String);
        alias := "";
      }
      builder := builder.(includes := builder.includes + [Include(alias, tok.text)]);
      return Ok(());
    }

    /**
     * `open`, the slots up to `close` (see `Arguments`), and `close`: the parameter list of a
     * function and the field list of a struct.
     */
    method Delimited(open: TokenKind, close: TokenKind, sep: TokenKind) returns (res: Result<seq<Arg>, Failure>)
      requires Valid() && open != EOF && sep != Identifier
      modifies this, tokenizer
      ensures Kept()
      ensures res.Ok? ==> Valid() && old(count) + 2 <= count && Measure() < old(Measure())
      ensures res.Ok? ==>
        && Read(stream, old(count)).kind == open && Read(stream, count - 1).kind == close
        && Slots(Declared(stream, old(count) + 1, count - 1), res.value, builder.types)
    {
      hide Valid, Read, At, Declared, Slots, Window, RenderAll, BodyOf, CallLine, CallOf, LookupType, Matches, ArgCount, CallTokens;
      var _ :- Expect(open);
      var args :- Arguments(close, sep);
      var _ :- Expect(close);
      return Ok(args);
    }

    /** The head of `Checker.TypeDefDecl`: `type`, the new name, and the known type it is defined from. */
    method TypeDefHead() returns (res: Result<(Token, Type), Failure>)
      requires Valid()
      modifies this, tokenizer
      ensures Kept()
      ensures Read(stream, old(count)).kind != TypeDef ==> res.Err?
      ensures res.Ok? ==> Valid() && count == old(count) + 3 && Measure() < old(Measure())
      ensures res.Ok? ==>
        var k := old(count);
        && Read(stream, k).kind == TypeDef && Read(stream, k + 1).kind == Identifier
        && res.value.0 == Read(stream, k + 1)
        && LookupType(builder.types, Read(stream, k + 2).text) == Some(res.value.1)
    {
      hide Valid, Read, At, Declared, Slots, Window, RenderAll, BodyOf, CallLine, CallOf, LookupType, Matches, ArgCount, CallTokens;
      var _ :- Expect(TypeDef);
      var id :- Expect(Identifier);
      var rhs :- Next();
      var typ :- Type(rhs);
      return Ok((id, typ));
    }

    /**
     * `Checker.TypeDefDecl`: `type name rhs`, where `rhs` names a known type. An alias gives
     * an alias of the same C type under `name`; a struct is followed by its fields in braces.
     * Only the entry `name` of the type table changes.
     */
    method TypeDefDecl() returns (res: Result<(), Failure>)
      requires Valid()
      modifies this, tokenizer
      ensures name == old(name) && packages == old(packages)
      ensures Read(stream, old(count)).kind != TypeDef ==> res.Err?
      ensures res.Ok? ==> Valid() && Measure() < old(Measure())
      ensures res.Ok? ==>
        var k := old(count);
        var n, rhs := Read(stream, k + 1).text, LookupType(old(builder).types, Read(stream, k + 2).text);
        && k + 4 <= count
        && Read(stream, k).kind == TypeDef && Read(stream, k + 1).kind == Identifier
        && rhs.Some? && n in builder.types
        && builder == old(builder).(types := old(builder).types[n := builder.types[n]])
        && (rhs.value.Alias? ==> builder.types[n] == Alias(n, rhs.value.cname) && count == k + 4)
        && (rhs.value.Structure? ==>
              && k + 5 <= count
              && Read(stream, k + 3).kind == LeftBrace && Read(stream, count - 1).kind == RightBrace
              && builder.types[n].Structure? && builder.types[n].name == n
              && Slots(Declared(stream, k + 4, count - 1), builder.types[n].fields, old(builder).types))
    {
      hide Valid, Read, At, Declared, Slots, Window, RenderAll, BodyOf, CallLine, CallOf, LookupType, Matches, ArgCount, CallTokens;
      var head :- TypeDefHead();
      var id, typ := head.0, head.1;
      if typ.Alias? {
        typ := Alias(id.text, typ.cname);
        var _ :- Next();
      } else {
        var fields :- Delimited(LeftBrace, RightBrace, Semicolon);
        typ := Structure(id.text, fields);
      }
      builder := builder.(types := builder.types[id.text := typ]);
      return Ok(());
    }

    /**
     * The argument loop of a foreign call: every token up to the first `)`, which is read too.
     * At the end of the input with no `)` to come the loop never ends.
     */
    method RawArgs() returns (res: Result<seq<string>, Failure>, ghost toks: seq<Token>)
      requires Valid()
      modifies this, tokenizer
      ensures Kept()
      ensures res.Ok? ==> Valid() && old(count) < count && Measure() <= old(Measure())
      ensures res.Ok? ==>
        && toks == Window(stream, old(count), count - 1) && res.value == RenderAll(toks)
        && Read(stream, count - 1).kind == RightParen && NoRightParen(toks)
    {
      hide Valid, Read, At, Measure, NoRightParen, Declared, Slots, BodyOf, CallOf, CallLine, LookupType, Matches, ArgCount, CallTokens, QualifiedArgs, FirstNamed, BodyScan, CloseParen;
      ghost var c0 := count;
      var args: seq<string> := [];
      toks := [];
      var tok :- Next();
      NoRightParenSnoc([], tok);
      while tok.kind != RightParen
        invariant Valid() && Kept() && Measure() <= old(Measure()) && c0 < count
        invariant tok == Read(stream, count - 1)
        invariant toks == Window(stream, c0, count - 1)
        invariant args == RenderAll(toks)
        invariant NoRightParen(toks)
        decreases Measure()
      {
        if AtEnd() {
          return Err(Hangs), toks;
        }
        NoRightParenSnoc(toks, tok);
        args := args + [Render(tok)];
        toks := toks + [tok];
        tok :- Next();
      }
      return Ok(args), toks;
    }

    /**
     * `Checker.FunctionCall(nil)`, reached after `C.`: the callee, `(`, every token up to the
     * first `)` as an argument (a string re-quoted), then one token more.
     */
    method ForeignCall() returns (res: Result<string, Failure>, ghost call: Call)
      requires Valid()
      modifies this, tokenizer
      ensures Kept()
      ensures res.Ok? ==> Valid() && Measure() <= old(Measure())
      ensures res.Ok? ==>
        var k := old(count);
        && k + 4 <= count && call.Native? && res.value == CallLine(call)
        && call.callee == Read(stream, k) && Read(stream, k + 1).kind == LeftParen
        && call.args == Window(stream, k + 2, count - 2) && Read(stream, count - 2).kind == RightParen
        && CallOf(call, packages)
    {
      hide Valid, Read, At, Declared, Slots, Window, BodyOf, LookupType, Matches, ArgCount, CallTokens;
      call := Native(NoToken, []);
      var callee :- Next();
      var _ :- Expect(LeftParen);
      var args, toks :- RawArgs();
      var _ :- Next();
      call := Native(callee, toks);
      return Ok(callee.text + "(" + Join(args, ",") + ")"), call;
    }

    /** The tokens a qualified call reads for one matching function: `(`, `m` tokens and `)`. */
    method Parenthesized(m: nat) returns (res: Result<seq<string>, Failure>, ghost toks: seq<Token>)
      requires Valid()
      modifies this, tokenizer
      ensures Kept()
      ensures res.Ok? ==> Valid() && count == old(count) + m + 2 && Measure() <= old(Measure())
      ensures res.Ok? ==>
        && Read(stream, old(count)).kind == LeftParen && Read(stream, old(count) + m + 1).kind == RightParen
        && toks == Window(stream, old(count) + 1, old(count) + m + 1) && res.value == RenderAll(toks)
    {
      hide Valid;
      toks := [];
      var _ :- Expect(LeftParen);
      ghost var c0 := count;
      var args: seq<string> := [];
      for j := 0 to m
        invariant Valid() && Kept() && Measure() <= old(Measure())
        invariant count == c0 + j
        invariant toks == Window(stream, c0, count)
        invariant args == RenderAll(toks)
      {
        var tk :- Next();
        args := args + [Render(tk)];
        toks := toks + [tk];
      }
      var _ :- Expect(RightParen);
      return Ok(args), toks;
    }

    /**
     * `Checker.FunctionCall(pkg)`, reached after `pkg.`: the callee, then for every function
     * of the package with that name, `(`, one token per parameter and `)`.
     */
    method PackageCall(pkg: Pkg) returns (res: Result<string, Failure>, ghost call: Call)
      requires Valid()
      modifies this, tokenizer
      ensures Kept()
      ensures res.Ok? ==> Valid() && Measure() <= old(Measure())
      ensures res.Ok? ==>
        var k := old(count);
        var ms := Matches(pkg.builder.functions, call.callee.text);
        && call.Qualified? && call.pkg == pkg && res.value == CallLine(call)
        && k < count && call.callee == Read(stream, k)
        && |call.args| == ArgCount(ms)
        && CallTokens(stream, ms, k + 1, count, call.args)
    {
      hide Valid, CallTokens, Window, RenderAll, Matches, ArgCount;
      call := Qualified(pkg, NoToken, []);
      ghost var k := count;
      var n :- Next();
      var fs := pkg.builder.functions;
      var callee := "";
      var args: seq<string> := [];
      ghost var argToks: seq<Token> := [];
      CallTokensNone(stream, fs, n.text, k + 1);
      for i := 0 to |fs|
        invariant Valid() && Kept() && Measure() <= old(Measure()) && k + 1 <= count
        invariant args == RenderAll(argToks)
        invariant callee == if Matches(fs[..i], n.text) != [] then n.text else ""
        invariant |argToks| == ArgCount(Matches(fs[..i], n.text))
        invariant CallTokens(stream, Matches(fs[..i], n.text), k + 1, count, argToks)
      {
        MatchesSnoc(fs, i, n.text);
        if n.text == fs[i].name {
          callee := fs[i].name;
          ghost var c0 := count;
          var more, moreToks :- Parenthesized(|fs[i].args|);
          RenderAllAppend(argToks, moreToks);
          CallTokensSnoc(stream, Matches(fs[..i], n.text), fs[i], k + 1, c0, argToks, argToks + moreToks);
          args, argToks := args + more, argToks + moreToks;
        }
      }
      assert fs[..|fs|] == fs;
      call := Qualified(pkg, n, argToks);
      return Ok(pkg.name + "_" + callee + "(" + Join(args, ",") + ")"), call;
    }

    /**
     * A call `pkg.` in a body: on the first imported package named `pkg`, if there is one;
     * otherwise nothing is read.
     */
    method ImportedCall(pkg: string) returns (res: Result<Option<string>, Failure>)
      requires Valid()
      modifies this, tokenizer
      ensures Kept()
      ensures res.Ok? ==> Valid() && old(count) <= count && Measure() <= old(Measure())
      ensures res.Ok? ==> (res.value.Some? <==> FirstNamed(packages, pkg).Some?)
      ensures FirstNamed(packages, pkg).None? ==> res == Ok(None) && count == old(count)
      ensures res.Ok? && res.value.Some? ==>
        var p := FirstNamed(packages, pkg).value;
        var callee := Read(stream, old(count));
        var ms := Matches(p.builder.functions, callee.text);
        && count == old(count) + 1 + ArgCount(ms) + 2 * |ms|
        && res.value.value == CallLine(Qualified(p, callee, QualifiedArgs(stream, ms, old(count) + 1)))
    {
      hide Valid, Read, At, Declared, Slots, Window, RenderAll, BodyOf, CallLine, LookupType, CallTokens, QualifiedArgs, Matches, ArgCount;
      for i := 0 to |packages|
        invariant Valid() && Kept() && count == old(count)
        invariant FirstNamed(packages, pkg) == FirstNamed(packages[i..], pkg)
      {
        assert packages[i..][0] == packages[i] && packages[i..][1..] == packages[i + 1..];
        if packages[i].name == pkg {
          var line, c :- PackageCall(packages[i]);
          CallTokensSpan(stream, Matches(c.pkg.builder.functions, c.callee.text), old(count) + 1, count, c.args);
          return Ok(Some(line));
        }
      }
      assert packages[|packages|..] == [];
      return Ok(None);
    }

    /**
     * An identifier of a body, already read, and the token after it: when that is a `.`, a
     * call on `C`, which ends the body, or a call on the first imported package of that name,
     * if there is one.
     */
    method Statement(tok: Token) returns (res: Result<Step, Failure>)
      requires Valid() && !AtEnd() && 0 < count && tok == Read(stream, count - 1) && tok.kind == Identifier
      modifies this, tokenizer
      ensures Kept()
      ensures res.Ok? ==> Valid() && old(count) < count && Measure() < old(Measure())
      ensures res.Ok? ==>
        var dot := Read(stream, old(count)).kind == Dot;
        && (res.value.Stop? <==> dot && tok.text == "C")
        && (res.value.Keep? <==> dot && tok.text != "C" && FirstNamed(packages, tok.text).Some?)
        && (res.value.Skip? ==> count == old(count) + 1)
      ensures res.Ok? && res.value.Keep? ==>
        var k := old(count);
        var p := FirstNamed(packages, tok.text).value;
        var ms := Matches(p.builder.functions, Read(stream, k + 1).text);
        && count == k + 2 + ArgCount(ms) + 2 * |ms|
        && res.value.line == CallLine(Qualified(p, Read(stream, k + 1), QualifiedArgs(stream, ms, k + 2)))
      ensures res.Ok? && res.value.Stop? ==>
        var k := old(count);
        var args := Window(stream, k + 3, count - 2);
        && k + 5 <= count && Read(stream, count - 2).kind == RightParen
        && NoRightParen(args)
        && res.value.line == CallLine(Native(Read(stream, k + 1), args))
      ensures res.Ok? ==>
        var i := old(count) - 1;
        && (res.value.Skip? ==> BodyScan(stream, i, packages) == BodyScan(stream, count, packages))
        && (res.value.Keep? ==> BodyScan(stream, i, packages) == Extend([res.value.line], BodyScan(stream, count, packages)))
        && (res.value.Stop? ==> BodyScan(stream, i, packages) == Some(BodyRead([res.value.line], count)))
    {
      hide Valid, Read, At, Declared, Slots, Window, RenderAll, BodyOf, CallLine, LookupType, Matches, ArgCount, CallTokens, QualifiedArgs, FirstNamed, BodyScan, CloseParen, Extend;
      ghost var i := count - 1;
      NotAtEnd();
      var nxt :- Next();
      if nxt.kind != Dot {
        BodyScanSkip(stream, i, count, packages);
        return Ok(Skip);
      }
      if tok.text == "C" {
        var line, c :- ForeignCall();
        ReadBefore(count - 2);
        BodyScanStop(stream, i, count - 2, packages, c.args, line);
        return Ok(Stop(line));
      }
      var line :- ImportedCall(tok.text);
      if line.None? {
        BodyScanSkip(stream, i, count, packages);
        return Ok(Skip);
      }
      BodyScanKeep(stream, i, count, packages, line.value);
      return Ok(Keep(line.value));
    }

    /** No token is left to read only at the end of the input. */
    lemma NotAtEnd()
      requires Valid() && !AtEnd()
      ensures count + 1 < |stream|
    {
    }

    /** A token `Next` returned that is not `EOF` comes before the last step of the stream. */
    lemma ReadBefore(j: nat)
      requires Valid() && j < count && Read(stream, j).kind != EOF
      ensures j + 1 < |stream|
    {
    }

    /**
     * The body loop of `Checker.FunctionDecl`: read tokens up to `}`, keeping only qualified
     * calls. A `C.` call ends the loop; `pkg.` calls the first imported package of that name;
     * any other token is skipped. At the end of the input with no `}` the loop never ends.
     * The lines kept are those `BodyScan` gives from the first token read.
     */
    method Statements() returns (res: Result<seq<string>, Failure>)
      requires Valid()
      modifies this, tokenizer
      ensures Kept()
      ensures res.Ok? ==> Valid() && Measure() <= old(Measure()) && old(count) < count
      ensures res.Ok? ==> BodyScan(stream, old(count), packages) == Some(BodyRead(res.value, count))
    {
      hide Valid, Read, At, Declared, Slots, Window, RenderAll, CallLine, CallOf, LookupType, Matches, ArgCount, CallTokens, QualifiedArgs, FirstNamed, BodyScan, Extend, BodyOf, CloseParen, Measure;
      ghost var c0 := count;
      var body: seq<string> := [];
      var tok :- Next();
      ExtendEmpty(BodyScan(stream, c0, packages));
      while tok.kind != RightBrace
        invariant Valid() && Kept() && Measure() <= old(Measure()) && c0 < count
        invariant tok == Read(stream, count - 1)
        invariant BodyScan(stream, c0, packages) == Extend(body, BodyScan(stream, count - 1, packages))
        decreases Measure()
      {
        if AtEnd() {
          return Err(Hangs);
        }
        if tok.kind == Identifier {
          var step :- Statement(tok);
          if step.Stop? {
            ExtendSome(body, BodyRead([step.line], count));
            return Ok(body + [step.line]);
          } else if step.Keep? {
            ExtendAppend(body, step.line, BodyScan(stream, count, packages));
            body := body + [step.line];
          }
        } else {
          NotAtEnd();
          BodyScanSkip(stream, count - 1, count, packages);
        }
        tok :- Next();
      }
      ReadBefore(count - 1);
      BodyScanBrace(stream, count - 1, packages);
      ExtendSome(body, BodyRead([], count));
      assert body + [] == body;
      return Ok(body);
    }

    /**
     * The return type of `Checker.FunctionDecl`: none when the lookahead, past any comments,
     * is `{`; otherwise an identifier naming a known type. Then the `{` itself.
     */
    method ReturnType() returns (res: Result<Option<Type>, Failure>)
      requires Valid()
      modifies this, tokenizer
      ensures Kept()
      ensures res.Ok? ==> Valid() && old(count) < count && Measure() < old(Measure())
      ensures res.Ok? ==>
        var ids := Declared(stream, old(count), count - 1);
        && Read(stream, count - 1).kind == LeftBrace
        && (res.value.None? <==> ids == [])
        && (res.value.Some? ==>
              ids == [Read(stream, count - 2)] && LookupType(builder.types, Read(stream, count - 2).text) == res.value)
    {
      hide Valid, Read, At, Slots, Window, RenderAll, BodyOf, CallLine, CallOf, LookupType, Matches, ArgCount, CallTokens;
      ghost var c0 := count;
      var cur :- Current();
      DeclaredSkip(stream, c0, c0, count);
      var ret: Option<Type> := None;
      if cur != LeftBrace {
        ghost var c1 := count;
        var t :- Expect(Identifier);
        var typ :- Type(t);
        ret := Some(typ);
      }
      var _ :- Expect(LeftBrace);
      return Ok(ret);
    }

    /** The head of `Checker.FunctionDecl`: `fn`, the name, and the parameters in parentheses. */
    method FunctionHead() returns (res: Result<(Token, seq<Arg>), Failure>)
      requires Valid()
      modifies this, tokenizer
      ensures Kept()
      ensures Read(stream, old(count)).kind != Fn ==> res.Err?
      ensures res.Ok? ==> Valid() && old(count) + 4 <= count && Measure() < old(Measure())
      ensures res.Ok? ==>
        var k := old(count);
        && Read(stream, k).kind == Fn && Read(stream, k + 1).kind == Identifier && res.value.0 == Read(stream, k + 1)
        && Read(stream, k + 2).kind == LeftParen && Read(stream, count - 1).kind == RightParen
        && Slots(Declared(stream, k + 3, count - 1), res.value.1, builder.types)
    {
      hide Valid;
      var _ :- Expect(Fn);
      var id :- Expect(Identifier);
      var args :- Delimited(LeftParen, RightParen, Comma);
      return Ok((id, args));
    }

    /**
     * `Checker.FunctionDecl`: `fn name(slots) [type] { body }` appends one function, then
     * one more token is read. The parameters are the slots in order; there is a return type
     * exactly when an identifier comes between `)` and `{`; the body is what the body loop
     * keeps from the token after `{`.
     */
    method FunctionDecl() returns (res: Result<(), Failure>, ghost rp: nat, ghost lb: nat)
      requires Valid()
      modifies this, tokenizer
      ensures name == old(name) && packages == old(packages)
      ensures Read(stream, old(count)).kind != Fn ==> res.Err?
      ensures res.Ok? ==> Valid() && Measure() < old(Measure())
      ensures res.Ok? ==>
        var k := old(count);
        && k + 3 <= rp < lb < count
        && Read(stream, k).kind == Fn && Read(stream, k + 1).kind == Identifier && Read(stream, k + 2).kind == LeftParen
        && Read(stream, rp).kind == RightParen && Read(stream, lb).kind == LeftBrace
        && |builder.functions| == |old(builder).functions| + 1
        && var f := builder.functions[|builder.functions| - 1];
           && builder == old(builder).(functions := old(builder).functions + [f])
           && f.name == Read(stream, k + 1).text
           && Slots(Declared(stream, k + 3, rp), f.args, builder.types)
           && (f.ret.None? <==> Declared(stream, rp + 1, lb) == [])
           && (f.ret.Some? ==>
                 Declared(stream, rp + 1, lb) == [Read(stream, lb - 1)] && LookupType(builder.types, Read(stream, lb - 1).text) == f.ret)
           && BodyScan(stream, lb + 1, packages) == Some(BodyRead(f.body, count - 1))
    {
      hide Valid, Declared, Slots, BodyScan, LookupType, Read;
      rp, lb := 0, 0;
      var head :- FunctionHead();
      var id, args := head.0, head.1;
      rp := count - 1;
      var ret :- ReturnType();
      lb := count - 1;
      var body :- Statements();
      builder := builder.(functions := builder.functions + [Func(id.text, ret, args, body)]);
      var _ :- Next();
      return Ok(()), rp, lb;
    }

    /**
     * `Checker.ImportDecl`: `import "pkg"` reads every file of the package directory with a
     * checker of its own and appends the package. An unknown package is fatal.
     */
    method ImportDecl(lib: Library, fuel: nat) returns (res: Result<(), Failure>)
      requires Valid()
      modifies this, tokenizer
      ensures name == old(name) && builder == old(builder)
      ensures Read(stream, old(count)).kind != Import ==> res.Err?
      ensures
        var k := old(count); var path := Read(stream, k + 1);
        && Read(stream, k).kind == Import && At(stream, k + 1).err.None?
        && path.kind == String && At(stream, k + 2).err.None? && path.text !in lib
        ==> res == Err(Fatal(filename, path.pos, UnknownPackage(path.text)))
      ensures res.Ok? ==> Valid() && Measure() < old(Measure())
      ensures res.Ok? ==>
        var k := old(count); var path := Read(stream, k + 1).text;
        && count == k + 2 && Read(stream, k).kind == Import && Read(stream, k + 1).kind == String
        && path in lib
        && |packages| == |old(packages)| + 1 && packages == old(packages) + [packages[|old(packages)|]]
        && packages[|old(packages)|].name == PackageName(lib, path)
      decreases fuel, 1
    {
      hide Valid, Read, At, Lex, Start, PackageClause, PackageName, Lexes;
      var _ :- Expect(Import);
      var tok :- Expect(String);
      if tok.text !in lib {
        return Err(Fatal(filename, tok.pos, UnknownPackage(tok.text)));
      }
      var pkg :- LoadPackage(lib, tok.text, fuel);
      packages := packages + [pkg];
      return Ok(());
    }

    /** `package name` and the token after it, at the start of a file: `name` is the package's. */
    method PackageHeader() returns (res: Result<(), Failure>)
      requires Valid() && count == 0
      modifies this, tokenizer
      ensures builder == old(builder) && packages == old(packages)
      ensures res.Ok? ==> Valid() && count == 4 && Measure() < old(Measure())
      ensures res.Ok? ==>
        && Read(stream, 1).kind == Package && Read(stream, 2).kind == Identifier && name == Read(stream, 2).text
        && Lex(tokenizer.data, Start(tokenizer.data)).token.kind == Package
        && name == PackageClause(tokenizer.data).text
      ensures |tokenizer.data| == 0 ==> res.Err?
    {
      LexesHead(tokenizer.data, stream);
      hide Valid;
      var _ :- Next();
      var _ :- Expect(Package);
      var id :- Expect(Identifier);
      name := id.text;
      var _ :- Next();
      return Ok(());
    }

    /**
     * One turn of the declaration loop: the declaration the lookahead, past any comments,
     * starts, or `false` when it starts none.
     */
    method Declaration(lib: Library, fuel: nat) returns (res: Result<bool, Failure>)
      requires Valid()
      modifies this, tokenizer
      ensures name == old(name)
      ensures res.Ok? ==> Valid() && old(count) <= count && Measure() <= old(Measure())
      ensures res.Ok? ==> Extends(old(builder), builder) && old(packages) <= packages
      ensures res.Ok? && res.value ==> Measure() < old(Measure())
      ensures res.Ok? && !res.value ==> builder == old(builder) && packages == old(packages)
      decreases fuel, 2
    {
      hide Valid, Read, At, Declared, Slots, Window, RenderAll, BodyOf, CallLine, CallOf, LookupType, Matches, ArgCount, CallTokens;
      var cur :- Current();
      if cur == Foreign {
        var _ :- ForeignDecl();
      } else if cur == Fn {
        var r, _, _ := FunctionDecl();
        if r.Err? {
          return Err(r.error);
        }
      } else if cur == TypeDef {
        var _ :- TypeDefDecl();
      } else if cur == Import {
        var _ :- ImportDecl(lib, fuel);
      } else {
        return Ok(false);
      }
      return Ok(true);
    }

    /**
     * The reading of one file, common to `Parse` and `ImportDecl`: `package name` and the
     * token after it, then declarations while the lookahead starts one, then an optional `;`
     * and the end of input.
     */
    method ParseFile(lib: Library, fuel: nat) returns (res: Result<(), Failure>)
      requires Valid() && count == 0
      modifies this, tokenizer
      ensures res.Ok? ==> Valid() && Extends(old(builder), builder) && old(packages) <= packages
      ensures res.Ok? ==>
        && 5 <= count && Read(stream, 1).kind == Package && Read(stream, 2).kind == Identifier
        && name == Read(stream, 2).text && Read(stream, count - 1).kind == EOF
      ensures res.Ok? ==>
        && Lex(tokenizer.data, Start(tokenizer.data)).token.kind == Package
        && name == PackageClause(tokenizer.data).text
      ensures |tokenizer.data| == 0 ==> res.Err?
      decreases fuel, 3
    {
      hide Valid, Read, At, Lex, Start, PackageClause, Lexes, Measure;
      var _ :- PackageHeader();
      while true
        invariant Valid() && 4 <= count && name == Read(stream, 2).text
        invariant Lex(tokenizer.data, Start(tokenizer.data)).token.kind == Package
        invariant name == PackageClause(tokenizer.data).text
        invariant Extends(old(builder), builder) && old(packages) <= packages
        decreases Measure()
      {
        var more :- Declaration(lib, fuel);
        if !more {
          break;
        }
      }
      var _ :- Allow(Semicolon);
      var _ :- Expect(EOF);
      return Ok(());
    }
  }

  /**
   * The name an imported package ends up with: each of its files overwrites it with its own
   * `package` clause, so it is the last file's, or the import path when there is no file.
   */
  function PackageName(lib: Library, path: string): string
    requires path in lib
  {
    var files := lib[path];
    if files == [] then path else PackageClause(files[|files| - 1].text).text
  }

  /**
   * The file loop of `ImportDecl`: every file of the package, in directory order, read by a
   * checker of its own (which starts with no imported packages) into the one shared package.
   */
  method LoadPackage(lib: Library, path: string, fuel: nat) returns (res: Result<Pkg, Failure>)
    requires path in lib
    ensures res.Ok? ==> res.value.name == PackageName(lib, path)
    ensures fuel == 0 ==> res == Err(ImportTooDeep)
    decreases fuel, 0
  {
    if fuel == 0 {
      return Err(ImportTooDeep);
    }
    var files := lib[path];
    var pkg := Pkg(path, EmptyBuilder);
    for i := 0 to |files|
      invariant pkg.name == if i == 0 then path else PackageClause(files[i - 1].text).text
    {
      var ch := new Checker(files[i].text, "./lib/" + path + "/" + files[i].name, pkg);
      var r := ch.ParseFile(lib, fuel - 1);
      if r.Err? {
        return Err(r.error);
      }
      pkg := Pkg(ch.name, ch.builder);
    }
    return Ok(pkg);
  }

  /**
   * `Parse`: read the entry file and, through its imports, the packages it uses. The result is
   * the entry package followed by its imports in order, as `writeC` lists them.
   */
  method Parse(file: SourceFile, lib: Library, fuel: nat) returns (res: Result<seq<Pkg>, Failure>)
    ensures res.Ok? ==> |res.value| >= 1 && res.value[0].name == PackageClause(file.text).text
    ensures res.Ok? ==> Lex(file.text, Start(file.text)).token.kind == Package
    ensures file.text == "" ==> res.Err?
  {
    var c := new Checker(file.text, file.name, Pkg("", EmptyBuilder));
    var r := c.ParseFile(lib, fuel);
    if r.Err? {
      return Err(r.error);
    }
    return Ok([Pkg(c.name, c.builder)] + c.packages);
  }

  /** Each step of the stream lexes from where the one before it left the cursor. */
  lemma {:induction false} StreamStep(data: string, c: Cursor, i: nat)
    requires c.offset <= |data| && i < |Stream(data, c)|
    ensures var s := Stream(data, c);
      && (i == 0 ==> s[0] == Lex(data, c))
      && (i > 0 ==> s[i - 1].err.None? && s[i] == Lex(data, s[i - 1].next))
    decreases i
  {
    var l := Lex(data, c);
    if i > 0 {
      StreamStep(data, l.next, i - 1);
    }
  }

  /**
   * The stream ends with an error, or with an `EOF` lexed at the end of non-empty data, which
   * lexing again yields unchanged.
   */
  lemma {:induction false} StreamLast(data: string, c: Cursor)
    requires c.offset <= |data|
    ensures var s := Stream(data, c); var last := s[|s| - 1];
      last.err.None? ==>
        && 0 < |data| && last.next.offset == |data| && last.token.kind == EOF
        && Lex(data, last.next) == last
    decreases |data| - c.offset
  {
    hide Lex;
    var l := Lex(data, c);
    if |data| == 0 {
      EmptyInput(c);
    } else if l.err.Some? {
    } else if c.offset == |data| {
      ExhaustedInput(data, c);
      ExhaustedInput(data, l.next);
    } else {
      StreamLast(data, l.next);
    }
  }

  /** The stream of `Tokens` is what a checker reads from `data`. */
  lemma TokensLex(data: string)
    ensures Lexes(data, Tokens(data))
  {
    var s := Tokens(data);
    forall j: nat
      ensures Follows(data, s, j)
    {
      if 0 < j < |s| {
        StreamStep(data, Start(data), j - 1);
      }
    }
    StreamLast(data, Start(data));
    var last := s[|s| - 1];
    if last.err.None? {
      ExhaustedInput(data, last.next);
    }
  }

  /** The first token lexed, which fails on empty data, and the second, which names the package. */
  lemma LexesHead(data: string, s: TokenStream)
    requires Lexes(data, s)
    ensures |s| > 1 && s[1] == Lex(data, Start(data))
    ensures |data| == 0 ==> s[1].err.Some?
    ensures s[1].err.None? && s[1].token.kind != EOF ==> |s| > 2 && s[2].token == PackageClause(data)
  {
    assert Follows(data, s, 1);
    if |data| == 0 {
      EmptyInput(Start(data));
    }
    if s[1].err.None? && s[1].token.kind != EOF {
      assert Follows(data, s, 2);
    }
  }

  /** Tokens that are no identifiers declare nothing. */
  lemma {:induction false} DeclaredSkip(s: TokenStream, a: nat, b: nat, c: nat)
    requires a <= b <= c
    requires forall i | b <= i < c :: Read(s, i).kind != Identifier
    ensures Declared(s, a, c) == Declared(s, a, b)
    decreases c
  {
    if b < c {
      DeclaredSkip(s, a, b, c - 1);
    }
  }

  lemma SlotsSnoc(ids: seq<Token>, args: seq<Arg>, types: map<string, Type>, n: Token, t: Token, a: Arg)
    requires Slots(ids, args, types)
    requires a.name == n.text && LookupType(types, t.text) == Some(a.typ)
    ensures Slots(ids + [n, t], args + [a], types)
  {
    var ids', args' := ids + [n, t], args + [a];
    forall i | 0 <= i < |args'|
      ensures args'[i].name == ids'[2 * i].text && LookupType(types, ids'[2 * i + 1].text) == Some(args'[i].typ)
    {
      if i < |args| {
        assert ids'[2 * i] == ids[2 * i] && ids'[2 * i + 1] == ids[2 * i + 1];
      }
    }
  }

  /** Before any function of the package is looked at, a call has read nothing after its name. */
  lemma CallTokensNone(s: TokenStream, fs: seq<Func>, n: string, a: nat)
    ensures Matches(fs[..0], n) == [] && ArgCount([]) == 0 && RenderAll([]) == []
    ensures CallTokens(s, [], a, a, [])
  {
    assert fs[..0] == [];
  }

  /** One more matching function read after the ones before: its `(`, its arguments and `)`. */
  lemma CallTokensSnoc(s: TokenStream, ms: seq<Func>, f: Func, a: nat, b: nat, a0: seq<Token>, a1: seq<Token>)
    requires a <= b && CallTokens(s, ms, a, b, a0)
    requires Read(s, b).kind == LeftParen && Read(s, b + |f.args| + 1).kind == RightParen
    requires a1 == a0 + Window(s, b + 1, b + |f.args| + 1)
    ensures CallTokens(s, ms + [f], a, b + |f.args| + 2, a1)
    ensures ArgCount(ms + [f]) == ArgCount(ms) + |f.args|
  {
    var ms' := ms + [f];
    assert ms'[..|ms'| - 1] == ms;
    var m := |f.args|;
    assert a1[..|a1| - m] == a0;
    assert a1[|a1| - m..] == Window(s, b + 1, b + m + 1);
  }

  /** A call matches exactly the functions of the package that bear its name. */
  lemma {:induction false} MatchesExactly(fs: seq<Func>, n: string)
    ensures forall f :: f in Matches(fs, n) <==> f in fs && f.name == n
    decreases |fs|
  {
    if fs != [] {
      var init := fs[..|fs| - 1];
      MatchesExactly(init, n);
      assert fs == init + [fs[|fs| - 1]];
    }
  }

  lemma MatchesSnoc(fs: seq<Func>, i: nat, n: string)
    requires i < |fs|
    ensures fs[i].name == n ==> Matches(fs[..i + 1], n) == Matches(fs[..i], n) + [fs[i]]
    ensures fs[i].name != n ==> Matches(fs[..i + 1], n) == Matches(fs[..i], n)
  {
    assert fs[..i + 1][..i] == fs[..i];
  }

  /** Each argument is written as `Render` writes its token. */
  lemma {:induction false} RenderedInOrder(toks: seq<Token>)
    ensures forall i | 0 <= i < |toks| :: RenderAll(toks)[i] == Render(toks[i])
    decreases |toks|
  {
    if toks != [] {
      RenderedInOrder(toks[..|toks| - 1]);
    }
  }

  lemma {:induction false} RenderAllAppend(a: seq<Token>, b: seq<Token>)
    ensures RenderAll(a + b) == RenderAll(a) + RenderAll(b)
    decreases |b|
  {
    if b != [] {
      var init := b[..|b| - 1];
      assert (a + b)[..|a + b| - 1] == a + init;
      RenderAllAppend(a, init);
    } else {
      assert a + b == a;
    }
  }

  /** Every line the body loop keeps is the line of a call it read; only the last can be a foreign call. */
  lemma {:induction false} BodyScanCalls(s: TokenStream, i: nat, packages: seq<Pkg>)
    requires BodyScan(s, i, packages).Some?
    ensures exists calls :: BodyOf(BodyScan(s, i, packages).value.lines, calls, packages)
    decreases |s| - i
  {
    hide BodyScan, BodyOf, CallLine, CallOf, Window, QualifiedArgs, Matches, ArgCount, CloseParen;
    var tok := Read(s, i);
    var dot := Read(s, i + 1).kind == Dot;
    if tok.kind == RightBrace {
      BodyScanBrace(s, i, packages);
      BodyOfEmpty(packages);
    } else if tok.kind != Identifier {
      BodyScanSkip(s, i, i + 1, packages);
      BodyScanCalls(s, i + 1, packages);
    } else if !dot || (tok.text != "C" && FirstNamed(packages, tok.text).None?) {
      BodyScanSkip(s, i, i + 2, packages);
      BodyScanCalls(s, i + 2, packages);
    } else if tok.text == "C" {
      var call := BodyScanForeign(s, i, packages);
      BodyOfLast(call, packages);
    } else {
      var p := FirstNamed(packages, tok.text).value;
      var callee := Read(s, i + 2);
      var ms := Matches(p.builder.functions, callee.text);
      var call := Qualified(p, callee, QualifiedArgs(s, ms, i + 3));
      var j := i + 3 + ArgCount(ms) + 2 * |ms|;
      BodyScanKeep(s, i, j, packages, CallLine(call));
      BodyScanCalls(s, j, packages);
      var rest :| BodyOf(BodyScan(s, j, packages).value.lines, rest, packages);
      QualifiedArgsLength(s, ms, i + 3);
      BodyOfCons(BodyScan(s, j, packages).value.lines, rest, packages, call);
    }
  }
  /** A foreign call ends the body: its line is the only one kept. */
  lemma BodyScanForeign(s: TokenStream, i: nat, packages: seq<Pkg>) returns (call: Call)
    requires BodyScan(s, i, packages).Some?
    requires Read(s, i).kind == Identifier && Read(s, i + 1).kind == Dot && Read(s, i).text == "C"
    ensures call.Native? && CallOf(call, packages) && BodyScan(s, i, packages).value.lines == [CallLine(call)]
  {
    hide CallLine, Matches, ArgCount, QualifiedArgs, FirstNamed;
    var q := CloseParen(s, i + 4).value;
    call := Native(Read(s, i + 2), Window(s, i + 4, q));
    WindowIndex(s, i + 4, q);
  }

  lemma BodyOfEmpty(packages: seq<Pkg>)
    ensures BodyOf([], [], packages)
  {
  }

  lemma BodyOfLast(call: Call, packages: seq<Pkg>)
    requires CallOf(call, packages)
    ensures BodyOf([CallLine(call)], [call], packages)
  {
  }

  lemma BodyOfCons(lines: seq<string>, calls: seq<Call>, packages: seq<Pkg>, call: Call)
    requires BodyOf(lines, calls, packages)
    requires call.Qualified? && CallOf(call, packages)
    ensures BodyOf([CallLine(call)] + lines, [call] + calls, packages)
  {
    var lines', calls' := [CallLine(call)] + lines, [call] + calls;
    forall i | 0 <= i < |calls'|
      ensures lines'[i] == CallLine(calls'[i]) && CallOf(calls'[i], packages)
      ensures i < |calls'| - 1 ==> calls'[i].Qualified?
    {
      if i > 0 {
        assert calls'[i] == calls[i - 1] && lines'[i] == lines[i - 1];
      }
    }
  }

  lemma {:induction false} QualifiedArgsLength(s: TokenStream, ms: seq<Func>, a: nat)
    ensures |QualifiedArgs(s, ms, a)| == ArgCount(ms)
    decreases |ms|
  {
    if ms != [] {
      QualifiedArgsLength(s, ms[..|ms| - 1], a);
    }
  }

  /** The tokens a package call reads are `QualifiedArgs`, with `(` and `)` for each matching function. */
  lemma {:induction false} CallTokensSpan(s: TokenStream, ms: seq<Func>, a: nat, b: nat, args: seq<Token>)
    requires CallTokens(s, ms, a, b, args)
    ensures b == a + ArgCount(ms) + 2 * |ms| && args == QualifiedArgs(s, ms, a)
    decreases |ms|
  {
    if ms != [] {
      var m := |ms[|ms| - 1].args|;
      CallTokensSpan(s, ms[..|ms| - 1], a, b - m - 2, args[..|args| - m]);
      assert args == args[..|args| - m] + args[|args| - m..];
    }
  }

  /** The `j`-th token of a window is the token at that offset from its start. */
  lemma {:induction false} WindowIndex(s: TokenStream, a: nat, b: nat)
    ensures forall j | 0 <= j < b - a :: Window(s, a, b)[j] == Read(s, a + j)
    decreases b
  {
    if a < b {
      WindowIndex(s, a, b - 1);
    }
  }

  /** The first `)` from `a` is the one at `q` when none comes before it. */
  lemma {:induction false} CloseParenAt(s: TokenStream, a: nat, q: nat)
    requires a <= q < |s| && Read(s, q).kind == RightParen
    requires forall p | a <= p < q :: Read(s, p).kind != RightParen
    ensures CloseParen(s, a) == Some(q)
    decreases q - a
  {
    if a < q {
      CloseParenAt(s, a + 1, q);
    }
  }

  lemma BodyScanBrace(s: TokenStream, i: nat, packages: seq<Pkg>)
    requires i < |s| && Read(s, i).kind == RightBrace
    ensures BodyScan(s, i, packages) == Some(BodyRead([], i + 1))
  {
  }

  lemma BodyScanSkip(s: TokenStream, i: nat, j: nat, packages: seq<Pkg>)
    requires i < |s| && Read(s, i).kind != RightBrace
    requires Read(s, i).kind != Identifier ==> j == i + 1
    requires Read(s, i).kind == Identifier ==>
      && j == i + 2
      && !(Read(s, i + 1).kind == Dot && (Read(s, i).text == "C" || FirstNamed(packages, Read(s, i).text).Some?))
    ensures BodyScan(s, i, packages) == BodyScan(s, j, packages)
  {
    hide CallLine, Matches, ArgCount, QualifiedArgs, FirstNamed, Window, CloseParen;
  }

  lemma BodyScanKeep(s: TokenStream, i: nat, j: nat, packages: seq<Pkg>, line: string)
    requires i < |s| && Read(s, i).kind == Identifier && Read(s, i + 1).kind == Dot && Read(s, i).text != "C"
    requires FirstNamed(packages, Read(s, i).text).Some?
    requires
      var p := FirstNamed(packages, Read(s, i).text).value;
      var ms := Matches(p.builder.functions, Read(s, i + 2).text);
      && j == i + 3 + ArgCount(ms) + 2 * |ms|
      && line == CallLine(Qualified(p, Read(s, i + 2), QualifiedArgs(s, ms, i + 3)))
    ensures BodyScan(s, i, packages) == Extend([line], BodyScan(s, j, packages))
  {
    hide CallLine, Matches, ArgCount, QualifiedArgs, FirstNamed, Window, CloseParen;
  }

  lemma BodyScanStop(s: TokenStream, i: nat, q: nat, packages: seq<Pkg>, args: seq<Token>, line: string)
    requires i + 4 <= q && q + 1 < |s|
    requires Read(s, i).kind == Identifier && Read(s, i + 1).kind == Dot && Read(s, i).text == "C"
    requires Read(s, q).kind == RightParen
    requires args == Window(s, i + 4, q) && NoRightParen(args)
    requires line == CallLine(Native(Read(s, i + 2), args))
    ensures BodyScan(s, i, packages) == Some(BodyRead([line], q + 2))
  {
    hide CallLine, Matches, ArgCount, QualifiedArgs, FirstNamed, Window;
    WindowIndex(s, i + 4, q);
    forall p | i + 4 <= p < q
      ensures Read(s, p).kind != RightParen
    {
      assert args[p - (i + 4)] == Read(s, p);
    }
    CloseParenAt(s, i + 4, q);
  }

  lemma ExtendSome(lines: seq<string>, r: BodyRead)
    ensures Extend(lines, Some(r)) == Some(BodyRead(lines + r.lines, r.end))
  {
  }

  lemma ExtendEmpty(r: Option<BodyRead>)
    ensures Extend([], r) == r
  {
    if r.Some? {
      assert [] + r.value.lines == r.value.lines;
    }
  }

  lemma ExtendAppend(body: seq<string>, line: string, r: Option<BodyRead>)
    ensures Extend(body, Extend([line], r)) == Extend(body + [line], r)
  {
    if r.Some? {
      assert body + ([line] + r.value.lines) == body + [line] + r.value.lines;
    }
  }
}
