# qc: a verified model of the translator core

qc translates a small language to C. A source file starts with `package name`. It then holds
declarations:
- `foreign import` directives, which become `#include` lines;
- `import "pkg"` of library packages;
- `type` declarations, which are aliases of a known type or structs with typed fields;
- `fn` declarations, whose bodies keep only calls: `C.callee(...)` on the C library, or
  `pkg.callee(...)` on an imported package.

The translator has three stages, and this project models each one in Dafny:

- **Lexer** (`lexer.dfy`, `lexer_lemmas.dfy`). This models tokenizer.go.
  - The pure functions `Advance`, `Skip`, `Scan` and `Lex` specify one step of the tokenizer.
  - The class `Lexer.Tokenizer` has the fields of the original (`offset`, `line`, `column`, `r`,
    `w`, `currentLineOffset`, `insertSemicolon`). Each of its methods is proved to move those
    fields exactly as the specification says.
  - The lemmas state line counting, the automatic-semicolon flag, and the shape of every kind of
    token.
- **Checker** (`parser.dfy`). This models parser.go.
  - The class `Parser.Checker` is the recursive-descent parser with one token of lookahead.
  - It fills the package's `Builder`, which holds the type table, the includes and the functions,
    and it appends imported packages.
  - The tokens a checker reads are a ghost `stream`: exactly what the tokenizer yields for the
    file (`Lexes`). A ghost `count` records how many tokens `Next` has returned.
  - The methods up to a function declaration state which positions of that stream they consumed
    and what they added to the builder. A function body is stated as `BodyScan`, a recursion
    over stream positions that follows the body loop of the source. `Declaration`, `ParseFile`,
    `ImportDecl`, `LoadPackage` and `Parse` state less (see Left out).
  - `Fatalf`, which prints and exits, is a `Failure` result. So are the runtime panic and the
    token loops that never end.
- **Renderers** (`types.dfy`, `generator.dfy`, `emit.dfy`). These model type.go and
  generator.go, and `writeC` of parser.go as a function.
  - The lemmas state the exact C text of typedefs, parameters and function definitions.
  - They state the name mangling `pkg_name`.
  - They state the order of the output: includes, then typedefs, then functions. Within each of
    the three groups the entry package's lines come first.
  - Whatever order Go's map iteration gives, the typedef lines are the same lines, each as often
    (the same multiset). Their order within a package follows the iteration.
  - `WriteC` renders each function as `Func.Gen` is written (`GenAsWritten`). `WriteCCorrected`
    uses the corrected `Gen`, and `WriteCAgrees` shows that the two programs are equal when no
    function returns a built-in or a struct type.

`wrappers.dfy` holds `Option` and `Result`. `text.dfy` models the Go string functions the source
calls: `strings.Join`, `strings.TrimSuffix` and `strings.Builder` concatenation. It adds `Split`
as the partner of `Join`.

Where the program differs from its documented behaviour, the model follows the program:
- The semicolon flag is also set after `(`, and a `String` token leaves it unchanged.
- `Checker.Type` lets the package's own type shadow a built-in of the same name.
- `ForeignDecl` gives the include an empty alias when an identifier precedes the string. With a
  bare string, the alias is the string's text.
- `main` is emitted without prefix in every package, not only in the entry package.
- An import fails as unknown only when the package directory is missing. An empty directory
  gives a package with no files, named after the import path.
- Importing the same package twice appends it twice.
- The token after `package name` may be of any kind.
- An empty input, or a NUL character, reaches the end-of-input branch of `Token`, which reports
  an error that `Next` treats as fatal.
- A built-in return type is lost and a struct return type is misspelt (see Findings).

## Model

| member | source | states |
|---|---|---|
| Lexer.IsAny | tokenizer.go:97-104 | the result is true exactly when the rune is among the listed runes |
| Lexer.FirstKeyword | tokenizer.go:141-153 | an identifier's text gets `Identifier` exactly when no keyword is spelled like it; otherwise it gets a keyword spelled exactly like it |
| Lexer.IdentEnd | tokenizer.go:133-140 | the end of the longest run of letters, digits and `_` from a position: everything before is such a rune, the rune at the end is not |
| Lexer.LineEnd | tokenizer.go:157-162 | the first line break at or after a position, or the end of the data |
| Lexer.QuoteEnd | tokenizer.go:180-190 | the position just past the first `"`, or the end of the data when no quote follows; no quote lies before it |
| Lexer.RuneAt | tokenizer.go:56 | definition: the rune decoded at an offset, one character per rune; past the end `RuneError`, or `RuneEof` for empty data; the tokenizer's invariant keeps its field `r` equal to it |
| Lexer.Advance | tokenizer.go:51-63 | definition of `Next` on a cursor: nothing changes at the end of the data, otherwise one character forward and the column recomputed; `Lexer.Tokenizer.Next` is proved to move the fields exactly so |
| Lexer.Start | tokenizer.go:39-49 | definition of the state `NewTokenizer` leaves: line 1, offset 0, one leading BOM skipped; `Lexer.Tokenizer.constructor` is proved to reach it |
| Lexer.Skip | tokenizer.go:65-88 | white space skipping never moves back and never passes the end of the data |
| Lexer.Finish | tokenizer.go:194-206 | the token keeps its position and kind; its text is the scanned slice, except for a string; the flag is set for `Identifier`, `(` and `)`, kept for `String` and cleared otherwise; nothing else of the cursor changes |
| Lexer.Scan | tokenizer.go:109-206 | scanning never moves back or past the end, and consumes at least one character while data remains |
| Lexer.Lex | tokenizer.go:106-207 | one `Token` call never moves back or past the end, and consumes at least one character while data remains |
| Lexer.Tokenizer.constructor | tokenizer.go:39-49 | a new tokenizer is at line 1 at the first character, with one leading BOM skipped |
| Lexer.Tokenizer.Next | tokenizer.go:51-63 | `Next` changes nothing at the end of the data; otherwise it moves one character forward and sets the column; it returns the new rune, or `RuneEof` once the data is exhausted |
| Lexer.Tokenizer.SkipWhiteSpace | tokenizer.go:65-88 | the loop leaves the fields exactly where `Skip` puts them |
| Lexer.Tokenizer.ScanIdentifier | tokenizer.go:133-140 | the identifier loop stops at `IdentEnd` |
| Lexer.Tokenizer.ScanComment | tokenizer.go:157-162 | the comment loop stops at the next line break |
| Lexer.Tokenizer.ScanString | tokenizer.go:180-190 | the string loop stops just past the closing quote |
| Lexer.Tokenizer.Classify | tokenizer.go:141-153 | the keyword loop gives the kind `KeywordKind` assigns to the identifier's text |
| Lexer.Tokenizer.ScanKind | tokenizer.go:112-193 | the switch on the first rune gives the kind, the error and the end that `Scan` gives |
| Lexer.Tokenizer.ScanToken | tokenizer.go:109-130 | the token, the error and the new fields are those of `Scan`, including the line break and `;` branch |
| Lexer.Tokenizer.Token | tokenizer.go:106-207 | one call yields the token, the error and the new state of `Lex` |
| LexerLemmas.SkipFacts | tokenizer.go:65-88 | skipping passes over blanks, and over line breaks unless told to stop at them; it stops at anything else; it counts one line per line break passed |
| LexerLemmas.SkipLines | tokenizer.go:71-78 | each line break skipped adds exactly one to `line` |
| LexerLemmas.SkipStops | tokenizer.go:66-87 | skipping passes only over white space and stops at the first other character, or at a line break while the flag is set |
| LexerLemmas.ScanLine | tokenizer.go:123-130 | only a `Semicolon` token changes the line, by exactly one, and it clears the flag |
| LexerLemmas.LexLines | tokenizer.go:71-78 | `line` grows by the line breaks skipped, plus one for a `Semicolon` token, which includes one from `;` |
| LexerLemmas.LexFlag | tokenizer.go:195-204 | after a token the flag is set for `Identifier`, `(` and `)`, unchanged for `String`, and cleared for every other kind |
| LexerLemmas.NewlineEndsStatement | tokenizer.go:107-130 | while the flag is set, the next line break after blanks is the next token, a `Semicolon` whose text is a line break |
| LexerLemmas.NewlineSkipped | tokenizer.go:71-78 | while the flag is clear, no token starts at a line break, and a `Semicolon` token can only come from `;` |
| LexerLemmas.ScanPos | tokenizer.go:109 | a token's position is where scanning started |
| LexerLemmas.ScanSemicolon | tokenizer.go:123-130 | a `Semicolon` token comes exactly from a line break or a `;` |
| LexerLemmas.KeywordKindSpec | tokenizer.go:141-153 | an identifier is reclassified exactly when it is `foreign`, `import`, `fn`, `type`, `package` or `use`, into the kind of that spelling |
| LexerLemmas.ScanIdentifierToken | tokenizer.go:131-153 | a letter starts a token made of the longest run of identifier runes, without error, whose kind is that of its text |
| LexerLemmas.IdentifierToken | tokenizer.go:131-153 | an identifier is the longest run of identifier runes, with no error; it is a keyword exactly when it spells one of the six keywords, so `struct` is never reclassified |
| LexerLemmas.StringToken | tokenizer.go:178-197 | a terminated string literal yields exactly the text between the quotes, and the closing quote is consumed |
| LexerLemmas.ScanUnterminatedString | tokenizer.go:178-197 | an unclosed string runs to the end of the data; it loses its last character, or its slice is out of range when the quote is the last character |
| LexerLemmas.UnterminatedString | tokenizer.go:178-197 | the same for a whole `Token` call |
| LexerLemmas.CommentToken | tokenizer.go:154-163 | `//` starts a `Comment` token that ends just before the next line break |
| LexerLemmas.LoneSlash | tokenizer.go:154-163 | a `/` not followed by another is an `Invalid` token with text `/` and no error |
| LexerLemmas.InvalidCharacterToken | tokenizer.go:191-193 | a character that starts no token yields "invalid character" |
| LexerLemmas.ExhaustedInput | tokenizer.go:115-117 | at the end of non-empty data every token is `EOF` with empty text and no error; only the flag changes, and it is cleared |
| LexerLemmas.EmptyInput | tokenizer.go:119-121 | empty data yields `EOF` together with the end-of-input error |
| Types.Mangle | type.go:82-89 | definition of a struct's C name, `pkg_name` or the bare name; its meaning is stated by `Types.MangleSpec` and `Types.MangleInjective` |
| Types.Declaration | type.go:34-38 | definition of `Declaration` for both kinds of type: an alias's name, a struct's mangled name; stated by `Types.DefinitionDeclares` and `Types.FormatSpec` |
| Types.Format | type.go:45-54 | definition of one slot; its text is stated by `Types.FormatSpec` and `Generator.FormatSep` |
| Types.FormatFields | type.go:73-75 | definition of the field loop of a struct definition; stated by `Types.FormatFieldsTerminate` and `Types.StructureBody` |
| Types.Definition | type.go:23-32 | definition of the typedef line of both kinds of type (type.go:61-80 for structs); stated by `Types.DefinitionDeclares` and `Types.StructureBody` |
| Types.FormatSpec | type.go:45-54 | a slot is written as its C type name, one blank, its name and the separator; a named alias uses its alias, an unnamed one its C name, a struct its mangled name |
| Types.MangleSpec | type.go:82-89 | a struct name gets the `pkg_` prefix exactly when the package name is non-empty |
| Types.MangleInjective | type.go:82-89 | within one package, different struct names never mangle to the same C name |
| Types.DefinitionDeclares | type.go:23-38 | a definition is a `typedef` line ending with the name its declaration uses and `;`; an alias ignores the package |
| Types.FormatFieldsTerminate | type.go:73-75 | the fields are written once each, in order, each followed by the separator |
| Types.StructureBody | type.go:61-80 | a struct definition is `typedef struct L{fields}L;` with `L` the mangled name; its body splits on `;` into exactly the fields, in order |
| Types.BuiltinNames | type.go:12-16 | the built-in table has exactly `struct`, `string` and `int`; an `int` slot is written `int`, a `string` slot `char*` |
| Generator.Params | generator.go:19-25 | definition of the parameter list with the last comma trimmed; stated by `Generator.ParamsJoined` |
| Generator.FuncName | generator.go:27-30 | definition of a function's C name; stated by `Generator.Prefixed` and `Generator.FuncNameInjective` |
| Generator.Body | generator.go:37-40 | definition of the body text; stated by `Generator.BodyLines` |
| Generator.ReturnType | generator.go:16-18 | definition of the return type, `void` when none is written; stated by `Generator.VoidReturn` |
| Generator.GenAsWritten | generator.go:15-42 | definition of `Func.Gen` line for line, return type written with `Declaration(rPkg)`; stated by `Generator.GenAsWrittenShape`, `Generator.AddExample`, `Generator.BuiltinReturnLost` and `Generator.StructReturnMangledTwice` |
| Generator.Gen | generator.go:15-42 | the corrected definition, the return type written as a parameter of that type is; stated by `Generator.ReturnSpelledLikeParameter` and `Generator.GenAgrees` |
| Generator.Prefixed | generator.go:27-30 | a name stays bare exactly when it is `main`; every other name is emitted as the package name, `_`, then the name itself |
| Generator.FormatArgs | generator.go:19-22 | one formatted piece per parameter, in order |
| Generator.FormatSep | type.go:53 | a slot written with a separator is the bare slot followed by that separator |
| Generator.ConcatFormatted | generator.go:20-25 | concatenating the pieces with the last comma trimmed is joining the bare pieces with `,` |
| Generator.ParamsJoined | generator.go:19-25 | the parameter list is the parameters joined by `,`, with no trailing comma |
| Generator.BodyLines | generator.go:37-40 | the body is every line followed by `;`, in order; it is empty exactly when there are no lines |
| Generator.FuncNameInjective | generator.go:27-30 | two functions of one package with different names never get the same C name |
| Generator.GenShape | generator.go:15-42 | a corrected definition is the return type written as a parameter of that type is, the name, the parameters joined by `,` in parentheses, then the body in braces |
| Generator.GenAsWrittenShape | generator.go:15-42 | a definition as written is the return type as `Declaration(rPkg)` writes it (an alias by its alias name, a struct as `pkg__name`), a blank, the name, the parameters joined by `,` in parentheses and the body in braces; it differs from the corrected one only in the return type |
| Generator.VoidReturn | generator.go:16-18 | a function without a return type returns `void`, in both renderings |
| Generator.ReturnSpelledLikeParameter | generator.go:32-42 | the corrected return type is spelled as a parameter of the same type; for a struct, it is the name the typedef introduces |
| Generator.GenAgrees | generator.go:32-42 | both renderings agree when there is no return type or it is a named alias |
| Generator.BuiltinReturnLost | generator.go:32-42 | as written, a built-in return type leaves the definition starting with a blank; the corrected one writes `int` |
| Generator.StructReturnMangledTwice | generator.go:32-35 | as written, a struct return type is written `pkg__name`; the corrected one writes the typedef's `pkg_name` |
| Generator.AddParams | generator.go:19-25 | `a int, b int` in package `math` gives the parameter list `int a,int b` |
| Generator.AddExample | generator.go:15-42 | `fn add(a int, b int) int {}` in `math` gives ` math_add(int a,int b) {}` as written and `int math_add(int a,int b) {}` corrected |
| Emit.IncludeLinesOf | parser.go:331-333 | one line per include of a package, in order, each the `#include` line of that include |
| Emit.TypeLinesOf | parser.go:337-339 | one line per key in the given iteration order, each the definition of that key's type |
| Emit.FuncLinesOf | parser.go:342-346 | one line per function of a package, in order, each its rendered definition |
| Emit.IncludeLines | parser.go:330-334 | definition of the first loop over all packages; stated by `Emit.LineCounts`, `Emit.IncludeLinesShape` and `Emit.EntryFirst` |
| Emit.TypeLines | parser.go:335-341 | definition of the second loop over all packages; stated by `Emit.TypeLinesOrderFree`, `Emit.TypeLinesShape` and `Emit.EntryFirst` |
| Emit.FuncLines | parser.go:342-346 | definition of the third loop over all packages; stated by `Emit.LineCounts`, `Emit.LinesGrouped` and `Emit.EntryFirst` |
| Emit.WriteC | parser.go:326-348 | definition of the program text as written: the three groups joined by line breaks, functions by `GenAsWritten`; stated by `Emit.LinesGrouped`, `Emit.WriteCLines` and `Emit.WriteCAddExample` |
| Emit.WriteCCorrected | parser.go:326-348 | the same program with the corrected `Gen`; stated by `Emit.WriteCAgrees` and `Emit.WriteCAddExample` |
| Emit.KeyOrderLength | parser.go:337 | a map iteration visits as many keys as the map has |
| Emit.KeyOrdersPermute | parser.go:337 | two iteration orders of one map are permutations of each other |
| Emit.TypeLinesOrderFree | parser.go:335-340 | whatever the map order, the same typedef lines come out, each as often |
| Emit.LineCounts | parser.go:327-347 | there is one line per include, one per type and one per function |
| Emit.IncludeLinesShape | parser.go:331-333 | every include line is `#include <...>` |
| Emit.TypeLinesShape | parser.go:335-340 | every type line is a `typedef` |
| Emit.LinesGrouped | parser.go:327-347 | all includes come first, then all typedefs, then the functions of every package |
| Emit.EntryFirst | parser.go:327-346 | the entry package's includes begin the include group and the program; its typedef lines, in its iteration order, begin the typedef group; its functions begin the function group |
| Emit.WriteCAgrees | parser.go:342-346 | when every function has no return type or a named alias, the program as written equals the corrected one |
| Emit.WriteCAddExample | parser.go:326-348 | package `math` with only `fn add(a int, b int) int {}` gives ` math_add(int a,int b) {}` as written and `int math_add(int a,int b) {}` corrected |
| Emit.WriteCLines | parser.go:347 | the program text splits on line breaks back into its lines, when no line holds one |
| Text.SplitJoin | parser.go:347 | splitting a join on its separator gives the parts back |
| Parser.Checker.constructor | parser.go:114-118 | a new checker reads the file from its first token, with no imported packages |
| Parser.Checker.Next | parser.go:43-50 | returns the old lookahead and makes the next token the lookahead; fails exactly when that token comes with an error; at the end it returns `EOF` for ever |
| Parser.Checker.Expect | parser.go:52-58 | succeeds exactly when the token read has the requested kind; otherwise fails with an unexpected-token error at that token |
| Parser.Checker.Allow | parser.go:60-66 | reads a token exactly when the lookahead is of the kind, and says whether it did; otherwise nothing changes |
| Parser.Checker.Current | parser.go:68-74 | the kind of the lookahead after reading any comments; it is never `Comment`, and only comments were read |
| Parser.Checker.Type | parser.go:254-272 | the package's own type of that name, else the built-in one, else an unknown-type failure |
| Parser.Checker.Argument | parser.go:274-283 | two identifiers: the name, and a type name that resolves to the slot's type |
| Parser.Checker.Arguments | parser.go:187-190 | slots until the lookahead is the closing kind; they are exactly the identifiers read, in pairs, in order |
| Parser.Checker.Delimited | parser.go:185-191 | the opening kind, the slots, the closing kind |
| Parser.Checker.ForeignDecl | parser.go:76-89 | appends exactly one include: a bare string is both its alias and file; after an identifier the string is the file and the alias is empty |
| Parser.Checker.TypeDefHead | parser.go:228-230 | `type`, the new name, and a known type |
| Parser.Checker.TypeDefDecl | parser.go:227-252 | only the entry of the new name changes; an alias keeps the C type under the new name; a struct gets the new name and the fields between braces, in order |
| Parser.Checker.RawArgs | parser.go:152-158 | every token up to the first `)`, in order, strings re-quoted |
| Parser.Checker.ForeignCall | parser.go:149-160 | `callee(args)`, with the args every token up to the first `)`, and one token more is read |
| Parser.Checker.Parenthesized | parser.go:167-176 | `(`, exactly the given number of tokens, rendered in order, and `)` |
| Parser.Checker.PackageCall | parser.go:163-179 | `pkg_callee(args)`: for each function of that name in turn, as many tokens as it has parameters, between parentheses |
| Parser.Checker.ImportedCall | parser.go:207-212 | a call is kept exactly when some imported package has that name, and it is on the first such package; then the callee and, for each function of that name, `(`, as many tokens as it has parameters and `)` are read, and the line is that call; with no such package nothing is read and nothing kept |
| Parser.Checker.Statement | parser.go:200-213 | after an identifier: `.` and `C` exactly when the body ends, with a C call whose arguments are every token up to the first `)`; `.` and an imported package's name exactly when a package call is kept, with its line and the tokens it reads; otherwise one token more is read and nothing kept; each case is one step of `BodyScan` |
| Parser.Checker.Statements | parser.go:198-214 | the lines read and the position reached are exactly those `BodyScan` gives from the first token of the body |
| Parser.Checker.ReturnType | parser.go:192-196 | a return type exactly when an identifier precedes `{`, which must name a known type |
| Parser.Checker.FunctionHead | parser.go:183-191 | `fn`, the name, and the parameters in parentheses |
| Parser.Checker.FunctionDecl | parser.go:182-225 | appends exactly one function and changes nothing else of the builder: its name, its parameters in order, a return type exactly when one is written, and as body the lines `BodyScan` gives from the token after `{` |
| Parser.Checker.ImportDecl | parser.go:91-143 | an unknown package fails; otherwise one package is appended, named by the last file's `package` clause |
| Parser.Checker.PackageHeader | parser.go:299-302 | `package`, the name, and one token more; the checker's name is the package clause's |
| Parser.Checker.Declaration | parser.go:305-318 | one declaration when the lookahead starts one, after which the builder has only grown; otherwise nothing changes |
| Parser.Checker.ParseFile | parser.go:299-320 | a whole file: the header, the declarations, and the end of input; the builder only grows; empty data fails |
| Parser.LoadPackage | parser.go:104-142 | every file of the package is read in turn; the package takes the last file's name |
| Parser.Parse | parser.go:285-321 | the packages start with the entry package, named by its package clause, whose file starts with `package`; empty data fails |
| Parser.TokensLex | tokenizer.go:106-207 | the tokens a checker reads are exactly what the tokenizer yields from the start of the data |
| Parser.LexesHead | parser.go:299-302 | the first token read is the first one lexed, and the second is the package name |
| Parser.StreamStep | tokenizer.go:106-207 | each token of the stream is lexed from where the one before left the cursor |
| Parser.StreamLast | tokenizer.go:115-121 | the stream ends at an error or at the `EOF` of the end of non-empty data, which lexing yields again from there |
| Parser.DeclaredSkip | parser.go:187-190 | tokens that are not identifiers declare no slot |
| Parser.SlotsSnoc | parser.go:187-190 | one more slot read after the ones before |
| Parser.MatchesExactly | parser.go:164-165 | a call matches exactly the functions of the package that bear its name |
| Parser.MatchesSnoc | parser.go:164-165 | the next function of the package matches exactly when it bears the name |
| Parser.CallTokensSnoc | parser.go:167-176 | one more matching function reads its `(`, its arguments and its `)` |
| Parser.RenderedInOrder | parser.go:153-157 | each argument is written as its token, a string with its quotes back |
| Parser.RenderAllAppend | parser.go:168-175 | the arguments of consecutive parts are written one after the other |
| Parser.LookupType | parser.go:254-272 | definition of the type lookup: the package's own entry, else the built-in one, else none; `Parser.Checker.Type` is proved to return it or fail |
| Parser.Render | parser.go:153-157 | definition of an argument's text; stated by `Parser.RenderedInOrder` |
| Parser.CallLine | parser.go:160 | definition of a body line, `callee(args)` or `pkg_callee(args)` (parser.go:179); `Parser.Checker.ForeignCall` and `Parser.Checker.PackageCall` are proved to produce it |
| Parser.PackageName | parser.go:98-142 | definition of an imported package's name: the last file's `package` clause, or the import path with no file; `Parser.LoadPackage` is proved to give it |
| Parser.FirstNamed | parser.go:207-212 | none exactly when no package has the name; otherwise a package of that name before which none has it |
| Parser.CloseParen | parser.go:152 | the first `)` at or after a position: it is a `)` and no `)` lies between |
| Parser.BodyScan | parser.go:198-214 | the body loop over stream positions; a body read from a position ends after it and at most one past the stream |
| Parser.BodyScanCalls | parser.go:198-214 | every body `BodyScan` reads is the lines of calls, each on an imported package with as many argument tokens as its functions have parameters, or a last `C.` call whose arguments hold no `)` |
| Parser.CallTokensSpan | parser.go:167-176 | the tokens a package call reads end exactly after `(`, the parameters' worth of tokens and `)` for each matching function, and its arguments are `QualifiedArgs` |
| Parser.QualifiedArgsLength | parser.go:168-175 | a package call has one argument per parameter of the matching functions |

## Left out

- main.go is not part of this model. It holds the command dispatch and runs `gcc`, the shell and the produced binary.
- `Fatalf` does not print or exit. It is the `Failure` value `Fatal(filename, pos, message)`, and every caller stops and passes it on.
- The file system is a parameter. A `Library` maps each package name to its files, in directory order. Subdirectories, which the source skips, are not represented.
- A failed `os.ReadFile` of an existing file, which panics, is not represented: every listed file has a text.
- Writing `debug/_out.c` is left out. `WriteC` returns the text instead, with the functions rendered as written.
- The debug printing of every function label after each function declaration is left out, because it is output only.
- UTF-8 decoding is abstracted: every character is one rune of width 1. Past the end the decoder gives `RuneError` with width 0.
- The order of Go's map iteration is a parameter. `Checker.Type` looks up by name, which gives the same result in every order. The typedefs in `writeC` follow a given key order, and `Emit.TypeLinesOrderFree` shows that the lines do not depend on it.
- Import cycles recurse without end in the source. The model bounds the nesting of imports by a `fuel` parameter and fails with `ImportTooDeep` when it runs out.
- A token loop that would read `EOF` for ever fails with `Hangs`. This happens in a body without `}` or a `C.` call without `)` at the end of the input.
- The slice panic of an unclosed quote that is the last character fails with `Panic`.
- `Pkg` and `Builder` are values, not shared references. A package's builder is shared only by the checkers of its own files, one after another. The next file's checker starts from the builder the previous one left, and the finished package is never changed again.
- The packages a nested checker imports are dropped when it finishes, as in the source, where they live only in that checker.
- Go's `label` field is `name` in the model.
- Parser.Checker.ParseFile: states that the builder only grows and what the header holds, not the full list of declarations read. The effect of each declaration is stated by its own method.
- Parser.Checker.Declaration: states that the builder only grows, not which declaration was read. The effect of each kind is stated by `ForeignDecl`, `FunctionDecl`, `TypeDefDecl` and `ImportDecl`.
- Parser.Checker.ImportDecl: states the new package's name, not the contents of its builder.
- Parser.LoadPackage: states the package's name, not the contents of its builder.
- Parser.Parse: states the entry package's name and that its file starts with `package`, not the entry package's builder nor which packages follow it.

## Findings

| source | as written | input that shows it | evidently intended | confidence | as-written member | corrected member |
|---|---|---|---|---|---|---|
| generator.go:32-42 | an alias return type is written with `Declaration("")`, which is the empty alias name of a built-in | `fn add(a int, b int) int {}` in package `math` gives ` math_add(int a,int b) {}` | `int math_add(int a,int b) {}`: the return type spelled as a parameter of that type is | high, not executed | Generator.AddExample | Generator.ReturnSpelledLikeParameter |
| generator.go:32-35 | a struct return type is written with `Declaration(pkg + "_")`, which gives `pkg__Name` | a function of package `p` returning a struct `S` starts with `p__S `, a name no typedef introduces | `p_S`, the name of the package's typedef for `S` | high, not executed | Generator.StructReturnMangledTwice | Generator.ReturnSpelledLikeParameter |
