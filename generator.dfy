/**
 * `Func.Gen` of generator.go: the C definition of one function of a package. `GenAsWritten`
 * follows the source line for line and is what the program as written emits; `Gen` corrects
 * how the return type is written.
 */
module Generator {
  import opened Wrappers
  import opened Text
  import opened Types

  /** A function declared in a package: `ret` is `None` when the source gives no return type. */
  datatype Func = Func(name: string, ret: Option<Type>, args: seq<Arg>, body: seq<string>)

  /** The parameters each formatted with `sep`, in order. */
  function FormatArgs(args: seq<Arg>, pkg: string, sep: string): (r: seq<string>)
    ensures |r| == |args|
    ensures forall i | 0 <= i < |args| :: r[i] == Format(args[i], pkg, sep)
  {
    if |args| == 0 then [] else [Format(args[0], pkg, sep)] + FormatArgs(args[1..], pkg, sep)
  }

  /** The parameter list: every `Format(pkg, ",")`, the last one's comma trimmed, concatenated. */
  function Params(args: seq<Arg>, pkg: string): string
  {
    var pieces := FormatArgs(args, pkg, ",");
    if |pieces| >= 1 then Concat(pieces[..|pieces| - 1] + [TrimSuffix(pieces[|pieces| - 1], ",")])
    else Concat(pieces)
  }

  /** The name a function is emitted under: `main` stays bare, any other gets the `pkg_` prefix. */
  function FuncName(name: string, pkg: string): string
  {
    (if name == "main" then "" else pkg + "_") + name
  }

  /** The body: each line followed by `;`, in order. */
  function Body(lines: seq<string>): string
  {
    Terminate(lines, ";")
  }

  /** The return type with nil replaced by the alias `void`. */
  function ReturnType(f: Func): Type
  {
    if f.ret.None? then Alias("void", "") else f.ret.value
  }

  /** A C function definition from its return type, name, parameter list and body lines. */
  function CFunction(ret: string, name: string, params: string, body: string): string
  {
    ret + " " + name + "(" + params + ") {" + body + "}"
  }

  /** A definition starts with its return type and a blank. */
  lemma CFunctionStarts(ret: string, name: string, params: string, body: string)
    ensures ret + " " <= CFunction(ret, name, params, body)
  {
    var tail := name + "(" + params + ") {" + body + "}";
    assert CFunction(ret, name, params, body) == ret + " " + tail;
  }

  /**
   * `Func.Gen` as written: an alias return type is written as `Declaration("")`, which is empty
   * for a built-in, and any other as `Declaration(pkg + "_")`, which doubles the underscore.
   */
  function GenAsWritten(f: Func, pkg: string): string
  {
    var ret := ReturnType(f);
    var rPkg := if ret.Alias? then "" else pkg + "_";
    CFunction(Declaration(ret, rPkg), FuncName(f.name, pkg), Params(f.args, pkg), Body(f.body))
  }

  /** `Func.Gen` with the return type written as `Format` writes the type of a parameter. */
  function Gen(f: Func, pkg: string): string
  {
    CFunction(CTypeName(ReturnType(f), pkg), FuncName(f.name, pkg), Params(f.args, pkg), Body(f.body))
  }

  /** A parameter formatted with a separator is the bare parameter followed by it. */
  lemma FormatSep(a: Arg, pkg: string, sep: string)
    ensures Format(a, pkg, sep) == Format(a, pkg, "") + sep
  {
  }

  lemma {:induction false} ConcatFormatted(args: seq<Arg>, pkg: string)
    requires |args| >= 1
    ensures var pieces := FormatArgs(args, pkg, ",");
      Concat(pieces[..|pieces| - 1] + [TrimSuffix(pieces[|pieces| - 1], ",")]) == Join(FormatArgs(args, pkg, ""), ",")
  {
    hide Format;
    var pieces := FormatArgs(args, pkg, ",");
    var last := pieces[|pieces| - 1];
    var s := Format(args[|args| - 1], pkg, "");
    FormatSep(args[|args| - 1], pkg, ",");
    assert TrimSuffix(last, ",") == s by {
      assert last[..|last| - 1] == s;
    }
    if |args| > 1 {
      ConcatFormatted(args[1..], pkg);
      var rest := FormatArgs(args[1..], pkg, ",");
      FormatSep(args[0], pkg, ",");
      assert pieces == [pieces[0]] + rest;
      assert pieces[..|pieces| - 1] + [s] == [pieces[0]] + (rest[..|rest| - 1] + [s]);
    } else {
      assert pieces[..|pieces| - 1] + [s] == [s];
    }
  }

  /**
   * Trimming the last comma of the concatenated pieces is joining the parameters with `,`:
   * the list is comma-separated with no space and no trailing comma.
   */
  lemma ParamsJoined(args: seq<Arg>, pkg: string)
    ensures Params(args, pkg) == Join(FormatArgs(args, pkg, ""), ",")
  {
    if |args| >= 1 {
      ConcatFormatted(args, pkg);
    }
  }

  /** Splitting the body on `;` gives back its lines, when no line holds a `;`; an empty body is empty. */
  lemma BodyLines(lines: seq<string>)
    requires forall i | 0 <= i < |lines| :: ';' !in lines[i]
    ensures Split(Body(lines), ';') == lines + [""]
    ensures lines == [] <==> Body(lines) == ""
  {
    SplitTerminate(lines, ';');
  }

  /** No two functions of a package with different names share a C name. */
  lemma FuncNameInjective(n1: string, n2: string, pkg: string)
    requires FuncName(n1, pkg) == FuncName(n2, pkg)
    ensures n1 == n2
  {
    Prefixed(n1, pkg);
    Prefixed(n2, pkg);
    if n1 != "main" && n2 != "main" {
      assert n1 == FuncName(n1, pkg)[|pkg| + 1..];
      assert n2 == FuncName(n2, pkg)[|pkg| + 1..];
    }
  }

  /** Only `main` is emitted without the package prefix; every other name follows `pkg_`. */
  lemma Prefixed(n: string, pkg: string)
    ensures n == "main" ==> FuncName(n, pkg) == "main"
    ensures n != "main" ==> |pkg| < |FuncName(n, pkg)| && FuncName(n, pkg)[|pkg|] == '_'
    ensures n != "main" ==> pkg + "_" <= FuncName(n, pkg) && FuncName(n, pkg)[|pkg| + 1..] == n
    ensures FuncName(n, pkg) == n <==> n == "main"
  {
    if n != "main" {
      assert |FuncName(n, pkg)| == |pkg| + 1 + |n|;
    }
  }

  /** The pieces of a generated definition, in order. */
  lemma GenShape(f: Func, pkg: string)
    ensures var head := CTypeName(ReturnType(f), pkg) + " " + FuncName(f.name, pkg) + "(";
      && head <= Gen(f, pkg)
      && EndsWith(Gen(f, pkg), ") {" + Body(f.body) + "}")
      && Gen(f, pkg) == head + Join(FormatArgs(f.args, pkg, ""), ",") + ") {" + Body(f.body) + "}"
  {
    ParamsJoined(f.args, pkg);
    var tail := ") {" + Body(f.body) + "}";
    var head := CTypeName(ReturnType(f), pkg) + " " + FuncName(f.name, pkg) + "(";
    assert Gen(f, pkg) == head + Params(f.args, pkg) + tail;
  }

  /**
   * The pieces of a definition as written: the return type as `Declaration(rPkg)` writes it
   * (an alias by its alias name, a struct with a doubled underscore), then the same name,
   * parameters and body as the corrected rendering.
   */
  lemma GenAsWrittenShape(f: Func, pkg: string)
    ensures var ret := ReturnType(f);
      var r := if ret.Alias? then ret.alias else Declaration(ret, pkg + "_");
      && (ret.Structure? ==> r == pkg + "__" + ret.name)
      && GenAsWritten(f, pkg)
         == r + " " + FuncName(f.name, pkg) + "(" + Join(FormatArgs(f.args, pkg, ""), ",") + ") {" + Body(f.body) + "}"
      && GenAsWritten(f, pkg) == r + Gen(f, pkg)[|CTypeName(ret, pkg)|..]
  {
    var ret := ReturnType(f);
    var r := if ret.Alias? then ret.alias else Declaration(ret, pkg + "_");
    assert ret.Structure? ==> r == pkg + "__" + ret.name;
    var name, params, body := FuncName(f.name, pkg), Params(f.args, pkg), Body(f.body);
    assert GenAsWritten(f, pkg) == CFunction(r, name, params, body);
    assert Gen(f, pkg) == CFunction(CTypeName(ret, pkg), name, params, body);
    ParamsJoined(f.args, pkg);
    CFunctionSwap(r, CTypeName(ret, pkg), name, params, body);
  }

  /** Two definitions that differ only in their return type share everything after it. */
  lemma CFunctionSwap(r: string, t: string, name: string, params: string, body: string)
    ensures CFunction(r, name, params, body) == r + " " + name + "(" + params + ") {" + body + "}"
    ensures CFunction(r, name, params, body) == r + CFunction(t, name, params, body)[|t|..]
  {
    var rest := " " + name + "(" + params + ") {" + body + "}";
    assert CFunction(r, name, params, body) == r + rest;
    assert CFunction(t, name, params, body) == t + rest;
    assert (t + rest)[|t|..] == rest;
  }

  /** Without a return type the function returns `void`. */
  lemma VoidReturn(f: Func, pkg: string)
    requires f.ret.None?
    ensures "void " <= Gen(f, pkg)
    ensures "void " <= GenAsWritten(f, pkg)
  {
  }

  /**
   * The corrected return type is spelled exactly as a parameter or field of the same type is,
   * and for a struct it is the name the package's typedef introduces.
   */
  lemma ReturnSpelledLikeParameter(f: Func, pkg: string, x: string, sep: string)
    requires f.ret.Some?
    ensures var r := CTypeName(f.ret.value, pkg) + " ";
      && r <= Gen(f, pkg)
      && Format(Arg(x, f.ret.value), pkg, sep) == r + x + sep
    ensures f.ret.value.Structure? ==> CTypeName(f.ret.value, pkg) == Declaration(f.ret.value, pkg)
  {
    GenShape(f, pkg);
    FormatSpec(Arg(x, f.ret.value), pkg, sep);
  }

  /** The two renderings agree when there is no return type or it is a named alias. */
  lemma GenAgrees(f: Func, pkg: string)
    requires f.ret.None? || (f.ret.value.Alias? && f.ret.value.alias != "")
    ensures Gen(f, pkg) == GenAsWritten(f, pkg)
  {
  }

  /** As written, a built-in return type such as `int` is lost: the definition starts with a blank. */
  lemma BuiltinReturnLost(f: Func, pkg: string)
    requires f.ret == Some(Builtins["int"]) || f.ret == Some(Builtins["string"])
    ensures GenAsWritten(f, pkg)[0] == ' '
    ensures Gen(f, pkg)[0] != ' '
    ensures f.ret == Some(Builtins["int"]) ==> "int " <= Gen(f, pkg)
  {
    assert Builtins["int"] == Alias("", "int");
    assert Builtins["string"] == Alias("", "char*");
  }

  /**
   * As written, a struct return type of a package gets a doubled underscore, a name its
   * package's typedef never introduces; the corrected rendering uses the typedef's name.
   */
  lemma StructReturnMangledTwice(f: Func, pkg: string)
    requires f.ret.Some? && f.ret.value.Structure? && pkg != ""
    ensures var s := f.ret.value;
      && pkg + "__" + s.name + " " <= GenAsWritten(f, pkg)
      && Declaration(s, pkg) == pkg + "_" + s.name
      && Declaration(s, pkg) + " " <= Gen(f, pkg)
  {
    hide CFunction;
    var s := f.ret.value;
    var name, params, body := FuncName(f.name, pkg), Params(f.args, pkg), Body(f.body);
    CFunctionStarts(Declaration(s, pkg + "_"), name, params, body);
    CFunctionStarts(Declaration(s, pkg), name, params, body);
  }

  lemma AddParams(n: Type)
    requires n == Alias("", "int")
    ensures Params([Arg("a", n), Arg("b", n)], "math") == "int a,int b"
  {
    var args := [Arg("a", n), Arg("b", n)];
    ParamsJoined(args, "math");
    assert Format(Arg("a", n), "math", "") == "int a";
    assert Format(Arg("b", n), "math", "") == "int b";
    assert FormatArgs(args, "math", "") == ["int a", "int b"];
  }

  /** The example of the first finding: `fn add(a int, b int) int {}` in package `math`. */
  lemma AddExample()
    ensures var n := Builtins["int"];
      var f := Func("add", Some(n), [Arg("a", n), Arg("b", n)], []);
      && GenAsWritten(f, "math") == " math_add(int a,int b) {}"
      && Gen(f, "math") == "int math_add(int a,int b) {}"
  {
    var n := Builtins["int"];
    assert n == Alias("", "int");
    var f := Func("add", Some(n), [Arg("a", n), Arg("b", n)], []);
    assert FuncName("add", "math") == "math_add";
    assert Body([]) == "";
    AddParams(n);
    hide FuncName, Body, Params, Format;
    AddDefinitions();
  }

  lemma AddDefinitions()
    ensures CFunction("", "math_add", "int a,int b", "") == " math_add(int a,int b) {}"
    ensures CFunction("int", "math_add", "int a,int b", "") == "int math_add(int a,int b) {}"
  {
  }
}
