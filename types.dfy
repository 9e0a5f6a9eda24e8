/**
 * The types of type.go and their C renderings. A `Type` is either an `Alias` (a C type under
 * another name) or a `Structure` (a C struct with typed fields); `Definition` is the `typedef`
 * line, `Declaration` the name a use of the type is written with, and `Format` one typed name.
 */
module Types {
  import opened Text

  datatype Type = Alias(alias: string, cname: string) | Structure(name: string, fields: seq<Arg>)

  /** A named, typed slot: a function parameter or a struct field (Go's `label` is `name` here). */
  datatype Arg = Arg(name: string, typ: Type)

  /** The built-in `types` table, shared by every package. */
  const Builtins: map<string, Type> := map[
    "struct" := Structure("", []),
    "string" := Alias("", "char*"),
    "int" := Alias("", "int")
  ]

  /** The C name a package gives a struct: `pkg_name`, or the bare name without a package. */
  function Mangle(pkg: string, name: string): string
  {
    if |pkg| > 0 then pkg + "_" + name else name
  }

  /** `Alias.Declaration` and `Structure.Declaration`. */
  function Declaration(t: Type, pkg: string): string
  {
    match t
    case Alias(alias, _) => alias
    case Structure(name, _) => Mangle(pkg, name)
  }

  /** `Arg.Format`: the type's declaration (the C name for an unnamed alias), the name, then `sep`. */
  function Format(a: Arg, pkg: string, sep: string): string
  {
    var decl := Declaration(a.typ, pkg);
    var decl := if a.typ.Alias? && |decl| == 0 then a.typ.cname else decl;
    decl + " " + a.name + sep
  }

  /** The loop of `Structure.Definition` writing `f.Format(pkg, sep)` for each field in turn. */
  function FormatFields(fields: seq<Arg>, pkg: string, sep: string): string
  {
    if |fields| == 0 then "" else Format(fields[0], pkg, sep) + FormatFields(fields[1..], pkg, sep)
  }

  /** `Alias.Definition` and `Structure.Definition`. */
  function Definition(t: Type, pkg: string): string
  {
    match t
    case Alias(alias, cname) => "typedef" + " " + cname + " " + alias + ";"
    case Structure(name, fields) =>
      var l := Mangle(pkg, name);
      "typedef" + " " + "struct" + " " + l + "{" + FormatFields(fields, pkg, ";") + "}" + l + ";"
  }

  /** The C type a value of `t` is written with: what `Format` puts before the name. */
  function CTypeName(t: Type, pkg: string): string
  {
    if t.Alias? && |t.alias| == 0 then t.cname else Declaration(t, pkg)
  }

  /** The per-field list of formatted fields, without their separators. */
  function FieldNames(fields: seq<Arg>, pkg: string): (r: seq<string>)
    ensures |r| == |fields|
    ensures forall i | 0 <= i < |fields| :: r[i] == CTypeName(fields[i].typ, pkg) + " " + fields[i].name
  {
    if |fields| == 0 then [] else [CTypeName(fields[0].typ, pkg) + " " + fields[0].name] + FieldNames(fields[1..], pkg)
  }

  /**
   * `Format` writes the C type name, one space, the slot's name and the separator; for a built-in
   * alias the C type name is its C type, for anything else its declaration.
   */
  lemma FormatSpec(a: Arg, pkg: string, sep: string)
    ensures Format(a, pkg, sep) == CTypeName(a.typ, pkg) + " " + a.name + sep
    ensures a.typ.Alias? && a.typ.alias != "" ==> CTypeName(a.typ, pkg) == a.typ.alias
    ensures a.typ.Alias? && a.typ.alias == "" ==> CTypeName(a.typ, pkg) == a.typ.cname
    ensures a.typ.Structure? ==> CTypeName(a.typ, pkg) == Mangle(pkg, a.typ.name)
  {
  }

  /** A struct name carries the `pkg_` prefix exactly when there is a package name. */
  lemma MangleSpec(pkg: string, name: string)
    ensures Mangle(pkg, name) == pkg + "_" + name <==> pkg != ""
    ensures pkg == "" ==> Mangle(pkg, name) == name
  {
    if pkg == "" {
      assert |pkg + "_" + name| != |name|;
    }
  }

  /** Within one package, different struct labels never mangle to the same C name. */
  lemma {:induction false} MangleInjective(pkg: string, n1: string, n2: string)
    requires Mangle(pkg, n1) == Mangle(pkg, n2)
    ensures n1 == n2
  {
    if |pkg| > 0 {
      var n := |pkg + "_"|;
      assert n1 == Mangle(pkg, n1)[n..];
      assert n2 == Mangle(pkg, n2)[n..];
    }
  }

  /**
   * A definition is a `typedef` line that ends with the very name declarations of the type use:
   * the type a parameter or field refers to is the one its package's typedef introduces.
   */
  lemma DefinitionDeclares(t: Type, pkg: string)
    ensures "typedef " <= Definition(t, pkg)
    ensures EndsWith(Definition(t, pkg), Declaration(t, pkg) + ";")
    ensures t.Alias? ==> Declaration(t, pkg) == t.alias && Definition(t, pkg) == Definition(t, "")
  {
    var d := Definition(t, pkg);
    var n := Declaration(t, pkg) + ";";
    match t
    case Alias(alias, cname) =>
      assert d == ("typedef " + cname + " ") + n;
    case Structure(name, fields) =>
      var l := Mangle(pkg, name);
      assert d == ("typedef struct " + l + "{" + FormatFields(fields, pkg, ";") + "}") + n;
  }

  /** Each field is written once, in order, followed by `sep`. */
  lemma {:induction false} FormatFieldsTerminate(fields: seq<Arg>, pkg: string, sep: string)
    ensures FormatFields(fields, pkg, sep) == Terminate(FieldNames(fields, pkg), sep)
  {
    if |fields| > 0 {
      FormatSpec(fields[0], pkg, sep);
      FormatFieldsTerminate(fields[1..], pkg, sep);
    }
  }

  /**
   * The body of a struct definition splits on `;` into exactly its fields, each written as its
   * C type name and its name, in source order (provided no name holds a `;`).
   */
  lemma StructureBody(name: string, fields: seq<Arg>, pkg: string)
    requires forall i | 0 <= i < |fields| :: ';' !in CTypeName(fields[i].typ, pkg) + " " + fields[i].name
    ensures var l := Mangle(pkg, name);
      Definition(Structure(name, fields), pkg)
      == "typedef struct " + l + "{" + Terminate(FieldNames(fields, pkg), ";") + "}" + l + ";"
    ensures Split(FormatFields(fields, pkg, ";"), ';') == FieldNames(fields, pkg) + [""]
  {
    FormatFieldsTerminate(fields, pkg, ";");
    SplitTerminate(FieldNames(fields, pkg), ';');
  }

  /** A parameter or field of a built-in type is written with the built-in's C type. */
  lemma BuiltinNames(name: string, pkg: string, sep: string)
    ensures Format(Arg(name, Builtins["int"]), pkg, sep) == "int " + name + sep
    ensures Format(Arg(name, Builtins["string"]), pkg, sep) == "char* " + name + sep
    ensures Format(Arg(name, Builtins["struct"]), pkg, sep) == Mangle(pkg, "") + " " + name + sep
    ensures Builtins.Keys == {"struct", "string", "int"}
  {
    assert Builtins["int"] == Alias("", "int");
    assert Builtins["string"] == Alias("", "char*");
    assert Builtins["struct"] == Structure("", []);
  }
}
