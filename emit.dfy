/**
 * What a parse builds, and `Checker.writeC` of parser.go, which turns it into the C program:
 * the `#include` lines of every package, then every package's typedefs, then every package's
 * functions, the entry package first and the imported packages in import order. `WriteC`
 * renders the functions as `Func.Gen` is written; `WriteCCorrected` with the corrected `Gen`.
 */
module Emit {
  import opened Wrappers
  import opened Text
  import opened Types
  import opened Generator

  /** A `foreign import`: the C header to include, and the name it was given, if any. */
  datatype Include = Include(alias: string, filename: string)

  /** What the declarations of one package add up to. */
  datatype Builder = Builder(types: map<string, Type>, includes: seq<Include>, functions: seq<Func>)

  datatype Pkg = Pkg(name: string, builder: Builder)

  const EmptyBuilder := Builder(map[], [], [])

  /**
   * One order in which `range` may visit the keys of `m`: every key exactly once. Go leaves the
   * order of map iteration unspecified, so the order is a parameter of the output.
   */
  predicate KeyOrder(keys: seq<string>, m: map<string, Type>)
  {
    && (forall i, j | 0 <= i < j < |keys| :: keys[i] != keys[j])
    && (forall k | k in keys :: k in m)
    && (forall k | k in m :: k in keys)
  }

  /** A key order for the types of every package. */
  predicate KeyOrders(pkgs: seq<Pkg>, orders: seq<seq<string>>)
  {
    |orders| == |pkgs| && forall i | 0 <= i < |pkgs| :: KeyOrder(orders[i], pkgs[i].builder.types)
  }

  function IncludeLine(inc: Include): string
  {
    "#include <" + inc.filename + ">"
  }

  function IncludeLinesOf(incs: seq<Include>): (r: seq<string>)
    ensures |r| == |incs|
    ensures forall i | 0 <= i < |incs| :: r[i] == IncludeLine(incs[i])
  {
    if |incs| == 0 then [] else [IncludeLine(incs[0])] + IncludeLinesOf(incs[1..])
  }

  function TypeLinesOf(keys: seq<string>, types: map<string, Type>, pkg: string): (r: seq<string>)
    requires forall i | 0 <= i < |keys| :: keys[i] in types
    ensures |r| == |keys|
    ensures forall i | 0 <= i < |keys| :: r[i] == Definition(types[keys[i]], pkg)
  {
    if |keys| == 0 then [] else [Definition(types[keys[0]], pkg)] + TypeLinesOf(keys[1..], types, pkg)
  }

  /** Which rendering of a function definition a program uses: `Func.Gen` as written, or corrected. */
  datatype Rendering = AsWritten | Corrected

  function RenderFunc(f: Func, pkg: string, how: Rendering): string
  {
    if how == AsWritten then GenAsWritten(f, pkg) else Gen(f, pkg)
  }

  function FuncLinesOf(fs: seq<Func>, pkg: string, how: Rendering): (r: seq<string>)
    ensures |r| == |fs|
    ensures forall i | 0 <= i < |fs| :: r[i] == RenderFunc(fs[i], pkg, how)
  {
    if |fs| == 0 then [] else [RenderFunc(fs[0], pkg, how)] + FuncLinesOf(fs[1..], pkg, how)
  }

  /** The first loop of `writeC`: the includes of every package, in order. */
  function IncludeLines(pkgs: seq<Pkg>): seq<string>
  {
    if |pkgs| == 0 then [] else IncludeLinesOf(pkgs[0].builder.includes) + IncludeLines(pkgs[1..])
  }

  /** The second loop: the typedefs of every package, each package's in the given key order. */
  function TypeLines(pkgs: seq<Pkg>, orders: seq<seq<string>>): seq<string>
    requires KeyOrders(pkgs, orders)
  {
    if |pkgs| == 0 then []
    else TypeLinesOf(orders[0], pkgs[0].builder.types, pkgs[0].name) + TypeLines(pkgs[1..], orders[1..])
  }

  /** The third loop: the functions of every package, in order. */
  function FuncLines(pkgs: seq<Pkg>, how: Rendering): seq<string>
  {
    if |pkgs| == 0 then []
    else FuncLinesOf(pkgs[0].builder.functions, pkgs[0].name, how) + FuncLines(pkgs[1..], how)
  }

  function Lines(pkgs: seq<Pkg>, orders: seq<seq<string>>, how: Rendering): seq<string>
    requires KeyOrders(pkgs, orders)
  {
    IncludeLines(pkgs) + TypeLines(pkgs, orders) + FuncLines(pkgs, how)
  }

  /** `writeC`: the entry package, then the imported ones; the lines joined with line breaks. */
  function WriteC(entry: Pkg, packages: seq<Pkg>, orders: seq<seq<string>>): string
    requires KeyOrders([entry] + packages, orders)
  {
    Join(Lines([entry] + packages, orders, AsWritten), "\n")
  }

  /** The program `writeC` would write with the return types of `Gen` corrected. */
  function WriteCCorrected(entry: Pkg, packages: seq<Pkg>, orders: seq<seq<string>>): string
    requires KeyOrders([entry] + packages, orders)
  {
    Join(Lines([entry] + packages, orders, Corrected), "\n")
  }

  function CountIncludes(pkgs: seq<Pkg>): nat
  {
    if |pkgs| == 0 then 0 else |pkgs[0].builder.includes| + CountIncludes(pkgs[1..])
  }

  function CountTypes(pkgs: seq<Pkg>): nat
  {
    if |pkgs| == 0 then 0 else |pkgs[0].builder.types| + CountTypes(pkgs[1..])
  }

  function CountFuncs(pkgs: seq<Pkg>): nat
  {
    if |pkgs| == 0 then 0 else |pkgs[0].builder.functions| + CountFuncs(pkgs[1..])
  }

  /** A key order lists as many keys as the map has. */
  lemma {:induction false} KeyOrderLength(keys: seq<string>, m: map<string, Type>)
    requires KeyOrder(keys, m)
    ensures |keys| == |m|
    decreases |keys|
  {
    if |keys| == 0 {
      assert m.Keys == {};
    } else {
      var k := keys[|keys| - 1];
      var rest := keys[..|keys| - 1];
      var m' := m - {k};
      assert k !in rest;
      assert KeyOrder(rest, m') by {
        forall x
          ensures x in rest <==> x in m'
        {
          if x in m' {
            assert x in keys;
            var i :| 0 <= i < |keys| && keys[i] == x;
            assert i != |keys| - 1;
          }
        }
      }
      KeyOrderLength(rest, m');
      assert m.Keys == m'.Keys + {k};
    }
  }

  /** Two key orders of one map are permutations of each other. */
  lemma {:induction false} KeyOrdersPermute(k1: seq<string>, k2: seq<string>, m: map<string, Type>)
    requires KeyOrder(k1, m) && KeyOrder(k2, m)
    ensures multiset(k1) == multiset(k2)
  {
    forall x
      ensures multiset(k1)[x] == multiset(k2)[x]
    {
      DistinctCount(k1, x);
      DistinctCount(k2, x);
    }
  }

  lemma {:induction false} DistinctCount(keys: seq<string>, x: string)
    requires forall i, j | 0 <= i < j < |keys| :: keys[i] != keys[j]
    ensures multiset(keys)[x] == if x in keys then 1 else 0
  {
    if |keys| > 0 {
      var rest := keys[1..];
      assert keys == [keys[0]] + rest;
      DistinctCount(rest, x);
      if x == keys[0] {
        assert x !in rest;
      }
    }
  }

  /** Whatever the map order, the same typedef lines come out, each as often. */
  lemma {:induction false} TypeLinesOrderFree(pkgs: seq<Pkg>, o1: seq<seq<string>>, o2: seq<seq<string>>)
    requires KeyOrders(pkgs, o1) && KeyOrders(pkgs, o2)
    ensures multiset(TypeLines(pkgs, o1)) == multiset(TypeLines(pkgs, o2))
  {
    if |pkgs| > 0 {
      var p := pkgs[0];
      KeyOrdersPermute(o1[0], o2[0], p.builder.types);
      TypeLinesOfPermute(o1[0], o2[0], p.builder.types, p.name);
      TypeLinesOrderFree(pkgs[1..], o1[1..], o2[1..]);
    }
  }

  lemma {:induction false} TypeLinesOfPermute(k1: seq<string>, k2: seq<string>, types: map<string, Type>, pkg: string)
    requires forall i | 0 <= i < |k1| :: k1[i] in types
    requires forall i | 0 <= i < |k2| :: k2[i] in types
    requires multiset(k1) == multiset(k2)
    ensures multiset(TypeLinesOf(k1, types, pkg)) == multiset(TypeLinesOf(k2, types, pkg))
    decreases |k1|
  {
    if |k1| > 0 {
      var k := k1[0];
      assert k in multiset(k2);
      var j :| 0 <= j < |k2| && k2[j] == k;
      var rest := k2[..j] + k2[j + 1..];
      RemoveAt(k1, k2, j);
      TypeLinesOfPermute(k1[1..], rest, types, pkg);
      TypeLinesOfRemove(k2, j, types, pkg);
      var d := Definition(types[k], pkg);
      assert TypeLinesOf(k1, types, pkg) == [d] + TypeLinesOf(k1[1..], types, pkg);
      assert multiset(TypeLinesOf(k1, types, pkg)) == multiset{d} + multiset(TypeLinesOf(k1[1..], types, pkg));
    }
  }

  lemma RemoveAt(k1: seq<string>, k2: seq<string>, j: nat)
    requires |k1| > 0 && j < |k2| && k2[j] == k1[0] && multiset(k1) == multiset(k2)
    ensures multiset(k1[1..]) == multiset(k2[..j] + k2[j + 1..])
  {
    var x := k1[0];
    assert k1 == [x] + k1[1..];
    assert k2 == k2[..j] + ([x] + k2[j + 1..]);
    var m1, m2 := multiset(k1[1..]), multiset(k2[..j] + k2[j + 1..]);
    assert multiset(k1) == multiset{x} + m1;
    assert multiset(k2) == multiset{x} + m2;
    forall y
      ensures m1[y] == m2[y]
    {
      assert (multiset{x} + m1)[y] == (multiset{x} + m2)[y];
    }
  }

  lemma TypeLinesOfRemove(keys: seq<string>, j: nat, types: map<string, Type>, pkg: string)
    requires j < |keys| && forall i | 0 <= i < |keys| :: keys[i] in types
    ensures multiset(TypeLinesOf(keys, types, pkg))
      == multiset{Definition(types[keys[j]], pkg)} + multiset(TypeLinesOf(keys[..j] + keys[j + 1..], types, pkg))
  {
    var a, b := keys[..j], keys[j + 1..];
    var x := keys[j];
    assert keys == a + ([x] + b);
    TypeLinesOfSplit(a, [x] + b, types, pkg);
    TypeLinesOfSplit(a, b, types, pkg);
    TypeLinesOfCons(x, b, types, pkg);
    SwapFront(TypeLinesOf(a, types, pkg), Definition(types[x], pkg), TypeLinesOf(b, types, pkg));
  }

  lemma TypeLinesOfCons(x: string, b: seq<string>, types: map<string, Type>, pkg: string)
    requires x in types && forall i | 0 <= i < |b| :: b[i] in types
    ensures TypeLinesOf([x] + b, types, pkg) == [Definition(types[x], pkg)] + TypeLinesOf(b, types, pkg)
  {
    assert ([x] + b)[1..] == b;
  }

  lemma SwapFront(la: seq<string>, d: string, lb: seq<string>)
    ensures multiset(la + ([d] + lb)) == multiset{d} + multiset(la + lb)
  {
    calc {
      multiset(la + ([d] + lb));
      multiset(la) + multiset([d] + lb);
      multiset(la) + (multiset([d]) + multiset(lb));
      multiset{d} + (multiset(la) + multiset(lb));
      multiset{d} + multiset(la + lb);
    }
  }

  lemma {:induction false} TypeLinesOfSplit(a: seq<string>, b: seq<string>, types: map<string, Type>, pkg: string)
    requires forall i | 0 <= i < |a| :: a[i] in types
    requires forall i | 0 <= i < |b| :: b[i] in types
    ensures TypeLinesOf(a + b, types, pkg) == TypeLinesOf(a, types, pkg) + TypeLinesOf(b, types, pkg)
  {
    var l := TypeLinesOf(a + b, types, pkg);
    var r := TypeLinesOf(a, types, pkg) + TypeLinesOf(b, types, pkg);
    assert |l| == |r|;
    forall i | 0 <= i < |l|
      ensures l[i] == r[i]
    {
      if i < |a| {
        assert (a + b)[i] == a[i];
      } else {
        assert (a + b)[i] == b[i - |a|];
      }
    }
  }

  /** There is one include line per include, one typedef line per type and one line per function. */
  lemma {:induction false} LineCounts(pkgs: seq<Pkg>, orders: seq<seq<string>>, how: Rendering)
    requires KeyOrders(pkgs, orders)
    ensures |IncludeLines(pkgs)| == CountIncludes(pkgs)
    ensures |TypeLines(pkgs, orders)| == CountTypes(pkgs)
    ensures |FuncLines(pkgs, how)| == CountFuncs(pkgs)
    ensures |Lines(pkgs, orders, how)| == CountIncludes(pkgs) + CountTypes(pkgs) + CountFuncs(pkgs)
  {
    if |pkgs| > 0 {
      KeyOrderLength(orders[0], pkgs[0].builder.types);
      LineCounts(pkgs[1..], orders[1..], how);
    }
  }

  /** Every include line is an `#include <...>` of a header the packages include. */
  lemma {:induction false} IncludeLinesShape(pkgs: seq<Pkg>)
    ensures forall i | 0 <= i < |IncludeLines(pkgs)| :: "#include <" <= IncludeLines(pkgs)[i]
  {
    if |pkgs| > 0 {
      IncludeLinesShape(pkgs[1..]);
      var a := IncludeLinesOf(pkgs[0].builder.includes);
      forall i | 0 <= i < |a| ensures "#include <" <= a[i] {
        assert a[i] == "#include <" + pkgs[0].builder.includes[i].filename + ">";
      }
    }
  }

  /** Every typedef line is a `typedef`. */
  lemma {:induction false} TypeLinesShape(pkgs: seq<Pkg>, orders: seq<seq<string>>)
    requires KeyOrders(pkgs, orders)
    ensures forall i | 0 <= i < |TypeLines(pkgs, orders)| :: "typedef " <= TypeLines(pkgs, orders)[i]
  {
    if |pkgs| > 0 {
      TypeLinesShape(pkgs[1..], orders[1..]);
      var a := TypeLinesOf(orders[0], pkgs[0].builder.types, pkgs[0].name);
      forall i | 0 <= i < |a| ensures "typedef " <= a[i] {
        DefinitionDeclares(pkgs[0].builder.types[orders[0][i]], pkgs[0].name);
      }
    }
  }

  /** The program lists all includes first, then all typedefs, then all functions. */
  lemma LinesGrouped(pkgs: seq<Pkg>, orders: seq<seq<string>>, how: Rendering)
    requires KeyOrders(pkgs, orders)
    ensures |Lines(pkgs, orders, how)| == CountIncludes(pkgs) + CountTypes(pkgs) + CountFuncs(pkgs)
    ensures forall i | 0 <= i < CountIncludes(pkgs) :: "#include <" <= Lines(pkgs, orders, how)[i]
    ensures forall i | CountIncludes(pkgs) <= i < CountIncludes(pkgs) + CountTypes(pkgs) ::
      "typedef " <= Lines(pkgs, orders, how)[i]
    ensures Lines(pkgs, orders, how)[CountIncludes(pkgs) + CountTypes(pkgs)..] == FuncLines(pkgs, how)
  {
    LineCounts(pkgs, orders, how);
    IncludeLinesShape(pkgs);
    TypeLinesShape(pkgs, orders);
    Groups(IncludeLines(pkgs), TypeLines(pkgs, orders), FuncLines(pkgs, how));
  }

  lemma Groups(a: seq<string>, b: seq<string>, c: seq<string>)
    ensures forall i | 0 <= i < |a| :: (a + b + c)[i] == a[i]
    ensures forall i | |a| <= i < |a| + |b| :: (a + b + c)[i] == b[i - |a|]
    ensures (a + b + c)[|a| + |b|..] == c
  {
  }

  /** Within each of the three groups the entry package's lines come first. */
  lemma EntryFirst(entry: Pkg, packages: seq<Pkg>, orders: seq<seq<string>>, how: Rendering)
    requires KeyOrders([entry] + packages, orders)
    ensures var pkgs := [entry] + packages;
      && IncludeLinesOf(entry.builder.includes) <= IncludeLines(pkgs)
      && IncludeLinesOf(entry.builder.includes) <= Lines(pkgs, orders, how)
      && TypeLinesOf(orders[0], entry.builder.types, entry.name) <= TypeLines(pkgs, orders)
      && FuncLinesOf(entry.builder.functions, entry.name, how) <= FuncLines(pkgs, how)
  {
    var pkgs := [entry] + packages;
    assert pkgs[1..] == packages;
    assert IncludeLines(pkgs) == IncludeLinesOf(entry.builder.includes) + IncludeLines(packages);
  }

  /** The text of the program splits on line breaks back into its lines, when no line holds one. */
  lemma WriteCLines(entry: Pkg, packages: seq<Pkg>, orders: seq<seq<string>>)
    requires KeyOrders([entry] + packages, orders)
    requires var lines := Lines([entry] + packages, orders, AsWritten);
      |lines| >= 1 && forall i | 0 <= i < |lines| :: '\n' !in lines[i]
    ensures Split(WriteC(entry, packages, orders), '\n') == Lines([entry] + packages, orders, AsWritten)
  {
    SplitJoin(Lines([entry] + packages, orders, AsWritten), '\n');
  }

  /** No function of the packages returns a built-in type or a struct. */
  predicate PlainReturns(pkgs: seq<Pkg>)
  {
    forall i, j | 0 <= i < |pkgs| && 0 <= j < |pkgs[i].builder.functions| ::
      var r := pkgs[i].builder.functions[j].ret;
      r.None? || (r.value.Alias? && r.value.alias != "")
  }

  /**
   * The program as written and the corrected one are the same text exactly when the return
   * types the two renderings write differently do not occur.
   */
  lemma WriteCAgrees(entry: Pkg, packages: seq<Pkg>, orders: seq<seq<string>>)
    requires KeyOrders([entry] + packages, orders)
    requires PlainReturns([entry] + packages)
    ensures WriteC(entry, packages, orders) == WriteCCorrected(entry, packages, orders)
  {
    FuncLinesAgree([entry] + packages);
  }

  lemma {:induction false} FuncLinesAgree(pkgs: seq<Pkg>)
    requires PlainReturns(pkgs)
    ensures FuncLines(pkgs, AsWritten) == FuncLines(pkgs, Corrected)
  {
    if |pkgs| > 0 {
      var p := pkgs[0];
      var a, c := FuncLinesOf(p.builder.functions, p.name, AsWritten), FuncLinesOf(p.builder.functions, p.name, Corrected);
      forall j | 0 <= j < |a|
        ensures a[j] == c[j]
      {
        GenAgrees(p.builder.functions[j], p.name);
      }
      assert a == c;
      assert PlainReturns(pkgs[1..]) by {
        forall i, j | 0 <= i < |pkgs[1..]| && 0 <= j < |pkgs[1..][i].builder.functions|
          ensures var r := pkgs[1..][i].builder.functions[j].ret; r.None? || (r.value.Alias? && r.value.alias != "")
        {
          assert pkgs[1..][i] == pkgs[i + 1];
        }
      }
      FuncLinesAgree(pkgs[1..]);
    }
  }

  /** The example of the first finding, in a program: `fn add(a int, b int) int {}` in the entry package. */
  lemma WriteCAddExample(orders: seq<seq<string>>)
    requires orders == [[]]
    ensures var n := Builtins["int"];
      var entry := Pkg("math", Builder(map[], [], [Func("add", Some(n), [Arg("a", n), Arg("b", n)], [])]));
      && WriteC(entry, [], orders) == " math_add(int a,int b) {}"
      && WriteCCorrected(entry, [], orders) == "int math_add(int a,int b) {}"
  {
    var n := Builtins["int"];
    var f := Func("add", Some(n), [Arg("a", n), Arg("b", n)], []);
    var entry := Pkg("math", Builder(map[], [], [f]));
    AddExample();
    assert [entry][1..] == [];
    assert orders[0] == [] && orders[1..] == [];
    assert TypeLines([entry], orders) == TypeLinesOf([], entry.builder.types, "math") + TypeLines([], []);
    assert IncludeLines([entry]) == [] && TypeLines([entry], orders) == [];
    assert [f][1..] == [];
    assert FuncLines([entry], AsWritten) == FuncLinesOf([f], "math", AsWritten) == [GenAsWritten(f, "math")];
    assert FuncLines([entry], Corrected) == FuncLinesOf([f], "math", Corrected) == [Gen(f, "math")];
    assert Lines([entry], orders, AsWritten) == [GenAsWritten(f, "math")];
    assert Lines([entry], orders, Corrected) == [Gen(f, "math")];
  }
}
