/** The Mocker: turns the interfaces of a type-checked package into the
    document the mock template renders, recording along the way which
    packages the rendered types refer to.

    The type checker is an oracle here. A package is its import path and
    name; a type is the sequence of pieces its text is printed from, where
    each reference to a named type carries the package declaring it; the
    method set of an interface is given already flattened, as the type
    checker reports it. */
module Mocking {
  import opened Text
  import opened Paths
  import opened Descriptors

  /** A package as the type checker reports it. */
  datatype Package = Package(path: string, name: string)

  /** A piece of a type's text: literal text (keywords, punctuation,
      predeclared types) or a reference to a type declared in a package. */
  datatype TypePart = Literal(text: string) | Named(pkg: Package, typeName: string)

  /** One element of a parameter or result tuple: its declared name ("" when
      the source leaves it out) and its type. */
  datatype Var = Var(name: string, typ: seq<TypePart>)

  /** A method signature. */
  datatype Signature = Signature(params: seq<Var>, results: seq<Var>, variadic: bool)

  /** An interface method. */
  datatype Func = Func(name: string, sig: Signature)

  /** What a name in the package scope denotes: an interface with its
      method set, or some other type, with that type's text. */
  datatype Object = InterfaceType(methods: seq<Func>) | OtherType(typeText: string)

  /** The template's view of one interface to mock. */
  datatype Obj = Obj(interfaceName: string, methods: seq<Method>)

  /** The template's input: package clause, one entry per interface and the
      import lines. */
  datatype Doc = Doc(packageName: string, objects: seq<Obj>, imports: seq<string>)

  datatype Error =
    | ParseFailed                // the directory could not be parsed
    | NoPackageName              // no package name given and none inferred
    | AbsFailed                  // the directory has no absolute form
    | MustSpecifyInterface       // no interface name given
    | CleanupFailed              // old mocks could not be removed
    | LoadFailed                 // the package could not be loaded
    | CannotFindInterface(name: string)
    | NotAnInterface(name: string, typeText: string)
    | SliceOutOfRange            // the run-time panic of a too short type text

  datatype Result<T> = Ok(value: T) | Err(error: Error)

  // ---------------------------------------------------------------------
  // Qualification: what the package qualifier answers and records

  /** The import path the generated file would use for `pkg`: the package's
      directory joined with its name. */
  function ImportPathOf(pkg: Package): string {
    JoinPath(Dir(pkg.path), pkg.name)
  }

  /** The qualifier printed in front of a type of `pkg`, for a mocker whose
      own package path is `self`. */
  function Qualifier(pkg: Package, self: string): string {
    if ImportPathOf(pkg) == self then "" else pkg.name
  }

  /** The import path recorded when a type of `pkg` is printed. */
  function Recorded(pkg: Package, self: string): set<string> {
    if ImportPathOf(pkg) == self then {}
    else if IsDot(pkg.path) then {self}
    else {pkg.path}
  }

  function PartText(t: TypePart, self: string): string {
    match t
    case Literal(s) => s
    case Named(pkg, n) =>
      var q := Qualifier(pkg, self);
      if |q| == 0 then n else q + "." + n
  }

  function PartImports(t: TypePart, self: string): set<string> {
    match t
    case Literal(_) => {}
    case Named(pkg, _) => Recorded(pkg, self)
  }

  /** The text of type `t` with every named type qualified. */
  function TypeText(t: seq<TypePart>, self: string): string
    decreases |t|
  {
    if t == [] then "" else TypeText(t[..|t| - 1], self) + PartText(t[|t| - 1], self)
  }

  /** The import paths recorded while printing `t`. */
  function TypeImports(t: seq<TypePart>, self: string): set<string>
    decreases |t|
  {
    if t == [] then {} else TypeImports(t[..|t| - 1], self) + PartImports(t[|t| - 1], self)
  }

  /** The text of `t` with no qualifier on any named type. */
  function BareText(t: seq<TypePart>): string
    decreases |t|
  {
    if t == [] then ""
    else
      var last := match t[|t| - 1] case Literal(s) => s case Named(_, n) => n;
      BareText(t[..|t| - 1]) + last
  }

  /** A type built only from literal text and the mocker's own package's
      types is printed without qualifiers and brings in no import. */
  lemma {:induction false} OwnTypesUnqualified(t: seq<TypePart>, self: string)
    requires forall i :: 0 <= i < |t| && t[i].Named? ==> ImportPathOf(t[i].pkg) == self
    ensures TypeText(t, self) == BareText(t)
    ensures TypeImports(t, self) == {}
    decreases |t|
  {
    if t != [] {
      OwnTypesUnqualified(t[..|t| - 1], self);
    }
  }

  /** Printing a type records exactly the paths of the foreign packages it
      mentions (the mocker's own path for a package reported as "."). */
  lemma {:induction false} TypeImportsExactly(t: seq<TypePart>, self: string, x: string)
    ensures x in TypeImports(t, self) <==>
      exists i :: 0 <= i < |t| && t[i].Named? && ImportPathOf(t[i].pkg) != self &&
        x == (if IsDot(t[i].pkg.path) then self else t[i].pkg.path)
    decreases |t|
  {
    hide ImportPathOf;
    if t != [] {
      var init := t[..|t| - 1];
      TypeImportsExactly(init, self, x);
      if x in TypeImports(init, self) {
        var i :| 0 <= i < |init| && init[i].Named? && ImportPathOf(init[i].pkg) != self &&
          x == (if IsDot(init[i].pkg.path) then self else init[i].pkg.path);
        assert t[i] == init[i];
      }
      if exists i :: 0 <= i < |t| && t[i].Named? && ImportPathOf(t[i].pkg) != self &&
          x == (if IsDot(t[i].pkg.path) then self else t[i].pkg.path) {
        var i :| 0 <= i < |t| && t[i].Named? && ImportPathOf(t[i].pkg) != self &&
          x == (if IsDot(t[i].pkg.path) then self else t[i].pkg.path);
        if i < |init| {
          assert init[i] == t[i];
        }
      }
    }
  }

  /** A sub-package of the source directory that bears the same name as
      the mocked package (a package `same` importing `.../same`) is not
      taken for the mocked package: its types are qualified and its path
      is recorded. */
  lemma SameNameSubpackageQualified(srcDir: string, n: string)
    requires n != "" && '/' !in n
    requires srcDir != "" && srcDir != "." && srcDir[|srcDir| - 1] != '/'
    ensures Qualifier(Package(JoinPath(srcDir, n), n), JoinPath(Dir(srcDir), n)) == n
    ensures Recorded(Package(JoinPath(srcDir, n), n), JoinPath(Dir(srcDir), n)) == {JoinPath(srcDir, n)}
  {
    var sub := JoinPath(srcDir, n);
    DirOfJoin(srcDir, n);
    assert ImportPathOf(Package(sub, n)) == sub;
    assert |sub| == |srcDir| + 1 + |n|;
    var i := LastSlash(srcDir);
    assert |Dir(srcDir)| < |srcDir| || Dir(srcDir) == "." || Dir(srcDir) == "/";
    assert |JoinPath(Dir(srcDir), n)| < |sub|;
    assert sub != ".";
  }

  // ---------------------------------------------------------------------
  // Parameter extraction

  /** The name of slot `i` (counted from 0): the declared one, or the
      prefix followed by the 1-based position. */
  function ArgName(v: Var, i: nat, prefix: string): string {
    if |v.name| == 0 then prefix + Decimal(i + 1) else v.name
  }

  /** The descriptor of slot `i` of `list`. */
  function ParamAt(list: seq<Var>, i: nat, variadic: bool, prefix: string, self: string): Param
    requires i < |list|
  {
    var typ := TypeText(list[i].typ, self);
    Param(ArgName(list[i], i, prefix), typ, variadic && i == |list| - 1 && IsSliceText(typ))
  }

  /** The slice expression that tests the last slot of a variadic signature
      for "[]" runs past a type text shorter than two bytes. */
  predicate Overruns(list: seq<Var>, variadic: bool, self: string) {
    |list| > 0 && SlotOverruns(list, |list| - 1, variadic, self)
  }

  /** The variadic test at slot `i` runs past its type text. */
  predicate SlotOverruns(list: seq<Var>, i: nat, variadic: bool, self: string)
    requires i < |list|
  {
    variadic && i == |list| - 1 && ByteLen(TypeText(list[i].typ, self)) < 2
  }

  /** The test runs past the type text exactly when the last slot of a
      variadic signature prints as nothing or as one ASCII character; a
      single character outside ASCII takes at least two bytes. */
  lemma OverrunsExactly(list: seq<Var>, variadic: bool, self: string)
    ensures Overruns(list, variadic, self) <==>
      variadic && |list| > 0 &&
      var t := TypeText(list[|list| - 1].typ, self);
      |t| == 0 || (|t| == 1 && t[0] as int < 0x80)
  {
    if |list| > 0 {
      ByteLenBelowTwo(TypeText(list[|list| - 1].typ, self));
    }
  }

  /** The descriptors of a parameter or result tuple. */
  function Params(list: seq<Var>, variadic: bool, prefix: string, self: string): (ps: seq<Param>)
    ensures |ps| == |list|
  {
    seq(|list|, i requires 0 <= i < |list| => ParamAt(list, i, variadic, prefix, self))
  }

  /** A sequence holding the descriptor of each slot is the descriptors
      of the tuple. */
  lemma ParamsFrom(ps: seq<Param>, list: seq<Var>, variadic: bool, prefix: string, self: string)
    requires |ps| == |list|
    requires forall j :: 0 <= j < |list| ==> ps[j] == ParamAt(list, j, variadic, prefix, self)
    ensures ps == Params(list, variadic, prefix, self)
  {
  }

  /** Slot by slot: the declared name or the prefix and the 1-based
      position, the qualified type text, and the variadic flag only on the
      last slot of a variadic signature whose type is a slice; every
      descriptor can be rendered. */
  lemma ParamsSlots(list: seq<Var>, variadic: bool, prefix: string, self: string)
    ensures var ps := Params(list, variadic, prefix, self);
      && (forall i :: 0 <= i < |list| && list[i].name != "" ==> ps[i].name == list[i].name)
      && (forall i :: 0 <= i < |list| && list[i].name == "" ==> ps[i].name == prefix + Decimal(i + 1))
      && (forall i :: 0 <= i < |list| ==> ps[i].typ == TypeText(list[i].typ, self))
      && (forall i :: 0 <= i < |list| ==>
            (ps[i].variadic <==> variadic && i == |list| - 1 && IsSliceText(ps[i].typ)))
      && AllRenderable(ps)
  {
  }

  /** In a tuple without declared names, the synthesized names are pairwise
      different. */
  lemma SynthesizedNamesDistinct(list: seq<Var>, variadic: bool, prefix: string, self: string)
    requires forall i :: 0 <= i < |list| ==> list[i].name == ""
    ensures forall i, j :: 0 <= i < j < |list| ==>
      Params(list, variadic, prefix, self)[i].name != Params(list, variadic, prefix, self)[j].name
  {
    var ps := Params(list, variadic, prefix, self);
    ParamsSlots(list, variadic, prefix, self);
    forall i, j | 0 <= i < j < |list| ensures ps[i].name != ps[j].name {
      if ps[i].name == ps[j].name {
        var a, b := Decimal(i + 1), Decimal(j + 1);
        assert prefix + a == prefix + b;
        assert a == (prefix + a)[|prefix|..];
        assert b == (prefix + b)[|prefix|..];
        DecimalInjective(i + 1, j + 1);
      }
    }
  }

  /** The variadic test looks at the last slot of the result tuple too: a
      variadic method returning a slice gets its result flagged, and that
      result is printed as `...byte`. */
  lemma VariadicResultFlagged(self: string)
    ensures Params([Var("", [Literal("[]byte")])], true, "out", self) == [Param("out1", "[]byte", true)]
    ensures Param("out1", "[]byte", true).TypeString() == "...byte"
  {
    var list := [Var("", [Literal("[]byte")])];
    assert list[0].typ[..0] == [];
    assert TypeText(list[0].typ, self) == "[]byte";
    assert Decimal(1) == "1";
    assert IsSliceText("[]byte");
    var ps := Params(list, true, "out", self);
    assert ps[0] == ParamAt(list, 0, true, "out", self);
    assert ps[0] == Param("out1", "[]byte", true);
  }

  /** A variadic method whose result is a one-letter type of the mocked
      package makes the variadic test run past the end of the type text. */
  lemma ShortVariadicResultOverruns(selfDir: string)
    ensures Overruns([Var("", [Named(Package(JoinPath(selfDir, "p"), "p"), "T")])], true,
                     JoinPath(Dir(JoinPath(selfDir, "p")), "p"))
  {
    var self := JoinPath(Dir(JoinPath(selfDir, "p")), "p");
    var t := [Named(Package(JoinPath(selfDir, "p"), "p"), "T")];
    assert t[..0] == [];
    assert PartText(t[0], self) == "T";
  }

  /** A one-character type text outside ASCII takes two bytes, so the
      same result typed with the mocked package's `λ` does not make the
      test run past the text, and is not flagged. */
  lemma NonAsciiVariadicResultFits(selfDir: string)
    ensures var self := JoinPath(Dir(JoinPath(selfDir, "p")), "p");
      var list := [Var("", [Named(Package(JoinPath(selfDir, "p"), "p"), "λ")])];
      && !Overruns(list, true, self)
      && Params(list, true, "out", self) == [Param("out1", "λ", false)]
  {
    var self := JoinPath(Dir(JoinPath(selfDir, "p")), "p");
    var list := [Var("", [Named(Package(JoinPath(selfDir, "p"), "p"), "λ")])];
    var t := list[0].typ;
    assert t[..0] == [];
    assert PartText(t[0], self) == "λ";
    assert TypeText(t, self) == "λ";
    ByteLenBelowTwo("λ");
    assert "λ"[0] as int >= 0x80;
    assert ByteLen(TypeText(list[|list| - 1].typ, self)) >= 2;
    assert Decimal(1) == "1";
    var ps := Params(list, true, "out", self);
    assert ps[0] == ParamAt(list, 0, true, "out", self);
    assert !IsSliceText("λ");
    assert ps[0] == Param("out1", "λ", false);
  }

  // ---------------------------------------------------------------------
  // The extraction as evidently intended

  /** The slice test without the slice expression: a prefix test, defined on
      every type text. */
  predicate SliceTest(typ: string) {
    HasPrefix(typ, "[]")
  }

  /** The prefix test answers as the slice expression does wherever that
      does not run past the text, and answers "no" where it does. */
  lemma SliceTestAgrees(typ: string)
    ensures ByteLen(typ) >= 2 ==> (SliceTest(typ) <==> IsSliceText(typ))
    ensures ByteLen(typ) < 2 ==> !SliceTest(typ)
  {
    IsSliceTextPrefix(typ);
    ByteLenBelowTwo(typ);
  }

  /** The descriptor of an interface method with the variadic test applied
      to its parameters only, by the prefix test. */
  function IntendedMethodOf(f: Func, self: string): Method {
    Method(f.name,
           Params(f.sig.params, f.sig.variadic, "in", self),
           Params(f.sig.results, false, "out", self))
  }

  /** As intended, no result is ever flagged variadic, only the last
      parameter of a variadic signature can be, its test never runs past a
      type text, and parameters and result types are those of the code. */
  lemma IntendedMethodOfFlags(f: Func, self: string)
    ensures var m := IntendedMethodOf(f, self);
      && m.params == MethodOf(f, self).params
      && (forall i :: 0 <= i < |m.results| ==> !m.results[i].variadic)
      && (forall i :: 0 <= i < |m.results| ==>
            m.results[i].name == MethodOf(f, self).results[i].name &&
            m.results[i].typ == MethodOf(f, self).results[i].typ)
      && (forall i :: 0 <= i < |m.params| && m.params[i].variadic ==>
            f.sig.variadic && i == |m.params| - 1 && SliceTest(m.params[i].typ))
      && !Overruns(f.sig.results, false, self)
  {
    var m := IntendedMethodOf(f, self);
    ParamsSlots(f.sig.params, f.sig.variadic, "in", self);
    ParamsSlots(f.sig.results, false, "out", self);
    ParamsSlots(f.sig.results, f.sig.variadic, "out", self);
    forall i | 0 <= i < |m.params| && m.params[i].variadic
      ensures SliceTest(m.params[i].typ)
    {
      IsSliceTextPrefix(m.params[i].typ);
    }
  }

  /** The variadic method returning `[]byte`, as intended: its result is a
      plain `[]byte`. */
  lemma IntendedResultNotFlagged(self: string)
    ensures IntendedMethodOf(Func("Read", Signature([], [Var("", [Literal("[]byte")])], true)), self).results
      == [Param("out1", "[]byte", false)]
  {
    var list := [Var("", [Literal("[]byte")])];
    assert list[0].typ[..0] == [];
    assert TypeText(list[0].typ, self) == "[]byte";
    assert Decimal(1) == "1";
    var ps := Params(list, false, "out", self);
    assert ps[0] == ParamAt(list, 0, false, "out", self);
    assert ps[0] == Param("out1", "[]byte", false);
  }

  // ---------------------------------------------------------------------
  // Mock assembly

  /** The descriptor of an interface method. */
  function MethodOf(f: Func, self: string): Method {
    Method(f.name,
           Params(f.sig.params, f.sig.variadic, "in", self),
           Params(f.sig.results, f.sig.variadic, "out", self))
  }

  /** Extracting either tuple of `f` would run past a type text. */
  predicate FuncOverruns(f: Func, self: string) {
    Overruns(f.sig.params, f.sig.variadic, self) || Overruns(f.sig.results, f.sig.variadic, self)
  }

  /** The import paths recorded while printing the tuple `list`. */
  function ListImports(list: seq<Var>, self: string): set<string>
    decreases |list|
  {
    if list == [] then {} else ListImports(list[..|list| - 1], self) + TypeImports(list[|list| - 1].typ, self)
  }

  lemma ListImportsStep(list: seq<Var>, i: nat, self: string)
    requires i < |list|
    ensures ListImports(list[..i + 1], self) == ListImports(list[..i], self) + TypeImports(list[i].typ, self)
  {
    assert list[..i + 1][..i] == list[..i];
  }

  lemma UnionAssoc<T>(a: set<T>, b: set<T>, c: set<T>)
    ensures a + b + c == a + (b + c)
  {
  }

  /** The import paths recorded while extracting the methods `ms`. */
  function MethodsImports(ms: seq<Func>, self: string): set<string>
    decreases |ms|
  {
    if ms == [] then {}
    else
      var f := ms[|ms| - 1];
      MethodsImports(ms[..|ms| - 1], self) + ListImports(f.sig.params, self) + ListImports(f.sig.results, self)
  }

  /** The template's entry for interface `n` with methods `ms`. */
  function ObjOf(n: string, ms: seq<Func>, self: string): Obj {
    Obj(n, seq(|ms|, i requires 0 <= i < |ms| => MethodOf(ms[i], self)))
  }

  /** Why name `n` cannot be mocked, if it cannot. */
  function Check(n: string, scope: map<string, Object>, self: string): Option<Error> {
    if n !in scope then Some(CannotFindInterface(n))
    else match scope[n]
      case OtherType(text) => Some(NotAnInterface(n, text))
      case InterfaceType(ms) =>
        if exists i :: 0 <= i < |ms| && FuncOverruns(ms[i], self) then Some(SliceOutOfRange) else None
  }

  /** The position of the first name that cannot be mocked, or |names|. */
  function FirstBad(names: seq<string>, scope: map<string, Object>, self: string): (k: nat)
    ensures k <= |names|
    ensures forall i :: 0 <= i < k ==> Check(names[i], scope, self) == None
    ensures k < |names| ==> Check(names[k], scope, self) != None
    decreases |names|
  {
    if names == [] then 0
    else if Check(names[0], scope, self) != None then 0
    else 1 + FirstBad(names[1..], scope, self)
  }

  /** FirstBad is the first position whose name fails the check. */
  lemma FirstBadAt(names: seq<string>, scope: map<string, Object>, self: string, k: nat)
    requires k < |names| && Check(names[k], scope, self) != None
    requires forall i :: 0 <= i < k ==> Check(names[i], scope, self) == None
    ensures FirstBad(names, scope, self) == k
  {
  }

  /** FirstBad is |names| when every name passes the check. */
  lemma FirstBadNone(names: seq<string>, scope: map<string, Object>, self: string)
    requires forall i :: 0 <= i < |names| ==> Check(names[i], scope, self) == None
    ensures FirstBad(names, scope, self) == |names|
  {
  }

  /** `objects` holds the template entry of each of the interfaces
      `names`, in order. */
  predicate Entries(objects: seq<Obj>, names: seq<string>, scope: map<string, Object>, self: string) {
    && |objects| == |names|
    && forall i :: 0 <= i < |names| ==>
         names[i] in scope && scope[names[i]].InterfaceType? &&
         objects[i] == ObjOf(names[i], scope[names[i]].methods, self)
  }

  /** Name `n` denotes an interface with at least one method. */
  predicate HasMethods(n: string, scope: map<string, Object>) {
    n in scope && scope[n].InterfaceType? && |scope[n].methods| > 0
  }

  /** Whether some interface among `names` has a method, as the loop over
      the names finds out. */
  predicate MocksMethods(names: seq<string>, scope: map<string, Object>)
    decreases |names|
  {
    names != [] && (MocksMethods(names[..|names| - 1], scope) || HasMethods(names[|names| - 1], scope))
  }

  /** The loop finds methods exactly when one of the named interfaces has
      one. */
  lemma {:induction false} MocksMethodsExists(names: seq<string>, scope: map<string, Object>)
    ensures MocksMethods(names, scope) <==> exists i :: 0 <= i < |names| && HasMethods(names[i], scope)
    decreases |names|
  {
    if names != [] {
      var init := names[..|names| - 1];
      MocksMethodsExists(init, scope);
      if exists i :: 0 <= i < |names| && HasMethods(names[i], scope) {
        var i :| 0 <= i < |names| && HasMethods(names[i], scope);
        if i < |init| { assert init[i] == names[i]; }
      }
      if exists i :: 0 <= i < |init| && HasMethods(init[i], scope) {
        var i :| 0 <= i < |init| && HasMethods(init[i], scope);
        assert names[i] == init[i];
      }
    }
  }

  /** The import paths recorded while extracting the interfaces `names`. */
  function NamesImports(names: seq<string>, scope: map<string, Object>, self: string): set<string>
    decreases |names|
  {
    if names == [] then {}
    else
      var n := names[|names| - 1];
      var more := if n in scope && scope[n].InterfaceType? then MethodsImports(scope[n].methods, self) else {};
      NamesImports(names[..|names| - 1], scope, self) + more
  }

  /** "sync" when some interface has a method, nothing otherwise. */
  function SyncImport(names: seq<string>, scope: map<string, Object>): seq<string> {
    if MocksMethods(names, scope) then ["sync"] else []
  }

  /** `order` lists every path of `paths` exactly once: an order in which
      the set can be walked. */
  ghost predicate Enumerates(order: seq<string>, paths: set<string>) {
    && |order| == |paths|
    && (forall i, j :: 0 <= i < j < |order| ==> order[i] != order[j])
    && (forall p :: p in paths <==> p in order)
  }

  /** The paths of `order` with their vendor directories removed. */
  function StripAll(order: seq<string>): (xs: seq<string>)
    ensures |xs| == |order|
  {
    seq(|order|, i requires 0 <= i < |order| => StripVendorPath(order[i]))
  }

  /** `xs` is the stripped form of each path of `paths`, one line per path,
      in some order in which the set can be walked. */
  ghost predicate StrippedListing(xs: seq<string>, paths: set<string>) {
    exists order :: Enumerates(order, paths) && xs == StripAll(order)
  }

  /** Stripping one more path appends its stripped form. */
  lemma StripAllStep(order: seq<string>, p: string)
    ensures StripAll(order + [p]) == StripAll(order) + [StripVendorPath(p)]
  {
    hide StripVendorPath;
  }

  /** Walking one more path, not walked before, extends the walk. */
  lemma EnumeratesStep(order: seq<string>, done: set<string>, p: string)
    requires Enumerates(order, done) && p !in done
    ensures Enumerates(order + [p], done + {p})
  {
    var o := order + [p];
    forall i, j | 0 <= i < j < |o| ensures o[i] != o[j] {
      if j == |order| {
        assert o[i] == order[i] && order[i] in order;
      } else {
        assert o[i] == order[i] && o[j] == order[j];
      }
    }
  }

  /** The paths of the duplicate example, stripped. */
  lemma StripDuplicateExample()
    ensures StripVendorPath("x" + VendorMarker + "y") == "y"
    ensures StripVendorPath("y") == "y" && StripVendorPath("z") == "z"
  {
    NoMarkerWithoutV("x");
    NoMarkerWithoutV("y");
    NoMarkerWithoutV("z");
    assert "y"[..1][0] == 'y';
    StripVendorPathUnvendored("y");
    StripVendorPathUnvendored("z");
    StripVendorPathSingle("x", "y");
  }

  /** Two recorded paths that differ only by a vendor directory give two
      equal import lines: the lines are not a set. */
  lemma StrippedListingKeepsDuplicates()
    ensures StrippedListing(["y", "y", "z"], {"x" + VendorMarker + "y", "y", "z"})
    ensures !StrippedListing(["y", "z", "z"], {"x" + VendorMarker + "y", "y", "z"})
  {
    var v := "x" + VendorMarker + "y";
    var paths := {v, "y", "z"};
    StripDuplicateExample();
    hide StripVendorPath;
    var order := [v, "y", "z"];
    assert |paths| == 3;
    assert Enumerates(order, paths);
    assert StripAll(order) == ["y", "y", "z"];
    forall o | Enumerates(o, paths) ensures StripAll(o) != ["y", "z", "z"] {
      assert v in o && "y" in o;
      var k :| 0 <= k < |o| && o[k] == v;
      var m :| 0 <= m < |o| && o[m] == "y";
      assert |v| != 1;
      assert StripAll(o)[k] == "y" && StripAll(o)[m] == "y";
    }
  }

  /** The import lines of the document: the fixed ones, the optional
      "sync", then the recorded paths. */
  ghost predicate ImportLines(line: seq<string>, base: seq<string>, sync: seq<string>, paths: set<string>) {
    && |line| >= |base| + |sync|
    && line[..|base| + |sync|] == base + sync
    && StrippedListing(line[|base| + |sync|..], paths)
  }

  /** Chooses the package to generate into: the given name, or else any
      parsed package whose name lacks "_test". */
  method ChoosePackageName(packageName: string, pkgNames: set<string>) returns (r: Option<string>)
    ensures packageName != "" ==> r == Some(packageName)
    ensures r.Some? ==> r.value != ""
    ensures packageName == "" && r.Some? ==> r.value in pkgNames && !Contains(r.value, "_test")
    ensures packageName == "" && (forall n :: n in pkgNames ==> Contains(n, "_test")) ==> r == None
    ensures packageName == "" && "" !in pkgNames && (exists n :: n in pkgNames && !Contains(n, "_test")) ==> r.Some?
  {
    var name := packageName;
    if |name| == 0 {
      var rest := pkgNames;
      while rest != {}
        invariant rest <= pkgNames
        invariant forall n :: n in pkgNames - rest ==> Contains(n, "_test")
        decreases rest
      {
        var n :| n in rest;
        if Contains(n, "_test") {
          rest := rest - {n};
          continue;
        }
        name := n;
        break;
      }
    }
    if |name| == 0 {
      return None;
    }
    return Some(name);
  }

  class Mocker {
    /** The source directory. */
    const src: string
    /** The package the mock is generated into. */
    const pkgName: string
    /** The import path of that package. */
    const pkgPath: string
    /** The import paths recorded so far. */
    var imports: set<string>

    constructor (src: string, pkgName: string, pkgPath: string)
      ensures this.src == src && this.pkgName == pkgName && this.pkgPath == pkgPath
      ensures imports == {}
    {
      this.src := src;
      this.pkgName := pkgName;
      this.pkgPath := pkgPath;
      imports := {};
    }

    /** packageQualifier: no qualifier for the mocker's own package;
        otherwise records the package's path (the mocker's own path for
        ".") and answers the package's name. */
    method PackageQualifier(pkg: Package) returns (q: string)
      modifies this`imports
      ensures q == Qualifier(pkg, pkgPath)
      ensures imports == old(imports) + Recorded(pkg, pkgPath)
    {
      var path := pkg.path;
      var importPath := JoinPath(Dir(path), pkg.name);
      if importPath == pkgPath {
        return "";
      }
      if IsDot(path) {
        path := pkgPath;
      }
      imports := imports + {path};
      q := pkg.name;
    }

    /** Prints type `t`, asking the package qualifier about every named
        type in order. */
    method RenderType(t: seq<TypePart>) returns (s: string)
      modifies this`imports
      ensures s == TypeText(t, pkgPath)
      ensures imports == old(imports) + TypeImports(t, pkgPath)
    {
      hide Qualifier, Recorded, ImportPathOf;
      s := "";
      for i := 0 to |t|
        invariant s == TypeText(t[..i], pkgPath)
        invariant imports == old(imports) + TypeImports(t[..i], pkgPath)
      {
        assert t[..i + 1][..i] == t[..i];
        match t[i]
        case Literal(text) =>
          s := s + text;
        case Named(pkg, n) =>
          var q := PackageQualifier(pkg);
          if |q| > 0 {
            s := s + q + ".";
          }
          s := s + n;
      }
      assert t[..|t|] == t;
    }

    /** One slot of extractArgs: the name (declared or synthesized), the
        printed type and the variadic test, which panics on a type text
        shorter than two bytes. */
    method ExtractArg(variadic: bool, list: seq<Var>, ii: nat, prefix: string) returns (param: Param, ok: bool)
      requires ii < |list|
      modifies this`imports
      ensures imports == old(imports) + TypeImports(list[ii].typ, pkgPath)
      ensures ok <==> !SlotOverruns(list, ii, variadic, pkgPath)
      ensures !ok ==> variadic && ii == |list| - 1
      ensures ok ==> param == ParamAt(list, ii, variadic, prefix, pkgPath)
    {
      hide TypeText, TypeImports;
      var p := list[ii];
      var name := p.name;
      if |name| == 0 {
        name := prefix + Decimal(ii + 1);
      }
      var typename := RenderType(p.typ);
      if variadic && ii == |list| - 1 && ByteLen(typename) < 2 {
        return Param(name, typename, false), false;
      }
      // The first two bytes are "[]" exactly when the first two characters
      // are, as UTF-8 spends one byte on each of '[' and ']'.
      var isVariadic := variadic && ii == |list| - 1 && HasPrefix(typename, "[]");
      IsSliceTextPrefix(typename);
      param := Param(name, typename, isVariadic);
      ok := true;
    }

    /** extractArgs: one descriptor per slot of `list`, in order; `ok` is
        false where the variadic test on the last slot would panic. */
    method ExtractArgs(variadic: bool, list: seq<Var>, prefix: string) returns (params: seq<Param>, ok: bool)
      modifies this`imports
      ensures imports == old(imports) + ListImports(list, pkgPath)
      ensures ok <==> !Overruns(list, variadic, pkgPath)
      ensures ok ==> params == Params(list, variadic, prefix, pkgPath)
    {
      hide TypeText, TypeImports, ParamAt, SlotOverruns;
      params := [];
      for ii := 0 to |list|
        invariant imports == old(imports) + ListImports(list[..ii], pkgPath)
        invariant |params| == ii
        invariant forall j :: 0 <= j < ii ==> params[j] == ParamAt(list, j, variadic, prefix, pkgPath)
        invariant forall j :: 0 <= j < ii ==> !SlotOverruns(list, j, variadic, pkgPath)
      {
        var param, slotOk := ExtractArg(variadic, list, ii, prefix);
        ListImportsStep(list, ii, pkgPath);
        UnionAssoc(old(imports), ListImports(list[..ii], pkgPath), TypeImports(list[ii].typ, pkgPath));
        if !slotOk {
          assert list[..ii + 1] == list;
          return params, false;
        }
        params := params + [param];
      }
      assert list[..|list|] == list;
      ParamsFrom(params, list, variadic, prefix, pkgPath);
      ok := true;
    }

    /** The method loop of Mock for one interface. */
    method MockInterface(n: string, ms: seq<Func>) returns (obj: Obj, ok: bool)
      modifies this`imports
      ensures ok <==> forall i :: 0 <= i < |ms| ==> !FuncOverruns(ms[i], pkgPath)
      ensures ok ==> obj == ObjOf(n, ms, pkgPath)
      ensures ok ==> imports == old(imports) + MethodsImports(ms, pkgPath)
    {
      hide Params, ListImports, Overruns, TypeText, TypeImports;
      var methods: seq<Method> := [];
      for i := 0 to |ms|
        invariant |methods| == i
        invariant forall j :: 0 <= j < i ==> !FuncOverruns(ms[j], pkgPath) && methods[j] == MethodOf(ms[j], pkgPath)
        invariant imports == old(imports) + MethodsImports(ms[..i], pkgPath)
      {
        assert ms[..i + 1][..i] == ms[..i];
        var f := ms[i];
        var ps, okParams := ExtractArgs(f.sig.variadic, f.sig.params, "in");
        if !okParams {
          return Obj(n, methods), false;
        }
        var rs, okResults := ExtractArgs(f.sig.variadic, f.sig.results, "out");
        if !okResults {
          return Obj(n, methods), false;
        }
        methods := methods + [Method(f.name, ps, rs)];
      }
      assert ms[..|ms|] == ms;
      obj := Obj(n, methods);
      ok := true;
    }

    /** The recorded paths, vendor directories removed, in the order the
        set is walked. */
    method ImportList() returns (xs: seq<string>)
      ensures StrippedListing(xs, imports)
    {
      xs := [];
      ghost var order: seq<string> := [];
      var rest := imports;
      assert imports - rest == {};
      hide StripVendorPath, StripAll;
      while rest != {}
        invariant rest <= imports
        invariant Enumerates(order, imports - rest)
        invariant xs == StripAll(order)
        decreases rest
      {
        var p :| p in rest;
        EnumeratesStep(order, imports - rest, p);
        assert imports - (rest - {p}) == (imports - rest) + {p};
        StripAllStep(order, p);
        xs := xs + [StripVendorPath(p)];
        order := order + [p];
        rest := rest - {p};
      }
      assert imports - rest == imports;
    }

    /** The loop of Mock over the interface names: the entries of the
        names up to the first that cannot be mocked, why that one cannot,
        and whether an interface with a method was met. */
    method MockInterfaces(names: seq<string>, sc: map<string, Object>)
      returns (objects: seq<Obj>, failure: Option<Error>, mocksMethods: bool)
      modifies this`imports
      ensures failure.None? <==> FirstBad(names, sc, pkgPath) == |names|
      ensures failure.Some? ==> failure == Check(names[FirstBad(names, sc, pkgPath)], sc, pkgPath)
      ensures failure != Some(SliceOutOfRange) ==>
        imports == old(imports) + NamesImports(names[..FirstBad(names, sc, pkgPath)], sc, pkgPath)
      ensures failure.None? ==> Entries(objects, names, sc, pkgPath) && mocksMethods == MocksMethods(names, sc)
    {
      hide ObjOf, MethodOf, MethodsImports, FuncOverruns, FirstBad;
      objects := [];
      mocksMethods := false;
      for k := 0 to |names|
        invariant forall i :: 0 <= i < k ==> Check(names[i], sc, pkgPath) == None
        invariant Entries(objects, names[..k], sc, pkgPath)
        invariant imports == old(imports) + NamesImports(names[..k], sc, pkgPath)
        invariant mocksMethods == MocksMethods(names[..k], sc)
      {
        assert names[..k + 1][..k] == names[..k];
        var n := names[k];
        if n !in sc {
          FirstBadAt(names, sc, pkgPath, k);
          return objects, Some(CannotFindInterface(n)), mocksMethods;
        }
        match sc[n]
        case OtherType(text) =>
          FirstBadAt(names, sc, pkgPath, k);
          return objects, Some(NotAnInterface(n, text)), mocksMethods;
        case InterfaceType(ms) =>
          if |ms| > 0 {
            mocksMethods := true;
          }
          var obj, ok := MockInterface(n, ms);
          if !ok {
            FirstBadAt(names, sc, pkgPath, k);
            return objects, Some(SliceOutOfRange), mocksMethods;
          }
          objects := objects + [obj];
      }
      assert names[..|names|] == names;
      FirstBadNone(names, sc, pkgPath);
      failure := None;
    }

    /** Mock: the template document for the interfaces `names`, or the
        first reason one of them cannot be mocked. `cleanedUp` is whether
        old mocks could be removed, `scope` the loaded package's scope (None
        when loading failed), `baseImports` the imports every mock needs. */
    method Mock(names: seq<string>, cleanedUp: bool, scope: Option<map<string, Object>>, baseImports: seq<string>)
      returns (r: Result<Doc>)
      modifies this`imports
      ensures names == [] ==> r == Err(MustSpecifyInterface) && imports == old(imports)
      ensures names != [] && !cleanedUp ==> r == Err(CleanupFailed) && imports == old(imports)
      ensures names != [] && cleanedUp && scope.None? ==> r == Err(LoadFailed) && imports == old(imports)
      ensures names != [] && cleanedUp && scope.Some? ==>
        var k := FirstBad(names, scope.value, pkgPath);
        && (r.Ok? <==> k == |names|)
        && (k < |names| ==> r == Err(Check(names[k], scope.value, pkgPath).value))
        && (r != Err(SliceOutOfRange) ==> imports == old(imports) + NamesImports(names[..k], scope.value, pkgPath))
      ensures r.Ok? ==> scope.Some? && r.value.packageName == pkgName
      ensures r.Ok? ==> Entries(r.value.objects, names, scope.value, pkgPath)
      ensures r.Ok? ==> ImportLines(r.value.imports, baseImports, SyncImport(names, scope.value), imports)
    {
      hide StripVendorPath, FirstBad, Check, Entries, NamesImports, MocksMethods, StrippedListing;
      if |names| == 0 {
        return Err(MustSpecifyInterface);
      }
      if !cleanedUp {
        return Err(CleanupFailed);
      }
      if scope.None? {
        return Err(LoadFailed);
      }
      var objects, failure, mocksMethods := MockInterfaces(names, scope.value);
      if failure.Some? {
        return Err(failure.value);
      }
      var line := baseImports;
      if mocksMethods {
        line := line + ["sync"];
      }
      var rest := ImportList();
      assert (line + rest)[..|line|] == line;
      assert (line + rest)[|line|..] == rest;
      r := Ok(Doc(pkgName, objects, line + rest));
    }
  }

  /** New: a mocker for the package in directory `src`. `parsed` is the
      set of package names found there (None when parsing failed), `abs`
      the directory's absolute form (None when it has none) and `gopaths`
      the GOPATH entries. */
  method New(src: string, packageName: string, parsed: Option<set<string>>, abs: Option<string>, gopaths: seq<string>)
    returns (r: Result<Mocker>)
    ensures parsed.None? ==> r == Err(ParseFailed)
    ensures parsed.Some? && packageName == "" && (forall n :: n in parsed.value ==> Contains(n, "_test")) ==>
      r == Err(NoPackageName)
    ensures parsed.Some? && abs.None? && packageName != "" ==> r == Err(AbsFailed)
    ensures (parsed.Some? && abs.None? && packageName == "" && "" !in parsed.value &&
             exists n :: n in parsed.value && !Contains(n, "_test")) ==>
            r == Err(AbsFailed)
    ensures parsed.Some? && abs.Some? &&
            (packageName != "" ||
             ("" !in parsed.value && exists n :: n in parsed.value && !Contains(n, "_test"))) ==>
            r.Ok?
    ensures r.Ok? ==> parsed.Some? && abs.Some? && fresh(r.value)
    ensures r.Ok? ==> r.value.src == src && r.value.imports == {} && r.value.pkgName != ""
    ensures r.Ok? && packageName != "" ==> r.value.pkgName == packageName
    ensures r.Ok? && packageName == "" ==> r.value.pkgName in parsed.value && !Contains(r.value.pkgName, "_test")
    ensures r.Ok? ==> r.value.pkgPath == JoinPath(Dir(StripGopaths(abs.value, gopaths)), r.value.pkgName)
  {
    if parsed.None? {
      return Err(ParseFailed);
    }
    var name := ChoosePackageName(packageName, parsed.value);
    if name.None? {
      return Err(NoPackageName);
    }
    if abs.None? {
      return Err(AbsFailed);
    }
    var dir := StripGopath(abs.value, gopaths);
    var m := new Mocker(src, name.value, JoinPath(Dir(dir), name.value));
    return Ok(m);
  }
}
