/** The descriptors the mock template consumes for one interface method:
    its parameters and results, and the signature and call-site text built
    from them. */
module Descriptors {
  import opened Text

  /** One parameter or result: its (possibly synthesized) name, its type
      as text, and whether it is the trailing `...T` of a variadic
      signature. */
  datatype Param = Param(name: string, typ: string, variadic: bool) {

    /** A variadic descriptor's type text is long enough to lose its
        leading "[]". */
    predicate Renderable() {
      variadic ==> |typ| >= 2
    }

    /** The type as written in a signature: `...T` for a variadic `[]T`. */
    function TypeString(): string
      requires Renderable()
    {
      if variadic then "..." + typ[2..] else typ
    }

    /** The argument as passed on at a call site: `name...` when variadic. */
    function CallName(): string {
      if variadic then name + "..." else name
    }

    /** The parameter as declared in a signature: name, a space, the type. */
    function String(): string
      requires Renderable()
    {
      name + " " + TypeString()
    }
  }

  /** The type text starts with "[]", the spelling of a slice type. */
  predicate IsSliceText(typ: string) {
    |typ| >= 2 && typ[0] == '[' && typ[1] == ']'
  }

  /** The slice test is the prefix test for "[]". */
  lemma IsSliceTextPrefix(typ: string)
    ensures IsSliceText(typ) <==> HasPrefix(typ, "[]")
  {
    if |typ| >= 2 {
      assert typ[..2] == [typ[0], typ[1]];
    }
  }

  /** Every descriptor in `ps` can be rendered. */
  predicate AllRenderable(ps: seq<Param>) {
    forall i :: 0 <= i < |ps| ==> ps[i].Renderable()
  }

  /** The declarations of `ps`, one entry per parameter. */
  function Declarations(ps: seq<Param>): (r: seq<string>)
    requires AllRenderable(ps)
    ensures |r| == |ps|
  {
    seq(|ps|, i requires 0 <= i < |ps| && AllRenderable(ps) => ps[i].String())
  }

  /** The call-site arguments of `ps`, one entry per parameter. */
  function CallNames(ps: seq<Param>): (r: seq<string>)
    ensures |r| == |ps|
  {
    seq(|ps|, i requires 0 <= i < |ps| => ps[i].CallName())
  }

  /** The signature types of `ps`, one entry per parameter. */
  function TypeStrings(ps: seq<Param>): (r: seq<string>)
    requires AllRenderable(ps)
    ensures |r| == |ps|
  {
    seq(|ps|, i requires 0 <= i < |ps| && AllRenderable(ps) => ps[i].TypeString())
  }

  /** One interface method: its name, parameters and results. */
  datatype Method = Method(name: string, params: seq<Param>, results: seq<Param>) {

    /** The parameter list of the method's signature: the declarations
        separated by ", ". */
    method Arglist() returns (r: string)
      requires AllRenderable(params)
      ensures r == Join(Declarations(params), ", ")
      ensures |params| == 0 ==> r == ""
      ensures |params| == 1 ==> r == params[0].String()
    {
      var entries := new string[|params|];
      for i := 0 to |params|
        invariant forall j :: 0 <= j < i ==> entries[j] == params[j].String()
      {
        entries[i] := params[i].String();
      }
      assert entries[..] == Declarations(params);
      r := Join(entries[..], ", ");
    }

    /** The argument list with which the mock forwards a call: the call
        names separated by ", ". */
    method ArgCallList() returns (r: string)
      ensures r == Join(CallNames(params), ", ")
      ensures |params| == 0 ==> r == ""
      ensures |params| == 1 ==> r == params[0].CallName()
    {
      var entries := new string[|params|];
      for i := 0 to |params|
        invariant forall j :: 0 <= j < i ==> entries[j] == params[j].CallName()
      {
        entries[i] := params[i].CallName();
      }
      assert entries[..] == CallNames(params);
      r := Join(entries[..], ", ");
    }

    /** The result part of the method's signature: the result types
        separated by ", ", in parentheses exactly when there is more than
        one result. */
    method ReturnArglist() returns (r: string)
      requires AllRenderable(results)
      ensures |results| > 1 ==> r == "(" + Join(TypeStrings(results), ", ") + ")"
      ensures |results| <= 1 ==> r == Join(TypeStrings(results), ", ")
      ensures |results| == 0 ==> r == ""
      ensures |results| == 1 ==> r == results[0].TypeString()
    {
      var entries := new string[|results|];
      for i := 0 to |results|
        invariant forall j :: 0 <= j < i ==> entries[j] == results[j].TypeString()
      {
        entries[i] := results[i].TypeString();
      }
      assert entries[..] == TypeStrings(results);
      if |results| > 1 {
        r := "(" + Join(entries[..], ", ") + ")";
      } else {
        r := Join(entries[..], ", ");
      }
    }
  }

  /** Reads a signature entry `name type` back into a descriptor: an
      ellipsis in front of the type marks a variadic slice. */
  function ParseDeclaration(s: string, k: nat): Param
    requires k < |s|
  {
    var name := s[..k];
    var rest := s[k + 1..];
    if HasPrefix(rest, "...") then Param(name, "[]" + rest[3..], true)
    else Param(name, rest, false)
  }

  /** Position of the first space in `s`, or |s|. */
  function FirstSpace(s: string): (k: nat)
    ensures k <= |s|
    ensures k < |s| ==> s[k] == ' '
    ensures forall j :: 0 <= j < k ==> s[j] != ' '
    decreases |s|
  {
    if |s| == 0 then 0
    else if s[0] == ' ' then 0
    else 1 + FirstSpace(s[1..])
  }

  /** The declaration text loses nothing: a descriptor whose name has no
      space, whose variadic type is a slice and whose other types do not
      start with an ellipsis (as Go type texts never do) is read back from
      its declaration. */
  lemma DeclarationRoundTrip(p: Param)
    requires ' ' !in p.name
    requires p.variadic ==> HasPrefix(p.typ, "[]")
    requires !p.variadic ==> !HasPrefix(p.typ, "...")
    ensures p.Renderable()
    ensures FirstSpace(p.String()) < |p.String()|
    ensures ParseDeclaration(p.String(), FirstSpace(p.String())) == p
  {
    var s := p.String();
    var k := FirstSpace(s);
    assert s[|p.name|] == ' ';
    assert k == |p.name|;
    assert s[..k] == p.name;
    var rest := s[k + 1..];
    assert rest == p.TypeString();
    if p.variadic {
      assert rest == "..." + p.typ[2..];
      assert rest[..3] == "...";
      assert rest[3..] == p.typ[2..];
      assert p.typ == p.typ[..2] + p.typ[2..];
    } else {
      assert rest == p.typ;
    }
  }
}
