/** Import-path bookkeeping of the mock generator: the directory and join
    operations it applies to package paths, the removal of vendor
    directories from import paths and the removal of GOPATH roots from
    source directories. Paths use '/' as separator and are taken to be
    clean (no "." or ".." elements, no doubled or trailing slashes), which
    is the form Go's type checker reports package paths in. */
module Paths {
  import opened Text

  /** Index of the last '/' in `p`, or -1 when there is none. */
  function LastSlash(p: string): (i: int)
    ensures -1 <= i < |p|
    ensures i >= 0 ==> p[i] == '/'
    ensures forall j :: i < j < |p| ==> p[j] != '/'
    decreases |p|
  {
    if |p| == 0 then -1
    else if p[|p| - 1] == '/' then |p| - 1
    else LastSlash(p[..|p| - 1])
  }

  /** filepath.Dir: everything before the last element; "." when there is
      no separator and "/" for an element directly under the root. */
  function Dir(p: string): string {
    var i := LastSlash(p);
    if i < 0 then "." else if i == 0 then "/" else p[..i]
  }

  /** The path "." of the current directory. */
  predicate IsDot(p: string) {
    |p| == 1 && p[0] == '.'
  }

  /** filepath.Join (and path.Join) of two elements. */
  function JoinPath(a: string, b: string): string {
    if |a| == 0 then b
    else if IsDot(a) then (if |b| == 0 then a else b)
    else if |b| == 0 then a
    else if a[|a| - 1] == '/' then a + b
    else a + "/" + b
  }

  /** Directory and join undo each other: joining a name onto a directory
      and taking the directory of the result gives the directory back (the
      current directory for a relative single element), so re-joining the
      same name reproduces the joined path. */
  lemma DirOfJoin(d: string, n: string)
    requires n != "" && '/' !in n
    requires d == "" || d == "/" || d[|d| - 1] != '/'
    ensures Dir(JoinPath(d, n)) == (if d == "" then "." else d)
    ensures JoinPath(Dir(JoinPath(d, n)), n) == JoinPath(d, n)
  {
    var p := JoinPath(d, n);
    var i := LastSlash(p);
    if d == "" || IsDot(d) {
      assert p == n;
      assert i < 0;
    } else if d == "/" {
      assert p == "/" + n;
      assert p[0] == '/';
      assert forall j :: 0 < j < |p| ==> p[j] == n[j - 1];
      assert i == 0;
    } else {
      assert p == d + "/" + n;
      assert p[|d|] == '/';
      assert forall j :: |d| < j < |p| ==> p[j] == n[j - |d| - 1];
      assert i == |d|;
      assert p[..i] == d;
    }
  }

  /** The non-empty elements of `elems`, in order. */
  function NonEmpty(elems: seq<string>): (r: seq<string>)
    ensures forall x :: x in r <==> x in elems && x != ""
    decreases |elems|
  {
    if elems == [] then []
    else if elems[0] == "" then NonEmpty(elems[1..])
    else [elems[0]] + NonEmpty(elems[1..])
  }

  /** path.Join of any number of elements: the non-empty ones separated by
      '/'. */
  function JoinElems(elems: seq<string>): string {
    Join(NonEmpty(elems), "/")
  }

  /** The directory name that marks a vendored copy of a package. */
  const VendorMarker := "/vendor/"

  /** stripVendorPath: every piece after the first "/vendor/" separator,
      joined as a path, with leading slashes dropped; the path itself when
      it has no "/vendor/". */
  function StripVendorPath(p: string): string {
    var parts := Split(p, VendorMarker);
    if |parts| == 1 then p else TrimLeftSlashes(JoinElems(parts[1..]))
  }

  /** A path without a vendor directory is kept as it is. */
  lemma StripVendorPathUnvendored(p: string)
    requires !Contains(p, VendorMarker)
    ensures StripVendorPath(p) == p
  {
    SplitSingle(p, VendorMarker);
  }

  /** If the marker does not occur in `x + "/vendor"`, the first marker of
      `x + "/vendor/" + y` is the one right after `x`. */
  lemma SplitAfterFirstMarker(x: string, y: string)
    requires !Contains(x + "/vendor", VendorMarker)
    ensures Split(x + VendorMarker + y, VendorMarker) == [x] + Split(y, VendorMarker)
  {
    var p := x + VendorMarker + y;
    var m := |VendorMarker|;
    assert OccursAt(p, VendorMarker, |x|) by {
      assert p[|x|..|x| + m] == VendorMarker;
    }
    var k := IndexFrom(p, VendorMarker, 0);
    assert p[..|x| + 7] == x + "/vendor";
    if k < |x| {
      assert OccursAt(p, VendorMarker, k);
      assert p[k..k + m] == (x + "/vendor")[k..k + m];
      assert OccursAt(x + "/vendor", VendorMarker, k);
      assert false;
    }
    assert k == |x|;
    assert p[..k] == x;
    assert p[k + m..] == y;
  }

  /** A marker needs a 'v', so text without one has no marker. */
  lemma NoMarkerWithoutV(s: string)
    requires 'v' !in s
    ensures !Contains(s, VendorMarker)
    ensures !Contains(s + "/vendor", VendorMarker)
  {
    forall i | 0 <= i <= |s| ensures !OccursAt(s, VendorMarker, i) {
      if i + 8 <= |s| {
        assert s[i + 1] in s;
      }
    }
    var t := s + "/vendor";
    forall i | 0 <= i <= |t| ensures !OccursAt(t, VendorMarker, i) {
      if i + 1 < |s| {
        assert t[i + 1] == s[i + 1];
        assert s[i + 1] in s;
      } else if i + 1 == |s| {
        assert t[i + 1] == '/';
      }
    }
  }

  /** The path of a package vendored once, `x/vendor/y`, is rewritten to
      `y`. */
  lemma StripVendorPathSingle(x: string, y: string)
    requires !Contains(x + "/vendor", VendorMarker)
    requires !Contains(y, VendorMarker)
    requires !HasPrefix(y, "/")
    ensures StripVendorPath(x + VendorMarker + y) == y
  {
    SplitAfterFirstMarker(x, y);
    SplitSingle(y, VendorMarker);
    var parts := Split(x + VendorMarker + y, VendorMarker);
    assert parts == [x, y];
    assert parts[1..] == [y];
    if y == "" {
      assert NonEmpty([y]) == [];
    } else {
      assert NonEmpty([y]) == [y];
      assert y[0] != '/' by {
        assert y[..1][0] == y[0];
      }
    }
  }

  /** path.Join of two non-empty elements puts one '/' between them. */
  lemma JoinElemsPair(y: string, z: string)
    requires y != "" && z != ""
    ensures JoinElems([y, z]) == y + "/" + z
  {
    assert [y, z][1..] == [z];
    assert NonEmpty([z]) == [z];
    assert NonEmpty([y, z]) == [y, z];
    assert Join([y, z], "/") == y + "/" + Join([z], "/");
  }

  /** A package vendored inside a vendored package, `x/vendor/y/vendor/z`,
      is rewritten to `y/z`: every piece after the first marker is kept. */
  lemma StripVendorPathNested(x: string, y: string, z: string)
    requires !Contains(x + "/vendor", VendorMarker) && !Contains(y + "/vendor", VendorMarker)
    requires !Contains(z, VendorMarker)
    requires y != "" && y[0] != '/' && z != ""
    ensures StripVendorPath(x + VendorMarker + y + VendorMarker + z) == y + "/" + z
  {
    var p := x + VendorMarker + y + VendorMarker + z;
    assert Split(p, VendorMarker) == [x, y, z] by {
      var q := y + VendorMarker + z;
      assert p == x + VendorMarker + q;
      SplitAfterFirstMarker(x, q);
      SplitAfterFirstMarker(y, z);
      SplitSingle(z, VendorMarker);
    }
    hide Split, Contains, IndexFrom;
    assert [x, y, z][1..] == [y, z];
    JoinElemsPair(y, z);
    var j := y + "/" + z;
    assert TrimLeftSlashes(j) == j by {
      assert j[0] == y[0];
    }
  }

  /** The example in the comment of stripVendorPath. */
  lemma StripVendorPathCommentExample()
    ensures StripVendorPath("github.com/foo/bar" + VendorMarker + "github.com/pkg/errors") == "github.com/pkg/errors"
  {
    var x, y := "github.com/foo/bar", "github.com/pkg/errors";
    NoMarkerWithoutV(x);
    NoMarkerWithoutV(y);
    assert y[..1][0] == 'g';
    StripVendorPathSingle(x, y);
  }

  /** The prefix a GOPATH entry puts in front of a package directory. */
  function GopathPrefix(gopath: string): string {
    JoinPath(gopath, "src") + "/"
  }

  /** stripGopath as a function: each GOPATH entry's prefix is trimmed in
      turn, in list order. */
  function StripGopaths(p: string, gopaths: seq<string>): string
    decreases |gopaths|
  {
    if gopaths == [] then p
    else StripGopaths(TrimPrefix(p, GopathPrefix(gopaths[0])), gopaths[1..])
  }

  /** stripGopath: trims `<gopath>/src/` from `p` for every GOPATH entry. */
  method StripGopath(p: string, gopaths: seq<string>) returns (r: string)
    ensures r == StripGopaths(p, gopaths)
  {
    r := p;
    for i := 0 to |gopaths|
      invariant StripGopaths(r, gopaths[i..]) == StripGopaths(p, gopaths)
    {
      assert gopaths[i..][1..] == gopaths[i + 1..];
      r := TrimPrefix(r, GopathPrefix(gopaths[i]));
    }
  }

  /** Stripping only ever removes a prefix. */
  lemma {:induction false} StripGopathsSuffix(p: string, gopaths: seq<string>)
    ensures HasSuffix(p, StripGopaths(p, gopaths))
    decreases |gopaths|
  {
    if gopaths != [] {
      var q := TrimPrefix(p, GopathPrefix(gopaths[0]));
      StripGopathsSuffix(q, gopaths[1..]);
      var r := StripGopaths(q, gopaths[1..]);
      assert HasSuffix(p, q);
      assert p[|p| - |r|..] == q[|q| - |r|..];
    }
  }

  /** A directory under none of the GOPATH roots is left unchanged. */
  lemma {:induction false} StripGopathsOutside(p: string, gopaths: seq<string>)
    requires forall g :: g in gopaths ==> !HasPrefix(p, GopathPrefix(g))
    ensures StripGopaths(p, gopaths) == p
    decreases |gopaths|
  {
    if gopaths != [] {
      assert gopaths[0] in gopaths;
      StripGopathsOutside(p, gopaths[1..]);
    }
  }

  /** A directory under the first GOPATH root loses that root, and nothing
      more when the rest lies under none of the other roots. */
  lemma StripGopathsUnderRoot(g: string, rest: string, others: seq<string>)
    requires forall o :: o in others ==> !HasPrefix(rest, GopathPrefix(o))
    ensures StripGopaths(GopathPrefix(g) + rest, [g] + others) == rest
  {
    var p := GopathPrefix(g) + rest;
    assert p[..|GopathPrefix(g)|] == GopathPrefix(g);
    assert TrimPrefix(p, GopathPrefix(g)) == rest;
    assert ([g] + others)[1..] == others;
    StripGopathsOutside(rest, others);
  }
}
