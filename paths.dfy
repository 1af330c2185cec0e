/** POSIX paths the way `pathlib` holds them: an absolute flag and the
    non-empty parts between slashes, with `.` parts dropped. Also the two
    string-level helpers the server uses, `os.path.expanduser` and
    `os.path.join`. The home directory is a parameter. */
module Paths {
  import opened Wrappers
  import opened Strings

  datatype Path = Path(absolute: bool, parts: seq<string>)

  predicate IsSlash(c: char) { c == '/' }

  /** A part as `pathlib` keeps it: non-empty, no slash, not `.`. */
  predicate IsPart(x: string) {
    x != [] && x != "." && forall i :: 0 <= i < |x| ==> x[i] != '/'
  }

  predicate IsNormal(p: Path) {
    forall k :: 0 <= k < |p.parts| ==> IsPart(p.parts[k])
  }

  function DropDots(xs: seq<string>): (r: seq<string>)
    ensures |r| <= |xs|
    ensures forall k :: 0 <= k < |r| ==> r[k] != "." && r[k] in xs
  {
    if xs == [] then []
    else (if xs[0] == "." then [] else [xs[0]]) + DropDots(xs[1..])
  }

  lemma {:induction false} DropDotsNothing(xs: seq<string>)
    requires forall k :: 0 <= k < |xs| ==> xs[k] != "."
    ensures DropDots(xs) == xs
  {
    if xs != [] {
      DropDotsNothing(xs[1..]);
      assert xs == [xs[0]] + xs[1..];
    }
  }

  /** `PurePosixPath(s)` (a leading `//` is not treated specially). */
  function ParsePath(s: string): (p: Path)
    ensures IsNormal(p)
  {
    var xs := Tokens(s, IsSlash);
    TokensAreTokens(s, IsSlash);
    var parts := DropDots(xs);
    assert forall k :: 0 <= k < |parts| ==> IsPart(parts[k]) by {
      forall k | 0 <= k < |parts| ensures IsPart(parts[k]) {
        assert parts[k] in xs;
      }
    }
    Path(s != [] && s[0] == '/', parts)
  }

  /** `str(path)`. */
  function PathText(p: Path): string {
    if p.absolute then "/" + JoinWith(p.parts, "/")
    else if p.parts == [] then "."
    else JoinWith(p.parts, "/")
  }

  lemma PartsOfJoin(parts: seq<string>)
    requires forall k :: 0 <= k < |parts| ==> IsPart(parts[k])
    ensures DropDots(Tokens(JoinWith(parts, "/"), IsSlash)) == parts
  {
    TokensOfJoin(parts, '/', IsSlash);
    DropDotsNothing(parts);
  }

  /** Printing a path and parsing the text gives the path back. */
  lemma ParsePathText(p: Path)
    requires IsNormal(p)
    ensures ParsePath(PathText(p)) == p
  {
    var j := JoinWith(p.parts, "/");
    PartsOfJoin(p.parts);
    if p.absolute {
      assert ("/" + j)[1..] == j;
    } else if p.parts == [] {
      assert Tokens(".", IsSlash) == ["."] by {
        TokensOfJoin(["."], '/', IsSlash);
      }
    } else {
      JoinWithEnds(p.parts, "/");
    }
  }

  /** Parsing is a normal form: print and parse again changes nothing. */
  lemma ParsePathCanonical(s: string)
    ensures ParsePath(PathText(ParsePath(s))) == ParsePath(s)
  {
    ParsePathText(ParsePath(s));
  }

  /** `path / s`: an absolute right-hand side replaces the path. */
  function Div(p: Path, s: string): (r: Path)
    ensures IsNormal(p) ==> IsNormal(r)
  {
    var q := ParsePath(s);
    if q.absolute then q else Path(p.absolute, p.parts + q.parts)
  }

  /** Joining one plain part appends it. */
  lemma DivPart(p: Path, x: string)
    requires IsPart(x)
    ensures Div(p, x) == Child(p, x)
  {
    TokensOfJoin([x], '/', IsSlash);
    DropDotsNothing([x]);
  }

  /** The path one level down. */
  function Child(p: Path, name: string): (r: Path)
    ensures |r.parts| == |p.parts| + 1 && r.parts[|p.parts|] == name
  {
    Path(p.absolute, p.parts + [name])
  }

  /** Joining two plain parts in turn appends both. */
  lemma DivParts(p: Path, x: string, y: string)
    requires IsPart(x) && IsPart(y)
    ensures Div(Div(p, x), y) == Path(p.absolute, p.parts + [x, y])
  {
    DivPart(p, x);
    DivPart(Child(p, x), y);
    assert p.parts + [x] + [y] == p.parts + [x, y];
  }

  /** Joining an empty name leaves the path as it is. */
  lemma DivEmpty(p: Path)
    ensures Div(p, "") == p
  {
    assert p.parts + [] == p.parts;
  }

  /** `path.parent`. */
  function Parent(p: Path): (r: Path)
    ensures |r.parts| == if p.parts == [] then 0 else |p.parts| - 1
  {
    if p.parts == [] then p else Path(p.absolute, p.parts[..|p.parts| - 1])
  }

  /** The path and every directory above it. */
  function Ancestors(p: Path): (r: set<Path>)
    ensures p in r
  {
    assert p.parts[..|p.parts|] == p.parts;
    set k | 0 <= k <= |p.parts| :: Path(p.absolute, p.parts[..k])
  }

  /** The absolute file a path names when the working directory is `cwd`. */
  function Resolve(cwd: Path, p: Path): Path {
    if p.absolute then p else Path(true, cwd.parts + p.parts)
  }

  /** Different relative paths name different files. */
  lemma ResolveDistinct(cwd: Path, p: Path, q: Path)
    requires !p.absolute && !q.absolute && p.parts != q.parts
    ensures Resolve(cwd, p) != Resolve(cwd, q)
  {
    var a := cwd.parts + p.parts;
    var b := cwd.parts + q.parts;
    assert a[|cwd.parts|..] == p.parts;
    assert b[|cwd.parts|..] == q.parts;
  }

  /** Two different names in the same directory are different files. */
  lemma ChildrenDistinct(cwd: Path, p: Path, x: string, y: string)
    requires x != y
    ensures Resolve(cwd, Child(p, x)) != Resolve(cwd, Child(p, y))
  {
    var a := Resolve(cwd, Child(p, x)).parts;
    var b := Resolve(cwd, Child(p, y)).parts;
    assert a[|a| - 1] == x;
    assert b[|b| - 1] == y;
  }

  /** A file in a directory is a different file from the directory. */
  lemma ChildOfOther(cwd: Path, p: Path, x: string)
    ensures Resolve(cwd, Child(p, x)) != Resolve(cwd, p)
  {
    assert |Resolve(cwd, Child(p, x)).parts| == |Resolve(cwd, p).parts| + 1;
  }

  /** `posixpath.expanduser`: `~` and `~/...` become the home directory (its
      trailing slashes removed, `/` if nothing is left); any other text,
      `~user` included, is returned unchanged. */
  function ExpandUser(home: string, s: string): (r: string)
    ensures !StartsWith(s, "~") ==> r == s
    ensures StartsWith(s, "~") && (|s| == 1 || s[1] == '/') ==>
      r == (if TrimEnd(home, IsSlash) + s[1..] == [] then "/" else TrimEnd(home, IsSlash) + s[1..])
  {
    if |s| >= 1 && s[0] == '~' && (|s| == 1 || s[1] == '/') then
      var h := TrimEnd(home, IsSlash) + s[1..];
      if h == [] then "/" else h
    else s
  }

  /** `Path.expanduser()`: a leading `~` part becomes the home directory;
      `None` where `pathlib` raises because the home cannot be determined. */
  function ExpandUserPath(home: string, p: Path): (r: Option<Path>)
    ensures IsNormal(p) && r.Some? ==> IsNormal(r.value)
    ensures p.absolute || p.parts == [] || !StartsWith(p.parts[0], "~") ==> r == Some(p)
  {
    if !p.absolute && p.parts != [] && StartsWith(p.parts[0], "~") then
      var homedir := ExpandUser(home, p.parts[0]);
      if StartsWith(homedir, "~") then None
      else
        var h := ParsePath(homedir);
        Some(Path(h.absolute, h.parts + p.parts[1..]))
    else Some(p)
  }

  /** `Path.home()`, which is `Path("~").expanduser()`. */
  function HomePath(home: string): Option<Path> {
    ExpandUserPath(home, Path(false, ["~"]))
  }

  /** A path under `~` expands to the same parts under the home directory,
      and fails exactly when `Path.home()` does. */
  lemma ExpandUnderHome(home: string, rest: seq<string>)
    ensures HomePath(home).None? <==> ExpandUserPath(home, Path(false, ["~"] + rest)).None?
    ensures HomePath(home).Some? ==>
      ExpandUserPath(home, Path(false, ["~"] + rest)) == Some(Path(HomePath(home).value.absolute, HomePath(home).value.parts + rest))
  {
    assert (["~"] + rest)[0] == "~";
    assert (["~"] + rest)[1..] == rest;
    assert ["~"][1..] == [];
    assert StartsWith("~", "~");
    var h := ParsePath(ExpandUser(home, "~"));
    assert h.parts + [] == h.parts;
  }

  /** `os.path.join(a, b)`. */
  function OsJoin(a: string, b: string): (r: string)
    ensures StartsWith(b, "/") ==> r == b
    ensures !StartsWith(b, "/") ==> EndsWith(r, b) && StartsWith(r, a)
  {
    if |b| >= 1 && b[0] == '/' then b
    else if a == [] || a[|a| - 1] == '/' then
      assert (a + b)[..|a|] == a;
      a + b
    else
      assert (a + "/" + b)[..|a|] == a;
      a + "/" + b
  }
}
