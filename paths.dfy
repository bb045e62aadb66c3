/**
 * POSIX paths as the Node `path` module treats them. A path is a sequence
 * of segments; absolute paths are the segments below the root. The string
 * functions at the end are the parts of `path.basename`, `path.dirname` and
 * `path.extname` that the importer relies on.
 */
module Paths {

  type Path = seq<string>

  /** A glob matcher, `minimatch(path, pattern)`, taken as given: (pattern, path) -> matched. */
  type Matcher = (string, string) -> bool

  /** A normal segment: not empty, not `.` or `..`, no separator. */
  predicate IsSegment(s: string)
  {
    s != "" && s != "." && s != ".." && '/' !in s
  }

  /** A normalised path, as `path.resolve` produces and `vinyl` stores. */
  predicate Clean(p: Path)
  {
    forall i :: 0 <= i < |p| ==> IsSegment(p[i])
  }

  /** The segments joined with `/` (the rendering of a relative path). */
  function Text(p: Path): string
    decreases |p|
  {
    if p == [] then ""
    else if |p| == 1 then p[0]
    else Text(p[..|p| - 1]) + "/" + p[|p| - 1]
  }

  /** The rendering of an absolute path. */
  function AbsText(p: Path): string
  {
    "/" + Text(p)
  }

  /** The non-empty pieces of `s` between separators. */
  function Split(s: string): Path
    decreases |s|
  {
    if s == "" then []
    else
      var i := LastIndex(s, '/');
      if i == -1 then [s]
      else Split(s[..i]) + (if i == |s| - 1 then [] else [s[i + 1..]])
  }

  /** One step of `path.resolve` normalisation. */
  function Step(base: Path, s: string): Path
  {
    if s == "" || s == "." then base
    else if s == ".." then (if base == [] then [] else base[..|base| - 1])
    else base + [s]
  }

  /** `path.resolve(base, segs…)` for a relative tail: `..` at the root stays at the root. */
  function Resolve(base: Path, segs: seq<string>): Path
    decreases |segs|
  {
    if segs == [] then base else Resolve(Step(base, segs[0]), segs[1..])
  }

  /** `path.resolve(base, s)` for a path string `s`, absolute or relative. */
  function ResolveText(base: Path, s: string): Path
  {
    if |s| > 0 && s[0] == '/' then Resolve([], Split(s)) else Resolve(base, Split(s))
  }

  function Dirname(p: Path): Path
  {
    if p == [] then [] else p[..|p| - 1]
  }

  function Basename(p: Path): string
  {
    if p == [] then "" else p[|p| - 1]
  }

  /** Length of the longest common prefix of `a` and `b`. */
  function CommonPrefix(a: Path, b: Path): (k: nat)
    ensures k <= |a| && k <= |b|
    ensures a[..k] == b[..k]
    ensures k < |a| && k < |b| ==> a[k] != b[k]
    decreases |a|
  {
    if a == [] || b == [] || a[0] != b[0] then 0
    else
      var k := CommonPrefix(a[1..], b[1..]);
      assert a[1..][..k] == b[1..][..k];
      assert a[..k + 1] == [a[0]] + a[1..][..k];
      assert b[..k + 1] == [b[0]] + b[1..][..k];
      1 + k
  }

  /** `n` parent steps. */
  function Ups(n: nat): (r: seq<string>)
    ensures |r| == n && forall i :: 0 <= i < n ==> r[i] == ".."
  {
    seq(n, _ => "..")
  }

  /** `path.relative(from, to)` for absolute normalised paths. */
  function Relative(from: Path, to: Path): seq<string>
  {
    var k := CommonPrefix(from, to);
    Ups(|from| - k) + to[k..]
  }

  lemma {:induction false} ResolveClean(base: Path, rel: Path)
    requires Clean(rel)
    ensures Resolve(base, rel) == base + rel
    decreases |rel|
  {
    if rel != [] {
      assert Step(base, rel[0]) == base + [rel[0]];
      assert Clean(rel[1..]) by {
        forall i | 0 <= i < |rel[1..]| ensures IsSegment(rel[1..][i]) {
          assert rel[1..][i] == rel[i + 1];
        }
      }
      ResolveClean(base + [rel[0]], rel[1..]);
      assert base + [rel[0]] + rel[1..] == base + rel;
    }
  }

  lemma {:induction false} ResolveUps(base: Path, n: nat, rest: seq<string>)
    requires n <= |base|
    ensures Resolve(base, Ups(n) + rest) == Resolve(base[..|base| - n], rest)
    decreases n
  {
    if n > 0 {
      var s := Ups(n) + rest;
      assert s[0] == "..";
      assert s[1..] == Ups(n - 1) + rest;
      assert Step(base, "..") == base[..|base| - 1];
      ResolveUps(base[..|base| - 1], n - 1, rest);
      assert base[..|base| - 1][..|base| - 1 - (n - 1)] == base[..|base| - n];
    } else {
      assert Ups(0) + rest == rest;
      assert base[..|base|] == base;
    }
  }

  /** The relative path from `from` leads back to `to`. */
  lemma RelativeRoundTrip(from: Path, to: Path)
    requires Clean(to)
    ensures Resolve(from, Relative(from, to)) == to
  {
    var k := CommonPrefix(from, to);
    ResolveUps(from, |from| - k, to[k..]);
    assert from[..|from| - (|from| - k)] == from[..k];
    CleanSuffix(to, k);
    ResolveClean(from[..k], to[k..]);
    assert from[..k] + to[k..] == to[..k] + to[k..] == to;
  }

  lemma CleanSuffix(p: Path, k: nat)
    requires Clean(p) && k <= |p|
    ensures Clean(p[k..])
  {
    forall i | 0 <= i < |p[k..]| ensures IsSegment(p[k..][i]) {
      assert p[k..][i] == p[k + i];
    }
  }

  /** A segment after the last separator is the last piece. */
  lemma {:induction false} SplitLast(t: string, x: string)
    requires t == "" || t[|t| - 1] == '/'
    requires IsSegment(x)
    ensures Split(t + x) == (if t == "" then [] else Split(t[..|t| - 1])) + [x]
  {
    var s := t + x;
    forall j | |t| <= j < |s| ensures s[j] != '/' {
      assert s[j] == x[j - |t|];
      assert x[j - |t|] in x;
    }
    if t == "" {
      assert s == x;
      assert LastIndex(s, '/') == -1;
    } else {
      assert s[|t| - 1] == '/';
      assert LastIndex(s, '/') == |t| - 1;
      assert s[..|t| - 1] == t[..|t| - 1];
      assert s[|t|..] == x;
    }
  }

  /** `Split` reads back the segments `Text` wrote, with or without a leading separator. */
  lemma {:induction false} SplitText(r: string, p: Path)
    requires r == "" || r == "/"
    requires Clean(p)
    ensures Split(r + Text(p)) == p
    decreases |p|
  {
    if p == [] {
      SplitRoot(r);
    } else if |p| == 1 {
      SplitSingle(r, p[0]);
    } else {
      var x := p[|p| - 1];
      var q := p[..|p| - 1];
      assert Clean(q) by {
        forall i | 0 <= i < |q| ensures IsSegment(q[i]) { assert q[i] == p[i]; }
      }
      assert p == q + [x];
      SplitText(r, q);
      SplitTextStep(r, q, x);
    }
  }

  lemma SplitTextStep(r: string, q: Path, x: string)
    requires q != [] && IsSegment(x)
    requires Split(r + Text(q)) == q
    ensures Split(r + Text(q + [x])) == q + [x]
  {
    var u := r + Text(q);
    assert r + Text(q + [x]) == u + "/" + x by { TextSnoc(q, x); }
    SplitSnoc(u, x);
  }

  lemma TextSnoc(q: Path, x: string)
    requires q != []
    ensures Text(q + [x]) == Text(q) + "/" + x
  {
    var p := q + [x];
    assert p[..|p| - 1] == q;
  }

  lemma SplitRoot(r: string)
    requires r == "" || r == "/"
    ensures Split(r + Text([])) == []
  {
    assert r + Text([]) == r;
    if r == "/" { assert LastIndex(r, '/') == 0; assert r[..0] == ""; }
  }

  lemma SplitSingle(r: string, x: string)
    requires r == "" || r == "/"
    requires IsSegment(x)
    ensures Split(r + Text([x])) == [x]
  {
    assert r + Text([x]) == r + x;
    SplitLast(r, x);
    if r == "/" { assert r[..0] == ""; }
  }

  /** Appending a separator and a segment appends that segment. */
  lemma SplitSnoc(u: string, x: string)
    requires IsSegment(x)
    ensures Split(u + "/" + x) == Split(u) + [x]
  {
    var t := u + "/";
    assert t[..|t| - 1] == u;
    SplitLast(t, x);
    assert u + "/" + x == t + x;
  }

  /** `path.resolve(base, "a/b")` appends the segments of a relative normalised path… */
  lemma ResolveTextRelative(base: Path, p: Path)
    requires Clean(p) && p != []
    ensures ResolveText(base, Text(p)) == base + p
  {
    SplitText("", p);
    assert "" + Text(p) == Text(p);
    assert Text(p) != "" by { TextNonEmpty(p); }
    assert Text(p)[0] != '/' by { TextHead(p); }
    ResolveClean(base, p);
  }

  /** …and `path.resolve(base, "/a/b")` is the absolute path itself. */
  lemma ResolveTextAbsolute(base: Path, p: Path)
    requires Clean(p)
    ensures ResolveText(base, AbsText(p)) == p
  {
    SplitText("/", p);
    ResolveClean([], p);
    assert [] + p == p;
  }

  lemma {:induction false} TextNonEmpty(p: Path)
    requires Clean(p) && p != []
    ensures |Text(p)| >= |p[0]| > 0
    decreases |p|
  {
    if |p| > 1 {
      var q := p[..|p| - 1];
      assert Clean(q) by {
        forall i | 0 <= i < |q| ensures IsSegment(q[i]) { assert q[i] == p[i]; }
      }
      TextNonEmpty(q);
    }
  }

  lemma {:induction false} TextHead(p: Path)
    requires Clean(p) && p != []
    ensures |Text(p)| > 0 && Text(p)[0] == p[0][0]
    decreases |p|
  {
    TextNonEmpty(p);
    if |p| > 1 {
      var q := p[..|p| - 1];
      assert Clean(q) by {
        forall i | 0 <= i < |q| ensures IsSegment(q[i]) { assert q[i] == p[i]; }
      }
      TextHead(q);
    }
  }

  /** Index of the last occurrence of `c` in `s`, or -1. */
  function LastIndex(s: string, c: char): (i: int)
    ensures -1 <= i < |s|
    ensures i >= 0 ==> s[i] == c
    ensures forall j :: i < j < |s| ==> s[j] != c
    decreases |s|
  {
    if s == "" then -1
    else if s[|s| - 1] == c then |s| - 1
    else LastIndex(s[..|s| - 1], c)
  }

  /** `s` without its trailing separators. */
  function StripTrailingSlashes(s: string): (t: string)
    ensures |t| <= |s| && t == s[..|t|]
    ensures t == "" || t[|t| - 1] != '/'
    ensures forall j :: |t| <= j < |s| ==> s[j] == '/'
    decreases |s|
  {
    if s != "" && s[|s| - 1] == '/' then StripTrailingSlashes(s[..|s| - 1]) else s
  }

  /** `path.basename(s)` */
  function BasenameText(s: string): (b: string)
    ensures '/' !in b
  {
    var t := StripTrailingSlashes(s);
    var i := LastIndex(t, '/');
    var b := t[i + 1..];
    assert forall j :: 0 <= j < |b| ==> b[j] == t[i + 1 + j];
    b
  }

  /** `path.dirname(s)` */
  function DirnameText(s: string): string
  {
    if s == "" then "."
    else
      var t := StripTrailingSlashes(s);
      if t == "" then "/"
      else
        var e := LastIndex(t, '/');
        if e == -1 then "."
        else if e == 0 then "/"
        else if e == 1 && t[0] == '/' then "//"
        else t[..e]
  }

  /** `path.extname` of a file name (a segment). */
  function Extname(name: string): (ext: string)
    ensures ext == "" || (ext[0] == '.' && '.' !in ext[1..])
  {
    var i := LastIndex(name, '.');
    if i <= 0 || name == ".." then ""
    else
      var ext := name[i..];
      assert forall j :: 1 <= j < |ext| ==> ext[j] == name[i + j];
      ext
  }

  /** A stem followed by an extension without further dots has exactly that extension. */
  lemma ExtnameOfSuffix(stem: string, ext: string)
    requires stem != "" && |ext| > 1 && ext[0] == '.' && '.' !in ext[1..]
    ensures Extname(stem + ext) == ext
  {
    var name := stem + ext;
    forall j | |stem| < j < |name| ensures name[j] != '.' {
      assert name[j] == ext[j - |stem|] == ext[1..][j - |stem| - 1];
    }
    assert name[|stem|] == '.';
    var i := LastIndex(name, '.');
    assert i == |stem|;
    assert |name| > 2;
    assert name[i..] == ext;
  }

  /** `path.join(a, b)`: the non-empty arguments joined with `/`, then normalised. */
  function JoinText(a: string, b: string): string
  {
    var joined := if a == "" then b else if b == "" then a else a + "/" + b;
    if joined == "" then "." else Normalize(joined)
  }

  /**
   * One segment of `path.normalize`: empty and `.` segments vanish, `..`
   * removes the last ordinary segment; with none to remove it is kept in a
   * relative path and dropped at the root of an absolute one.
   */
  function NormStep(p: Path, s: string, relative: bool): Path
  {
    if s == "" || s == "." then p
    else if s == ".." then
      if p != [] && p[|p| - 1] != ".." then p[..|p| - 1]
      else if relative then p + [".."]
      else p
    else p + [s]
  }

  /** The segments `path.normalize` keeps from `segs`, folded left onto `p`. */
  function NormFold(p: Path, segs: seq<string>, relative: bool): Path
    decreases |segs|
  {
    if segs == [] then p else NormFold(NormStep(p, segs[0], relative), segs[1..], relative)
  }

  /**
   * `path.normalize(s)` for a non-empty `s`: repeated separators collapse,
   * `.` segments vanish and `..` folds, a leading and a trailing separator
   * are kept, an empty relative result is `.`.
   */
  function Normalize(s: string): string
    requires s != ""
  {
    var abs := s[0] == '/';
    var trailing := s[|s| - 1] == '/';
    var body := Text(NormFold([], Split(s), !abs));
    if body == "" then (if abs then "/" else if trailing then "./" else ".")
    else (if abs then "/" else "") + body + (if trailing then "/" else "")
  }

  /** A normalised relative path: leading `..` segments, then ordinary segments only. */
  predicate UpsThenClean(p: Path)
  {
    forall i :: 0 <= i < |p| ==> IsSegment(p[i]) || (p[i] == ".." && forall j :: 0 <= j < i ==> p[j] == "..")
  }

  /** The pieces `Split` cuts are not empty and hold no separator. */
  lemma {:induction false} SplitPieces(s: string)
    ensures forall i :: 0 <= i < |Split(s)| ==> Split(s)[i] != "" && '/' !in Split(s)[i]
    decreases |s|
  {
    if s != "" {
      var i := LastIndex(s, '/');
      if i != -1 {
        SplitPieces(s[..i]);
        if i != |s| - 1 {
          var x := s[i + 1..];
          forall j | 0 <= j < |x| ensures x[j] != '/' { assert x[j] == s[i + 1 + j]; }
        }
      }
    }
  }

  /**
   * Normalising keeps a path in its normal form: no `.` or empty segment
   * survives, `..` only at the front of a relative path and never in an
   * absolute one.
   */
  lemma {:induction false} NormFoldShape(p: Path, segs: seq<string>, relative: bool)
    requires forall i :: 0 <= i < |segs| ==> segs[i] != "" && '/' !in segs[i]
    requires UpsThenClean(p) && (!relative ==> Clean(p))
    ensures UpsThenClean(NormFold(p, segs, relative))
    ensures !relative ==> Clean(NormFold(p, segs, relative))
    decreases |segs|
  {
    if segs != [] {
      var q := NormStep(p, segs[0], relative);
      var s0 := segs[0];
      if s0 == ".." && p != [] && p[|p| - 1] != ".." {
        assert q == p[..|p| - 1];
      } else if s0 == ".." && relative {
        assert q == p + [".."];
        assert forall j :: 0 <= j < |p| ==> p[j] == ".." by {
          forall j | 0 <= j < |p| ensures p[j] == ".." {
            var l := |p| - 1;
            assert p[l] == ".." && !IsSegment(p[l]);
          }
        }
      }
      assert UpsThenClean(q) && (!relative ==> Clean(q));
      NormFoldShape(q, segs[1..], relative);
    }
  }

  /**
   * The segments `path.normalize` renders are in normal form: ordinary
   * segments after any leading `..`, and ordinary segments only in an
   * absolute path.
   */
  lemma NormalizedForm(s: string)
    requires s != ""
    ensures UpsThenClean(NormFold([], Split(s), s[0] != '/'))
    ensures s[0] == '/' ==> Clean(NormFold([], Split(s), false))
  {
    SplitPieces(s);
    NormFoldShape([], Split(s), s[0] != '/');
  }

  /** Ordinary segments are appended as they are. */
  lemma {:induction false} NormFoldClean(p: Path, rel: Path, relative: bool)
    requires Clean(rel)
    ensures NormFold(p, rel, relative) == p + rel
    decreases |rel|
  {
    if rel != [] {
      assert NormStep(p, rel[0], relative) == p + [rel[0]];
      CleanSuffix(rel, 1);
      NormFoldClean(p + [rel[0]], rel[1..], relative);
      assert p + [rel[0]] + rel[1..] == p + rel;
    }
  }

  /** Appending a separator and a `.` or `..` piece appends that piece. */
  lemma SplitDots(u: string, x: string)
    requires x == "." || x == ".."
    ensures Split(u + "/" + x) == Split(u) + [x]
  {
    var s := u + "/" + x;
    assert s[|u|] == '/';
    forall j | |u| < j < |s| ensures s[j] != '/' { assert s[j] == x[j - |u| - 1]; }
    assert LastIndex(s, '/') == |u|;
    assert s[..|u|] == u && s[|u| + 1..] == x;
  }

  /** `path.join('./out', 'foo')` is `out/foo`: a `.` segment vanishes. */
  lemma JoinDropsDot()
    ensures JoinText("./out", "foo") == "out/foo"
  {
    assert LastIndex(".", '/') == -1 && Split(".") == ["."];
    SplitSnoc(".", "out");
    assert "." + "/" + "out" == "./out";
    SplitSnoc("./out", "foo");
    assert "./out" + "/" + "foo" == "./out/foo";
    assert NormFold([], [".", "out", "foo"], true) == ["out", "foo"];
    assert Text(["out", "foo"]) == "out/foo";
    var j := "./out/foo";
    assert j[0] == '.' && j[|j| - 1] == 'o';
    assert Normalize(j) == "out/foo";
  }

  /** `path.join('a/../..', 'b')` is `../b`: `..` climbs above a relative start. */
  lemma JoinKeepsLeadingUps()
    ensures JoinText("a/../..", "b") == "../b"
  {
    var j := "a/../../b";
    assert "a/../.." + "/" + "b" == j && j[0] == 'a' && j[|j| - 1] == 'b';
    SplitUpsExample();
    assert NormFold([], ["a", "..", "..", "b"], true) == ["..", "b"];
    NormalizeRelative(j, ["a", "..", "..", "b"], ["..", "b"]);
    assert Text(["..", "b"]) == "../b";
  }

  lemma SplitUpsExample()
    ensures Split("a/../../b") == ["a", "..", "..", "b"]
  {
    SplitUpsThen("a", "b");
    assert "a" + "/" + ".." + "/" + ".." + "/" + "b" == "a/../../b";
  }

  /** A segment climbed out of twice, then another segment. */
  lemma SplitUpsThen(a: string, b: string)
    requires IsSegment(a) && IsSegment(b)
    ensures Split(a + "/" + ".." + "/" + ".." + "/" + b) == [a, "..", "..", b]
  {
    SplitSegment(a);
    SplitDots(a, "..");
    SplitDots(a + "/" + "..", "..");
    SplitSnoc(a + "/" + ".." + "/" + "..", b);
  }

  /** A single segment splits into itself. */
  lemma SplitSegment(a: string)
    requires IsSegment(a)
    ensures Split(a) == [a]
  {
    if LastIndex(a, '/') != -1 {
      assert a[LastIndex(a, '/')] in a;
    }
  }

  /** `path.join('/', '../x')` is `/x`: `..` stops at the root. */
  lemma JoinStopsAtRoot()
    ensures JoinText("/", "../x") == "/x"
  {
    NormalizeRootUp("x");
    assert "/" + "/" + "../x" == "/" + "/" + ".." + "/" + "x";
  }

  /** `..` directly below the root is dropped. */
  lemma NormalizeRootUp(x: string)
    requires IsSegment(x)
    ensures Normalize("/" + "/" + ".." + "/" + x) == "/" + x
  {
    var s := "/" + "/" + ".." + "/" + x;
    assert s[0] == '/' && s[|s| - 1] == x[|x| - 1];
    assert x[|x| - 1] in x;
    SplitRootUp(x);
    assert NormStep([], "..", false) == [] && NormStep([], x, false) == [x];
    assert ["..", x][1..] == [x] && [x][1..] == [];
    assert NormFold([], [x], false) == NormFold([x], [], false) == [x];
    assert NormFold([], ["..", x], false) == [x];
    NormalizeAbsolute(s, ["..", x], [x]);
  }

  /** Below a doubled root, `..` and then a segment. */
  lemma SplitRootUp(x: string)
    requires IsSegment(x)
    ensures Split("/" + "/" + ".." + "/" + x) == ["..", x]
  {
    var r := "/";
    assert LastIndex(r, '/') == 0 && Split(r) == [];
    SplitDots(r, "..");
    SplitSnoc(r + "/" + "..", x);
  }

  /** Normalising a relative text without a trailing separator renders the folded segments. */
  lemma NormalizeRelative(s: string, segs: seq<string>, p: Path)
    requires s != "" && s[0] != '/' && s[|s| - 1] != '/'
    requires Split(s) == segs && NormFold([], segs, true) == p && Text(p) != ""
    ensures Normalize(s) == Text(p)
  {
  }

  /** Normalising an absolute text without a trailing separator renders the folded segments after the root. */
  lemma NormalizeAbsolute(s: string, segs: seq<string>, p: Path)
    requires s != "" && s[0] == '/' && s[|s| - 1] != '/'
    requires Split(s) == segs && NormFold([], segs, false) == p && Text(p) != ""
    ensures Normalize(s) == "/" + Text(p)
  {
  }

  /** The separator that ends `t` is the last one of `t + x`. */
  lemma LastSlashAt(t: string, x: string)
    requires |t| > 0 && t[|t| - 1] == '/' && IsSegment(x)
    ensures LastIndex(t + x, '/') == |t| - 1
  {
    var s := t + x;
    forall j | |t| <= j < |s| ensures s[j] != '/' {
      assert s[j] == x[j - |t|];
      assert x[j - |t|] in x;
    }
    assert s[|t| - 1] == '/';
  }

  /** A path text that ends in a segment has no trailing separator to strip. */
  lemma NoTrailingSlash(u: string, x: string)
    requires IsSegment(x)
    ensures StripTrailingSlashes(u + "/" + x) == u + "/" + x
  {
    var s := u + "/" + x;
    assert s[|s| - 1] == x[|x| - 1];
    assert x[|x| - 1] in x;
  }

  /** The last segment of `u + "/" + x` is `x`, and everything before the separator is `u`. */
  lemma LastSegment(u: string, x: string)
    requires IsSegment(x)
    ensures StripTrailingSlashes(u + "/" + x) == u + "/" + x
    ensures LastIndex(u + "/" + x, '/') == |u|
    ensures (u + "/" + x)[..|u|] == u
  {
    NoTrailingSlash(u, x);
    LastSlashAt(u + "/", x);
  }

  lemma BasenameOfLast(u: string, x: string)
    requires IsSegment(x)
    ensures BasenameText(u + "/" + x) == x
  {
    var s := u + "/" + x;
    LastSegment(u, x);
    assert s[|u| + 1..] == x;
  }

  /** Appending a relative path's text after a separator appends its segments. */
  lemma {:induction false} SplitAppendText(u: string, rel: Path)
    requires Clean(rel) && rel != []
    ensures Split(u + "/" + Text(rel)) == Split(u) + rel
    decreases |rel|
  {
    var x := rel[|rel| - 1];
    if |rel| == 1 {
      assert Text(rel) == x;
      SplitSnoc(u, x);
    } else {
      var q := rel[..|rel| - 1];
      assert Clean(q) by {
        forall i | 0 <= i < |q| ensures IsSegment(q[i]) { assert q[i] == rel[i]; }
      }
      assert rel == q + [x];
      SplitAppendText(u, q);
      SplitAppendStep(u, q, x);
    }
  }

  lemma SplitAppendStep(u: string, q: Path, x: string)
    requires q != [] && IsSegment(x)
    requires Split(u + "/" + Text(q)) == Split(u) + q
    ensures Split(u + "/" + Text(q + [x])) == Split(u) + (q + [x])
  {
    var w := u + "/" + Text(q);
    AppendTextSnoc(u, q, x);
    SplitSnoc(w, x);
    assert Split(u) + (q + [x]) == (Split(u) + q) + [x];
  }

  lemma AppendTextSnoc(u: string, q: Path, x: string)
    requires q != []
    ensures u + "/" + Text(q + [x]) == (u + "/" + Text(q)) + "/" + x
  {
    TextSnoc(q, x);
  }

  /** The text of a clean non-empty path is followed by no separator. */
  lemma TextLast(p: Path)
    requires Clean(p) && p != []
    ensures |Text(p)| > 0 && Text(p)[|Text(p)| - 1] != '/'
  {
    var x := p[|p| - 1];
    assert x[|x| - 1] in x;
    if |p| > 1 {
      TextSnoc(p[..|p| - 1], x);
      assert p[..|p| - 1] + [x] == p;
    }
  }

  /** Two clean paths make a clean path. */
  lemma CleanConcat(a: Path, b: Path)
    requires Clean(a) && Clean(b)
    ensures Clean(a + b)
  {
    forall i | 0 <= i < |a + b| ensures IsSegment((a + b)[i]) {
      if i < |a| { assert (a + b)[i] == a[i]; } else { assert (a + b)[i] == b[i - |a|]; }
    }
  }

  /** Normalising text that ends in a segment renders its segments, after a separator when it had a leading one. */
  lemma NormalizeSegments(s: string, p: Path)
    requires s != "" && s[|s| - 1] != '/'
    requires Split(s) == p && Clean(p) && p != []
    ensures Normalize(s) == (if s[0] == '/' then "/" else "") + Text(p)
  {
    NormFoldClean([], p, s[0] != '/');
    assert [] + p == p;
    TextNonEmpty(p);
  }

  /** Joining two non-empty texts puts a separator between them before normalising. */
  lemma JoinNonEmptyTexts(a: string, b: string)
    requires a != "" && b != ""
    ensures JoinText(a, b) == Normalize(a + "/" + b)
    ensures (a + "/" + b)[0] == a[0]
    ensures (a + "/" + b)[|a + "/" + b| - 1] == b[|b| - 1]
  {
  }

  /** `path.join` of an absolute normalised path and a relative one is their concatenation. */
  lemma JoinAbsolute(pp: Path, rel: Path)
    requires Clean(pp) && Clean(rel) && rel != []
    ensures JoinText(AbsText(pp), Text(rel)) == AbsText(pp + rel)
  {
    var a, b := AbsText(pp), Text(rel);
    TextLast(rel);
    JoinNonEmptyTexts(a, b);
    SplitText("/", pp);
    SplitAppendText(a, rel);
    CleanConcat(pp, rel);
    NormalizeSegments(a + "/" + b, pp + rel);
  }

  /** `path.join` of a relative normalised prefix and a relative path is their concatenation. */
  lemma JoinRelative(pp: Path, rel: Path)
    requires Clean(pp) && pp != [] && Clean(rel) && rel != []
    ensures JoinText(Text(pp), Text(rel)) == Text(pp + rel)
  {
    var a, b := Text(pp), Text(rel);
    TextHead(pp);
    assert pp[0][0] in pp[0];
    TextLast(rel);
    JoinNonEmptyTexts(a, b);
    SplitText("", pp);
    assert "" + a == a;
    SplitAppendText(a, rel);
    CleanConcat(pp, rel);
    NormalizeSegments(a + "/" + b, pp + rel);
    assert a[0] != '/';
  }
}
