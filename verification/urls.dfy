/**
 * `relative_url` of the Neo4j engine, with the parts of `urlparse` and `posixpath`
 * it relies on: the network location and path of a URL, `dirname`, and `relpath`.
 */
module Urls {
  import opened Values
  import opened Strings

  /** The characters `urlparse` accepts in a scheme name. */
  predicate IsSchemeChar(c: char) {
    IsAlnum(c) || c == '+' || c == '-' || c == '.'
  }

  /** The two parts of a parsed URL that `relative_url` looks at. */
  datatype UrlParts = UrlParts(netloc: string, path: string)

  /** Everything before the first `?` or `#`: the query and the fragment are cut off. */
  function CutQuery(s: string): (r: string)
    ensures |r| <= |s| && s[..|r|] == r
    ensures '?' !in r && '#' !in r
    ensures '?' !in s && '#' !in s ==> r == s
  {
    if s == [] || s[0] == '?' || s[0] == '#' then [] else [s[0]] + CutQuery(s[1..])
  }

  /** Length of the network location that follows `//`: up to the first `/`, `?` or `#`. */
  function NetlocLength(s: string): (n: nat)
    ensures n <= |s|
    ensures forall i :: 0 <= i < n ==> s[i] != '/' && s[i] != '?' && s[i] != '#'
    ensures n < |s| ==> s[n] == '/' || s[n] == '?' || s[n] == '#'
  {
    if s == [] || s[0] == '/' || s[0] == '?' || s[0] == '#' then 0 else 1 + NetlocLength(s[1..])
  }

  /**
   * The URL without its scheme. A prefix before the first `:` is a scheme when it is
   * `http`, or when it is made of scheme characters and what follows is not a port number.
   */
  function DropScheme(url: string): (r: string)
    ensures |r| <= |url| && url[|url| - |r|..] == r
    ensures ':' !in url ==> r == url
  {
    match Find(url, ':')
    case None => url
    case Some(i) =>
      var scheme, rest := url[..i], url[i + 1..];
      if i > 0 && (scheme == "http" || ((forall k :: 0 <= k < i ==> IsSchemeChar(scheme[k])) && (rest == [] || !AllDigits(rest))))
      then rest
      else url
  }

  /** `urlparse(url)`, restricted to the network location and the path. */
  function SplitUrl(url: string): (p: UrlParts)
    ensures ':' !in url && !(|url| >= 2 && url[..2] == "//") && '?' !in url && '#' !in url ==> p == UrlParts("", url)
  {
    var u := DropScheme(url);
    if |u| >= 2 && u[..2] == "//" then
      var after := u[2..];
      var n := NetlocLength(after);
      UrlParts(after[..n], CutQuery(after[n..]))
    else
      UrlParts("", CutQuery(u))
  }

  predicate AllSlashes(s: string) {
    forall i :: 0 <= i < |s| ==> s[i] == '/'
  }

  /** `posixpath.dirname`: the part up to the last `/`, trailing slashes removed unless it is all slashes. */
  function Dirname(p: string): (r: string)
    ensures |r| <= |p| && p[..|r|] == r
  {
    var tail := AfterLast(p, '/');
    var head := p[..|p| - |tail|];
    if head != [] && !AllSlashes(head) then RStrip(head, '/') else head
  }

  /** A path segment that normalisation keeps as it is. */
  predicate Plain(seg: string) {
    seg != "" && seg != "." && seg != ".."
  }

  predicate AllPlain(segs: seq<string>) {
    forall k :: 0 <= k < |segs| ==> Plain(segs[k])
  }

  /**
   * The segments of `posixpath.abspath` of a relative path, taking the working directory
   * to be `/`: empty and `.` segments vanish, `..` removes the segment before it and is
   * dropped at the root.
   */
  function Normalize(segs: seq<string>): (r: seq<string>)
    ensures AllPlain(r)
  {
    if segs == [] then []
    else
      var prefix := Normalize(segs[..|segs| - 1]);
      var last := segs[|segs| - 1];
      if last == "" || last == "." then prefix
      else if last == ".." then (if prefix == [] then [] else prefix[..|prefix| - 1])
      else prefix + [last]
  }

  /** Segments that need no normalisation are kept, after whatever the prefix normalises to. */
  lemma {:induction false} NormalizeAppendPlain(xs: seq<string>, ys: seq<string>)
    requires AllPlain(ys)
    ensures Normalize(xs + ys) == Normalize(xs) + ys
  {
    if ys != [] {
      var zs := xs + ys;
      assert zs[..|zs| - 1] == xs + ys[..|ys| - 1];
      NormalizeAppendPlain(xs, ys[..|ys| - 1]);
    } else {
      assert xs + ys == xs;
    }
  }

  /** `len(commonprefix([a, b]))` on lists of segments. */
  function CommonPrefixLength(a: seq<string>, b: seq<string>): (n: nat)
    ensures n <= |a| && n <= |b| && a[..n] == b[..n]
    ensures n < |a| && n < |b| ==> a[n] != b[n]
  {
    if a == [] || b == [] || a[0] != b[0] then 0
    else
      var n := CommonPrefixLength(a[1..], b[1..]);
      assert a[..n + 1] == [a[0]] + a[1..][..n];
      assert b[..n + 1] == [b[0]] + b[1..][..n];
      n + 1
  }

  function Repeat(seg: string, n: nat): (r: seq<string>)
    ensures |r| == n && forall k :: 0 <= k < n ==> r[k] == seg
  {
    if n == 0 then [] else [seg] + Repeat(seg, n - 1)
  }

  /** `posixpath.relpath(path, start)` with the working directory taken to be `/`. */
  function RelPath(path: string, start: string): (r: string)
    ensures r != []
  {
    var s := Normalize(Split(start, '/'));
    var p := Normalize(Split(path, '/'));
    var i := CommonPrefixLength(s, p);
    var rel := Repeat("..", |s| - i) + p[i..];
    if rel == [] then "." else JoinHead(rel, '/'); Join(rel, '/')
  }

  /**
   * `relative_url(target, base)`: fails with ValueError when the two network locations
   * differ, otherwise the `/`-rooted path of the target relative to the directory of the base.
   */
  function RelativeUrl(target: string, base: string): (r: Result<string>)
    ensures r.Err? <==> SplitUrl(base).netloc != SplitUrl(target).netloc
    ensures r.Err? ==> r.error == ValueError
    ensures r.Ok? ==> |r.value| > 0 && r.value[0] == '/'
  {
    var b := SplitUrl(base);
    var t := SplitUrl(target);
    if b.netloc != t.netloc then Err(ValueError)
    else Ok("/" + RelPath("." + t.path, "." + Dirname(b.path)))
  }

  /** Relative to a directory, a path below it is the remaining segments. */
  lemma RelPathBelow(dir: string, rel: string)
    requires AllPlain(Split(rel, '/'))
    ensures RelPath(dir + "/" + rel, dir) == rel
  {
    var path := dir + "/" + rel;
    assert path == dir + ['/'] + rel;
    SplitAround(dir, '/', rel);
    var ys := Split(rel, '/');
    var s := Normalize(Split(dir, '/'));
    NormalizeAppendPlain(Split(dir, '/'), ys);
    var p := Normalize(Split(path, '/'));
    assert p == s + ys;
    var i := CommonPrefixLength(s, p);
    assert i == |s|;
    assert Repeat("..", |s| - i) + p[i..] == ys;
    JoinSplit(rel, '/');
  }

  /**
   * A target that lies under the base's directory, at a path whose segments need no
   * normalisation, is addressed by exactly that remaining path.
   */
  lemma RelativeUrlUnderBase(target: string, base: string, rel: string)
    requires SplitUrl(target).netloc == SplitUrl(base).netloc
    requires SplitUrl(target).path == Dirname(SplitUrl(base).path) + "/" + rel
    requires AllPlain(Split(rel, '/'))
    ensures RelativeUrl(target, base) == Ok("/" + rel)
  {
    var d := Dirname(SplitUrl(base).path);
    DotBeforeSubpath(d, rel);
    RelPathBelow("." + d, rel);
  }

  /** Marking a path as relative with `.` marks its directory the same way. */
  lemma DotBeforeSubpath(dir: string, rel: string)
    ensures "." + (dir + "/" + rel) == ("." + dir) + "/" + rel
  {
  }
}
