/** The path under which a shell is routed, and when two shells have the same. */
module RoutePaths {
  /** A shell with the fields that decide where it is routed; they do not change during its life. */
  datatype Shell = Shell(ns: string, name: string, prefix: string, suffix: string)

  const DEFAULT_PREFIX := "/apis/v1alpha1/cloudshell"

  predicate EndsInSlash(s: string) { |s| > 0 && s[|s| - 1] == '/' }

  function Base(x: Shell): string {
    if EndsInSlash(x.prefix) then x.prefix[..|x.prefix| - 1] else x.prefix
  }

  /** What comes after the default prefix. */
  function Tail(x: Shell): string {
    if |x.suffix| > 0 then "/" + x.name + "/" + x.suffix else "/" + x.name
  }

  /** SetRouteRulePath */
  function RoutePath(x: Shell): string {
    Base(x) + DEFAULT_PREFIX + Tail(x)
  }

  /** The path, written out: a final slash of the prefix is not doubled. */
  lemma RoutePathIs(x: Shell, p: string)
    requires x.prefix == p + "/" || (x.prefix == p && (p == "" || p[|p| - 1] != '/'))
    ensures RoutePath(x) == p + "/apis/v1alpha1/cloudshell" + "/" + x.name + if x.suffix == "" then "" else "/" + x.suffix
  {
    var tail := if x.suffix == "" then "" else "/" + x.suffix;
    assert "/" + x.name + tail == Tail(x);
    assert p + DEFAULT_PREFIX + "/" + x.name + tail == p + DEFAULT_PREFIX + ("/" + x.name + tail);
  }

  /** Two prefixes count as the same exactly when they are equal or one is the other with a slash added. */
  lemma SameBaseIff(x: Shell, y: Shell)
    ensures Base(x) == Base(y) <==>
            || x.prefix == y.prefix
            || (x.prefix == y.prefix + "/" && !EndsInSlash(y.prefix))
            || (y.prefix == x.prefix + "/" && !EndsInSlash(x.prefix))
  {
    if EndsInSlash(x.prefix) { assert x.prefix == Base(x) + "/"; }
    if EndsInSlash(y.prefix) { assert y.prefix == Base(y) + "/"; }
  }

  predicate NoSlash(s: string) { forall i :: 0 <= i < |s| ==> s[i] != '/' }

  /** The name reaches up to the second slash. */
  lemma NameEndsAtSlash(x: Shell)
    requires NoSlash(x.name)
    ensures forall i :: 0 <= i < |x.name| ==> Tail(x)[i + 1] == x.name[i] && Tail(x)[i + 1] != '/'
    ensures if |x.suffix| == 0 then |Tail(x)| == |x.name| + 1
            else |Tail(x)| > |x.name| + 1 && Tail(x)[|x.name| + 1] == '/' && Tail(x)[|x.name| + 2..] == x.suffix
  {}

  lemma TailsDiffer(x: Shell, y: Shell)
    requires NoSlash(x.name) && NoSlash(y.name)
    ensures Tail(x) == Tail(y) <==> x.name == y.name && x.suffix == y.suffix
  {
    NameEndsAtSlash(x);
    NameEndsAtSlash(y);
    if Tail(x) == Tail(y) {
      assert |x.name| == |y.name|;
      assert x.name == Tail(x)[1..|x.name| + 1] == y.name;
    }
  }

  /** The path of `x` contains the default prefix again, in its suffix, and what comes before that is the prefix
      of `y`. */
  ghost predicate Nested(x: Shell, y: Shell) {
    exists i :: 0 <= i < |Tail(x)| && Tail(x)[i..] == DEFAULT_PREFIX + Tail(y)
                && Base(y) == Base(x) + DEFAULT_PREFIX + Tail(x)[..i]
  }

  /** The default prefix does not overlap with itself. */
  lemma NoOverlap(n: nat, s: string)
    requires 0 < n < |DEFAULT_PREFIX|
    ensures !(DEFAULT_PREFIX <= (DEFAULT_PREFIX + s)[n..])
  {
    var t := (DEFAULT_PREFIX + s)[n..];
    assert t[0] == DEFAULT_PREFIX[n];
    if DEFAULT_PREFIX[n] == '/' {
      assert n == 5 || n == 14;
      assert t[1] == DEFAULT_PREFIX[n + 1] != 'a';
    }
  }

  /** A shorter prefix gives the same path only by nesting. */
  lemma SamePathNests(x: Shell, y: Shell)
    requires |Base(x)| < |Base(y)| && RoutePath(x) == RoutePath(y)
    ensures Nested(x, y)
  {
    var n := |Base(y)| - |Base(x)|;
    Split(Base(x), DEFAULT_PREFIX, Tail(x), Base(y), Tail(y));
    if n < |DEFAULT_PREFIX| {
      NoOverlap(n, Tail(x));
      assert false;
    }
    SplitBehind(Base(x), DEFAULT_PREFIX, Tail(x), Base(y), Tail(y));
    assert Tail(x)[n - |DEFAULT_PREFIX|..] == DEFAULT_PREFIX + Tail(y);
  }

  /** Two ways to read one path. */
  lemma Split(a: string, d: string, r: string, b: string, q: string)
    requires a + d + r == b + d + q && |a| < |b|
    ensures var n := |b| - |a|; n <= |d + r| && b == a + (d + r)[..n] && (d + r)[n..] == d + q
  {
    assert a + d + r == a + (d + r) && b + d + q == b + (d + q);
    assert (a + (d + r))[..|b|] == b && (a + (d + r))[|b|..] == d + q;
  }

  lemma SplitBehind(a: string, d: string, r: string, b: string, q: string)
    requires |a| + |d| <= |b| <= |a| + |d| + |r|
    requires b == a + (d + r)[..|b| - |a|] && (d + r)[|b| - |a|..] == d + q
    ensures var i := |b| - |a| - |d|; b == a + d + r[..i] && r[i..] == d + q
  {
    var i := |b| - |a| - |d|;
    assert (d + r)[..|d| + i] == d + r[..i] && (d + r)[|d| + i..] == r[i..];
  }

  lemma NestedIsSamePath(x: Shell, y: Shell)
    requires Nested(x, y)
    ensures RoutePath(x) == RoutePath(y)
  {
    var i :| 0 <= i < |Tail(x)| && Tail(x)[i..] == DEFAULT_PREFIX + Tail(y)
             && Base(y) == Base(x) + DEFAULT_PREFIX + Tail(x)[..i];
    Join(Base(x), DEFAULT_PREFIX, Tail(x), i, Base(y), Tail(y));
  }

  lemma Join(a: string, d: string, r: string, i: nat, b: string, q: string)
    requires i <= |r| && r[i..] == d + q && b == a + d + r[..i]
    ensures a + d + r == b + d + q
  {
    assert r == r[..i] + (d + q);
  }

  /** Two shells have the same path exactly when their prefixes agree up to a final slash and name and suffix are the
      same, or when the suffix of one of them contains the default prefix at the right place; names hold no slash. */
  lemma PathsDiffer(x: Shell, y: Shell)
    requires NoSlash(x.name) && NoSlash(y.name)
    ensures RoutePath(x) == RoutePath(y) <==>
            (Base(x) == Base(y) && x.name == y.name && x.suffix == y.suffix) || Nested(x, y) || Nested(y, x)
  {
    TailsDiffer(x, y);
    if Nested(x, y) { NestedIsSamePath(x, y); }
    if Nested(y, x) { NestedIsSamePath(y, x); }
    if RoutePath(x) == RoutePath(y) {
      if |Base(x)| < |Base(y)| {
        SamePathNests(x, y);
      } else if |Base(y)| < |Base(x)| {
        SamePathNests(y, x);
      } else {
        SameBase(Base(x), Tail(x), Base(y), Tail(y));
      }
    }
  }

  lemma SameBase(a: string, r: string, b: string, q: string)
    requires |a| == |b| && a + DEFAULT_PREFIX + r == b + DEFAULT_PREFIX + q
    ensures a == b && r == q
  {
    var s := a + DEFAULT_PREFIX + r;
    assert a == s[..|a|] == b;
    assert r == s[|a + DEFAULT_PREFIX|..] == q;
  }

  lemma SlashesOf(x: Shell, j: nat)
    requires NoSlash(x.name) && NoSlash(x.suffix) && j < |Tail(x)|
    ensures Tail(x)[j] == '/' ==> j == 0 || j == |x.name| + 1
  {}

  lemma SlashesOfDefault(s: string, t: string)
    requires s == DEFAULT_PREFIX + t
    ensures |s| > 14 && s[0] == s[5] == s[14] == '/'
  {}

  /** Without a slash in the suffix there is no nesting. */
  lemma PlainSuffixDoesNotNest(x: Shell, y: Shell)
    requires NoSlash(x.name) && NoSlash(x.suffix)
    ensures !Nested(x, y)
  {
    forall i | 0 <= i < |Tail(x)| ensures Tail(x)[i..] != DEFAULT_PREFIX + Tail(y) {
      if Tail(x)[i..] == DEFAULT_PREFIX + Tail(y) {
        SlashesOfDefault(Tail(x)[i..], Tail(y));
        SlashesOf(x, i);
        SlashesOf(x, i + 5);
        assert false;
      }
    }
  }

  /** The namespace is not part of the path: two shells of one name that share a table across namespaces collide. */
  lemma NamespacesCollide(x: Shell, ns: string)
    ensures RoutePath(x) == RoutePath(x.(ns := ns))
  {}
}
