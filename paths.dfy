/**
 * Request-path normalisation and route matching, shared by both gates.
 *
 * The gates build the regular expression `^{route}(/.*)?$` from a route
 * whose trailing slashes were trimmed and test it against the normalised
 * path. With a route free of regular-expression metacharacters and a
 * path free of line breaks, that expression holds exactly when the path
 * equals the trimmed route or starts with it followed by "/"; that is
 * the literal match modelled here.
 */
module Paths {

  /** No two consecutive slashes. */
  predicate NoDoubleSlash(s: string) {
    forall k :: 0 <= k < |s| - 1 ==> !(s[k] == '/' && s[k + 1] == '/')
  }

  /** s with every '/' removed: what collapsing slashes must not touch. */
  function WithoutSlashes(s: string): string {
    if s == [] then [] else (if s[0] == '/' then [] else [s[0]]) + WithoutSlashes(s[1..])
  }

  /** `preg_replace("#/+#", "/", s)`: every run of slashes becomes one slash. */
  function CollapseSlashes(s: string): (r: string)
    ensures NoDoubleSlash(r)
    ensures WithoutSlashes(r) == WithoutSlashes(s)
    ensures |r| <= |s|
    ensures s != [] ==> r != [] && r[0] == s[0]
  {
    if |s| <= 1 then s
    else if s[0] == '/' && s[1] == '/' then CollapseSlashes(s[1..])
    else [s[0]] + CollapseSlashes(s[1..])
  }

  /** A string without runs of slashes is left as it is. */
  lemma {:induction false} CollapseKeepsClean(s: string)
    requires NoDoubleSlash(s)
    ensures CollapseSlashes(s) == s
  {
    if |s| > 1 {
      assert !(s[0] == '/' && s[1] == '/');
      assert NoDoubleSlash(s[1..]) by {
        forall k | 0 <= k < |s[1..]| - 1 ensures !(s[1..][k] == '/' && s[1..][k + 1] == '/') {
          assert s[1..][k] == s[k + 1] && s[1..][k + 1] == s[k + 2];
        }
      }
      CollapseKeepsClean(s[1..]);
    }
  }

  /**
   * A run of two slashes collapses as one slash does, wherever it stands.
   * With CollapseKeepsClean this fixes the function: repeating this step
   * shortens every run to one slash, and the result is then left alone.
   */
  lemma {:induction false} CollapseRun(a: string, b: string)
    ensures CollapseSlashes(a + "//" + b) == CollapseSlashes(a + "/" + b)
  {
    var s := a + "//" + b;
    var t := a + "/" + b;
    if a == [] {
      assert s[1..] == t;
    } else {
      assert s[0] == t[0] == a[0];
      assert s[1] == t[1];
      assert s[1..] == a[1..] + "//" + b;
      assert t[1..] == a[1..] + "/" + b;
      CollapseRun(a[1..], b);
    }
  }

  /** Normalisation, too, treats a doubled slash as one. */
  lemma NormalizeRun(a: string, b: string)
    ensures Normalize(a + "//" + b) == Normalize(a + "/" + b)
  {
    CollapseRun("/" + a, b);
    assert "/" + (a + "//" + b) == ("/" + a) + "//" + b;
    assert "/" + (a + "/" + b) == ("/" + a) + "/" + b;
  }

  /** Collapsing twice is collapsing once. */
  lemma CollapseIdempotent(s: string)
    ensures CollapseSlashes(CollapseSlashes(s)) == CollapseSlashes(s)
  {
  }

  /** A prefix without runs of slashes survives collapsing, whatever follows it. */
  lemma {:induction false} CollapseKeepsCleanPrefix(a: string, b: string)
    requires NoDoubleSlash(a)
    ensures a <= CollapseSlashes(a + b)
  {
    if |a| == 1 {
      assert (a + b)[0] == a[0];
    } else if |a| > 1 {
      assert !(a[0] == '/' && a[1] == '/');
      assert (a + b)[0] == a[0] && (a + b)[1] == a[1];
      assert (a + b)[1..] == a[1..] + b;
      assert NoDoubleSlash(a[1..]) by {
        forall k | 0 <= k < |a[1..]| - 1 ensures !(a[1..][k] == '/' && a[1..][k + 1] == '/') {
          assert a[1..][k] == a[k + 1] && a[1..][k + 1] == a[k + 2];
        }
      }
      CollapseKeepsCleanPrefix(a[1..], b);
      assert CollapseSlashes(a + b) == [a[0]] + CollapseSlashes(a[1..] + b);
    }
  }

  /** The path both gates match against: "/" + path with runs of slashes collapsed. */
  function Normalize(path: string): (uri: string)
    ensures uri != [] && uri[0] == '/'
    ensures NoDoubleSlash(uri)
    ensures WithoutSlashes(uri) == WithoutSlashes(path)
  {
    assert WithoutSlashes("/" + path) == WithoutSlashes(path) by {
      assert ("/" + path)[1..] == path;
    }
    CollapseSlashes("/" + path)
  }

  /**
   * A request path without runs of slashes is only given its leading
   * "/": together with NormalizeRun this fixes Normalize.
   */
  lemma NormalizeKeepsClean(path: string)
    requires NoDoubleSlash(path)
    ensures Normalize(path) == if path != [] && path[0] == '/' then path else "/" + path
  {
    var s := "/" + path;
    assert s[1..] == path;
    if path != [] && path[0] == '/' {
      assert CollapseSlashes(s) == CollapseSlashes(path);
      CollapseKeepsClean(path);
    } else {
      forall k | 0 <= k < |s| - 1 ensures !(s[k] == '/' && s[k + 1] == '/') {
        if k > 0 {
          assert s[k] == path[k - 1] && s[k + 1] == path[k];
        }
      }
      CollapseKeepsClean(s);
    }
  }

  /** Normalising a normalised path changes nothing. */
  lemma NormalizeIdempotent(path: string)
    ensures Normalize(Normalize(path)) == Normalize(path)
  {
    var uri := Normalize(path);
    var s := "/" + uri;
    assert s[0] == '/' && s[1] == '/' && s[1..] == uri;
    assert CollapseSlashes(s) == CollapseSlashes(uri);
    CollapseKeepsClean(uri);
  }

  /** `rtrim(s, "/")`: every trailing slash removed, nothing else. */
  function RTrimSlash(s: string): (r: string)
    ensures r <= s
    ensures r == [] || r[|r| - 1] != '/'
    ensures forall k :: |r| <= k < |s| ==> s[k] == '/'
  {
    if s != [] && s[|s| - 1] == '/' then RTrimSlash(s[..|s| - 1]) else s
  }

  /** The gates' route test: the path is the trimmed route or lies below it. */
  predicate RouteMatches(uri: string, route: string) {
    var t := RTrimSlash(route);
    uri == t || t + "/" <= uri
  }

  /**
   * The match read character by character: the trimmed route is a prefix
   * of the path, and the path either ends there or goes on with "/".
   */
  lemma RouteMatchesIff(uri: string, route: string)
    ensures RouteMatches(uri, route) <==>
              var t := RTrimSlash(route); t <= uri && (|uri| == |t| || uri[|t|] == '/')
  {
  }

  /** A route made only of slashes (the default "/" among them) matches every normalised path. */
  lemma SlashRouteMatchesAll(uri: string, route: string)
    requires uri != [] && uri[0] == '/'
    requires forall k :: 0 <= k < |route| ==> route[k] == '/'
    ensures RouteMatches(uri, route)
  {
  }

  /** Trailing slashes on a route make no difference. */
  lemma TrailingSlashIrrelevant(uri: string, route: string)
    ensures RouteMatches(uri, route + "/") == RouteMatches(uri, route)
  {
  }

  /**
   * A well-formed route (after trimming: empty, or starting with "/"
   * without runs of slashes) matches the request path it names and every
   * path below it, before normalisation.
   */
  lemma SubtreeMatches(route: string, rest: string)
    requires var t := RTrimSlash(route); t == [] || (t[0] == '/' && NoDoubleSlash(t))
    ensures RouteMatches(Normalize(RTrimSlash(route)), route)
    ensures RouteMatches(Normalize(RTrimSlash(route) + "/" + rest), route)
  {
    var t := RTrimSlash(route);
    if t == [] {
      assert Normalize(t + "/" + rest)[0] == '/';
      assert t + "/" == "/";
    } else {
      assert Normalize(t) == t by {
        var s := "/" + t;
        assert s[0] == '/' && s[1] == '/' && s[1..] == t;
        CollapseKeepsClean(t);
      }
      assert t + "/" <= Normalize(t + "/" + rest) by {
        var u := "/" + (t + "/" + rest);
        assert u[0] == '/' && u[1] == '/' && u[1..] == (t + "/") + rest;
        CleanWithSlash(t);
        CollapseKeepsCleanPrefix(t + "/", rest);
      }
    }
  }

  /** A clean string that does not end in "/" stays clean with one "/" appended. */
  lemma CleanWithSlash(t: string)
    requires NoDoubleSlash(t) && (t == [] || t[|t| - 1] != '/')
    ensures NoDoubleSlash(t + "/")
  {
    forall k | 0 <= k < |t + "/"| - 1 ensures !((t + "/")[k] == '/' && (t + "/")[k + 1] == '/') {
      if k < |t| - 1 {
        assert (t + "/")[k] == t[k] && (t + "/")[k + 1] == t[k + 1];
      } else {
        assert (t + "/")[k] == t[|t| - 1];
      }
    }
  }

  /**
   * A route that keeps a run of slashes after trimming matches no
   * normalised path: routes are trimmed, not collapsed.
   */
  lemma {:induction false} DoubleSlashRouteNeverMatches(uri: string, route: string, k: nat)
    requires NoDoubleSlash(uri)
    requires k + 1 < |RTrimSlash(route)|
    requires RTrimSlash(route)[k] == '/' && RTrimSlash(route)[k + 1] == '/'
    ensures !RouteMatches(uri, route)
  {
    var t := RTrimSlash(route);
    assert (t + "/")[k] == '/' && (t + "/")[k + 1] == '/';
  }

  /** A sibling that merely extends the route's last segment does not match. */
  lemma SiblingDoesNotMatch(route: string, c: char, rest: string)
    requires c != '/'
    ensures !RouteMatches(RTrimSlash(route) + [c] + rest, route)
  {
    var t := RTrimSlash(route);
    var uri := t + [c] + rest;
    assert uri[|t|] == c;
    assert (t + "/")[|t|] == '/';
  }

  /**
   * A route option: PHP accepts a single string or a list of strings and
   * iterates over `(array)` of it; null (no route) becomes the empty list.
   */
  datatype Routes = NoRoutes | Single(route: string) | Many(routes: seq<string>)

  /** `(array)` of a route option. */
  function AsList(r: Routes): (l: seq<string>)
    ensures |l| == 0 <==> r == NoRoutes || r == Many([])
    ensures forall s :: s in l <==> s in (match r case NoRoutes => {} case Single(p) => {p} case Many(ps) => set q | q in ps)
  {
    match r
    case NoRoutes => []
    case Single(p) => [p]
    case Many(ps) => ps
  }

  /** Some route of the list matches the path. */
  predicate AnyRouteMatches(uri: string, routes: seq<string>) {
    exists k :: 0 <= k < |routes| && RouteMatches(uri, routes[k])
  }

  /** The `foreach` both gates run over their passthrough routes: does any of them match? */
  method FindMatch(uri: string, routes: seq<string>) returns (found: bool)
    ensures found <==> AnyRouteMatches(uri, routes)
  {
    var i := 0;
    while i < |routes|
      invariant 0 <= i <= |routes|
      invariant forall k :: 0 <= k < i ==> !RouteMatches(uri, routes[k])
    {
      if RouteMatches(uri, routes[i]) {
        return true;
      }
      i := i + 1;
    }
    return false;
  }

  /** A route option that is one string matches exactly what that route matches; no route matches nothing. */
  lemma SingleRouteOption(uri: string, route: string)
    ensures AnyRouteMatches(uri, AsList(Single(route))) <==> RouteMatches(uri, route)
    ensures !AnyRouteMatches(uri, AsList(NoRoutes))
  {
    assert AsList(Single(route))[0] == route;
  }
}
