/** Path prefixes of route groups (http.go).
    A child group's prefix and a route's registered path are both the plain
    concatenation of two strings with every trailing '/' removed, as Go's
    strings.TrimRight(s, "/") does. */
module Paths {

  predicate EndsWithSlash(s: string) {
    |s| > 0 && s[|s| - 1] == '/'
  }

  predicate AllSlashes(s: string) {
    forall i :: 0 <= i < |s| ==> s[i] == '/'
  }

  /** strings.TrimRight(s, "/"): the longest prefix of s that does not end in '/',
      such that everything cut off is '/'. */
  function TrimRightSlash(s: string): (r: string)
    ensures |r| <= |s| && r == s[..|r|]
    ensures !EndsWithSlash(r)
    ensures AllSlashes(s[|r|..])
  {
    if EndsWithSlash(s) then
      var r := TrimRightSlash(s[..|s| - 1]);
      assert s[|r|..] == s[..|s| - 1][|r|..] + ['/'];
      r
    else
      s
  }

  /** TrimRightSlash is fully determined by its three properties: any prefix
      that does not end in '/' and leaves only slashes behind is the result. */
  lemma TrimRightSlashUnique(s: string, r: string)
    requires |r| <= |s| && r == s[..|r|]
    requires !EndsWithSlash(r)
    requires AllSlashes(s[|r|..])
    ensures TrimRightSlash(s) == r
  {
  }

  /** The path a group hands down: strings.TrimRight(parent + prefix, "/").
      No separator is inserted between the two parts. */
  function Join(parent: string, prefix: string): (r: string)
    ensures !EndsWithSlash(r)
    ensures |r| <= |parent| + |prefix| && r == (parent + prefix)[..|r|]
    ensures AllSlashes((parent + prefix)[|r|..])
  {
    TrimRightSlash(parent + prefix)
  }

  /** The joined path is empty exactly when both parts are made of slashes only,
      e.g. Join("", "/") == "". */
  lemma JoinEmptyIff(parent: string, prefix: string)
    ensures Join(parent, prefix) == "" <==> AllSlashes(parent + prefix)
  {
    if AllSlashes(parent + prefix) {
      TrimRightSlashUnique(parent + prefix, "");
    }
  }

  /** Trimming is idempotent: joining a trimmed path with nothing changes nothing. */
  lemma JoinIdempotent(parent: string, prefix: string)
    ensures Join(Join(parent, prefix), "") == Join(parent, prefix)
  {
    var r := Join(parent, prefix);
    assert r + "" == r;
    TrimRightSlashUnique(r, r);
  }

  /** When the suffix has a character other than '/', trimming only touches the suffix. */
  lemma {:induction false} TrimRightSlashAppend(x: string, c: string)
    requires !AllSlashes(c)
    ensures TrimRightSlash(x + c) == x + TrimRightSlash(c)
  {
    var t := TrimRightSlash(c);
    var s := x + c;
    var r := x + t;
    assert r == s[..|r|];
    assert s[|r|..] == c[|t|..];
    TrimRightSlashUnique(s, r);
  }

  /** Nesting groups is not the same as concatenating their prefixes: the inner
      join drops trailing slashes that a flat concatenation keeps.  The two agree
      exactly when the suffix is made of slashes only or nothing was trimmed. */
  lemma NestedJoinIff(parent: string, prefix: string, route: string)
    ensures Join(Join(parent, prefix), route) == Join(parent + prefix, route)
            <==> AllSlashes(route) || !EndsWithSlash(parent + prefix)
  {
    var s := parent + prefix;
    var t := Join(parent, prefix);
    if AllSlashes(route) {
      assert (t + route)[..|t|] == t;
      assert (t + route)[|t|..] == route;
      TrimRightSlashUnique(t + route, t);
      assert (s + route)[..|t|] == t;
      assert (s + route)[|t|..] == s[|t|..] + route;
      TrimRightSlashUnique(s + route, t);
    } else if !EndsWithSlash(s) {
      TrimRightSlashUnique(s, s);
    } else {
      TrimRightSlashAppend(t, route);
      TrimRightSlashAppend(s, route);
      assert |t| < |s|;
      assert parent + prefix + route == s + route;
      assert |Join(t, route)| != |Join(parent + prefix, route)|;
    }
  }

  /** A root group with an empty prefix turns the route "/" into the empty path. */
  lemma RootRouteCollapses()
    ensures Join("", "/") == ""
  {
    JoinEmptyIff("", "/");
  }
}
