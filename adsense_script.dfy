/**
 * The AdSense loader that is mounted only on content routes (components/AdSenseScript.tsx):
 * the home page and the select, test and result pages, in Korean only.
 */
module AdSenseScript {
  import opened Wrappers
  import opened Strings

  /** The two shapes of route regular expression the component uses. */
  datatype Matcher =
    | Exactly(path: string)    // `/^\/$/`
    | SegmentRoot(root: string) // `/^\/select(?:\/|$)/`: the root alone or followed by "/"

  /** `matcher.test(pathname)`. */
  predicate Matches(m: Matcher, pathname: string) {
    match m
    case Exactly(path) => pathname == path
    case SegmentRoot(root) => pathname == root || StartsWith(pathname, root + "/")
  }

  /** `CONTENT_ROUTE_MATCHERS`. */
  const ContentRouteMatchers: seq<Matcher> :=
    [Exactly("/"), SegmentRoot("/select"), SegmentRoot("/test"), SegmentRoot("/result")]

  /** `matchers.some((matcher) => matcher.test(pathname))`. */
  predicate AnyMatches(matchers: seq<Matcher>, pathname: string) {
    matchers != [] && (Matches(matchers[0], pathname) || AnyMatches(matchers[1..], pathname))
  }

  /** `isContentRoute`. */
  predicate IsContentRoute(pathname: string) {
    AnyMatches(ContentRouteMatchers, pathname)
  }

  /** The component renders the script only for a non-empty pathname that is a content route. */
  function RendersScript(pathname: Option<string>): (r: bool)
    ensures r <==> pathname.Some? && pathname.value != "" && IsContentRoute(pathname.value)
  {
    if pathname.None? || pathname.value == "" || !IsContentRoute(pathname.value) then false else true
  }

  /** `some` is true exactly when one of the matchers matches. */
  lemma {:induction false} AnyMatchesIff(matchers: seq<Matcher>, pathname: string)
    ensures AnyMatches(matchers, pathname) <==> exists i :: 0 <= i < |matchers| && Matches(matchers[i], pathname)
  {
    if matchers != [] {
      AnyMatchesIff(matchers[1..], pathname);
      assert forall i :: 1 <= i < |matchers| ==> matchers[i] == matchers[1..][i - 1];
      if AnyMatches(matchers[1..], pathname) {
        var j :| 0 <= j < |matchers[1..]| && Matches(matchers[1..][j], pathname);
        assert matchers[j + 1] == matchers[1..][j];
      }
    }
  }

  /** A root-with-segment matcher accepts exactly the paths whose first segment is that root. */
  lemma SegmentRootIff(name: string, pathname: string)
    requires '/' !in name && StartsWith(pathname, "/")
    ensures Matches(SegmentRoot("/" + name), pathname) <==> FirstSegment(pathname) == name
  {
    var seg := FirstSegment(pathname);
    var root := "/" + name;
    if pathname == root {
      assert pathname == "/" + name + "";
      assert pathname[1..] == name + "";
      UpToSlashOfPrefix(name, "");
    } else if StartsWith(pathname, root + "/") {
      var rest := pathname[|root|..];
      assert pathname == root + rest;
      assert rest[0] == (root + "/")[|root|] == '/';
      assert pathname[1..] == name + rest;
      UpToSlashOfPrefix(name, rest);
    }
  }

  /**
   * Content routes are "/" and the paths whose first segment is exactly "select", "test" or
   * "result"; so "/selection", "/results" and "/en/result" are not content routes.
   */
  lemma ContentRouteIff(pathname: string)
    requires StartsWith(pathname, "/")
    ensures IsContentRoute(pathname)
      <==> pathname == "/" || FirstSegment(pathname) in {"select", "test", "result"}
  {
    AnyMatchesIff(ContentRouteMatchers, pathname);
    assert ContentRouteMatchers[1] == SegmentRoot("/" + "select");
    assert ContentRouteMatchers[2] == SegmentRoot("/" + "test");
    assert ContentRouteMatchers[3] == SegmentRoot("/" + "result");
    SegmentRootIff("select", pathname);
    SegmentRootIff("test", pathname);
    SegmentRootIff("result", pathname);
    if pathname == "/" {
      assert Matches(ContentRouteMatchers[0], pathname);
    }
  }
}
