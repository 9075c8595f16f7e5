/** The request middleware (src/middleware.ts): which requests pass through
    and which are sent to the install page. */
module Middleware {
  import opened Results
  import opened Text

  /** What the middleware answers: let the request through, or redirect it. */
  datatype Decision = Next | Redirect(location: string)

  const InstallPage: string := "/install"

  /** The path prefixes that are never intercepted. */
  const BypassPrefixes: seq<string> := ["/api/auth", "/api/webhooks", "/_next", "/favicon"]

  /** The path starts with one of the bypass prefixes (a plain string test,
      not a path-segment test). */
  predicate Bypassed(pathname: string) {
    exists k :: 0 <= k < |BypassPrefixes| && StartsWith(pathname, BypassPrefixes[k])
  }

  /** `middleware(req)` for a request with path `pathname` and query
      parameter `shop` (`None` when absent). Only the root path with a
      missing or empty `shop` is redirected, to the install page; every
      other request passes through. */
  function Route(pathname: string, shop: Option<string>): (d: Decision)
    ensures d.Redirect? <==> pathname == "/" && (shop.None? || shop.value == "")
    ensures d.Redirect? ==> d.location == InstallPage
  {
    if StartsWith(pathname, "/api/auth") || StartsWith(pathname, "/api/webhooks") ||
       StartsWith(pathname, "/_next") || StartsWith(pathname, "/favicon")
    then Next
    else if pathname == "/" && (shop.None? || shop.value == "") then Redirect(InstallPage)
    else Next
  }

  /** A path under a bypass prefix passes whatever `shop` is. */
  lemma BypassAlwaysPasses(pathname: string, shop: Option<string>)
    requires Bypassed(pathname)
    ensures Route(pathname, shop) == Next
  {
    var k :| 0 <= k < |BypassPrefixes| && StartsWith(pathname, BypassPrefixes[k]);
    assert pathname != "/" by {
      assert |pathname| >= |BypassPrefixes[k]| >= 2;
    }
  }

  /** Because the bypass is a prefix test, a path that only begins like an
      auth route, such as "/api/authorize", passes through too. */
  lemma PrefixBypassIsTextual(rest: string, shop: Option<string>)
    ensures Bypassed("/api/auth" + rest)
    ensures Route("/api/auth" + rest, shop) == Next
  {
    assert StartsWith("/api/auth" + rest, BypassPrefixes[0]) by {
      assert ("/api/auth" + rest)[..9] == "/api/auth";
    }
    BypassAlwaysPasses("/api/auth" + rest, shop);
  }
}
