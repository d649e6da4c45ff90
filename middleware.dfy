/** The edge middleware (`middleware.ts`) and the paths its matcher sends to it. */
module Middleware {
  import opened Base

  const DashboardPath := "/dashboard"

  /** `publicRoutes`. */
  const PublicRoutes := ["/login"]

  /** What the middleware answers. */
  datatype Response = Next | Redirect(path: string)

  /** `publicRoutes.some(route => pathname === route)`. */
  predicate IsPublicRoute(pathname: string) {
    exists i :: 0 <= i < |PublicRoutes| && pathname == PublicRoutes[i]
  }

  /** `middleware`: a visitor on the login page holding a non-empty `token` cookie is sent
      to the dashboard; every other request goes through, protected pages without a
      token included. */
  function Decide(pathname: string, token: Option<string>): (r: Response)
    ensures r.Redirect? <==> pathname == "/login" && Truthy(token)
    ensures r.Redirect? ==> r.path == DashboardPath
  {
    assert IsPublicRoute(pathname) <==> pathname == "/login" by {
      if pathname == "/login" {
        assert pathname == PublicRoutes[0];
      }
    }
    if IsPublicRoute(pathname) && Truthy(token) then Redirect(DashboardPath) else Next
  }

  /** `favicon.ico` read as a regular expression: its `.` stands for any character. */
  predicate FaviconLike(rest: string) {
    |rest| >= 11 && rest[..7] == "favicon" && rest[8..11] == "ico"
  }

  /** The negative look-ahead `(?!api|_next/static|_next/image|favicon.ico)`. */
  predicate Excluded(rest: string) {
    "api" <= rest || "_next/static" <= rest || "_next/image" <= rest || FaviconLike(rest)
  }

  /** `'/((?!api|_next/static|_next/image|favicon.ico).*)'`: a path the middleware
      runs on. */
  predicate Matched(path: string) {
    |path| >= 1 && path[0] == '/' && !Excluded(path[1..])
  }

  /** The response a request gets: paths outside the matcher never reach the middleware. */
  function Handle(path: string, token: Option<string>): (r: Response)
    ensures r.Redirect? <==> path == "/login" && Truthy(token)
  {
    LoginMatched();
    if Matched(path) then Decide(path, token) else Next
  }

  /** A text whose first character differs from the pattern's does not begin with it. */
  lemma FirstCharNotPrefix(pattern: string, s: string)
    requires |pattern| > 0 && |s| > 0 && pattern[0] != s[0]
    ensures !(pattern <= s)
  {
  }

  /** The login page reaches the middleware. */
  lemma LoginMatched()
    ensures Matched("/login")
  {
    assert "/login"[1..] == "login";
    FirstCharNotPrefix("api", "login");
    FirstCharNotPrefix("_next/static", "login");
    FirstCharNotPrefix("_next/image", "login");
  }

  /** The look-ahead tests prefixes: `/apiary` and `/favicon-ico` escape the middleware
      as `/api/v1/clients` and the static chunks do. */
  lemma ExcludedExamples()
    ensures !Matched("/apiary") && !Matched("/api/v1/clients") && !Matched("/favicon-ico")
    ensures !Matched("/_next/static/chunk.js")
  {
    assert "/apiary"[1..] == "apiary" && "api" <= "apiary";
    assert "/api/v1/clients"[1..] == "api/v1/clients" && "api" <= "api/v1/clients";
    assert "/_next/static/chunk.js"[1..] == "_next/static/chunk.js";
    assert "_next/static" <= "_next/static/chunk.js";
    assert "/favicon-ico"[1..] == "favicon-ico";
    assert "favicon-ico"[..7] == "favicon" && "favicon-ico"[8..11] == "ico";
  }

  /** Pages reach the middleware, and so does a path that only begins like `api`. */
  lemma MatchedExamples()
    ensures Matched("/dashboard") && Matched("/") && Matched("/ap")
  {
    assert "/dashboard"[1..] == "dashboard";
    FirstCharNotPrefix("api", "dashboard");
    FirstCharNotPrefix("_next/static", "dashboard");
    FirstCharNotPrefix("_next/image", "dashboard");
    assert "/"[1..] == "";
    assert "/ap"[1..] == "ap";
  }
}
