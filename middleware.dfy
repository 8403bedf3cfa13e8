/**
 * The route guard run before every page: signed-in users are kept off the
 * sign-in and sign-up pages, signed-out users off the dashboard.
 */
module Middleware {
  import opened Common

  datatype Decision = RedirectTo(path: string) | PassThrough

  /** The `matcher`: every path except those under `api`, `_next/static`, `_next/image` and `favicon.ico`. */
  predicate Matched(path: string) {
    var rest := if |path| > 0 && path[0] == '/' then path[1..] else path;
    StartsWith(path, "/") &&
    !StartsWith(rest, "api") && !StartsWith(rest, "_next/static") && !StartsWith(rest, "_next/image") &&
    // the pattern's '.' matches any character
    !(|rest| >= 11 && rest[..7] == "favicon" && rest[8..11] == "ico")
  }

  predicate IsAuthRoute(path: string) {
    StartsWith(path, "/login") || StartsWith(path, "/register")
  }

  predicate IsProtectedRoute(path: string) {
    StartsWith(path, "/dashboard")
  }

  /** The guard's decision for a path it is run on. */
  function Guard(loggedIn: bool, path: string): (d: Decision)
    ensures d == RedirectTo("/dashboard") <==> loggedIn && IsAuthRoute(path)
    ensures d == RedirectTo("/login") <==> !loggedIn && IsProtectedRoute(path)
    ensures d.PassThrough? <==> !(loggedIn && IsAuthRoute(path)) && !(!loggedIn && IsProtectedRoute(path))
  {
    if loggedIn && IsAuthRoute(path) then RedirectTo("/dashboard")
    else if !loggedIn && IsProtectedRoute(path) then RedirectTo("/login")
    else PassThrough
  }

  /** What happens to a request: paths outside the matcher never reach the guard. */
  function Route(loggedIn: bool, path: string): (d: Decision)
    ensures !Matched(path) ==> d.PassThrough?
    ensures Matched(path) ==> d == Guard(loggedIn, path)
  {
    if Matched(path) then Guard(loggedIn, path) else PassThrough
  }

  /** Following a redirect lands on a page the guard lets through: the guard never loops. */
  lemma RedirectSettles(loggedIn: bool, path: string)
    requires Route(loggedIn, path).RedirectTo?
    ensures Route(loggedIn, Route(loggedIn, path).path).PassThrough?
  {
    var target := Route(loggedIn, path).path;
    if loggedIn {
      assert target == "/dashboard";
      assert !StartsWith(target, "/login") && !StartsWith(target, "/register") by {
        assert target[..6][1] != "/login"[1];
        assert target[..9][1] != "/register"[1];
      }
    } else {
      assert target == "/login";
      assert !StartsWith(target, "/dashboard");
    }
  }

  /** The public landing page and API routes are never redirected. */
  lemma PublicNeverRedirected(loggedIn: bool, path: string)
    requires path == "/" || StartsWith(path, "/api")
    ensures Route(loggedIn, path).PassThrough?
  {
    if path != "/" {
      assert path[1..][..3] == "api";
    }
  }
}
