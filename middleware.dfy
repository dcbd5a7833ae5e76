/**
 * The edge middleware that gates the application's routes: it classifies a
 * path by plain string prefix against two route lists, then decides, in a
 * fixed order, to pass the request through, redirect it to the sign-in
 * page, redirect it to the dashboard, or forward it with the caller's
 * identity in two request headers.
 */
module Middleware {
  import opened Wrappers
  import opened Text

  const AdminRoutes: seq<string> := ["/api/users", "/api/documents", "/api/export/farmers", "/admindashboard"]
  const ProtectedRoutes: seq<string> := ["/api/farmers", "/api/test", "/dashboard"]

  /** `s.startsWith(prefix)` */
  predicate StartsWith(s: string, prefix: string)
  {
    |prefix| <= |s| && s[..|prefix|] == prefix
  }

  /** `routes.some(route => path.startsWith(route))` */
  function SomePrefix(routes: seq<string>, path: string): (b: bool)
    ensures b <==> exists i :: 0 <= i < |routes| && StartsWith(path, routes[i])
  {
    if routes == [] then false
    else
      assert forall i :: 1 <= i < |routes| ==> routes[i] == routes[1..][i - 1];
      StartsWith(path, routes[0]) || SomePrefix(routes[1..], path)
  }

  predicate IsAdminRoute(path: string) { SomePrefix(AdminRoutes, path) }

  predicate IsProtectedRoute(path: string) { SomePrefix(ProtectedRoutes, path) }

  /** The parsed `session` cookie. */
  datatype Session = Session(userId: int, role: string, exp: int)

  /** The cookie is absent, or present and its value parses (Some) or not (None). */
  datatype SessionCookie = NoCookie | Cookie(parsed: Option<Session>)

  /** Request headers, by lower-case name. */
  type Headers = map<string, string>

  datatype Decision =
    | PassThrough                       // NextResponse.next()
    | Forward(headers: Headers)         // NextResponse.next({ headers })
    | Redirect(location: string)        // NextResponse.redirect(new URL(location, url))
    | ServerError(status: nat, error: string)

  /** The body of `middleware`: its early returns, in source order. */
  function Decide(path: string, cookie: SessionCookie, headers: Headers, now: int): Decision
  {
    var isAdmin := IsAdminRoute(path);
    var isProtected := IsProtectedRoute(path);
    if !isAdmin && !isProtected then PassThrough
    else if cookie.NoCookie? then Redirect("/signin")
    else if cookie.parsed.None? then ServerError(500, "Internal server error")
    else
      var s := cookie.parsed.value;
      if s.exp < now then Redirect("/signin")
      else if isAdmin && s.role != "ADMIN" then Redirect("/dashboard")
      else Forward(headers["x-user-id" := IntToString(s.userId)]["x-user-role" := s.role])
  }

  /** `base/:path*` in the matcher: base itself or anything below `base/`. */
  predicate AtOrBelow(path: string, base: string)
  {
    path == base || StartsWith(path, base + "/")
  }

  /** The paths `config.matcher` hands to the middleware at all. */
  predicate MatcherSelects(path: string)
  {
    || AtOrBelow(path, "/api/users")
    || AtOrBelow(path, "/api/farmers")
    || path == "/api/test"
    || AtOrBelow(path, "/api/documents")
    || AtOrBelow(path, "/api/export/farmers")
    || path == "/dashboard"
    || path == "/admindashboard"
  }

  /** What a request meets: the middleware runs only on the paths the matcher selects. */
  function Run(path: string, cookie: SessionCookie, headers: Headers, now: int): Decision
  {
    if MatcherSelects(path) then Decide(path, cookie, headers, now) else PassThrough
  }

  lemma StartsWithTransitive(s: string, p: string, q: string)
    requires StartsWith(s, p + q)
    ensures StartsWith(s, p)
  {
    assert s[..|p|] == (p + q)[..|p|];
  }

  /** Every path the matcher selects is on one of the two route lists. */
  lemma MatcherPathsAreGated(path: string)
    requires MatcherSelects(path)
    ensures IsAdminRoute(path) || IsProtectedRoute(path)
  {
    if AtOrBelow(path, "/api/users") {
      if path != "/api/users" { StartsWithTransitive(path, "/api/users", "/"); }
      assert StartsWith(path, AdminRoutes[0]);
    } else if AtOrBelow(path, "/api/farmers") {
      if path != "/api/farmers" { StartsWithTransitive(path, "/api/farmers", "/"); }
      assert StartsWith(path, ProtectedRoutes[0]);
    } else if path == "/api/test" {
      assert StartsWith(path, ProtectedRoutes[1]);
    } else if AtOrBelow(path, "/api/documents") {
      if path != "/api/documents" { StartsWithTransitive(path, "/api/documents", "/"); }
      assert StartsWith(path, AdminRoutes[1]);
    } else if AtOrBelow(path, "/api/export/farmers") {
      if path != "/api/export/farmers" { StartsWithTransitive(path, "/api/export/farmers", "/"); }
      assert StartsWith(path, AdminRoutes[2]);
    } else if path == "/dashboard" {
      assert StartsWith(path, ProtectedRoutes[2]);
    } else {
      assert StartsWith(path, AdminRoutes[3]);
    }
  }

  /** Classification is by string prefix, not by path segment. */
  lemma PrefixNotSegment()
    ensures IsAdminRoute("/api/users-report")
    ensures IsProtectedRoute("/dashboards")
  {
    assert StartsWith("/api/users-report", AdminRoutes[0]);
    assert StartsWith("/dashboards", ProtectedRoutes[2]);
  }

  lemma DiffersAt(s: string, p: string, k: nat)
    requires k < |s| && k < |p| && s[k] != p[k]
    ensures !StartsWith(s, p)
  {
    if |p| <= |s| { assert s[..|p|][k] == s[k]; }
  }

  /** The matcher does not hand sub-paths of the dashboard to the middleware. */
  lemma MatcherSkipsDashboardSubpaths()
    ensures !MatcherSelects("/dashboard/settings")
  {
    var q := "/dashboard/settings";
    DiffersAt(q, "/api/users/", 1);
    DiffersAt(q, "/api/farmers/", 1);
    DiffersAt(q, "/api/documents/", 1);
    DiffersAt(q, "/api/export/farmers/", 1);
    assert q != "/dashboard";
  }

  /** A path on neither list passes whatever the cookie holds. */
  lemma UngatedPassesThrough(path: string, cookie: SessionCookie, headers: Headers, now: int)
    requires !IsAdminRoute(path) && !IsProtectedRoute(path)
    ensures Decide(path, cookie, headers, now) == PassThrough
  {
  }

  /** On a gated path a missing cookie sends the caller to sign in. */
  lemma MissingCookieRedirects(path: string, headers: Headers, now: int)
    requires IsAdminRoute(path) || IsProtectedRoute(path)
    ensures Decide(path, NoCookie, headers, now) == Redirect("/signin")
  {
  }

  /** A cookie whose value does not parse ends in a 500 response. */
  lemma UnparsableSessionFails(path: string, headers: Headers, now: int)
    requires IsAdminRoute(path) || IsProtectedRoute(path)
    ensures Decide(path, Cookie(None), headers, now) == ServerError(500, "Internal server error")
  {
  }

  /**
   * Expiry is strict and comes before the role check: a session with
   * exp < now goes to sign-in on every gated path, whatever its role.
   */
  lemma ExpiredGoesToSignIn(path: string, s: Session, headers: Headers, now: int)
    requires IsAdminRoute(path) || IsProtectedRoute(path)
    requires s.exp < now
    ensures Decide(path, Cookie(Some(s)), headers, now) == Redirect("/signin")
  {
  }

  /** A non-admin session that is still live goes to the dashboard on an admin route. */
  lemma NonAdminOnAdminRoute(path: string, s: Session, headers: Headers, now: int)
    requires IsAdminRoute(path) && s.role != "ADMIN" && now <= s.exp
    ensures Decide(path, Cookie(Some(s)), headers, now) == Redirect("/dashboard")
  {
  }

  /**
   * A request is forwarded iff the path is gated, the session parses, it
   * has not expired (exp == now still counts as live), and an admin route
   * is asked for by an ADMIN.
   */
  lemma ForwardIff(path: string, cookie: SessionCookie, headers: Headers, now: int)
    ensures Decide(path, cookie, headers, now).Forward? <==>
              (IsAdminRoute(path) || IsProtectedRoute(path))
              && cookie.Cookie? && cookie.parsed.Some?
              && now <= cookie.parsed.value.exp
              && (IsAdminRoute(path) ==> cookie.parsed.value.role == "ADMIN")
  {
  }

  /**
   * A forwarded request carries the session's id in decimal and its role;
   * every other header is kept.
   */
  lemma ForwardedHeaders(path: string, s: Session, headers: Headers, now: int)
    requires Decide(path, Cookie(Some(s)), headers, now).Forward?
    ensures var h := Decide(path, Cookie(Some(s)), headers, now).headers;
            && h["x-user-id"] == IntToString(s.userId)
            && h["x-user-role"] == s.role
            && h.Keys == headers.Keys + {"x-user-id", "x-user-role"}
            && forall k :: k in headers && k != "x-user-id" && k != "x-user-role" ==> h[k] == headers[k]
  {
  }
}
