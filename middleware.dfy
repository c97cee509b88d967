/**
 * `middleware.ts`: the request guard. Public auth prefixes always pass;
 * a protected prefix without a session token is redirected to the sign-in
 * page with the requested path as `callbackUrl`; everything else passes.
 * The token lookup is the boolean `hasToken`.
 */
module Middleware {

  const ProtectedRoutes: seq<string> := ["/financeiro", "/api/transactions", "/api/metas", "/api/ia-transacao"]
  const PublicRoutes: seq<string> := ["/auth/signin", "/auth/signup", "/api/auth"]
  const SignInPath: string := "/auth/signin"

  /** `NextResponse.next()` or a redirect to `location?callbackUrl=…`. */
  datatype Outcome = Next | Redirect(location: string, callbackUrl: string)

  /** `routes.some(route => pathname.startsWith(route))`. */
  predicate StartsWithAny(pathname: string, routes: seq<string>)
  {
    exists i :: 0 <= i < |routes| && routes[i] <= pathname
  }

  predicate IsPublic(pathname: string) { StartsWithAny(pathname, PublicRoutes) }
  predicate IsProtected(pathname: string) { StartsWithAny(pathname, ProtectedRoutes) }

  function Route(pathname: string, hasToken: bool): (r: Outcome)
    ensures IsPublic(pathname) ==> r == Next
    ensures r.Redirect? <==> !IsPublic(pathname) && IsProtected(pathname) && !hasToken
    ensures r.Redirect? ==> r.location == SignInPath && r.callbackUrl == pathname
  {
    if IsPublic(pathname) then Next
    else if IsProtected(pathname) && !hasToken then Redirect(SignInPath, pathname)
    else Next
  }

  /** A session token always lets the request through. */
  lemma TokenPasses(pathname: string)
    ensures Route(pathname, true) == Next
  {
  }

  /** Prefix matching: any extension of a protected path is protected too. */
  lemma ProtectedByPrefix(route: string, rest: string)
    requires route in ProtectedRoutes
    requires !IsPublic(route + rest)
    ensures Route(route + rest, false) == Redirect(SignInPath, route + rest)
  {
    var i :| 0 <= i < |ProtectedRoutes| && ProtectedRoutes[i] == route;
    assert route <= route + rest;
  }

  /** For instance "/financeiro-moderno" is guarded like "/financeiro". */
  lemma FinanceiroModernoIsProtected()
    ensures Route("/financeiro-moderno", false) == Redirect(SignInPath, "/financeiro-moderno")
  {
    assert "/financeiro-moderno" == "/financeiro" + "-moderno";
    assert !IsPublic("/financeiro-moderno") by {
      forall i | 0 <= i < |PublicRoutes| ensures !(PublicRoutes[i] <= "/financeiro-moderno") {
        assert PublicRoutes[i][1] != 'f';
      }
    }
    ProtectedByPrefix("/financeiro", "-moderno");
  }

  /** The sign-in page itself is never redirected, even without a token. */
  lemma SignInIsPublic(rest: string)
    ensures Route(SignInPath + rest, false) == Next
  {
    assert PublicRoutes[0] <= SignInPath + rest;
  }
}
