/** The client's edge middleware (host-client/src/middleware.ts): every page
    request is let through or redirected, from the `authToken` cookie and the
    path alone. Routes match by plain prefix. */
module RouteMiddleware {
  import opened Wrappers
  import opened Text
  import opened ClientAuth

  const ProtectedRoutes := ["/products", "/cart", "/orders"]
  const AuthRoutes := ["/sign-up", "/sign-in"]
  const AdminRoutes := ["/admin-dashboard"]
  const PublicRoutes := ["/unauthenticated", "/unauthorized", "/home"]

  const UnauthenticatedPath := "/unauthenticated"
  const UnauthorizedPath := "/unauthorized"
  const RootPath := "/"

  datatype Decision = Next | Redirect(path: string)

  /** `middleware(req)`, with the cookie's token and the token verifier. */
  function Middleware(pathname: string, token: Option<string>, verify: string -> bool): (d: Decision)
    ensures d.Redirect? ==> d.path in [UnauthenticatedPath, RootPath, UnauthorizedPath]
  {
    var authenticated := IsValidToken(token, verify);
    var role := if authenticated then UserRole(token) else User;
    if !authenticated then
      if !StartsWithAny(pathname, AuthRoutes) && !StartsWithAny(pathname, PublicRoutes)
      then Redirect(UnauthenticatedPath)
      else Next
    else if StartsWithAny(pathname, AuthRoutes) then Redirect(RootPath)
    else if StartsWithAny(pathname, AdminRoutes) && role != Admin then Redirect(UnauthorizedPath)
    else Next
  }

  /** Without a valid token a request is served exactly when its path starts
      with an auth or a public route, and is sent to '/unauthenticated'
      otherwise; the protected list plays no part. */
  lemma UnauthenticatedSeesOnlyAuthAndPublic(pathname: string, token: Option<string>, verify: string -> bool)
    requires !IsValidToken(token, verify)
    ensures Middleware(pathname, token, verify) == Next <==> StartsWithAny(pathname, AuthRoutes) || StartsWithAny(pathname, PublicRoutes)
    ensures Middleware(pathname, token, verify) != Next ==> Middleware(pathname, token, verify) == Redirect(UnauthenticatedPath)
  {
  }

  /** With a valid token: an auth route goes to '/', an admin route to
      '/unauthorized' (no token has the admin role), and every other path is
      served, protected routes included. */
  lemma AuthenticatedDecisions(pathname: string, token: Option<string>, verify: string -> bool)
    requires IsValidToken(token, verify)
    ensures StartsWithAny(pathname, AuthRoutes) ==> Middleware(pathname, token, verify) == Redirect(RootPath)
    ensures !StartsWithAny(pathname, AuthRoutes) && StartsWithAny(pathname, AdminRoutes) ==>
      Middleware(pathname, token, verify) == Redirect(UnauthorizedPath)
    ensures Middleware(pathname, token, verify) == Next <==> !StartsWithAny(pathname, AuthRoutes) && !StartsWithAny(pathname, AdminRoutes)
  {
  }

  /** Two paths that start with routes differing at one position cannot both
      match. */
  lemma PrefixesDisagree(pathname: string, a: string, b: string, k: nat)
    requires k < |a| && k < |b| && a[k] != b[k]
    ensures !(StartsWith(pathname, a) && StartsWith(pathname, b))
  {
  }

  /** The admin dashboard is out of every user's reach: any path under it,
      with any valid token, is redirected to '/unauthorized'. */
  lemma AdminDashboardUnreachable(rest: string, token: Option<string>, verify: string -> bool)
    requires IsValidToken(token, verify)
    ensures Middleware("/admin-dashboard" + rest, token, verify) == Redirect(UnauthorizedPath)
  {
    var p := "/admin-dashboard" + rest;
    assert StartsWith(p, AdminRoutes[0]);
    forall i | 0 <= i < |AuthRoutes|
      ensures !StartsWith(p, AuthRoutes[i])
    {
      PrefixesDisagree(p, AdminRoutes[0], AuthRoutes[i], 1);
    }
  }

  /** Prefix matching makes '/homepage' a public page. */
  lemma HomepageIsPublic(token: Option<string>, verify: string -> bool)
    ensures Middleware("/homepage", token, verify) == Next
  {
    assert StartsWith("/homepage", PublicRoutes[2]);
    assert StartsWith("/homepage", "/home");
    if IsValidToken(token, verify) {
      PrefixesDisagree("/homepage", "/homepage", AuthRoutes[0], 1);
      PrefixesDisagree("/homepage", "/homepage", AuthRoutes[1], 1);
      PrefixesDisagree("/homepage", "/homepage", AdminRoutes[0], 1);
    }
  }

  /** A protected page without a valid token is never served. */
  lemma ProtectedNeedsToken(rest: string, k: nat, token: Option<string>, verify: string -> bool)
    requires k < |ProtectedRoutes| && !IsValidToken(token, verify)
    ensures Middleware(ProtectedRoutes[k] + rest, token, verify) == Redirect(UnauthenticatedPath)
  {
    var p := ProtectedRoutes[k] + rest;
    assert StartsWith(p, ProtectedRoutes[k]);
    forall i | 0 <= i < |AuthRoutes|
      ensures !StartsWith(p, AuthRoutes[i])
    {
      PrefixesDisagree(p, ProtectedRoutes[k], AuthRoutes[i], 1);
    }
    forall i | 0 <= i < |PublicRoutes|
      ensures !StartsWith(p, PublicRoutes[i])
    {
      PrefixesDisagree(p, ProtectedRoutes[k], PublicRoutes[i], 1);
    }
  }

  /** Redirects settle after one step: the page a request is sent to is
      served to the same request. */
  lemma RedirectTargetIsServed(pathname: string, token: Option<string>, verify: string -> bool)
    ensures var d := Middleware(pathname, token, verify);
      d.Redirect? ==> Middleware(d.path, token, verify) == Next
  {
    var d := Middleware(pathname, token, verify);
    if d.Redirect? {
      if !IsValidToken(token, verify) {
        assert StartsWith(UnauthenticatedPath, PublicRoutes[0]);
      } else if d.path == RootPath {
        assert !StartsWithAny(RootPath, AuthRoutes) by {
          forall i | 0 <= i < |AuthRoutes| ensures !StartsWith(RootPath, AuthRoutes[i]) {
            assert |AuthRoutes[i]| > |RootPath|;
          }
        }
        assert !StartsWith(RootPath, AdminRoutes[0]);
      } else {
        forall i | 0 <= i < |AuthRoutes| ensures !StartsWith(UnauthorizedPath, AuthRoutes[i]) {
          PrefixesDisagree(UnauthorizedPath, UnauthorizedPath, AuthRoutes[i], 1);
        }
        PrefixesDisagree(UnauthorizedPath, UnauthorizedPath, AdminRoutes[0], 1);
      }
    }
  }

  /** With the written `isValidToken` (a verifier that accepts every token),
      a forged cookie opens the protected pages that the intended check
      keeps closed. */
  lemma ForgedCookieOpensProtectedPages(forged: string, rest: string)
    requires forged != ""
    ensures Middleware("/orders" + rest, Some(forged), t => true) == Next
    ensures Middleware("/orders" + rest, Some(forged), t => false) == Redirect(UnauthenticatedPath)
  {
    var p := "/orders" + rest;
    forall i | 0 <= i < |AuthRoutes| ensures !StartsWith(p, AuthRoutes[i]) {
      PrefixesDisagree(p, "/orders", AuthRoutes[i], 1);
    }
    PrefixesDisagree(p, "/orders", AdminRoutes[0], 1);
    ProtectedNeedsToken(rest, 2, Some(forged), t => false);
  }
}
