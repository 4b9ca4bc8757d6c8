/** The client's token and route helpers (host-client/src/app/_utils/auth.ts):
    `isValidToken`, the `isAuthenticated` redirect helper over three route
    lists, and `getUserRole`. Signature checking of a token (`jwtVerify` with
    the client's secret) is the parameter `verify`. */
module ClientAuth {
  import opened Wrappers
  import opened Text

  datatype Role = User | Admin

  /** The helper's `{ shouldRedirect, redirectUrl }`. */
  datatype RouteDecision = RouteDecision(shouldRedirect: bool, redirectUrl: string)

  const SignOutPath := "/sign-out"
  const HomePath := "/home"

  /** `isValidToken` as written: `jwtVerify` returns a promise that is neither
      awaited nor inspected, so nothing it finds can reach the `catch`, and
      every non-empty token counts as valid. */
  function IsValidTokenAsWritten(token: Option<string>): (r: bool) {
    token.Some? && token.value != ""
  }

  /** `isValidToken` as evidently intended: the token is present, not empty,
      and its signature verifies. */
  function IsValidToken(token: Option<string>, verify: string -> bool): (r: bool) {
    token.Some? && token.value != "" && verify(token.value)
  }

  /** Both versions refuse a missing or empty token; the intended one accepts
      exactly the tokens the written one accepts and the verifier passes. */
  lemma ValidTokenIsNonEmpty(token: Option<string>, verify: string -> bool)
    ensures token.None? || token.value == "" ==> !IsValidTokenAsWritten(token) && !IsValidToken(token, verify)
    ensures IsValidToken(token, verify) <==> IsValidTokenAsWritten(token) && verify(token.value)
  {
  }

  /** The written version is the intended one with a verifier that accepts
      everything: a token whose signature fails still counts as valid. */
  lemma AsWrittenAcceptsForgedTokens(forged: string)
    requires forged != ""
    ensures IsValidTokenAsWritten(Some(forged))
    ensures !IsValidToken(Some(forged), t => false)
    ensures forall token :: IsValidTokenAsWritten(token) == IsValidToken(token, t => true)
  {
  }

  /** `getUserRole`: every token yields the role 'user'. */
  function UserRole(token: Option<string>): (r: Role) {
    User
  }

  lemma NoTokenYieldsAdmin(token: Option<string>)
    ensures UserRole(token) != Admin
  {
  }

  /** The `isAuthenticated` helper, given whether the token is valid. */
  function RouteCheck(pathname: string, tokenValid: bool, protectedRoutes: seq<string>,
                      restrictedRoutes: seq<string>, publicRoutes: seq<string>): (r: RouteDecision)
    ensures r.shouldRedirect <==> r.redirectUrl != ""
  {
    if StartsWithAny(pathname, protectedRoutes) && !tokenValid then RouteDecision(true, SignOutPath)
    else if StartsWithAny(pathname, restrictedRoutes) && tokenValid then RouteDecision(true, HomePath)
    else RouteDecision(false, "")
  }

  /** The helper's three outcomes, both directions: sign-out exactly for a
      protected route without a valid token, home exactly for a restricted
      route with one, and no redirect otherwise. A route on both lists gets
      the protected treatment first, and the public list never matters. */
  lemma RouteCheckOutcomes(pathname: string, tokenValid: bool, protectedRoutes: seq<string>,
                           restrictedRoutes: seq<string>, publicRoutes: seq<string>, otherPublic: seq<string>)
    ensures var r := RouteCheck(pathname, tokenValid, protectedRoutes, restrictedRoutes, publicRoutes);
      && (r == RouteDecision(true, SignOutPath) <==> StartsWithAny(pathname, protectedRoutes) && !tokenValid)
      && (r == RouteDecision(true, HomePath) <==> StartsWithAny(pathname, restrictedRoutes) && tokenValid)
      && (!r.shouldRedirect <==> !(StartsWithAny(pathname, protectedRoutes) && !tokenValid)
                                 && !(StartsWithAny(pathname, restrictedRoutes) && tokenValid))
      && r == RouteCheck(pathname, tokenValid, protectedRoutes, restrictedRoutes, otherPublic)
  {
  }
}
