/** The authentication middleware of the auth service
    (auth/src/middlewares/authMiddleware.js): the token is the second
    space-separated piece of the `Authorization` header, and the request goes
    on only when the token verifies. Token verification (`jwt.verify` with the
    service's secret) is the parameter `verify`: the decoded payload, or
    `None` when it throws. */
module AuthMiddleware {
  import opened Wrappers
  import opened Text

  const NoTokenMessage := "No token, authorization denied"
  const InvalidTokenMessage := "Token is not valid"

  /** What the middleware does with a request: answer it, or call `next()`
      with `req.user` set to the decoded payload. */
  datatype Decision<P> = Reject(status: nat, message: string) | Proceed(user: P)

  /** `authHeader.split(' ')[1]`, when it is a non-empty string. */
  function TokenOf(header: string): (t: Option<string>)
    ensures t.Some? ==> t.value != "" && ' ' !in t.value
  {
    var parts := Split(header, ' ');
    if |parts| >= 2 && parts[1] != "" then Some(parts[1]) else None
  }

  /** The middleware's decision for a request with header `header`. */
  function Authenticate<P>(header: Option<string>, verify: string -> Option<P>): (d: Decision<P>)
    ensures d.Reject? ==> d.status in {400, 401}
    ensures d.Reject? && d.status == 401 <==> header.None? || header.value == "" || TokenOf(header.value).None?
    ensures d.Proceed? <==> header.Some? && TokenOf(header.value).Some? && verify(TokenOf(header.value).value).Some?
    ensures d.Proceed? ==> d.user == verify(TokenOf(header.value).value).value
  {
    if header.None? || header.value == "" then Reject(401, NoTokenMessage)
    else
      var token := TokenOf(header.value);
      if token.None? then Reject(401, NoTokenMessage)
      else
        match verify(token.value)
        case Some(user) => Proceed(user)
        case None => Reject(400, InvalidTokenMessage)
  }

  /** The header a client sends: a scheme word, a space and the token. */
  function SchemeHeader(scheme: string, token: string): string {
    scheme + " " + token
  }

  /** The token is read back from any `<scheme> <token>` header: the scheme
      word is never checked, so `Bearer` is no more accepted than any other
      word, and whatever follows a second space is ignored. */
  lemma TokenAfterAnyScheme(scheme: string, token: string, rest: string)
    requires ' ' !in scheme && ' ' !in token && token != ""
    ensures TokenOf(SchemeHeader(scheme, token)) == Some(token)
    ensures TokenOf(SchemeHeader(scheme, token + " " + rest)) == Some(token)
  {
    SplitAfterWord(scheme, ' ', token);
    SplitWithoutSeparator(token, ' ');
    assert SchemeHeader(scheme, token) == scheme + [' '] + token;
    var tail := token + [' '] + rest;
    SplitAfterWord(token, ' ', rest);
    SplitAfterWord(scheme, ' ', tail);
    assert SchemeHeader(scheme, token + " " + rest) == scheme + [' '] + tail;
    assert Split(scheme + [' '] + tail, ' ')[1] == Split(tail, ' ')[0] == token;
  }

  /** A header with no space in it, such as a bare token, carries no token. */
  lemma BareTokenRefused<P>(header: string, verify: string -> Option<P>)
    requires ' ' !in header
    ensures Authenticate(Some(header), verify) == Reject(401, NoTokenMessage)
  {
    SplitWithoutSeparator(header, ' ');
  }

  /** Two spaces after the scheme leave an empty second piece: refused as if
      no token had been sent, whatever follows. */
  lemma DoubleSpaceRefused<P>(scheme: string, rest: string, verify: string -> Option<P>)
    requires ' ' !in scheme
    ensures Authenticate(Some(scheme + "  " + rest), verify) == Reject(401, NoTokenMessage)
  {
    SplitAfterWord(scheme, ' ', " " + rest);
    SplitAfterWord("", ' ', rest);
    assert scheme + "  " + rest == scheme + [' '] + (" " + rest);
    assert " " + rest == "" + [' '] + rest;
  }

  /** Once a token is found the verdict is the verifier's alone: a payload
      lets the request through with that payload, a failure answers 400. */
  lemma VerifierDecides<P>(scheme: string, token: string, verify: string -> Option<P>)
    requires ' ' !in scheme && ' ' !in token && token != ""
    ensures verify(token).Some? ==> Authenticate(Some(SchemeHeader(scheme, token)), verify) == Proceed(verify(token).value)
    ensures verify(token).None? ==> Authenticate(Some(SchemeHeader(scheme, token)), verify) == Reject(400, InvalidTokenMessage)
  {
    TokenAfterAnyScheme(scheme, token, "");
  }
}
