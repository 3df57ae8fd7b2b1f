/** The `checkJWT` middleware: where the token is read from, how the request
    is classified, and what the gate answers. Signature checking is the
    `verify` oracle (`jwt.verify` with the configured secret); a token it
    refuses, for whatever reason, yields `None`. */
module Gate {
  import opened Js

  /** The identity the login routes put in a token: `{ id, email, username }`. */
  datatype Identity = Identity(id: nat, email: string, username: Option<string>)

  /** A verified payload: its `user` claim when it has one, other claims opaque. */
  datatype Payload = Payload(user: Option<Identity>, claims: map<string, string>)

  /** What `req.user` is set to. */
  datatype Principal = TokenUser(identity: Identity) | WholePayload(payload: Payload)

  /** The three places a token can come from. */
  datatype Headers = Headers(authorization: Js<string>, accessToken: Js<string>, cookieToken: Js<string>)

  /** The gate's answer: `401 { message: code }`, a redirect, or `next()`. */
  datatype Outcome = Unauthorized(code: string) | Redirect(location: string) | Continue(user: Principal)

  const MissingCode := "token_required"
  const InvalidCode := "token_not_valid"
  const MissingPage := "/?error=missing_token"
  const InvalidPage := "/?error=invalid_token"

  /** `(req.headers.authorization || '').toString()`. */
  function AuthText(h: Js<string>): string {
    if Truthy(h) then h.v else ""
  }

  /** The Authorization header, lower-cased, starts with `"bearer "`. */
  predicate IsBearer(h: Headers) {
    StartsWith(ToLower(AuthText(h.authorization)), "bearer ")
  }

  /** `extractToken(req)`: a bearer Authorization header (its rest, trimmed,
      even when empty), else a truthy `x-access-token`, else a truthy
      `token` cookie, else nothing. */
  function ExtractToken(h: Headers): (t: Option<string>)
    ensures IsBearer(h) ==> t == Some(Trim(AuthText(h.authorization)[7..]))
    ensures !IsBearer(h) && Truthy(h.accessToken) ==> t == Some(h.accessToken.v)
    ensures !IsBearer(h) && !Truthy(h.accessToken) && Truthy(h.cookieToken) ==> t == Some(h.cookieToken.v)
    ensures t.None? <==> !IsBearer(h) && !Truthy(h.accessToken) && !Truthy(h.cookieToken)
  {
    if IsBearer(h) then Some(Trim(AuthText(h.authorization)[7..]))
    else if Truthy(h.accessToken) then Some(h.accessToken.v)
    else if Truthy(h.cookieToken) then Some(h.cookieToken.v)
    else None
  }

  /** `isApiRequest(req)`. */
  predicate IsApiRequest(originalUrl: string) {
    StartsWith(originalUrl, "/api/")
  }

  /** `decoded.user ? decoded.user : decoded`. */
  function PrincipalOf(p: Payload): Principal {
    if p.user.Some? then TokenUser(p.user.value) else WholePayload(p)
  }

  /** The decision of `checkJWT`. */
  function Decide(h: Headers, originalUrl: string, verify: string -> Option<Payload>): (o: Outcome)
    ensures o.Unauthorized? <==> IsApiRequest(originalUrl) && !o.Continue?
    ensures o.Redirect? <==> !IsApiRequest(originalUrl) && !o.Continue?
    ensures o.Continue? <==> exists t :: ExtractToken(h) == Some(t) && t != "" && verify(t).Some?
    ensures o.Continue? ==> o.user == PrincipalOf(verify(ExtractToken(h).value).value)
    ensures (ExtractToken(h).None? || ExtractToken(h) == Some("")) ==>
      o == (if IsApiRequest(originalUrl) then Unauthorized(MissingCode) else Redirect(MissingPage))
    ensures ExtractToken(h).Some? && ExtractToken(h).value != "" && verify(ExtractToken(h).value).None? ==>
      o == (if IsApiRequest(originalUrl) then Unauthorized(InvalidCode) else Redirect(InvalidPage))
  {
    var token := ExtractToken(h);
    if token.None? || token.value == "" then
      (if IsApiRequest(originalUrl) then Unauthorized(MissingCode) else Redirect(MissingPage))
    else
      var decoded := verify(token.value);
      if decoded.None? then
        (if IsApiRequest(originalUrl) then Unauthorized(InvalidCode) else Redirect(InvalidPage))
      else Continue(PrincipalOf(decoded.value))
  }

  /** The request as the middleware sees it; `user` is what it writes. */
  class Request {
    const headers: Headers
    const originalUrl: string
    var user: Option<Principal>

    constructor (headers: Headers, originalUrl: string)
      ensures this.headers == headers && this.originalUrl == originalUrl && user == None
    {
      this.headers := headers;
      this.originalUrl := originalUrl;
      user := None;
    }
  }

  /** `checkJWT(req, res, next)`: decides, and sets `req.user` only when it lets the request through. */
  method CheckJwt(req: Request, verify: string -> Option<Payload>) returns (o: Outcome)
    modifies req
    ensures o == Decide(req.headers, req.originalUrl, verify)
    ensures req.user == (if o.Continue? then Some(o.user) else old(req.user))
  {
    o := Decide(req.headers, req.originalUrl, verify);
    if o.Continue? {
      req.user := Some(o.user);
    }
  }

  /** An Authorization header that is not a bearer header is ignored. */
  lemma NonBearerIgnored(h: Headers)
    requires !IsBearer(h)
    ensures ExtractToken(h) == ExtractToken(h.(authorization := Undefined))
  {
  }

  /** A bearer header settles the token alone, even when its rest is empty. */
  lemma BearerExcludesOthers(h: Headers, accessToken: Js<string>, cookieToken: Js<string>)
    requires IsBearer(h)
    ensures ExtractToken(h) == ExtractToken(Headers(h.authorization, accessToken, cookieToken))
  {
  }

  /** The scheme is matched without regard to case. */
  lemma SchemeCaseInsensitive(tok: string)
    ensures IsBearer(Headers(Val("BeArEr " + tok), Undefined, Undefined))
  {
    var s := "BeArEr " + tok;
    var low := ToLower(s);
    assert low[..7] == "bearer " by {
      assert s[0] == 'B' && s[1] == 'e' && s[2] == 'A' && s[3] == 'r' && s[4] == 'E' && s[5] == 'r' && s[6] == ' ';
      assert low[0] == LowerChar('B') && low[1] == LowerChar('e') && low[2] == LowerChar('A');
      assert low[3] == LowerChar('r') && low[4] == LowerChar('E') && low[5] == LowerChar('r') && low[6] == LowerChar(' ');
    }
  }

  /** `"Bearer " + t` carries back `t` itself when `t` has no surrounding spaces. */
  lemma BearerRoundTrip(t: string, accessToken: Js<string>, cookieToken: Js<string>)
    requires t != [] && !IsSpace(t[0]) && !IsSpace(t[|t| - 1])
    ensures ExtractToken(Headers(Val("Bearer " + t), accessToken, cookieToken)) == Some(t)
  {
    var s := "Bearer " + t;
    var low := ToLower(s);
    assert low[..7] == "bearer " by {
      assert s[0] == 'B' && s[1] == 'e' && s[2] == 'a' && s[3] == 'r' && s[4] == 'e' && s[5] == 'r' && s[6] == ' ';
      assert low[0] == LowerChar('B') && low[1] == LowerChar('e') && low[2] == LowerChar('a');
      assert low[3] == LowerChar('r') && low[4] == LowerChar('e') && low[5] == LowerChar('r') && low[6] == LowerChar(' ');
    }
    assert s[7..] == t;
    TrimOfUnpadded(t);
  }

  /** A string without surrounding spaces is its own trim. */
  lemma TrimOfUnpadded(t: string)
    requires t != [] && !IsSpace(t[0]) && !IsSpace(t[|t| - 1])
    ensures Trim(t) == t
  {
    assert LeadingSpaces(t) == 0;
    assert t[0..] == t;
    assert ContentEnd(t) == |t|;
  }
}
