/** The login controller (POST `/api/users/login`): checks the credentials,
    signs a token for the user's identity, stamps `last_login` and answers
    with the token and the account's name and address. Any exception inside
    answers `500 { message: 'server_error' }`. */
module UserController {
  import opened Js
  import opened Users
  import Gate

  /** The body fields `login` reads. */
  datatype LoginBody = LoginBody(email: Js<string>, password: Js<string>)

  /** `{ token, name: user.username, email: user.email }`. */
  datatype Session = Session(token: string, name: Option<string>, email: string)

  const MsgMissingCredentials := "missing_credentials"
  const MsgInvalidCredentials := "invalid_credentials"
  const MsgServerError := "server_error"

  /** `login(req, res)`. `sign` is `jwt.sign` with the configured secret
      (`None` when it throws); `now` is `new Date()`. */
  method Login(store: UserStore, body: LoginBody, now: int, sign: Gate.Identity -> Option<string>) returns (reply: Reply<Session>)
    requires store.Valid()
    modifies store
    ensures store.Valid() && store.nextId == old(store.nextId)
    ensures !(Truthy(body.email) && Truthy(body.password)) ==> reply == Message(400, MsgMissingCredentials)
    ensures Truthy(body.email) && Truthy(body.password) ==>
      var k := FindFirst(old(store.users), ByEmail(ToLower(body.email.v)));
      && (k.None? ==> reply == Message(401, MsgInvalidCredentials))
      && (k.Some? && !Matches(body.password.v, old(store.users)[k.value].password) ==> reply == Message(401, MsgInvalidCredentials))
      && (k.Some? && Matches(body.password.v, old(store.users)[k.value].password) ==>
            var u := old(store.users)[k.value];
            && (sign(IdentityOf(u)).None? ==> reply == Message(500, MsgServerError))
            && (sign(IdentityOf(u)).Some? ==>
                  && reply == Json(200, Session(sign(IdentityOf(u)).value, u.username, u.email))
                  && store.users == old(store.users)[k.value := u.(lastLogin := Some(now))]))
    ensures !reply.Json? ==> store.users == old(store.users)
  {
    if !(Truthy(body.email) && Truthy(body.password)) {
      return Message(400, MsgMissingCredentials);
    }
    var k := FindFirst(store.users, ByEmail(ToLower(body.email.v)));
    if k.None? || !Matches(body.password.v, store.users[k.value].password) {
      return Message(401, MsgInvalidCredentials);
    }
    var u := store.users[k.value];
    var token := sign(IdentityOf(u));
    if token.None? {
      return Message(500, MsgServerError);
    }
    store.RecordLogin(k.value, now);
    reply := Json(200, Session(token.value, u.username, u.email));
  }

  /** A token the login routes hand out, sent back as `Bearer <token>`, lets
      the request through the gate as the identity it was signed for, whatever
      the other two token sources hold. (A signed token is base64url text and
      has no surrounding spaces.) */
  lemma IssuedTokenOpensGate(tok: string, who: Gate.Identity, claims: map<string, string>,
                             verify: string -> Option<Gate.Payload>, url: string,
                             accessToken: Js<string>, cookieToken: Js<string>)
    requires tok != [] && !IsSpace(tok[0]) && !IsSpace(tok[|tok| - 1])
    requires verify(tok) == Some(Gate.Payload(Some(who), claims))
    ensures Gate.Decide(Gate.Headers(Val("Bearer " + tok), accessToken, cookieToken), url, verify) == Gate.Continue(Gate.TokenUser(who))
  {
    Gate.BearerRoundTrip(tok, accessToken, cookieToken);
  }

  /** The `Authorization` header `authenticate` sets opens the gate as the
      identity of the account that signed in. */
  lemma AuthenticateHeaderOpensGate(store: UserStore, b: Credentials, sign: Gate.Identity -> Option<string>,
                                    verify: string -> Option<Gate.Payload>, url: string, claims: map<string, string>)
    requires store.Authenticate(b, sign).Json?
    requires var tok := store.Authenticate(b, sign).body.token;
      && tok != [] && !IsSpace(tok[0]) && !IsSpace(tok[|tok| - 1])
    requires var tok := store.Authenticate(b, sign).body.token;
      forall i :: 0 <= i < |store.users| && sign(IdentityOf(store.users[i])) == Some(tok) ==>
        verify(tok) == Some(Gate.Payload(Some(IdentityOf(store.users[i])), claims))
    ensures var reply := store.Authenticate(b, sign);
      && Gate.Decide(Gate.Headers(Val(reply.body.authorization), Undefined, Undefined), url, verify).Continue?
      && exists i :: 0 <= i < |store.users| && store.users[i].email == ToLower(b.email.v)
           && Gate.Decide(Gate.Headers(Val(reply.body.authorization), Undefined, Undefined), url, verify)
              == Gate.Continue(Gate.TokenUser(IdentityOf(store.users[i])))
  {
    var reply := store.Authenticate(b, sign);
    var tok := reply.body.token;
    var i :| 0 <= i < |store.users| && store.users[i].email == ToLower(b.email.v) && Matches(b.password.v, store.users[i].password)
             && sign(IdentityOf(store.users[i])) == Some(tok);
    IssuedTokenOpensGate(tok, IdentityOf(store.users[i]), claims, verify, url, Undefined, Undefined);
  }
}
