/** The user service: account creation, listing and lookup with the password
    stripped, partial updates by id and by email, deletion, and the
    `authenticate` handler. The collection is a sequence of documents in
    store order; the store's unique index on `email` refuses a save that
    would duplicate an address. */
module Users {
  import opened Js
  import Gate

  /** A bcrypt digest. Nothing but `Matches` (`bcrypt.compare`) looks inside. */
  datatype Digest = Bcrypt(secret: string)

  /** `bcrypt.compare(candidate, digest)`. */
  predicate Matches(candidate: string, d: Digest) {
    d.secret == candidate
  }

  /** A stored user; `password` is the digest the pre-save hook computed. */
  datatype UserDoc = UserDoc(id: nat, username: Option<string>, email: string, password: Digest, lastLogin: Option<int>)

  /** A value of a field of a returned user object. */
  datatype Value = Str(s: string) | Num(n: int) | JsonNull | Date(t: int) | Secret(d: Digest)

  /** A returned user object, field name to value. */
  type View = map<string, Value>

  /** JavaScript truthiness of a field value (a digest is a non-empty string). */
  predicate TruthyValue(v: Value) {
    match v
    case Str(s) => s != ""
    case Num(n) => n != 0
    case JsonNull => false
    case Date(_) => true
    case Secret(_) => true
  }

  /** `toObject()` / `lean()`: every stored field of the document. */
  function ToObject(u: UserDoc): (v: View)
    ensures v.Keys == {"_id", "username", "email", "password"} + (if u.lastLogin.Some? then {"last_login"} else {})
    ensures v["_id"] == Num(u.id) && v["email"] == Str(u.email) && v["password"] == Secret(u.password)
    ensures v["username"] == (if u.username.Some? then Str(u.username.value) else JsonNull)
    ensures u.lastLogin.Some? ==> v["last_login"] == Date(u.lastLogin.value)
  {
    map["_id" := Num(u.id),
        "username" := (if u.username.Some? then Str(u.username.value) else JsonNull),
        "email" := Str(u.email),
        "password" := Secret(u.password)]
    + (if u.lastLogin.Some? then map["last_login" := Date(u.lastLogin.value)] else map[])
  }

  /** `sanitize`: `if (u.password) delete u.password`. */
  function Sanitize(v: View): (r: View)
    ensures "password" in v && TruthyValue(v["password"]) ==> "password" !in r
    ensures forall k :: k != "password" ==> (k in r <==> k in v)
    ensures forall k :: k in r && k != "password" ==> r[k] == v[k]
    ensures !("password" in v && TruthyValue(v["password"])) ==> r == v
  {
    if "password" in v && TruthyValue(v["password"]) then v - {"password"} else v
  }

  /** What every read, create and update hands back: all fields but the password. */
  function Public(u: UserDoc): View {
    Sanitize(ToObject(u))
  }

  /** No returned user object carries a password, and nothing else is lost. */
  lemma PublicHasNoPassword(u: UserDoc)
    ensures "password" !in Public(u)
    ensures Public(u) == ToObject(u) - {"password"}
    ensures Public(u)["email"] == Str(u.email) && Public(u)["_id"] == Num(u.id)
  {
  }

  /** The body fields the handlers read. */
  datatype Credentials = Credentials(username: Js<string>, email: Js<string>, password: Js<string>)

  /** An error a service function throws: with `err.status`, or without one. */
  datatype Thrown = Raised(status: int, message: string) | Unexpected

  /** The response of `authenticate`: the `Authorization` header it sets and its JSON body. */
  datatype AuthReply = AuthReply(authorization: string, message: string, token: string)

  const MsgRequired := "username, email et password sont requis"
  const MsgExists := "Utilisateur déjà existant"
  const MsgUserNotFound := "user_not_found"
  const MsgAuthRequired := "email et password requis"
  const MsgWrongCredentials := "wrong_credentials"
  const MsgAuthOk := "authenticate_succeed"

  /** What a `findById(id)` or a `findOne({ email })` query selects. */
  datatype Query = ById(id: nat) | ByEmail(email: string)

  predicate Selects(q: Query, u: UserDoc) {
    match q
    case ById(id) => u.id == id
    case ByEmail(email) => u.email == email
  }

  /** The document such a query returns: the first one it selects, in store order. */
  function FindFirst(us: seq<UserDoc>, q: Query): (k: Option<nat>)
    ensures k.Some? ==> k.value < |us| && Selects(q, us[k.value])
                        && forall i :: 0 <= i < k.value ==> !Selects(q, us[i])
    ensures k.None? <==> forall i :: 0 <= i < |us| ==> !Selects(q, us[i])
  {
    if us == [] then None
    else if Selects(q, us[0]) then Some(0)
    else
      var k := FindFirst(us[1..], q);
      if k.Some? then Some(k.value + 1) else None
  }

  /** Some document other than the `k`-th uses `email`: saving the `k`-th with
      it would violate the unique index. */
  predicate EmailTakenByOther(us: seq<UserDoc>, k: nat, email: string) {
    exists j | 0 <= j < |us| :: j != k && us[j].email == email
  }

  /** Ids are distinct and below `nextId`; emails are distinct (unique index)
      and stored lower-cased (every write lower-cases them). */
  ghost predicate WellFormed(us: seq<UserDoc>, nextId: nat) {
    && (forall i :: 0 <= i < |us| ==> us[i].id < nextId && ToLower(us[i].email) == us[i].email)
    && (forall i, j :: 0 <= i < j < |us| ==> us[i].id != us[j].id)
    && (forall i, j :: 0 <= i < j < |us| ==> us[i].email != us[j].email)
  }

  /** Removing the `k`-th document keeps the store well formed, and no other
      document has its id or its address. */
  lemma RemoveKeepsWellFormed(us: seq<UserDoc>, nextId: nat, k: nat, r: seq<UserDoc>)
    requires WellFormed(us, nextId) && k < |us| && r == us[..k] + us[k + 1..]
    ensures WellFormed(r, nextId)
    ensures forall i :: 0 <= i < |r| ==> r[i].id != us[k].id && r[i].email != us[k].email
  {
    assert forall i :: 0 <= i < |r| ==> r[i] == if i < k then us[i] else us[i + 1];
  }

  /** Every account is found by its address written in any casing, and by
      its stored address itself. */
  lemma FoundByAnyCasing(us: seq<UserDoc>, nextId: nat, i: nat, e: string)
    requires WellFormed(us, nextId) && i < |us| && ToLower(e) == us[i].email
    ensures FindFirst(us, ByEmail(ToLower(e))) == Some(i)
    ensures FindFirst(us, ByEmail(ToLower(us[i].email))) == Some(i)
  {
  }

  /** The identity `authenticate` and `login` sign. */
  function IdentityOf(u: UserDoc): Gate.Identity {
    Gate.Identity(u.id, u.email, u.username)
  }

  /** `patchUser`'s new document: each field that is not `undefined` is
      assigned (`null` username stored as null, email lower-cased, password
      re-hashed); `email.toLowerCase()` on `null` and `bcrypt.hash(null)` throw. */
  function PatchFields(u: UserDoc, p: Credentials): (r: Option<UserDoc>)
    ensures r.None? <==> p.email.Null? || p.password.Null?
    ensures r.Some? ==> r.value.id == u.id && r.value.lastLogin == u.lastLogin
    ensures r.Some? && p.username.Undefined? ==> r.value.username == u.username
    ensures r.Some? && p.email.Undefined? ==> r.value.email == u.email
    ensures r.Some? && p.password.Undefined? ==> r.value.password == u.password
    ensures r.Some? && ToLower(u.email) == u.email ==> ToLower(r.value.email) == r.value.email
    ensures r.Some? && p.username.Val? ==> r.value.username == Some(p.username.v)
    ensures r.Some? && p.username.Null? ==> r.value.username.None?
    ensures r.Some? && p.email.Val? ==> r.value.email == ToLower(p.email.v)
    ensures r.Some? && p.password.Val? ==> Matches(p.password.v, r.value.password)
  {
    if p.email.Null? || p.password.Null? then None
    else
      Some(u.(
        username := if p.username.Undefined? then u.username else if p.username.Null? then None else Some(p.username.v),
        email := if p.email.Val? then ToLower(p.email.v) else u.email,
        password := if p.password.Val? then Bcrypt(p.password.v) else u.password))
  }

  /** `update`'s new document: only truthy fields are assigned. */
  function UpdateFields(u: UserDoc, b: Credentials): (n: UserDoc)
    ensures n.id == u.id && n.lastLogin == u.lastLogin
    ensures !Truthy(b.username) ==> n.username == u.username
    ensures !Truthy(b.email) ==> n.email == u.email
    ensures !Truthy(b.password) ==> n.password == u.password
    ensures ToLower(u.email) == u.email ==> ToLower(n.email) == n.email
    ensures Truthy(b.username) ==> n.username == Some(b.username.v)
    ensures Truthy(b.email) ==> n.email == ToLower(b.email.v)
    ensures Truthy(b.password) ==> Matches(b.password.v, n.password)
  {
    u.(
      username := if Truthy(b.username) then Some(b.username.v) else u.username,
      email := if Truthy(b.email) then ToLower(b.email.v) else u.email,
      password := if Truthy(b.password) then Bcrypt(b.password.v) else u.password)
  }

  /** The response `add` sends for what `createUser` returned or threw. */
  function AddReply(r: Result<View, Thrown>): (reply: Reply<View>)
    ensures r.Success? ==> reply == Json(201, r.value)
    ensures r.Failure? && r.error.Raised? ==> reply == Message(r.error.status, r.error.message)
    ensures r == Failure(Unexpected) ==> reply == Crash
  {
    match r
    case Success(v) => Json(201, v)
    case Failure(Raised(s, m)) => Message(s, m)
    case Failure(Unexpected) => Crash
  }

  class UserStore {
    var users: seq<UserDoc>
    var nextId: nat

    ghost predicate Valid()
      reads this
    {
      WellFormed(users, nextId)
    }

    constructor ()
      ensures Valid() && users == []
    {
      users := [];
      nextId := 0;
    }

    /** `createUser`: 400 unless the three fields are truthy, 409 when the
        lower-cased email or the exact username is taken; otherwise one user
        is appended with the email lower-cased and the password hashed, and
        its public view is returned. */
    method CreateUser(c: Credentials) returns (r: Result<View, Thrown>)
      requires Valid()
      modifies this
      ensures Valid()
      ensures !(Truthy(c.username) && Truthy(c.email) && Truthy(c.password)) ==> r == Failure(Raised(400, MsgRequired))
      ensures Truthy(c.username) && Truthy(c.email) && Truthy(c.password) ==>
        var taken := exists i | 0 <= i < |old(users)| ::
          old(users)[i].email == ToLower(c.email.v) || old(users)[i].username == Some(c.username.v);
        && (taken ==> r == Failure(Raised(409, MsgExists)))
        && (!taken ==>
              && |users| == |old(users)| + 1 && users[..|old(users)|] == old(users)
              && var u := users[|old(users)|];
                 && r == Success(Public(u))
                 && u == UserDoc(u.id, Some(c.username.v), ToLower(c.email.v), Bcrypt(c.password.v), None)
                 && (forall i :: 0 <= i < |old(users)| ==> old(users)[i].id != u.id))
      ensures r.Failure? ==> users == old(users)
    {
      if !(Truthy(c.username) && Truthy(c.email) && Truthy(c.password)) {
        return Failure(Raised(400, MsgRequired));
      }
      var email := ToLower(c.email.v);
      if exists i | 0 <= i < |users| :: users[i].email == email || users[i].username == Some(c.username.v) {
        return Failure(Raised(409, MsgExists));
      }
      ToLowerIdempotent(c.email.v);
      var u := UserDoc(nextId, Some(c.username.v), email, Bcrypt(c.password.v), None);
      users := users + [u];
      nextId := nextId + 1;
      r := Success(Public(u));
    }

    /** `getAllUsers`: every user in store order, each with its password deleted. */
    method GetAllUsers() returns (views: seq<View>)
      ensures |views| == |users|
      ensures forall i :: 0 <= i < |users| ==> "password" !in views[i] && views[i] == ToObject(users[i]) - {"password"}
    {
      views := [];
      var i := 0;
      while i < |users|
        invariant 0 <= i <= |users| && |views| == i
        invariant forall k :: 0 <= k < i ==> "password" !in views[k] && views[k] == ToObject(users[k]) - {"password"}
      {
        var u := ToObject(users[i]);
        if "password" in u && TruthyValue(u["password"]) {
          u := u - {"password"};
        }
        views := views + [u];
        i := i + 1;
      }
    }

    /** `getUserById`: `null` for an unknown id, else the public view. */
    function GetUserById(id: nat): (r: Option<View>)
      reads this
      ensures r.None? <==> forall i :: 0 <= i < |users| ==> users[i].id != id
      ensures r.Some? ==> "password" !in r.value
      ensures r.Some? ==> exists i :: 0 <= i < |users| && users[i].id == id && r.value == ToObject(users[i]) - {"password"}
    {
      var k := FindFirst(users, ById(id));
      if k.None? then None else Some(Public(users[k.value]))
    }

    /** `getByEmail`: looks the lower-cased address up; 404 or the public view. */
    function GetByEmail(email: string): (reply: Reply<View>)
      reads this
      ensures reply.Json? <==> exists i :: 0 <= i < |users| && users[i].email == ToLower(email)
      ensures reply.Json? ==> reply.status == 200 && "password" !in reply.body
      ensures reply.Json? ==>
        exists i :: 0 <= i < |users| && users[i].email == ToLower(email) && reply.body == ToObject(users[i]) - {"password"}
      ensures !reply.Json? ==> reply == Message(404, MsgUserNotFound)
    {
      var k := FindFirst(users, ByEmail(ToLower(email)));
      if k.None? then Message(404, MsgUserNotFound) else Json(200, Public(users[k.value]))
    }

    /** `patchUser`: `null` for an unknown id; otherwise the fields that are
        not `undefined` are assigned and the document saved. */
    method PatchUser(id: nat, p: Credentials) returns (r: Result<Option<View>, Thrown>)
      requires Valid()
      modifies this
      ensures Valid() && nextId == old(nextId)
      ensures FindFirst(old(users), ById(id)).None? ==> r == Success(None) && users == old(users)
      ensures FindFirst(old(users), ById(id)).Some? ==>
        var k := FindFirst(old(users), ById(id)).value;
        var n := PatchFields(old(users)[k], p);
        && (n.None? ==> r == Failure(Unexpected))
        && (n.Some? && EmailTakenByOther(old(users), k, n.value.email) ==> r == Failure(Unexpected))
        && (n.Some? && !EmailTakenByOther(old(users), k, n.value.email) ==>
              r == Success(Some(Public(n.value))) && users == old(users)[k := n.value])
      ensures !(r.Success? && r.value.Some?) ==> users == old(users)
    {
      var k := FindFirst(users, ById(id));
      if k.None? {
        return Success(None);
      }
      var n := PatchFields(users[k.value], p);
      if n.None? {
        return Failure(Unexpected);
      }
      if EmailTakenByOther(users, k.value, n.value.email) {
        return Failure(Unexpected);
      }
      users := users[k.value := n.value];
      r := Success(Some(Public(n.value)));
    }

    /** `deleteUser`: removes the document with that id and returns it as
        stored, password included; `null` for an unknown id. */
    method DeleteUser(id: nat) returns (r: Option<View>)
      requires Valid()
      modifies this
      ensures Valid() && nextId == old(nextId)
      ensures FindFirst(old(users), ById(id)).None? ==> r.None? && users == old(users)
      ensures FindFirst(old(users), ById(id)).Some? ==>
        var k := FindFirst(old(users), ById(id)).value;
        r == Some(ToObject(old(users)[k])) && users == old(users)[..k] + old(users)[k + 1..]
    {
      var k := FindFirst(users, ById(id));
      if k.None? {
        return None;
      }
      r := Some(ToObject(users[k.value]));
      RemoveKeepsWellFormed(users, nextId, k.value, users[..k.value] + users[k.value + 1..]);
      users := users[..k.value] + users[k.value + 1..];
    }

    /** `update` (PUT and PATCH `/:email`): finds the lower-cased address,
        assigns only the truthy fields and saves. */
    method Update(email: string, b: Credentials) returns (reply: Reply<View>)
      requires Valid()
      modifies this
      ensures Valid() && nextId == old(nextId)
      ensures FindFirst(old(users), ByEmail(ToLower(email))).None? ==> reply == Message(404, MsgUserNotFound)
      ensures FindFirst(old(users), ByEmail(ToLower(email))).Some? ==>
        var k := FindFirst(old(users), ByEmail(ToLower(email))).value;
        var n := UpdateFields(old(users)[k], b);
        && (EmailTakenByOther(old(users), k, n.email) ==> reply == Crash)
        && (!EmailTakenByOther(old(users), k, n.email) ==> reply == Json(200, Public(n)) && users == old(users)[k := n])
      ensures !reply.Json? ==> users == old(users)
    {
      var k := FindFirst(users, ByEmail(ToLower(email)));
      if k.None? {
        return Message(404, MsgUserNotFound);
      }
      var n := UpdateFields(users[k.value], b);
      if EmailTakenByOther(users, k.value, n.email) {
        return Crash;
      }
      users := users[k.value := n];
      reply := Json(200, Public(n));
    }

    /** `delete` (DELETE `/:email`): removes the user with the lower-cased address. */
    method Delete(email: string) returns (reply: Reply<View>)
      requires Valid()
      modifies this
      ensures Valid() && nextId == old(nextId)
      ensures FindFirst(old(users), ByEmail(ToLower(email))).None? ==> reply == Message(404, MsgUserNotFound) && users == old(users)
      ensures FindFirst(old(users), ByEmail(ToLower(email))).Some? ==>
        var k := FindFirst(old(users), ByEmail(ToLower(email))).value;
        reply == NoContent && users == old(users)[..k] + old(users)[k + 1..]
        && forall i :: 0 <= i < |users| ==> users[i].email != ToLower(email)
    {
      var k := FindFirst(users, ByEmail(ToLower(email)));
      if k.None? {
        return Message(404, MsgUserNotFound);
      }
      RemoveKeepsWellFormed(users, nextId, k.value, users[..k.value] + users[k.value + 1..]);
      users := users[..k.value] + users[k.value + 1..];
      reply := NoContent;
    }

    /** `authenticate`: 400 on a missing field, 404 for an unknown address,
        403 on a wrong password; otherwise a signed token for the user's
        identity (a `sign` that throws reaches the error handler). */
    function Authenticate(b: Credentials, sign: Gate.Identity -> Option<string>): (reply: Reply<AuthReply>)
      reads this
      ensures !(Truthy(b.email) && Truthy(b.password)) ==> reply == Message(400, MsgAuthRequired)
      ensures Truthy(b.email) && Truthy(b.password) && FindFirst(users, ByEmail(ToLower(b.email.v))).None?
        ==> reply == Message(404, MsgUserNotFound)
      ensures reply.Json? ==>
        && Truthy(b.email) && Truthy(b.password)
        && (exists i :: 0 <= i < |users| && users[i].email == ToLower(b.email.v) && Matches(b.password.v, users[i].password)
                        && sign(IdentityOf(users[i])) == Some(reply.body.token))
        && reply.status == 200
        && reply.body == AuthReply("Bearer " + reply.body.token, MsgAuthOk, reply.body.token)
      ensures reply == Message(403, MsgWrongCredentials) <==>
        && Truthy(b.email) && Truthy(b.password)
        && (exists i :: 0 <= i < |users| && users[i].email == ToLower(b.email.v) && !Matches(b.password.v, users[i].password)
                        && FindFirst(users, ByEmail(ToLower(b.email.v))) == Some(i))
      ensures Truthy(b.email) && Truthy(b.password) ==>
        var k := FindFirst(users, ByEmail(ToLower(b.email.v)));
        k.Some? && Matches(b.password.v, users[k.value].password) ==>
          var t := sign(IdentityOf(users[k.value]));
          && (t.Some? ==> reply == Json(200, AuthReply("Bearer " + t.value, MsgAuthOk, t.value)))
          && (t.None? ==> reply == Crash)
    {
      if !(Truthy(b.email) && Truthy(b.password)) then Message(400, MsgAuthRequired)
      else
        var k := FindFirst(users, ByEmail(ToLower(b.email.v)));
        if k.None? then Message(404, MsgUserNotFound)
        else if !Matches(b.password.v, users[k.value].password) then Message(403, MsgWrongCredentials)
        else
          var token := sign(IdentityOf(users[k.value]));
          if token.None? then Crash
          else Json(200, AuthReply("Bearer " + token.value, MsgAuthOk, token.value))
    }

    /** The `last_login` write of the login controller. */
    method RecordLogin(k: nat, now: int)
      requires Valid() && k < |users|
      modifies this
      ensures Valid() && nextId == old(nextId)
      ensures users == old(users)[k := old(users)[k].(lastLogin := Some(now))]
    {
      users := users[k := users[k].(lastLogin := Some(now))];
    }
  }
}
