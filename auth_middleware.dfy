/** The `auth` middleware that guards private routes. */
module AuthMiddleware {
  import opened Common
  import opened UserModel
  import opened Crypto
  import opened AuthRoutes

  const NOT_AUTHENTICATED := "User is not authenticated"

  /** Whether the guard calls `next()`, or the reply it sends instead. */
  datatype Verdict = Admit | Deny(status: int, message: string)

  /** The id the token decodes to, which the guard copies into `req.user`. */
  function Decoded(header: Option<string>, c: Crypto): (r: Option<UserId>)
    ensures r.Some? ==> TokenFrom(header).Some? && c.verify(TokenFrom(header).value) == r
    ensures TokenFrom(header).Some? && c.verify(TokenFrom(header).value).Some? ==> r.Some?
  {
    match TokenFrom(header)
    case None => None
    case Some(t) => c.verify(t)
  }

  /** The guard's decision chain, checked in this order: a token, a token that verifies,
      a user with that id, a user who is logged in. */
  function Authorize(header: Option<string>, users: map<string, User>, c: Crypto): (v: Verdict)
    requires UniqueIds(users)
    ensures TokenFrom(header).None? ==> v == Deny(401, NO_TOKEN)
    ensures TokenFrom(header).Some? && Decoded(header, c).None? ==> v == Deny(401, TOKEN_INVALID)
    ensures Decoded(header, c).Some? && FindById(users, Decoded(header, c).value).None? ==>
      v == Deny(404, USER_NOT_FOUND)
    ensures v == Admit <==>
      exists e :: e in users && Decoded(header, c) == Some(users[e].id) && users[e].isAuthenticated
    ensures (exists e :: e in users && Decoded(header, c) == Some(users[e].id) && !users[e].isAuthenticated)
      ==> v == Deny(401, NOT_AUTHENTICATED)
  {
    match TokenFrom(header)
    case None => Deny(401, NO_TOKEN)
    case Some(token) =>
      match c.verify(token)
      case None => Deny(401, TOKEN_INVALID)
      case Some(id) =>
        match FindById(users, id)
        case None => Deny(404, USER_NOT_FOUND)
        case Some(e) => if users[e].isAuthenticated then Admit else Deny(401, NOT_AUTHENTICATED)
  }

  /** The incoming request: its Authorization header, and `req.user`, which the guard sets. */
  class Request {
    const authorization: Option<string>
    var user: Option<UserId>

    constructor (authorization: Option<string>)
      ensures this.authorization == authorization && user == None
    {
      this.authorization := authorization;
      user := None;
    }
  }

  /** Runs the guard on `req`: `next` says whether `next()` is called, otherwise `reply` is
      what is sent. `req.user` is set as soon as the token verifies, even on a later refusal.
      The store is only read. */
  method Guard(store: UserStore, req: Request) returns (next: bool, reply: Option<Reply>)
    requires store.Valid()
    modifies req
    ensures next <==> Authorize(req.authorization, store.users, store.crypto) == Admit
    ensures next ==> reply == None
    ensures !next ==> var v := Authorize(req.authorization, store.users, store.crypto);
      reply == Some(Reply(v.status, Fail(v.message)))
    ensures req.user == if Decoded(req.authorization, store.crypto).Some?
      then Decoded(req.authorization, store.crypto) else old(req.user)
  {
    var token := TokenFrom(req.authorization);
    if token.None? {
      return false, Some(Reply(401, Fail(NO_TOKEN)));
    }
    var decoded := store.crypto.verify(token.value);
    if decoded.None? {
      return false, Some(Reply(401, Fail(TOKEN_INVALID)));
    }
    req.user := decoded;
    var found := FindById(store.users, decoded.value);
    if found.None? {
      return false, Some(Reply(404, Fail(USER_NOT_FOUND)));
    }
    if !store.users[found.value].isAuthenticated {
      return false, Some(Reply(401, Fail(NOT_AUTHENTICATED)));
    }
    next, reply := true, None;
  }

  /** After a login, the token it returned (sent as "Bearer <token>") passes the guard. */
  lemma AdmitAfterLogin(users: map<string, User>, c: Crypto, email: string)
    requires Lawful(c) && StoreInvariant(users) && email in users
    ensures var u := users[email].(isAuthenticated := true);
      Authorize(Some(BEARER + c.sign(u.id)), users[email := u], c) == Admit
  {
    var u := users[email].(isAuthenticated := true);
    var users' := users[email := u];
    SetAuthenticatedKeepsInvariant(users, email, true);
    TokenFromBearer(c.sign(u.id));
    assert Decoded(Some(BEARER + c.sign(u.id)), c) == Some(users'[email].id);
  }

  /** After a logout, a token for that user that still verifies no longer passes the guard. */
  lemma DenyAfterLogout(users: map<string, User>, c: Crypto, e: string, header: Option<string>)
    requires StoreInvariant(users) && e in users
    requires Decoded(header, c) == Some(users[e].id)
    ensures Authorize(header, users[e := users[e].(isAuthenticated := false)], c)
      == Deny(401, NOT_AUTHENTICATED)
  {
    var users' := users[e := users[e].(isAuthenticated := false)];
    SetAuthenticatedKeepsInvariant(users, e, false);
    assert e in users' && Decoded(header, c) == Some(users'[e].id) && !users'[e].isAuthenticated;
  }

  /** Logging in with the right password, then presenting the returned token as
      "Bearer <token>", passes the guard. */
  method LoginThenGuard(store: UserStore, email: string, password: string) returns (admitted: bool)
    requires store.Valid() && email in store.users
    requires store.crypto.compare(password, store.users[email].password)
    modifies store
    ensures store.Valid() && admitted
    ensures store.users == old(store.users)[email := old(store.users)[email].(isAuthenticated := true)]
  {
    ghost var before := store.users;
    var r := store.Login(email, password);
    AdmitAfterLogin(before, store.crypto, email);
    var req := new Request(Some(BEARER + r.body.token));
    var reply;
    admitted, reply := Guard(store, req);
  }

  /** Logging out with a user's token, then presenting the same token, is refused. */
  method LogoutThenGuard(store: UserStore, email: string) returns (refused: bool)
    requires store.Valid() && email in store.users
    modifies store
    ensures store.Valid() && refused
    ensures store.users == old(store.users)[email := old(store.users)[email].(isAuthenticated := false)]
  {
    ghost var before := store.users;
    var id := store.users[email].id;
    var header := Some(BEARER + store.crypto.sign(id));
    TokenFromBearer(store.crypto.sign(id));
    assert Decoded(header, store.crypto) == Some(id);
    assert FindById(before, id) == Some(email);
    var r := store.Logout(header);
    DenyAfterLogout(before, store.crypto, email, header);
    var req := new Request(header);
    var next, reply := Guard(store, req);
    refused := !next;
  }

  /** A whole session against the store: register, log in, pass the guard, log out, and be
      refused by the guard with the very same token. It goes through exactly when the
      name and the e-mail pass the schema; the password's length plays no part. */
  method Session(store: UserStore, name: string, email: string, password: string, salt: string, newId: UserId)
    returns (admitted: bool, refusedAfterLogout: bool)
    requires store.Valid() && email !in store.users
    requires forall e :: e in store.users ==> store.users[e].id != newId
    modifies store
    ensures store.Valid()
    ensures (admitted && refusedAfterLogout) <==> NameOk(Some(name)) && EmailOk(Some(email))
  {
    admitted, refusedAfterLogout := false, false;
    var r := store.Register(name, email, password, salt, newId);
    if r.status != 201 {
      return;
    }
    admitted := LoginThenGuard(store, email, password);
    refusedAfterLogout := LogoutThenGuard(store, email);
  }
}
