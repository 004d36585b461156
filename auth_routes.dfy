/** The `/auth` routes: register, login, me and logout over the user collection. */
module AuthRoutes {
  import opened Common
  import opened Text
  import opened UserModel
  import opened Crypto

  const BEARER := "Bearer "

  const USER_EXISTS := "User already exists"
  const INVALID_CREDENTIALS := "Invalid credentials"
  const NO_TOKEN := "No token, authorization denied"
  const TOKEN_INVALID := "Token is not valid"
  const USER_NOT_FOUND := "User not found"
  const SERVER_ERROR := "Server error"

  /** The JSON bodies the routes answer with. */
  datatype Body =
    | Fail(message: string)                        // { status: 'fail', message }
    | Failure(message: string)                     // { status: 'error', message }
    | Registered                                   // 'User registered successfully'
    | LoggedIn(user: PublicUser, token: string)
    | CurrentUser(user: PublicUser)
    | LoggedOut                                    // 'User logged out successfully'

  datatype Reply = Reply(status: int, body: Body)

  /** `req.header('Authorization')?.replace('Bearer ', '')` followed by the `!token` test:
      the first "Bearer " is cut out, and a missing header or an empty remainder gives no token. */
  function TokenFrom(header: Option<string>): (t: Option<string>)
    ensures header.None? ==> t.None?
    ensures t.Some? ==> t.value != "" && t.value == ReplaceFirst(header.value, BEARER, "")
    ensures header.Some? && ReplaceFirst(header.value, BEARER, "") != "" ==> t.Some?
  {
    match header
    case None => None
    case Some(h) =>
      var rest := ReplaceFirst(h, BEARER, "");
      if rest == "" then None else Some(rest)
  }

  /** "Bearer <t>" carries the token t; exactly "Bearer " carries none. Only the first
      "Bearer " is removed, so "Bearer Bearer x" carries "Bearer x". */
  lemma TokenFromBearer(t: string)
    ensures TokenFrom(Some(BEARER + t)) == if t == "" then None else Some(t)
    ensures TokenFrom(Some(BEARER)) == None
  {
    ReplaceFirstPrefix(BEARER, t);
    ReplaceFirstPrefix(BEARER, "");
    assert BEARER + "" == BEARER;
  }

  /** A header without "Bearer " in it is taken as the token itself. */
  lemma TokenFromBare(h: string)
    requires !Includes(h, BEARER)
    ensures TokenFrom(Some(h)) == if h == "" then None else Some(h)
  {
  }

  /** The document `register` builds: a fresh id, the hashed password, and the flags
      isAdmin, isGuest, isUser, isAuthenticated set to false, false, true, false. */
  function NewUser(c: Crypto, name: string, email: string, password: string, salt: string, newId: UserId): User {
    User(newId, name, email, c.hash(password, salt), false, false, true, false)
  }

  /** The schema's length check on `password` sees the 60-character hash, never the
      plaintext, so whether the new document validates depends on the name and the e-mail
      alone: the plaintext password is not length-checked on the server at all. */
  lemma NewUserValidIgnoresPassword(c: Crypto, name: string, email: string, password: string, salt: string, newId: UserId)
    requires Lawful(c)
    ensures UserValid(DocOf(NewUser(c, name, email, password, salt, newId)))
      <==> NameOk(Some(name)) && EmailOk(Some(email))
  {
    var doc := DocOf(NewUser(c, name, email, password, salt, newId));
    assert JsLength(c.hash(password, salt)) == BCRYPT_HASH_LENGTH;
    assert PasswordOk(doc.password);
    assert UserValid(doc) <==> NameOk(doc.name) && EmailOk(doc.email) && PasswordOk(doc.password);
  }

  /** The user collection and the four routes. */
  class UserStore {
    var users: map<string, User>
    const crypto: Crypto

    ghost predicate Valid()
      reads this
    {
      Lawful(crypto) && StoreInvariant(users)
    }

    constructor (c: Crypto)
      requires Lawful(c)
      ensures Valid() && users == map[] && crypto == c
    {
      users := map[];
      crypto := c;
    }

    /** POST /register. `newId` is the uuid and `salt` the bcrypt salt drawn for this call;
        the document is saved only if it passes the schema. */
    method Register(name: string, email: string, password: string, salt: string, newId: UserId)
      returns (reply: Reply)
      requires Valid()
      requires forall e :: e in users ==> users[e].id != newId
      modifies this
      ensures Valid()
      ensures email in old(users) ==>
        reply == Reply(400, Fail(USER_EXISTS)) && users == old(users)
      ensures email !in old(users) ==>
        var u := NewUser(crypto, name, email, password, salt, newId);
        if UserValid(DocOf(u)) then
          reply == Reply(201, Registered) && users == old(users)[email := u]
        else
          reply == Reply(500, Failure(SERVER_ERROR)) && users == old(users)
      ensures reply.status == 201 ==>
        && users.Keys == old(users).Keys + {email}
        && |users| == |old(users)| + 1
        && users[email].password != password
        && crypto.compare(password, users[email].password)
      ensures email !in old(users) ==>
        (reply.status == 201 <==> NameOk(Some(name)) && EmailOk(Some(email)))
    {
      if email in users {
        return Reply(400, Fail(USER_EXISTS));
      }
      var user := NewUser(crypto, name, email, password, salt, newId);
      NewUserValidIgnoresPassword(crypto, name, email, password, salt, newId);
      if !UserValid(DocOf(user)) {
        return Reply(500, Failure(SERVER_ERROR));
      }
      InsertKeepsInvariant(users, user);
      InsertAddsOne(users, user);
      assert user.password != password && crypto.compare(password, user.password);
      users := users[email := user];
      reply := Reply(201, Registered);
    }

    /** POST /login. */
    method Login(email: string, password: string) returns (reply: Reply)
      requires Valid()
      modifies this
      ensures Valid()
      ensures email !in old(users) ==>
        reply == Reply(400, Fail(INVALID_CREDENTIALS)) && users == old(users)
      ensures email in old(users) && !crypto.compare(password, old(users)[email].password) ==>
        reply == Reply(400, Fail(INVALID_CREDENTIALS)) && users == old(users)
      ensures email in old(users) && crypto.compare(password, old(users)[email].password) ==>
        var u := old(users)[email].(isAuthenticated := true);
        && users == old(users)[email := u]
        && reply == Reply(200, LoggedIn(Public(u), crypto.sign(u.id)))
      ensures forall e :: e in old(users) && e != email ==> e in users && users[e] == old(users)[e]
      ensures reply.status == 200 ==>
        && email in old(users) && reply.body.LoggedIn?
        && crypto.verify(reply.body.token) == Some(old(users)[email].id)
    {
      if email !in users {
        return Reply(400, Fail(INVALID_CREDENTIALS));
      }
      var user := users[email];
      if !crypto.compare(password, user.password) {
        return Reply(400, Fail(INVALID_CREDENTIALS));
      }
      SetAuthenticatedKeepsInvariant(users, email, true);
      user := user.(isAuthenticated := true);
      users := users[email := user];
      var token := crypto.sign(user.id);
      reply := Reply(200, LoggedIn(Public(user), token));
    }

    /** GET /me: reads only. */
    method Me(header: Option<string>) returns (reply: Reply)
      requires Valid()
      ensures TokenFrom(header).None? ==> reply == Reply(401, Fail(NO_TOKEN))
      ensures TokenFrom(header).Some? && crypto.verify(TokenFrom(header).value).None? ==>
        reply == Reply(401, Fail(TOKEN_INVALID))
      ensures TokenFrom(header).Some? && crypto.verify(TokenFrom(header).value).Some? ==>
        var id := crypto.verify(TokenFrom(header).value).value;
        match FindById(users, id)
        case None => reply == Reply(404, Fail(USER_NOT_FOUND))
        case Some(e) => reply == Reply(200, CurrentUser(Public(users[e])))
    {
      var token := TokenFrom(header);
      if token.None? {
        return Reply(401, Fail(NO_TOKEN));
      }
      var decoded := crypto.verify(token.value);
      if decoded.None? {
        return Reply(401, Fail(TOKEN_INVALID));
      }
      var found := FindById(users, decoded.value);
      if found.None? {
        return Reply(404, Fail(USER_NOT_FOUND));
      }
      reply := Reply(200, CurrentUser(Public(users[found.value])));
    }

    /** POST /logout. A token that fails verification lands in the catch-all, which here
        answers 500 rather than 401. */
    method Logout(header: Option<string>) returns (reply: Reply)
      requires Valid()
      modifies this
      ensures Valid()
      ensures TokenFrom(header).None? ==>
        reply == Reply(401, Fail(NO_TOKEN)) && users == old(users)
      ensures TokenFrom(header).Some? && crypto.verify(TokenFrom(header).value).None? ==>
        reply == Reply(500, Failure(SERVER_ERROR)) && users == old(users)
      ensures TokenFrom(header).Some? && crypto.verify(TokenFrom(header).value).Some? ==>
        var id := crypto.verify(TokenFrom(header).value).value;
        match FindById(old(users), id)
        case None => reply == Reply(404, Fail(USER_NOT_FOUND)) && users == old(users)
        case Some(e) =>
          && reply == Reply(200, LoggedOut)
          && users == old(users)[e := old(users)[e].(isAuthenticated := false)]
          && forall e' :: e' in old(users) && e' != e ==> e' in users && users[e'] == old(users)[e']
    {
      var token := TokenFrom(header);
      if token.None? {
        return Reply(401, Fail(NO_TOKEN));
      }
      var decoded := crypto.verify(token.value);
      if decoded.None? {
        return Reply(500, Failure(SERVER_ERROR));
      }
      var found := FindById(users, decoded.value);
      if found.None? {
        return Reply(404, Fail(USER_NOT_FOUND));
      }
      var e := found.value;
      SetAuthenticatedKeepsInvariant(users, e, false);
      users := users[e := users[e].(isAuthenticated := false)];
      reply := Reply(200, LoggedOut);
    }
  }
}
