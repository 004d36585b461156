/** The `User` document: the record the auth routes store, and the field constraints of
    its schema. */
module UserModel {
  import opened Common
  import opened Text

  type UserId = string

  /** The stored user, in the shape the auth routes read and write. */
  datatype User = User(
    id: UserId,
    name: string,
    email: string,
    password: string,
    isAdmin: bool,
    isGuest: bool,
    isUser: bool,
    isAuthenticated: bool)

  /** What the routes send back about a user: every field but the password. */
  datatype PublicUser = PublicUser(
    id: UserId,
    name: string,
    email: string,
    isAdmin: bool,
    isGuest: bool,
    isUser: bool,
    isAuthenticated: bool)

  function Public(u: User): PublicUser {
    PublicUser(u.id, u.name, u.email, u.isAdmin, u.isGuest, u.isUser, u.isAuthenticated)
  }

  /** The public view does not depend on the password. */
  lemma PublicHidesPassword(u: User, other: string)
    ensures Public(u.(password := other)) == Public(u)
    ensures Public(u).id == u.id && Public(u).email == u.email && Public(u).name == u.name
  {
  }

  // ---------------------------------------------------------------- the e-mail pattern

  /** `[a-zA-Z0-9._%+-]` */
  predicate IsLocalChar(c: char) {
    IsAlnum(c) || c == '.' || c == '_' || c == '%' || c == '+' || c == '-'
  }

  /** `[a-zA-Z0-9.-]` */
  predicate IsDomainChar(c: char) {
    IsAlnum(c) || c == '.' || c == '-'
  }

  /** The pattern read as a regular expression: `^L+@D+\.A{2,}$` matches when some choice of
      the `@` position `i` and the `.` position `k` fits every piece. */
  predicate PatternSplit(s: string, i: nat, k: nat) {
    && i < k < |s|
    && 0 < i && (forall j :: 0 <= j < i ==> IsLocalChar(s[j]))
    && s[i] == '@'
    && i + 1 < k && (forall j :: i < j < k ==> IsDomainChar(s[j]))
    && s[k] == '.'
    && |s| - k - 1 >= 2 && (forall j :: k < j < |s| ==> IsLetter(s[j]))
  }

  ghost predicate MatchesEmailRegex(s: string) {
    exists i: nat, k: nat :: PatternSplit(s, i, k)
  }

  /** The domain part: a non-empty run of domain characters, a dot that is the last dot,
      and at least two letters after it. */
  predicate IsEmailDomain(d: string) {
    match LastIndexOfChar(d, '.')
    case None => false
    case Some(k) =>
      && 0 < k
      && (forall j :: 0 <= j < k ==> IsDomainChar(d[j]))
      && |d| - k - 1 >= 2
      && (forall j :: k < j < |d| ==> IsLetter(d[j]))
  }

  /** The e-mail shape, decided by cutting at the first `@` and at the domain's last `.`. */
  predicate IsEmailShape(s: string) {
    match FirstIndexOfChar(s, '@')
    case None => false
    case Some(i) =>
      && 0 < i
      && (forall j :: 0 <= j < i ==> IsLocalChar(s[j]))
      && IsEmailDomain(s[i + 1..])
  }

  /** Deciding the pattern by the first `@` and the last `.` agrees with regular-expression
      matching: the `@` and the final `.` are the only places a match can cut. */
  lemma EmailShapeMatchesRegex(s: string)
    ensures IsEmailShape(s) <==> MatchesEmailRegex(s)
  {
    if IsEmailShape(s) {
      var i := FirstIndexOfChar(s, '@').value;
      var d := s[i + 1..];
      var k := LastIndexOfChar(d, '.').value;
      assert PatternSplit(s, i, i + 1 + k) by {
        forall j | i < j < i + 1 + k ensures IsDomainChar(s[j]) {
          assert s[j] == d[j - i - 1];
        }
        forall j | i + 1 + k < j < |s| ensures IsLetter(s[j]) {
          assert s[j] == d[j - i - 1];
        }
      }
    }
    if MatchesEmailRegex(s) {
      var i: nat, k: nat :| PatternSplit(s, i, k);
      SplitIsForced(s, i, k);
    }
  }

  lemma SplitIsForced(s: string, i: nat, k: nat)
    requires PatternSplit(s, i, k)
    ensures IsEmailShape(s)
  {
    forall j | 0 <= j < |s| && j != i ensures s[j] != '@' {
    }
    assert FirstIndexOfChar(s, '@') == Some(i);
    var d := s[i + 1..];
    var kd := k - i - 1;
    forall j | kd < j < |d| ensures d[j] != '.' && IsLetter(d[j]) {
      assert d[j] == s[j + i + 1];
    }
    assert d[kd] == '.';
    assert LastIndexOfChar(d, '.') == Some(kd);
    forall j | 0 <= j < kd ensures IsDomainChar(d[j]) {
      assert d[j] == s[j + i + 1];
    }
  }

  /** A string of the e-mail shape has exactly one `@`. */
  lemma EmailShapeHasOneAt(s: string)
    requires IsEmailShape(s)
    ensures exists i :: 0 <= i < |s| && s[i] == '@' && forall j :: 0 <= j < |s| && j != i ==> s[j] != '@'
  {
    var i := FirstIndexOfChar(s, '@').value;
    var d := s[i + 1..];
    var k := LastIndexOfChar(d, '.').value;
    forall j | i < j < |s| ensures s[j] != '@' {
      assert s[j] == d[j - i - 1];
    }
  }

  // ---------------------------------------------------------------- the schema

  /** A document as handed to the schema: any field may be missing. */
  datatype UserDoc = UserDoc(name: Option<string>, email: Option<string>, password: Option<string>)

  function DocOf(u: User): UserDoc {
    UserDoc(Some(u.name), Some(u.email), Some(u.password))
  }

  /** `name`: required, 3 to 50 characters. */
  predicate NameOk(name: Option<string>) {
    name.Some? && 3 <= JsLength(name.value) <= 50
  }

  /** `email`: the option is spelled `require`, which the schema ignores, so a missing
      e-mail passes; a present one has 5 to 50 characters and the e-mail shape. */
  predicate EmailOk(email: Option<string>) {
    email.None? || (5 <= JsLength(email.value) <= 50 && IsEmailShape(email.value))
  }

  /** `password`: likewise not required; a present one has 8 to 255 characters. */
  predicate PasswordOk(password: Option<string>) {
    password.None? || 8 <= JsLength(password.value) <= 255
  }

  /** The paths that fail validation, in schema order. */
  function UserErrors(doc: UserDoc): (errs: seq<string>)
    ensures "name" in errs <==> !NameOk(doc.name)
    ensures "email" in errs <==> !EmailOk(doc.email)
    ensures "password" in errs <==> !PasswordOk(doc.password)
    ensures forall p :: p in errs ==> p in ["name", "email", "password"]
  {
    (if NameOk(doc.name) then [] else ["name"])
    + (if EmailOk(doc.email) then [] else ["email"])
    + (if PasswordOk(doc.password) then [] else ["password"])
  }

  predicate UserValid(doc: UserDoc) {
    UserErrors(doc) == []
  }

  /** A document with a valid name and neither e-mail nor password still validates. */
  lemma EmailAndPasswordOptional(name: string)
    requires 3 <= JsLength(name) <= 50
    ensures UserValid(UserDoc(Some(name), None, None))
  {
  }

  /** A document without a name never validates, whatever it holds otherwise. */
  lemma NameRequired(email: Option<string>, password: Option<string>)
    ensures !UserValid(UserDoc(None, email, password))
  {
    assert "name" in UserErrors(UserDoc(None, email, password));
  }

  lemma UserValidIff(doc: UserDoc)
    ensures UserValid(doc) <==> NameOk(doc.name) && EmailOk(doc.email) && PasswordOk(doc.password)
  {
    var errs := UserErrors(doc);
    if !NameOk(doc.name) { assert "name" in errs; }
    if !EmailOk(doc.email) { assert "email" in errs; }
    if !PasswordOk(doc.password) { assert "password" in errs; }
  }

  // ---------------------------------------------------------------- the collection

  /** Two stored users never share an id (uuid v4 values are taken to be fresh). */
  predicate UniqueIds(users: map<string, User>) {
    forall e1, e2 :: e1 in users && e2 in users && users[e1].id == users[e2].id ==> e1 == e2
  }

  /** Each key is its user's e-mail (so e-mails are unique), and every stored document
      passes the schema. */
  predicate ValidDocs(users: map<string, User>) {
    forall e :: e in users ==> users[e].email == e && UserValid(DocOf(users[e]))
  }

  /** The user collection, keyed by e-mail: the documents are keyed and valid, and ids are
      unique. */
  predicate StoreInvariant(users: map<string, User>) {
    ValidDocs(users) && UniqueIds(users)
  }

  lemma EmailsUnique(users: map<string, User>, e1: string, e2: string)
    requires StoreInvariant(users)
    requires e1 in users && e2 in users && e1 != e2
    ensures users[e1].email != users[e2].email
  {
  }

  /** Inserting a schema-valid user under its own, new e-mail with a fresh id keeps the invariant. */
  lemma InsertKeepsInvariant(users: map<string, User>, u: User)
    requires StoreInvariant(users)
    requires u.email !in users && UserValid(DocOf(u))
    requires forall e :: e in users ==> users[e].id != u.id
    ensures StoreInvariant(users[u.email := u])
  {
    InsertKeepsDocs(users, u);
    InsertKeepsIds(users, u);
  }

  lemma InsertKeepsDocs(users: map<string, User>, u: User)
    requires ValidDocs(users) && UserValid(DocOf(u))
    ensures ValidDocs(users[u.email := u])
  {
  }

  lemma InsertKeepsIds(users: map<string, User>, u: User)
    requires UniqueIds(users) && u.email !in users
    requires forall e :: e in users ==> users[e].id != u.id
    ensures UniqueIds(users[u.email := u])
  {
  }

  /** Inserting under a new e-mail adds exactly that key. */
  lemma InsertAddsOne(users: map<string, User>, u: User)
    requires u.email !in users
    ensures users[u.email := u].Keys == users.Keys + {u.email}
    ensures |users[u.email := u]| == |users| + 1
  {
    assert users[u.email := u].Keys == users.Keys + {u.email};
  }

  /** Flipping `isAuthenticated` touches no schema field and no id, so it keeps the invariant. */
  lemma SetAuthenticatedKeepsInvariant(users: map<string, User>, e: string, b: bool)
    requires StoreInvariant(users) && e in users
    ensures StoreInvariant(users[e := users[e].(isAuthenticated := b)])
  {
    SetAuthenticatedKeepsDocs(users, e, b);
    SetAuthenticatedKeepsIds(users, e, b);
  }

  lemma SetAuthenticatedKeepsDocs(users: map<string, User>, e: string, b: bool)
    requires ValidDocs(users) && e in users
    ensures ValidDocs(users[e := users[e].(isAuthenticated := b)])
  {
    var users' := users[e := users[e].(isAuthenticated := b)];
    forall e' | e' in users' ensures users'[e'].email == e' && UserValid(DocOf(users'[e'])) {
      assert DocOf(users'[e']) == DocOf(users[e']);
    }
  }

  lemma SetAuthenticatedKeepsIds(users: map<string, User>, e: string, b: bool)
    requires UniqueIds(users) && e in users
    ensures UniqueIds(users[e := users[e].(isAuthenticated := b)])
  {
  }

  /** `findOne({ id })`. */
  function FindById(users: map<string, User>, id: UserId): (r: Option<string>)
    requires UniqueIds(users)
    ensures r.Some? ==> r.value in users && users[r.value].id == id
    ensures r.None? ==> forall e :: e in users ==> users[e].id != id
  {
    if exists e :: e in users && users[e].id == id then
      Some(var e :| e in users && users[e].id == id; e)
    else
      None
  }
}
