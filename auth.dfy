/**
 * The authentication router: sign-up refuses a taken email and, when a
 * username is given, a taken username; new users are participants and only
 * the password's hash is stored. Login answers 401 for an unknown email or a
 * wrong password before it looks at whether the account is active. Password
 * hashing and checking are functions passed in; signing the token is not part
 * of this model, only the claims it carries.
 */
module AuthRouter {
  import opened Js
  import opened Lists
  import opened Models

  const EmailTaken: string := "Email already registered"
  const UsernameTaken: string := "Username already taken"
  const BadCredentials: string := "Incorrect email or password"
  const Inactive: string := "User account is inactive"
  /** What FastAPI answers when the commit raises (a unique constraint the router did not check). */
  const ServerError: string := "Internal Server Error"
  const Bearer: string := "bearer"

  /** The body of a sign-up request. */
  datatype UserCreate = UserCreate(email: string, name: string, username: Option<string>, password: string)

  /** The claims the access token carries: `sub` is the user's id. */
  datatype Claims = Claims(sub: Id, email: string, role: string)

  /** The login answer. */
  datatype Token = Token(claims: Claims, token_type: string, user: UserRow)

  /** Some user has that email. */
  predicate EmailUsed(users: seq<UserRow>, email: string) {
    exists k :: 0 <= k < |users| && users[k].email == email
  }

  /** Some user has that username. */
  predicate UsernameUsed(users: seq<UserRow>, username: string) {
    exists k :: 0 <= k < |users| && users[k].username == Some(username)
  }

  /**
   * The checks of `register`, in order: 400 for a taken email; then, only when
   * the username is truthy, 400 for a taken username.
   */
  function CheckSignUp(users: seq<UserRow>, req: UserCreate): (r: Reply<()>)
    ensures EmailUsed(users, req.email) ==> r == HttpError(400, EmailTaken)
    ensures !EmailUsed(users, req.email) && TruthyStr(req.username) && UsernameUsed(users, req.username.value) ==>
              r == HttpError(400, UsernameTaken)
    ensures r.Ok? <==> !EmailUsed(users, req.email) && !(TruthyStr(req.username) && UsernameUsed(users, req.username.value))
  {
    if Find(users, EmailKey, req.email).Some? then HttpError(400, EmailTaken)
    else if TruthyStr(req.username) && Find(users, UsernameKey, req.username.value).Some? then HttpError(400, UsernameTaken)
    else Ok(())
  }

  /** The row `register` adds: always a participant, storing the hash and not the password. */
  function SignedUp(req: UserCreate, id: Id, hash: string, now: int): (u: UserRow)
    ensures u.role == DefaultRole && u.password_hash == hash && u.is_active
    ensures u.email == req.email && u.name == req.name && u.username == req.username && u.id == id
  {
    NewUser(id, req.email, hash, req.name, req.username, Some(DefaultRole), now)
  }

  /** Adding a user with a new id, email and username keeps every constraint. */
  lemma AddUserValid(t: Tables, u: UserRow)
    requires Valid(t) && u.id !in UserIds(t.users) && !EmailUsed(t.users, u.email)
    requires u.username.None? || !UsernameUsed(t.users, u.username.value)
    ensures Valid(t.(users := t.users + [u]))
  {
    UserIdsAppend(t.users, u);
    forall k | 0 <= k < |t.users|
      ensures UserKey(t.users[k]) != UserKey(u) && EmailKey(t.users[k]) != EmailKey(u)
      ensures UsernameKey(t.users[k]).Some? ==> UsernameKey(t.users[k]) != UsernameKey(u)
    {
      assert t.users[k] in t.users;
    }
    AppendDistinct(t.users, u, UserKey);
    AppendDistinct(t.users, u, EmailKey);
    AppendDistinct(t.users, u, UsernameKey);
  }

  /**
   * `register`: the two checks, then the new participant at the end of the
   * table. An empty username skips the check; if another user already has
   * the empty username, the unique constraint makes the commit fail and
   * nothing is stored.
   */
  method Register(db: Db, req: UserCreate, newId: Id, hash: string, now: int) returns (r: Reply<UserRow>)
    requires Valid(db.tables) && newId !in UserIds(db.tables.users)
    modifies db
    ensures Valid(db.tables)
    ensures var g := CheckSignUp(old(db.tables.users), req);
            && (g.HttpError? ==> r == HttpError(g.code, g.detail) && db.tables == old(db.tables))
            && (g.Ok? && req.username == Some("") && UsernameUsed(old(db.tables.users), "") ==>
                  r == HttpError(500, ServerError) && db.tables == old(db.tables))
            && (g.Ok? && !(req.username == Some("") && UsernameUsed(old(db.tables.users), "")) ==>
                  r == Ok(SignedUp(req, newId, hash, now)) && db.tables == old(db.tables).(users := old(db.tables.users) + [r.value]))
  {
    var g := CheckSignUp(db.tables.users, req);
    if g.HttpError? {
      return HttpError(g.code, g.detail);
    }
    if req.username == Some("") && Find(db.tables.users, UsernameKey, "").Some? {
      return HttpError(500, ServerError);
    }
    var u := SignedUp(req, newId, hash, now);
    AddUserValid(db.tables, u);
    db.tables := db.tables.(users := db.tables.users + [u]);
    r := Ok(u);
  }

  /**
   * `login`: the first user with that email; 401 when there is none or the
   * password does not match its hash, then 403 when the account is inactive,
   * else a bearer token whose claims are the id, the email and the role.
   */
  function Login(users: seq<UserRow>, email: string, password: string, verify: (string, string) -> bool): (r: Reply<Token>)
    ensures r.Ok? ==> && r.value.user in users && r.value.user.email == email && r.value.user.is_active
                      && verify(password, r.value.user.password_hash)
                      && r.value.claims == Claims(r.value.user.id, email, r.value.user.role) && r.value.token_type == Bearer
    ensures !EmailUsed(users, email) ==> r == HttpError(401, BadCredentials)
    ensures r.HttpError? ==> r.code in {401, 403}
  {
    var i := Find(users, EmailKey, email);
    if i.None? || !verify(password, users[i.value].password_hash) then HttpError(401, BadCredentials)
    else
      var u := users[i.value];
      if !u.is_active then HttpError(403, Inactive)
      else Ok(Token(Claims(u.id, u.email, u.role), Bearer, u))
  }

  /** A wrong password is answered 401 whether or not the account is active: the inactive check comes second. */
  lemma WrongPasswordBeforeInactive(users: seq<UserRow>, k: nat, password: string, verify: (string, string) -> bool)
    requires UsersValid(users) && k < |users| && !verify(password, users[k].password_hash)
    ensures Login(users, users[k].email, password, verify) == HttpError(401, BadCredentials)
  {
    var i := Find(users, EmailKey, users[k].email);
    assert EmailKey(users[k]) == Some(users[k].email);
    assert i.Some? && i.value <= k;
    assert EmailKey(users[i.value]) == EmailKey(users[k]);
  }

  /**
   * An existing user whose password verifies is past the 401 check: an active
   * one gets a bearer token with their id, email and role, an inactive one
   * exactly 403.
   */
  lemma RightPasswordLogsIn(users: seq<UserRow>, k: nat, password: string, verify: (string, string) -> bool)
    requires UsersValid(users) && k < |users| && verify(password, users[k].password_hash)
    ensures var u := users[k];
            Login(users, u.email, password, verify)
              == if u.is_active then Ok(Token(Claims(u.id, u.email, u.role), Bearer, u)) else HttpError(403, Inactive)
  {
    var i := Find(users, EmailKey, users[k].email);
    assert EmailKey(users[k]) == Some(users[k].email);
    assert i.Some? && i.value <= k;
    assert EmailKey(users[i.value]) == EmailKey(users[k]);
  }

  /** Signing up and then logging in with the same password yields the new participant's token. */
  lemma SignUpThenLogin(t: Tables, req: UserCreate, id: Id, hash: string, now: int, verify: (string, string) -> bool)
    requires CheckSignUp(t.users, req).Ok? && verify(req.password, hash)
    ensures var u := SignedUp(req, id, hash, now);
            Login(t.users + [u], req.email, req.password, verify) == Ok(Token(Claims(id, req.email, DefaultRole), Bearer, u))
  {
    var u := SignedUp(req, id, hash, now);
    var users := t.users + [u];
    assert forall k :: 0 <= k < |t.users| ==> users[k].email != req.email;
    assert EmailKey(users[|t.users|]) == Some(req.email);
    var i := Find(users, EmailKey, req.email);
    assert i == Some(|t.users|);
  }
}
