/**
 * The client's signed-in user: a mock login against two built-in accounts, a
 * mock sign-up, logout, and the role predicates every page consults. The
 * simulated delays are left out; `Date.now()` for a new id is a parameter.
 */
module AuthContext {
  import opened Js

  const InvalidLogin: string := "Invalid email or password"
  const MinPasswordLength: nat := 6

  const AdminRole: string := "admin"
  const ParticipantRole: string := "participant"
  const OnfieldRole: string := "onfield"

  /** The user object; `email`, `name` and `username` of a signed-up user are whatever the form gave, possibly undefined. */
  datatype User = User(id: int, email: Option<string>, name: Option<string>, role: string, username: Option<string>)

  /** What `login` and `register` resolve to. */
  datatype AuthResult = Success(user: User) | Failure(error: string)

  /** The two built-in accounts, looked up by email. */
  function MockAccount(email: string): (r: Option<User>)
    ensures r.Some? <==> email == "admin@example.com" || email == "user@example.com"
    ensures r.Some? ==> r.value.email == Some(email)
    ensures r.Some? ==> (r.value.role == AdminRole <==> email == "admin@example.com")
  {
    if email == "admin@example.com" then
      Some(User(1, Some("admin@example.com"), Some("Admin User"), AdminRole, Some("admin")))
    else if email == "user@example.com" then
      Some(User(2, Some("user@example.com"), Some("John Doe"), ParticipantRole, Some("johndoe")))
    else None
  }

  /** `isAdmin()` for a possibly absent user. */
  predicate IsAdminUser(u: Option<User>) {
    u.Some? && u.value.role == AdminRole
  }

  /** `isParticipant()` for a possibly absent user. */
  predicate IsParticipantUser(u: Option<User>) {
    u.Some? && (u.value.role == ParticipantRole || u.value.role == OnfieldRole)
  }

  /** No user is both an admin and a participant, and either role implies a user is signed in. */
  lemma RolesExclusive(u: Option<User>)
    ensures !(IsAdminUser(u) && IsParticipantUser(u))
    ensures IsAdminUser(u) || IsParticipantUser(u) ==> u.Some?
  {
  }

  class Auth {
    var user: Option<User>
    var loading: bool

    constructor ()
      ensures user.None? && loading
    {
      user := None;
      loading := true;
    }

    /**
     * The mount effect: a stored user that parses becomes the user; nothing
     * stored, or text that does not parse, leaves no user. Loading ends
     * either way.
     */
    method Mount(stored: Option<Option<User>>)
      modifies this`user, this`loading
      ensures !loading
      ensures user == (if stored.Some? && stored.value.Some? then stored.value else old(user))
    {
      if stored.Some? && stored.value.Some? {
        user := stored.value;
      }
      loading := false;
    }

    /**
     * `login`: succeeds exactly for a built-in account with a password of at
     * least six characters, and the user becomes that account; otherwise the
     * error is returned and the user is unchanged.
     */
    method Login(email: string, password: string) returns (result: AuthResult)
      modifies this`user
      ensures result.Success? <==> MockAccount(email).Some? && |password| >= MinPasswordLength
      ensures result.Success? ==> user == MockAccount(email) && result.user == user.value
      ensures result.Failure? ==> result.error == InvalidLogin && user == old(user)
    {
      var account := MockAccount(email);
      if account.Some? && |password| >= MinPasswordLength {
        user := account;
        return Success(account.value);
      }
      return Failure(InvalidLogin);
    }

    /** `register`: always succeeds, and the new user is a participant with the form's fields. */
    method Register(email: Option<string>, name: Option<string>, username: Option<string>, now: int) returns (result: AuthResult)
      modifies this`user
      ensures result.Success? && user == Some(result.user)
      ensures result.user == User(now, email, name, ParticipantRole, username)
      ensures IsParticipantUser(user) && !IsAdminUser(user)
    {
      var u := User(now, email, name, ParticipantRole, username);
      user := Some(u);
      return Success(u);
    }

    /** `logout`. */
    method Logout()
      modifies this`user
      ensures user.None? && !IsAuthenticated()
    {
      user := None;
    }

    function IsAdmin(): (b: bool)
      reads this
      ensures b <==> user.Some? && user.value.role == AdminRole
    {
      IsAdminUser(user)
    }

    function IsParticipant(): (b: bool)
      reads this
      ensures b <==> user.Some? && user.value.role in {ParticipantRole, OnfieldRole}
    {
      IsParticipantUser(user)
    }

    function IsAuthenticated(): (b: bool)
      reads this
      ensures b <==> user.Some?
      ensures IsAdmin() || IsParticipant() ==> b
    {
      user.Some?
    }
  }
}
