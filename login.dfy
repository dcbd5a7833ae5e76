/**
 * The login handler: a required-field guard, a lookup by email, a
 * comparison of SHA-256 digests (the hash is a parameter), and on success a
 * session record valid for seven days plus the user row without its
 * password. The cookie write itself is an effect outside the model.
 */
module Login {
  import opened Wrappers
  import opened Records
  import opened Middleware

  /** `7 * 24 * 60 * 60 * 1000` milliseconds. */
  const SessionLifetimeMs: int := 7 * 24 * 60 * 60 * 1000
  /** The cookie's `maxAge`, `7 * 24 * 60 * 60` seconds. */
  const CookieMaxAge: int := 7 * 24 * 60 * 60

  /** The user as returned to the client: every column but the password. */
  datatype UserData = UserData(id: int, email: string, name: string, role: Role, isActive: bool, createdAt: int)

  function WithoutPassword(u: User): UserData
  {
    UserData(u.id, u.email, u.name, u.role, u.isActive, u.createdAt)
  }

  datatype LoginResponse =
    | BadRequest(error: string)
    | Unauthorized(error: string)
    | LoggedIn(session: Session, maxAge: int, user: UserData)

  /** A request value that is present and truthy (`!value` is true for "" too). */
  predicate Given(o: Option<string>)
  {
    o.Some? && o.value != ""
  }

  function Login(email: Option<string>, password: Option<string>, users: seq<User>,
                 hash: string -> string, now: int): LoginResponse
  {
    if !Given(email) || !Given(password) then BadRequest("Email and password are required")
    else
      match FindUserByEmail(users, email.value)
      case None => Unauthorized("Invalid credentials")
      case Some(u) =>
        if u.password != hash(password.value) then Unauthorized("Invalid credentials")
        else LoggedIn(Session(u.id, RoleName(u.role), now + SessionLifetimeMs), CookieMaxAge, WithoutPassword(u))
  }

  /** A missing or empty email or password is refused before the table is read. */
  lemma MissingCredentialsRejected(email: Option<string>, password: Option<string>, users: seq<User>,
                                   hash: string -> string, now: int)
    requires !Given(email) || !Given(password)
    ensures Login(email, password, users, hash, now) == BadRequest("Email and password are required")
  {
  }

  /**
   * Login succeeds iff the email belongs to a user whose stored digest is
   * the digest of the given password; an unknown email and a wrong password
   * get the same 401 answer.
   */
  lemma LoginSucceedsIff(email: string, password: string, users: seq<User>, hash: string -> string, now: int)
    requires email != "" && password != ""
    ensures var r := Login(Some(email), Some(password), users, hash, now);
            && (r.LoggedIn? <==> FindUserByEmail(users, email).Some? && FindUserByEmail(users, email).value.password == hash(password))
            && (!r.LoggedIn? ==> r == Unauthorized("Invalid credentials"))
  {
  }

  /**
   * A session carries the stored user's id and role unchanged; it expires
   * exactly maxAge seconds after it was issued; the returned user is the
   * stored row minus its password.
   */
  lemma IssuedSession(email: Option<string>, password: Option<string>, users: seq<User>,
                      hash: string -> string, now: int)
    requires Login(email, password, users, hash, now).LoggedIn?
    ensures var r := Login(email, password, users, hash, now);
            exists u :: u in users && u.email == email.value
                     && r.session == Session(u.id, RoleName(u.role), now + SessionLifetimeMs)
                     && r.user == UserData(u.id, u.email, u.name, u.role, u.isActive, u.createdAt)
    ensures var r := Login(email, password, users, hash, now);
            r.session.exp - now == r.maxAge * 1000
  {
    var u := FindUserByEmail(users, email.value).value;
    assert u in users;
  }

  /**
   * Login does not look at `isActive`: a deactivated user logs in as
   * before.
   */
  lemma LoginIgnoresIsActive(email: string, password: string, u: User, hash: string -> string, now: int)
    requires email != "" && password != "" && u.email == email && u.password == hash(password)
    ensures Login(Some(email), Some(password), [u.(isActive := false)], hash, now).LoggedIn?
  {
  }

  /**
   * A session issued at time t passes the middleware's expiry check at every
   * moment up to and including t + 604800000: on a protected route it is
   * forwarded, and on an admin route it is forwarded iff the role is ADMIN
   * (otherwise it goes to the dashboard, never to sign-in).
   */
  lemma FreshSessionPassesGate(email: Option<string>, password: Option<string>, users: seq<User>,
                               hash: string -> string, t: int, later: int, path: string, headers: Headers)
    requires Login(email, password, users, hash, t).LoggedIn?
    requires later <= t + SessionLifetimeMs
    requires IsAdminRoute(path) || IsProtectedRoute(path)
    ensures var s := Login(email, password, users, hash, t).session;
            var d := Decide(path, Cookie(Some(s)), headers, later);
            && d != Redirect("/signin")
            && (d.Forward? <==> !IsAdminRoute(path) || s.role == "ADMIN")
  {
  }

  /** After its lifetime the same session is sent to sign in. */
  lemma StaleSessionRedirected(email: Option<string>, password: Option<string>, users: seq<User>,
                               hash: string -> string, t: int, later: int, path: string, headers: Headers)
    requires Login(email, password, users, hash, t).LoggedIn?
    requires t + SessionLifetimeMs < later
    requires IsAdminRoute(path) || IsProtectedRoute(path)
    ensures Decide(path, Cookie(Some(Login(email, password, users, hash, t).session)), headers, later) == Redirect("/signin")
  {
  }
}
