/**
 * The authentication context: one fixed account (user name "admin",
 * password "123456"), a session that is either empty or holds the signed-in
 * user, login and logout, and `isAuthenticated`, which holds exactly while
 * the session is non-empty. A session saved by an earlier visit can be
 * restored; what the browser's storage yields is a parameter.
 */
module AuthContext {
  import opened Common

  datatype AuthUser = AuthUser(username: string, role: string)

  /** The user a successful login stores. */
  const Admin := AuthUser("admin", "admin")

  predicate ValidCredentials(username: string, password: string)
  {
    username == "admin" && password == "123456"
  }

  /** `!!user`: a session is authenticated when it holds a user. */
  predicate Authenticated(session: Option<AuthUser>)
  {
    session.Some?
  }

  /** The outcome of `login`: whether it succeeded, and the session after it. */
  datatype LoginOutcome = LoginOutcome(ok: bool, session: Option<AuthUser>)

  function LoginStep(session: Option<AuthUser>, username: string, password: string): (r: LoginOutcome)
    ensures r.ok <==> ValidCredentials(username, password)
    ensures r.ok ==> r.session == Some(Admin)
    ensures !r.ok ==> r.session == session
  {
    if username == "admin" && password == "123456" then LoginOutcome(true, Some(Admin))
    else LoginOutcome(false, session)
  }

  /** What a user can do to the session. */
  datatype AuthEvent = LoginAttempt(username: string, password: string) | LogoutEvent

  function Apply(session: Option<AuthUser>, e: AuthEvent): Option<AuthUser>
  {
    match e
    case LoginAttempt(u, p) => LoginStep(session, u, p).session
    case LogoutEvent => None
  }

  /** The session after a series of events, applied left to right. */
  function Run(session: Option<AuthUser>, events: seq<AuthEvent>): Option<AuthUser>
  {
    if events == [] then session else Apply(Run(session, events[..|events| - 1]), events[|events| - 1])
  }

  /** The event at `k` is a login with the right credentials. */
  predicate SucceedsAt(events: seq<AuthEvent>, k: int)
    requires 0 <= k < |events|
  {
    events[k].LoginAttempt? && ValidCredentials(events[k].username, events[k].password)
  }

  // ---------------------------------------------------------------------
  // Properties

  /** A successful login authenticates as the admin, whatever the session held before. */
  lemma LoginAuthenticates(session: Option<AuthUser>, username: string, password: string)
    requires ValidCredentials(username, password)
    ensures Authenticated(LoginStep(session, username, password).session)
    ensures LoginStep(session, username, password).session.value.role == "admin"
  {
  }

  /** A failed login neither signs in nor signs out. */
  lemma FailedLoginKeepsSession(session: Option<AuthUser>, username: string, password: string)
    requires !ValidCredentials(username, password)
    ensures Authenticated(LoginStep(session, username, password).session) == Authenticated(session)
  {
  }

  /** Logging in again with the same credentials changes nothing. */
  lemma LoginIdempotent(session: Option<AuthUser>, username: string, password: string)
    ensures var once := LoginStep(session, username, password);
      LoginStep(once.session, username, password) == once
  {
  }

  /** Starting signed out, the only user a session can ever hold is the admin. */
  lemma {:induction false} OnlyAdminSessions(events: seq<AuthEvent>)
    ensures Run(None, events) == None || Run(None, events) == Some(Admin)
  {
    if events != [] {
      OnlyAdminSessions(events[..|events| - 1]);
    }
  }

  /**
   * Starting signed out, the session is authenticated exactly when some
   * login succeeded and no logout came after it.
   */
  lemma {:induction false} AuthenticatedAfter(events: seq<AuthEvent>)
    ensures Authenticated(Run(None, events)) <==>
      exists k :: 0 <= k < |events| && SucceedsAt(events, k) && forall j :: k < j < |events| ==> !events[j].LogoutEvent?
  {
    if events != [] {
      var n := |events| - 1;
      var init := events[..n];
      AuthenticatedAfter(init);
      var e := events[n];
      if Authenticated(Run(None, events)) {
        if e.LoginAttempt? && ValidCredentials(e.username, e.password) {
          assert SucceedsAt(events, n);
        } else {
          var k :| 0 <= k < |init| && SucceedsAt(init, k) && forall j :: k < j < |init| ==> !init[j].LogoutEvent?;
          assert SucceedsAt(events, k);
          assert forall j :: k < j < |events| ==> !events[j].LogoutEvent? by {
            forall j | k < j < |events| ensures !events[j].LogoutEvent? {
              if j < n {
                assert events[j] == init[j];
              }
            }
          }
        }
      } else {
        forall k | 0 <= k < |events| && SucceedsAt(events, k)
          ensures exists j :: k < j < |events| && events[j].LogoutEvent?
        {
          if k == n {
            assert false;
          } else if e.LogoutEvent? {
            assert events[n].LogoutEvent?;
          } else {
            assert SucceedsAt(init, k);
            var j :| k < j < |init| && init[j].LogoutEvent?;
            assert events[j] == init[j];
          }
        }
      }
    }
  }

  // ---------------------------------------------------------------------
  // The provider

  class AuthProvider {
    var user: Option<AuthUser>

    constructor()
      ensures user == None
    {
      user := None;
    }

    /** `isAuthenticated` as the context exposes it. */
    function IsAuthenticated(): bool
      reads this
    {
      user.Some?
    }

    /** On mount: a session found in storage becomes the current one; nothing found or unreadable is `None`. */
    method RestoreSession(stored: Option<AuthUser>)
      modifies this
      ensures user == if stored.Some? then stored else old(user)
    {
      if stored.Some? {
        user := stored;
      }
    }

    method Login(username: string, password: string) returns (ok: bool)
      modifies this
      ensures LoginOutcome(ok, user) == LoginStep(old(user), username, password)
    {
      if username == "admin" && password == "123456" {
        user := Some(Admin);
        return true;
      }
      return false;
    }

    method Logout()
      modifies this
      ensures user == None && !IsAuthenticated()
    {
      user := None;
    }
  }
}
