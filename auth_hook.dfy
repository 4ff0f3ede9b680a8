/** The client auth session (hooks/use-auth.ts): a bearer token, the current user, a loading
    flag and an isAuthenticated flag, with the token persisted under one storage key.
    Every network reply is a parameter, so each async operation is one deterministic
    transition. The pure step functions below are the specification; class `Auth` performs
    the same updates field by field, as the hook's setters do. */
module AuthHook {
  import opened Wrappers

  datatype User = User(id: int, username: string, email: string)

  /** The one storage key the session persists. */
  const TokenKey: string := "auth_token"

  const InvalidCredentials: string := "Invalid credentials"
  const LoginFailed: string := "Login failed"
  const RegistrationFailed: string := "Registration failed"
  const ResetRejected: string := "Password reset request failed"
  const ResetFailed: string := "Failed to request password reset"

  /** The hook's four state variables and the persisted key-value storage. */
  datatype AuthState = AuthState(
    user: Option<User>,
    token: Option<string>,
    loading: bool,
    isAuthenticated: bool,
    storage: map<string, string>)

  /** The session invariant: isAuthenticated only with a token and a user, and an in-memory
      token is always the one persisted. */
  ghost predicate Consistent(s: AuthState) {
    && (s.isAuthenticated ==> s.user.Some? && s.token.Some?)
    && (s.token.Some? ==> TokenKey in s.storage && s.storage[TokenKey] == s.token.value)
  }

  /** State before the mount effect has run. */
  function Initial(storage: map<string, string>): (s: AuthState)
    ensures s.user == None && s.token == None && s.loading && !s.isAuthenticated
    ensures s.storage == storage
    ensures Consistent(s)
  {
    AuthState(None, None, true, false, storage)
  }

  /** The stored token, when it is present and non-empty (the mount effect's truthiness test). */
  function StoredToken(storage: map<string, string>): (t: Option<string>)
    ensures t.Some? <==> TokenKey in storage && storage[TokenKey] != ""
    ensures t.Some? ==> t.value == storage[TokenKey]
  {
    if TokenKey in storage && storage[TokenKey] != "" then Some(storage[TokenKey]) else None
  }

  /** `verifyToken`: a profile fetch with the current token. */
  function VerifyStep(s: AuthState, reply: Reply<User>): (r: AuthState)
    ensures !r.loading
    ensures reply.Ok? ==> r.user == Some(reply.data) && r.isAuthenticated
                          && r.token == s.token && r.storage == s.storage
    ensures !reply.Ok? ==> r.token == None && !r.isAuthenticated && TokenKey !in r.storage
                           && r.user == s.user
                           && forall k :: k in s.storage && k != TokenKey ==> k in r.storage && r.storage[k] == s.storage[k]
    ensures r.storage.Keys <= s.storage.Keys
  {
    match reply
    case Ok(data) => s.(user := Some(data), isAuthenticated := true, loading := false)
    case _ => s.(storage := s.storage - {TokenKey}, token := None, isAuthenticated := false, loading := false)
  }

  /** The mount effect: with a stored token, adopt it and verify it; otherwise stop loading.
      `reply` is what the verification fetch would answer; it is not consulted without a token. */
  function MountStep(s: AuthState, reply: Reply<User>): (r: AuthState)
    ensures !r.loading
    ensures StoredToken(s.storage).None? ==> r == s.(loading := false)
    ensures StoredToken(s.storage).Some? && reply.Ok? ==>
              r.token == StoredToken(s.storage) && r.isAuthenticated && r.user == Some(reply.data)
    ensures StoredToken(s.storage).Some? && !reply.Ok? ==>
              r.token == None && !r.isAuthenticated && TokenKey !in r.storage
    ensures StoredToken(s.storage).Some? && reply.Ok? ==>
              r == s.(token := StoredToken(s.storage), user := Some(reply.data), isAuthenticated := true, loading := false)
    ensures StoredToken(s.storage).Some? && !reply.Ok? ==>
              r == s.(storage := s.storage - {TokenKey}, token := None, isAuthenticated := false, loading := false)
  {
    match StoredToken(s.storage)
    case None => s.(loading := false)
    case Some(t) => VerifyStep(s.(token := Some(t)), reply)
  }

  /** The error message `login` throws when the credential exchange or the profile fetch throws. */
  function LoginThrown(message: string): (m: string)
    ensures m != ""
    ensures message != "" ==> m == message
  {
    OrElse(message, LoginFailed)
  }

  /** `login`: a credential exchange answered by `credentials`, then (only when it is ok) a
      profile fetch with the new token answered by `profile`. Returns the new state and
      whether the call resolved or threw. */
  function LoginStep(s: AuthState, credentials: Reply<string>, profile: Reply<User>): (r: (AuthState, Outcome<()>))
    ensures credentials.NotOk? ==> r == (s, Failed(InvalidCredentials))
    ensures credentials.Thrown? ==> r.0 == s && r.1 == Failed(LoginThrown(credentials.message))
    ensures credentials.Ok? ==>
              && r.0.token == Some(credentials.data)
              && TokenKey in r.0.storage && r.0.storage[TokenKey] == credentials.data
              && r.0.storage == s.storage[TokenKey := credentials.data]
              && r.0.loading == s.loading
    ensures credentials.Ok? && profile.Ok? ==>
              r.0.user == Some(profile.data) && r.0.isAuthenticated && r.1 == Done(())
    ensures credentials.Ok? && !profile.Ok? ==>
              r.0.user == s.user && r.0.isAuthenticated == s.isAuthenticated
    ensures credentials.Ok? && profile.NotOk? ==> r.1 == Done(())
    ensures credentials.Ok? && profile.Thrown? ==> r.1 == Failed(LoginThrown(profile.message))
  {
    match credentials
    case NotOk(_) => (s, Failed(InvalidCredentials))
    case Thrown(m) => (s, Failed(LoginThrown(m)))
    case Ok(token) =>
      var stored := s.(storage := s.storage[TokenKey := token], token := Some(token));
      match profile
      case Ok(u) => (stored.(user := Some(u), isAuthenticated := true), Done(()))
      case NotOk(_) => (stored, Done(()))
      case Thrown(m) => (stored, Failed(LoginThrown(m)))
  }

  /** `logout`: forget the token in storage and memory; no request is made. */
  function LogoutStep(s: AuthState): (r: AuthState)
    ensures r.token == None && r.user == None && !r.isAuthenticated
    ensures TokenKey !in r.storage && r.storage == s.storage - {TokenKey}
    ensures r.loading == s.loading
  {
    s.(storage := s.storage - {TokenKey}, token := None, user := None, isAuthenticated := false)
  }

  /** The outcome of `register` for a registration reply; register never touches the state. */
  function RegisterOutcome<T>(reply: Reply<T>): (r: Outcome<T>)
    ensures reply.Ok? <==> r.Done?
    ensures reply.Ok? ==> r.value == reply.data
    ensures reply.NotOk? && Truthy(reply.body.error) ==> r == Failed(reply.body.error.value)
    ensures reply.NotOk? && !Truthy(reply.body.error) ==> r == Failed(RegistrationFailed)
    ensures reply.Thrown? ==> r == Failed(OrElse(reply.message, RegistrationFailed))
  {
    match reply
    case Ok(data) => Done(data)
    // `data.error || "Registration failed"`, re-thrown as `error.message || "Registration failed"`
    case NotOk(body) => Failed(OrElse(OrElse(body.error.GetOr(""), RegistrationFailed), RegistrationFailed))
    case Thrown(m) => Failed(OrElse(m, RegistrationFailed))
  }

  /** The outcome of `requestPasswordReset` for the reset reply. */
  function PasswordResetOutcome<T>(reply: Reply<T>): (r: Outcome<T>)
    ensures reply.Ok? <==> r.Done?
    ensures reply.Ok? ==> r.value == reply.data
    ensures reply.NotOk? ==> r == Failed(ResetRejected)
    ensures reply.Thrown? ==> r == Failed(OrElse(reply.message, ResetFailed))
  {
    match reply
    case Ok(data) => Done(data)
    case NotOk(_) => Failed(OrElse(ResetRejected, ResetFailed))
    case Thrown(m) => Failed(OrElse(m, ResetFailed))
  }

  // ---------------------------------------------------------------------------------------
  // Properties relating several transitions

  /** Every transition keeps the session invariant (verification always runs on an adopted
      token, so it is stated through MountStep). */
  lemma ConsistentPreserved(s: AuthState, v: Reply<User>, c: Reply<string>, p: Reply<User>)
    requires Consistent(s)
    ensures Consistent(MountStep(s, v))
    ensures Consistent(LoginStep(s, c, p).0)
    ensures Consistent(LogoutStep(s))
  {
  }

  /** A verification of the current token keeps the invariant. */
  lemma VerifyConsistent(s: AuthState, v: Reply<User>)
    requires Consistent(s) && s.token.Some?
    ensures Consistent(VerifyStep(s, v))
  {
  }

  /** `logout` is idempotent. */
  lemma LogoutIdempotent(s: AuthState)
    ensures LogoutStep(LogoutStep(s)) == LogoutStep(s)
  {
  }

  /** A rejected login from the anonymous state leaves the user signed out and throws
      "Invalid credentials"; nothing is stored. */
  lemma RejectedLoginStaysAnonymous(storage: map<string, string>, body: ErrorBody, p: Reply<User>)
    ensures var (r, o) := LoginStep(MountStep(Initial(storage - {TokenKey}), NotOk(body)), NotOk(body), p);
            !r.isAuthenticated && r.token == None && o == Failed(InvalidCredentials)
            && TokenKey !in r.storage
  {
  }

  /** The token persists across a restart: after a successful login with a non-empty token,
      a fresh session mounted on the same storage adopts that token and verifies it. */
  lemma TokenSurvivesRestart(s: AuthState, token: string, p: Reply<User>, v: Reply<User>)
    requires token != ""
    ensures var stored := LoginStep(s, Ok(token), p).0.storage;
            var m := MountStep(Initial(stored), v);
            (v.Ok? ==> m.token == Some(token) && m.isAuthenticated && TokenKey in m.storage)
            && (!v.Ok? ==> m.token == None && TokenKey !in m.storage)
  {
  }

  /** After logout, a restart finds no token: the session comes up anonymous without a request. */
  lemma LogoutSurvivesRestart(s: AuthState, v: Reply<User>)
    ensures MountStep(Initial(LogoutStep(s).storage), v) == AuthState(None, None, false, false, LogoutStep(s).storage)
  {
  }

  /** The imperative hook. Its fields are the hook's state variables plus the storage. */
  class Auth {
    var user: Option<User>
    var token: Option<string>
    var loading: bool
    var isAuthenticated: bool
    var storage: map<string, string>

    function View(): AuthState
      reads this
    {
      AuthState(user, token, loading, isAuthenticated, storage)
    }

    /** The hook's initial state: user null, token null, loading true, not authenticated. */
    constructor (storage: map<string, string>)
      ensures View() == Initial(storage)
    {
      user := None;
      token := None;
      loading := true;
      isAuthenticated := false;
      this.storage := storage;
    }

    /** The mount effect. Returns whether the verification request was made. */
    method Mount(reply: Reply<User>) returns (verified: bool)
      modifies this
      ensures View() == MountStep(old(View()), reply)
      ensures verified <==> StoredToken(old(storage)).Some?
    {
      var saved := if TokenKey in storage then Some(storage[TokenKey]) else None;
      if Truthy(saved) {
        token := saved;
        VerifyToken(reply);
        verified := true;
      } else {
        loading := false;
        verified := false;
      }
    }

    /** `verifyToken`; the `finally` clause releases loading on every path. */
    method VerifyToken(reply: Reply<User>)
      modifies this
      ensures View() == VerifyStep(old(View()), reply)
    {
      match reply {
        case Ok(data) =>
          user := Some(data);
          isAuthenticated := true;
        case _ =>
          storage := storage - {TokenKey};
          token := None;
          isAuthenticated := false;
      }
      loading := false;
    }

    method Login(credentials: Reply<string>, profile: Reply<User>) returns (outcome: Outcome<()>)
      modifies this
      ensures (View(), outcome) == LoginStep(old(View()), credentials, profile)
    {
      match credentials {
        case NotOk(_) =>
          return Failed(InvalidCredentials);
        case Thrown(m) =>
          return Failed(OrElse(m, LoginFailed));
        case Ok(t) =>
          storage := storage[TokenKey := t];
          token := Some(t);
      }
      match profile {
        case Ok(u) =>
          user := Some(u);
          isAuthenticated := true;
          outcome := Done(());
        case NotOk(_) =>
          outcome := Done(());
        case Thrown(m) =>
          outcome := Failed(OrElse(m, LoginFailed));
      }
    }

    /** `register` reads and writes no session state. */
    method Register<T>(reply: Reply<T>) returns (outcome: Outcome<T>)
      ensures outcome == RegisterOutcome(reply)
    {
      match reply {
        case Ok(data) =>
          outcome := Done(data);
        case NotOk(body) =>
          var m := OrElse(body.error.GetOr(""), RegistrationFailed);
          outcome := Failed(OrElse(m, RegistrationFailed));
        case Thrown(m) =>
          outcome := Failed(OrElse(m, RegistrationFailed));
      }
    }

    method Logout()
      modifies this
      ensures View() == LogoutStep(old(View()))
    {
      storage := storage - {TokenKey};
      token := None;
      user := None;
      isAuthenticated := false;
    }

    /** `requestPasswordReset` reads and writes no session state. */
    method RequestPasswordReset<T>(reply: Reply<T>) returns (outcome: Outcome<T>)
      ensures outcome == PasswordResetOutcome(reply)
    {
      match reply {
        case Ok(data) =>
          outcome := Done(data);
        case NotOk(_) =>
          outcome := Failed(OrElse(ResetRejected, ResetFailed));
        case Thrown(m) =>
          outcome := Failed(OrElse(m, ResetFailed));
      }
    }
  }
}
