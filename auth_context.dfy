/**
 * The authentication session store (`AuthProvider`): the current user and
 * the `isAuthenticated` / `isLoading` flags, with the mock login, register,
 * logout, forgot-password, reset-password and start-up operations.
 *
 * Each operation sets `isLoading`, awaits one promise, updates the session
 * on success, rethrows on failure, and clears `isLoading` in `finally`. The
 * awaited promise's outcome is a parameter, and `now` stands for the clock
 * that stamps a freshly built user record.
 */
module AuthContext {
  import opened Common
  import opened Domain

  /** The three pieces of state the provider exposes. */
  datatype Session = Session(user: Option<User>, isAuthenticated: bool, isLoading: bool)

  /** The flag agrees with the user record: authenticated exactly when a user is present. */
  predicate Consistent(s: Session) {
    s.isAuthenticated <==> s.user.Some?
  }

  /** No user, not authenticated, loading until start-up settles. */
  const InitialSession: Session := Session(None, false, true)

  /** The record a successful login builds for `email`. */
  function DemoUser(email: string, now: Timestamp): User {
    User("1234567890", email, "Demo User", None, now, now)
  }

  /** `MOCK_USER`, built once when the module is loaded at time `loadedAt`. */
  function DevUser(loadedAt: Timestamp): User {
    User("dev123456", "dev@example.com", "Development User", None, loadedAt, loadedAt)
  }

  // ------------------------------------------- the operations, as values

  function LoginStep(s: Session, email: string, now: Timestamp, outcome: Settled): Session {
    match outcome
    case Fulfilled => Session(Some(DemoUser(email, now)), true, false)
    case Rejected(_) => s.(isLoading := false)
  }

  function LogoutStep(s: Session, outcome: Settled): Session {
    match outcome
    case Fulfilled => Session(None, false, false)
    case Rejected(_) => s.(isLoading := false)
  }

  /** `register`, `forgotPassword` and `resetPassword`: only the loading flag moves, on either path. */
  function RequestStep(s: Session): Session {
    s.(isLoading := false)
  }

  function InitializeStep(devUser: User, outcome: Settled): Session {
    match outcome
    case Fulfilled => Session(Some(devUser), true, false)
    case Rejected(_) => Session(None, false, false)
  }

  // ------------------------------------------------------------- lemmas

  /** Every operation leaves the session settled (`isLoading` false), whatever its outcome. */
  lemma EveryStepSettles(s: Session, email: string, now: Timestamp, devUser: User, outcome: Settled)
    ensures !LoginStep(s, email, now, outcome).isLoading
    ensures !LogoutStep(s, outcome).isLoading
    ensures !RequestStep(s).isLoading
    ensures !InitializeStep(devUser, outcome).isLoading
  {
  }

  /** A successful login authenticates a user record carrying the given e-mail address. */
  lemma LoginAuthenticates(s: Session, email: string, now: Timestamp)
    ensures var t := LoginStep(s, email, now, Fulfilled);
      t.isAuthenticated && t.user.Some? && t.user.value.email == email
  {
  }

  /** Logging out twice gives the same session as logging out once. */
  lemma LogoutIdempotent(s: Session)
    ensures LogoutStep(LogoutStep(s, Fulfilled), Fulfilled) == LogoutStep(s, Fulfilled)
    ensures LogoutStep(s, Fulfilled).user.None? && !LogoutStep(s, Fulfilled).isAuthenticated
  {
  }

  /** Register, forgot-password, reset-password and every failed operation keep user and flag. */
  lemma FailuresAndRequestsKeepIdentity(s: Session, email: string, now: Timestamp, reason: string)
    ensures RequestStep(s).user == s.user && RequestStep(s).isAuthenticated == s.isAuthenticated
    ensures LoginStep(s, email, now, Rejected(reason)).user == s.user
    ensures LoginStep(s, email, now, Rejected(reason)).isAuthenticated == s.isAuthenticated
    ensures LogoutStep(s, Rejected(reason)).user == s.user
    ensures LogoutStep(s, Rejected(reason)).isAuthenticated == s.isAuthenticated
  {
  }

  /** `isAuthenticated <==> user != null` holds initially and after every operation. */
  lemma ConsistencyIsInvariant(s: Session, email: string, now: Timestamp, devUser: User, outcome: Settled)
    requires Consistent(s)
    ensures Consistent(InitialSession)
    ensures Consistent(LoginStep(s, email, now, outcome))
    ensures Consistent(LogoutStep(s, outcome))
    ensures Consistent(RequestStep(s))
    ensures Consistent(InitializeStep(devUser, outcome))
  {
  }

  // ------------------------------------------------------- the provider

  class AuthProvider {
    var user: Option<User>
    var isAuthenticated: bool
    var isLoading: bool
    /** `MOCK_USER`, which start-up signs in. */
    const devUser: User

    function State(): Session
      reads this
    {
      Session(user, isAuthenticated, isLoading)
    }

    ghost predicate Valid()
      reads this
    {
      Consistent(State())
    }

    constructor (loadedAt: Timestamp)
      ensures Valid()
      ensures State() == InitialSession && devUser == DevUser(loadedAt)
    {
      user := None;
      isAuthenticated := false;
      isLoading := true;
      devUser := DevUser(loadedAt);
    }

    /** `login`; the password is only logged. A failure is rethrown as `result`. */
    method Login(email: string, password: string, now: Timestamp, outcome: Settled) returns (result: Settled)
      requires Valid()
      modifies this
      ensures Valid()
      ensures State() == LoginStep(old(State()), email, now, outcome)
      ensures result == outcome
    {
      isLoading := true;
      if outcome.Fulfilled? {
        user := Some(DemoUser(email, now));
        isAuthenticated := true;
      }
      isLoading := false;
      result := outcome;
    }

    /** `register`: a placeholder that creates no account. */
    method Register(email: string, password: string, name: string, outcome: Settled) returns (result: Settled)
      requires Valid()
      modifies this
      ensures Valid()
      ensures State() == RequestStep(old(State()))
      ensures result == outcome
    {
      isLoading := true;
      isLoading := false;
      result := outcome;
    }

    method Logout(outcome: Settled) returns (result: Settled)
      requires Valid()
      modifies this
      ensures Valid()
      ensures State() == LogoutStep(old(State()), outcome)
      ensures result == outcome
    {
      isLoading := true;
      if outcome.Fulfilled? {
        user := None;
        isAuthenticated := false;
      }
      isLoading := false;
      result := outcome;
    }

    /** `forgotPassword`: a placeholder that sends no code. */
    method ForgotPassword(email: string, outcome: Settled) returns (result: Settled)
      requires Valid()
      modifies this
      ensures Valid()
      ensures State() == RequestStep(old(State()))
      ensures result == outcome
    {
      isLoading := true;
      isLoading := false;
      result := outcome;
    }

    /** `resetPassword`: a placeholder that checks no code and stores no password. */
    method ResetPassword(code: string, newPassword: string, email: string, outcome: Settled) returns (result: Settled)
      requires Valid()
      modifies this
      ensures Valid()
      ensures State() == RequestStep(old(State()))
      ensures result == outcome
    {
      isLoading := true;
      isLoading := false;
      result := outcome;
    }

    /** `initializeAuth`, run once on mount: signs in `MOCK_USER`, or fails closed; never rethrows. */
    method InitializeAuth(outcome: Settled)
      modifies this
      ensures Valid()
      ensures State() == InitializeStep(devUser, outcome)
    {
      if outcome.Fulfilled? {
        isAuthenticated := true;
        user := Some(devUser);
      } else {
        isAuthenticated := false;
        user := None;
      }
      isLoading := false;
    }
  }
}
