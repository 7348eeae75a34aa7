/**
  * The browser's authentication store: who is signed in, whether a request is in flight, the
  * last error and whether the store has been initialised. The answers of the `/api/auth/me`
  * and `/api/auth/login` endpoints are parameters.
  */
module AuthStore {
  import opened Wrappers
  import opened Auth

  /** What `/api/auth/me` answers. */
  datatype MeReply = MeReply(authenticated: bool, user: Option<AuthUser>)

  /** What `/api/auth/login` answers. */
  datatype LoginReply = LoginReply(success: bool, user: Option<AuthUser>)

  /** A request that threw; `message` is the server's `data.message`, if any. */
  datatype Thrown = Thrown(message: Option<string>)

  /** The login endpoint's answer to a username and password, or what it threw. */
  type LoginEndpoint = (string, string) -> Result<LoginReply, Thrown>

  /** The signed-in part of the state. */
  datatype Session = Session(user: Option<AuthUser>, isAuthenticated: bool)

  const SignedOut: Session := Session(None, false)

  const DemoUsername: string := "demo"
  const DemoPassword: string := "babylon2025"
  const DefaultLoginError: string := "Invalid username or password"
  const Guest: string := "Guest"

  /** `response.success && response.user`. */
  predicate Accepted(reply: LoginReply) {
    reply.success && reply.user.Some?
  }

  /** Signed in exactly when there is a user. */
  predicate Consistent(s: Session) {
    s.isAuthenticated <==> s.user.Some?
  }

  /** The session after `autoLoginDemo` gets `reply`. */
  function AfterDemoLogin(s: Session, reply: Result<LoginReply, Thrown>): (r: Session)
    ensures reply.Failure? ==> r == SignedOut
    ensures reply.Success? && Accepted(reply.value) ==> r == Session(reply.value.user, true)
    ensures reply.Success? && !Accepted(reply.value) ==> r == s
  {
    match reply
    case Failure(_) => SignedOut
    case Success(v) => if Accepted(v) then Session(v.user, true) else s
  }

  /** The session after `login` gets `reply`: a failure of any kind leaves it as it was. */
  function AfterLogin(s: Session, reply: Result<LoginReply, Thrown>): (r: Session)
    ensures reply.Success? && Accepted(reply.value) ==> r == Session(reply.value.user, true)
    ensures !(reply.Success? && Accepted(reply.value)) ==> r == s
  {
    if reply.Success? && Accepted(reply.value) then Session(reply.value.user, true) else s
  }

  /** An authenticated `/me` answer that names a user. */
  predicate SignedIn(me: Result<MeReply, Thrown>) {
    me.Success? && me.value.authenticated && me.value.user.Some?
  }

  /** The session after a first `initialize`: the `/me` user, or else the demo login. */
  function AfterInitialize(s: Session, me: Result<MeReply, Thrown>, demo: Result<LoginReply, Thrown>): (r: Session)
    ensures SignedIn(me) ==> r == Session(me.value.user, true)
    ensures !SignedIn(me) ==> r == AfterDemoLogin(s, demo)
  {
    if SignedIn(me) then Session(me.value.user, true) else AfterDemoLogin(s, demo)
  }

  /** `error?.data?.message || 'Invalid username or password'`. */
  function LoginError(t: Thrown): (msg: string)
    ensures msg != ""
    ensures t.message.Some? && t.message.value != "" ==> msg == t.message.value
    ensures t.message.None? ==> msg == DefaultLoginError
  {
    if t.message.Some? && t.message.value != "" then t.message.value else DefaultLoginError
  }

  /** Every action keeps "authenticated exactly when there is a user". */
  lemma ActionsKeepConsistent(s: Session, me: Result<MeReply, Thrown>, reply: Result<LoginReply, Thrown>)
    requires Consistent(s)
    ensures Consistent(AfterDemoLogin(s, reply))
    ensures Consistent(AfterLogin(s, reply))
    ensures Consistent(AfterInitialize(s, me, reply))
    ensures Consistent(SignedOut)
  {
  }

  /** A failed demo login after an unauthenticated `/me` leaves a guest, whatever came before. */
  lemma InitializeFallsBackToGuest(s: Session, me: Result<MeReply, Thrown>, demo: Result<LoginReply, Thrown>)
    requires !SignedIn(me) && demo.Failure?
    ensures AfterInitialize(s, me, demo) == SignedOut
  {
  }

  /** The demo login the store sends is one the server accepts. */
  lemma DemoCredentialsAccepted()
    ensures AuthenticateUser(DemoUsername, DemoPassword) == Some(AuthUser("user_demo", "demo", Demo))
  {
    PasswordCaseSensitive();
    UsernameCaseInsensitive(DemoUsername, "DEMO", DemoPassword);
  }

  class Store {
    var user: Option<AuthUser>
    var isAuthenticated: bool
    var isLoading: bool
    var error: Option<string>
    var isInitialized: bool

    function SessionOf(): Session
      reads this
    {
      Session(user, isAuthenticated)
    }

    /** The store's invariant: signed in exactly when there is a user. */
    predicate Valid()
      reads this
    {
      Consistent(SessionOf())
    }

    constructor ()
      ensures Valid() && SessionOf() == SignedOut
      ensures !isLoading && error.None? && !isInitialized
    {
      user := None;
      isAuthenticated := false;
      isLoading := false;
      error := None;
      isInitialized := false;
    }

    /** `currentUser`: the signed-in user, present exactly when the store says it is signed in. */
    function CurrentUser(): (u: Option<AuthUser>)
      reads this
      requires Valid()
      ensures u == user && (u.Some? <==> isAuthenticated)
    {
      user
    }

    /** `isLoggedIn`: signed in exactly when there is a current user. */
    function IsLoggedIn(): (b: bool)
      reads this
      requires Valid()
      ensures b <==> CurrentUser().Some?
    {
      isAuthenticated
    }

    /** `user?.role === 'demo'`: false without a user. */
    function IsDemo(): (b: bool)
      reads this
      ensures b <==> user.Some? && user.value.role == Demo
    {
      user.Some? && user.value.role == Demo
    }

    /** `user?.role === 'admin'`: false without a user. */
    function IsAdmin(): (b: bool)
      reads this
      ensures b <==> user.Some? && user.value.role == Admin
      ensures b ==> !IsDemo()
    {
      user.Some? && user.value.role == Admin
    }

    /** `user?.username || 'Guest'`. */
    function DisplayName(): (name: string)
      reads this
      ensures name != ""
      ensures user.None? ==> name == Guest
      ensures user.Some? && user.value.username != "" ==> name == user.value.username
    {
      if user.Some? && user.value.username != "" then user.value.username else Guest
    }

    /** `autoLoginDemo`: signs in as the demo user; a failed request leaves a guest. */
    method AutoLoginDemo(login: LoginEndpoint)
      requires Valid()
      modifies this
      ensures Valid()
      ensures SessionOf() == AfterDemoLogin(old(SessionOf()), login(DemoUsername, DemoPassword))
      ensures isLoading == old(isLoading) && error == old(error) && isInitialized == old(isInitialized)
    {
      var reply := login(DemoUsername, DemoPassword);
      match reply {
        case Failure(_) =>
          isAuthenticated := false;
          user := None;
        case Success(v) =>
          if v.success && v.user.Some? {
            user := v.user;
            isAuthenticated := true;
          }
      }
    }

    /**
      * `initialize`: does nothing once initialised; otherwise takes the session `/me`
      * reports, or falls back to the demo login, and ends initialised and not loading.
      */
    method Initialize(me: Result<MeReply, Thrown>, login: LoginEndpoint)
      requires Valid()
      modifies this
      ensures Valid()
      ensures old(isInitialized) ==> unchanged(this)
      ensures !old(isInitialized) ==>
        && SessionOf() == AfterInitialize(old(SessionOf()), me, login(DemoUsername, DemoPassword))
        && isInitialized && !isLoading && error.None?
    {
      if isInitialized {
        return;
      }
      isLoading := true;
      error := None;
      if me.Success? && me.value.authenticated && me.value.user.Some? {
        user := me.value.user;
        isAuthenticated := true;
      } else {
        AutoLoginDemo(login);
      }
      isLoading := false;
      isInitialized := true;
    }

    /**
      * `login`: true exactly when the answer accepts the credentials, and then its user is
      * signed in; a thrown request records its message as the error.
      */
    method Login(username: string, password: string, login: LoginEndpoint) returns (ok: bool)
      requires Valid()
      modifies this
      ensures Valid()
      ensures var reply := login(username, password);
        && (ok <==> reply.Success? && Accepted(reply.value))
        && SessionOf() == AfterLogin(old(SessionOf()), reply)
        && error == (if reply.Failure? then Some(LoginError(reply.error)) else None)
      ensures !isLoading && isInitialized == old(isInitialized)
    {
      isLoading := true;
      error := None;
      var reply := login(username, password);
      match reply {
        case Failure(t) =>
          error := Some(LoginError(t));
          ok := false;
        case Success(v) =>
          if v.success && v.user.Some? {
            user := v.user;
            isAuthenticated := true;
            ok := true;
          } else {
            ok := false;
          }
      }
      isLoading := false;
    }

    /** `logout`: signed out and not loading, whether or not the request succeeded. */
    method Logout()
      requires Valid()
      modifies this
      ensures Valid()
      ensures SessionOf() == SignedOut && !isLoading
      ensures error == old(error) && isInitialized == old(isInitialized)
    {
      isLoading := true;
      user := None;
      isAuthenticated := false;
      isLoading := false;
    }

    method ClearError()
      requires Valid()
      modifies this
      ensures Valid()
      ensures error.None?
      ensures SessionOf() == old(SessionOf()) && isLoading == old(isLoading) && isInitialized == old(isInitialized)
    {
      error := None;
    }
  }
}
