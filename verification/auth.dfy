/**
  * Server-side authentication: the two built-in demo accounts, the username and password
  * rules, and the decision whether a request carries a session. Token signing and checking
  * are outside the model; a request's token is judged by the `verify` parameter.
  */
module Auth {
  import opened Wrappers
  import opened Text
  import opened Http

  datatype Role = Demo | Admin

  datatype AuthUser = AuthUser(id: string, username: string, role: Role)

  datatype DemoAccount = DemoAccount(password: string, role: Role)

  /** `DEMO_ACCOUNTS`, keyed by lower-case username. */
  function DemoAccounts(): map<string, DemoAccount> {
    map["demo" := DemoAccount("babylon2025", Demo), "admin" := DemoAccount("admin2025", Admin)]
  }

  /** The user the server hands out for a lower-case account name. */
  function UserOf(name: string, role: Role): (u: AuthUser)
    ensures u.username == name && u.role == role && u.id == "user_" + name
  {
    AuthUser("user_" + name, name, role)
  }

  /**
    * `authenticateUser`: the account is looked up by the lower-cased username and the
    * password compared exactly.
    */
  function AuthenticateUser(username: string, password: string): (r: Option<AuthUser>)
    ensures r.Some? <==>
      ToLower(username) in DemoAccounts() && DemoAccounts()[ToLower(username)].password == password
    ensures r.Some? ==> r.value == UserOf(ToLower(username), DemoAccounts()[ToLower(username)].role)
  {
    var name := ToLower(username);
    if name in DemoAccounts() && DemoAccounts()[name].password == password then
      Some(UserOf(name, DemoAccounts()[name].role))
    else None
  }

  /** Lower-casing is idempotent. */
  lemma ToLowerIdempotent(s: string)
    ensures ToLower(ToLower(s)) == ToLower(s)
  {
  }

  /**
    * A signed-in user is one of the two accounts, under its lower-case name, with the id
    * derived from that name and the account's role.
    */
  lemma AuthenticatedUserShape(username: string, password: string)
    requires AuthenticateUser(username, password).Some?
    ensures var u := AuthenticateUser(username, password).value;
      && (u == AuthUser("user_demo", "demo", Demo) || u == AuthUser("user_admin", "admin", Admin))
      && ToLower(u.username) == u.username
  {
    var name := ToLower(username);
    assert name == "demo" || name == "admin";
    ToLowerIdempotent(username);
  }

  /** The username is matched without regard to case. */
  lemma UsernameCaseInsensitive(a: string, b: string, password: string)
    requires |a| == |b|
    requires forall i :: 0 <= i < |a| ==> LowerChar(a[i]) == LowerChar(b[i])
    ensures AuthenticateUser(a, password) == AuthenticateUser(b, password)
  {
    assert ToLower(a) == ToLower(b);
  }

  /** The password is matched with regard to case. */
  lemma PasswordCaseSensitive()
    ensures AuthenticateUser("DEMO", "babylon2025") == Some(AuthUser("user_demo", "demo", Demo))
    ensures AuthenticateUser("demo", "Babylon2025") == None
    ensures AuthenticateUser("admin", "admin2025") == Some(AuthUser("user_admin", "admin", Admin))
    ensures AuthenticateUser("admin", "babylon2025") == None
  {
    assert ToLower("DEMO") == "demo";
    assert ToLower("demo") == "demo";
    assert ToLower("admin") == "admin";
    assert "user_" + "demo" == "user_demo";
    assert "user_" + "admin" == "user_admin";
  }

  /**
    * Each account has exactly one password, compared character for character: a password
    * differing from an accepted one in anything, case included, is refused.
    */
  lemma OnePasswordPerAccount(username: string, password: string, other: string)
    requires AuthenticateUser(username, password).Some? && other != password
    ensures AuthenticateUser(username, other) == None
  {
  }

  /** Any other name is refused whatever the password. */
  lemma UnknownUserRefused(username: string, password: string)
    requires ToLower(username) != "demo" && ToLower(username) != "admin"
    ensures AuthenticateUser(username, password) == None
  {
  }

  /** A character of `[a-zA-Z0-9_]`. */
  predicate IsWordChar(c: char) {
    ('a' <= c <= 'z') || ('A' <= c <= 'Z') || ('0' <= c <= '9') || c == '_'
  }

  /** `/^[a-zA-Z0-9_]{3,20}$/.test(username)`. */
  function IsValidUsername(username: string): (ok: bool)
    ensures ok <==> 3 <= |username| <= 20 && forall i :: 0 <= i < |username| ==> IsWordChar(username[i])
  {
    3 <= |username| <= 20 && AllWordChars(username)
  }

  function AllWordChars(s: string): (ok: bool)
    ensures ok <==> forall i :: 0 <= i < |s| ==> IsWordChar(s[i])
    decreases |s|
  {
    s == [] || (IsWordChar(s[0]) && AllWordChars(s[1..]))
  }

  /** Lower-casing keeps a valid username valid. */
  lemma {:induction false} ValidUsernameLower(username: string)
    requires IsValidUsername(username)
    ensures IsValidUsername(ToLower(username))
  {
    var l := ToLower(username);
    forall i | 0 <= i < |l|
      ensures IsWordChar(l[i])
    {
      var c := username[i];
      assert IsWordChar(c);
      if 'A' <= c <= 'Z' {
        assert 'a' <= l[i] <= 'z';
      } else {
        assert l[i] == c;
      }
    }
  }

  /** `password.length >= 6`, the length counted in UTF-16 units as JavaScript does. */
  function IsValidPassword(password: string): (ok: bool)
    ensures ok <==> Utf16Length(password) >= 6
    ensures |password| >= 6 ==> ok
    ensures |password| < 3 ==> !ok
    ensures (forall i :: 0 <= i < |password| ==> password[i] < '\U{10000}') ==> (ok <==> |password| >= 6)
  {
    Utf16Length(password) >= 6
  }

  /** Three characters beyond U+FFFF are six UTF-16 units, so they pass; five ASCII letters do not. */
  lemma PasswordLengthInUnits()
    ensures IsValidPassword("\U{1F600}\U{1F600}\U{1F600}")
    ensures !IsValidPassword("abcde")
  {
    var s := "\U{1F600}\U{1F600}\U{1F600}";
    assert s[1..] == "\U{1F600}\U{1F600}" && s[1..][1..] == "\U{1F600}";
    assert Utf16Length(s[1..][1..]) == 2;
  }

  /** The built-in accounts pass the rules a new account would have to pass. */
  lemma DemoAccountsValid()
    ensures forall name :: name in DemoAccounts() ==>
      IsValidUsername(name) && IsValidPassword(DemoAccounts()[name].password)
  {
    assert IsValidUsername("demo");
    assert IsValidUsername("admin");
  }

  /** The claims of a verified session token. */
  datatype TokenPayload = TokenPayload(sub: string, username: string, role: Role, iat: int, exp: int)

  /** The session a request carries, and whether the response clears the session cookie. */
  datatype SessionOutcome = SessionOutcome(user: Option<AuthUser>, clearCookie: bool)

  /**
    * `getSessionFromEvent`: no (or an empty) cookie is no session; a token that `verify`
    * rejects is no session and clears the cookie; otherwise the token's claims are the user.
    */
  function GetSessionFromEvent(cookie: Option<string>, verify: string -> Option<TokenPayload>): (r: SessionOutcome)
    ensures !Given(cookie) ==> r == SessionOutcome(None, false)
    ensures Given(cookie) && verify(cookie.value).None? ==> r == SessionOutcome(None, true)
    ensures Given(cookie) && verify(cookie.value).Some? ==>
      var p := verify(cookie.value).value;
      r == SessionOutcome(Some(AuthUser(p.sub, p.username, p.role)), false)
    ensures r.clearCookie ==> r.user.None?
  {
    if !Given(cookie) then SessionOutcome(None, false)
    else match verify(cookie.value)
      case None => SessionOutcome(None, true)
      case Some(p) => SessionOutcome(Some(AuthUser(p.sub, p.username, p.role)), false)
  }

  const Unauthorized: HttpError := HttpError(401, "Please log in to access this resource")

  /** `requireAuth`: the session's user, or 401 exactly when there is none. */
  function RequireAuth(cookie: Option<string>, verify: string -> Option<TokenPayload>): (r: Result<AuthUser, HttpError>)
    ensures r.Failure? <==> GetSessionFromEvent(cookie, verify).user.None?
    ensures r.Failure? ==> r.error == Unauthorized
    ensures r.Success? ==> Some(r.value) == GetSessionFromEvent(cookie, verify).user
  {
    match GetSessionFromEvent(cookie, verify).user
    case None => Failure(Unauthorized)
    case Some(u) => Success(u)
  }

  /** A request passes `requireAuth` only with a cookie whose token verifies. */
  lemma RequireAuthNeedsValidToken(cookie: Option<string>, verify: string -> Option<TokenPayload>)
    ensures RequireAuth(cookie, verify).Success? <==> Given(cookie) && verify(cookie.value).Some?
  {
  }
}
