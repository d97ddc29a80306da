/**
 * `AuthProvider`: the signed-in user and token, mirrored into the
 * `authToken` and `authUser` storage keys. Requests to the backend are
 * replies passed to the operations; `JSON.parse` of the stored user is
 * folded into what storage holds (a user, or text that does not parse).
 */
module AuthContext {
  import opened JsValues
  import opened Text
  import opened Http
  import opened AuthMiddleware

  const DefaultLoginError: string := "Login failed. Please check your credentials."
  const DefaultRegisterError: string := "Registration failed. Please try again."

  /** What `localStorage['authUser']` holds. */
  datatype StoredUser = UserJson(user: UserClaim) | Unparsable

  /** The auth state together with the two storage keys. */
  datatype Auth = Auth(token: Option<string>, user: Option<UserClaim>,
                       storedToken: Option<string>, storedUser: Option<StoredUser>)

  /** The body of a login reply: `token` and `user`, either possibly missing. */
  datatype LoginBody = LoginBody(token: Option<string>, user: Option<UserClaim>)

  /** `token.split('.').length === 3` */
  predicate LooksLikeJwt(t: string)
  {
    |Split(t, '.')| == 3
  }

  /** A token looks like a JWT exactly when it has two dots. */
  lemma LooksLikeJwtDots(t: string)
    ensures LooksLikeJwt(t) <==> Count(t, '.') == 2
  {
    SplitLength(t, '.');
  }

  /** `clearAuthData` on the state: both keys removed, token and user null. */
  function Cleared(a: Auth): (c: Auth)
    ensures c.token == None && c.user == None && c.storedToken == None && c.storedUser == None
  {
    Auth(None, None, None, None)
  }

  /** The state right after the first render: the token is read from storage, the user is null. */
  function FirstRender(storedToken: Option<string>, storedUser: Option<StoredUser>): (a: Auth)
    ensures a.token == storedToken && a.user == None
    ensures a.storedToken == storedToken && a.storedUser == storedUser
  {
    Auth(storedToken, None, storedToken, storedUser)
  }

  /**
   * The initial check, as the effect does it: with both keys present, a
   * JWT-shaped token and a parsable user are adopted and anything else is
   * cleared; with a key missing nothing happens.
   */
  function InitialSession(a: Auth): (r: Auth)
    ensures !(TruthyStr(a.storedToken) && a.storedUser.Some?) ==> r == a
    ensures TruthyStr(a.storedToken) && a.storedUser.Some? && LooksLikeJwt(a.storedToken.value) && a.storedUser.value.UserJson? ==>
              r == a.(token := a.storedToken, user := Some(a.storedUser.value.user))
    ensures TruthyStr(a.storedToken) && a.storedUser.Some? && !(LooksLikeJwt(a.storedToken.value) && a.storedUser.value.UserJson?) ==>
              r == Cleared(a)
  {
    if TruthyStr(a.storedToken) && a.storedUser.Some? then
      if LooksLikeJwt(a.storedToken.value) then
        match a.storedUser.value
        case UserJson(u) => a.(token := a.storedToken, user := Some(u))
        case Unparsable => Cleared(a)
      else Cleared(a)
    else a
  }

  /**
   * As written, a stored token without a stored user survives the check:
   * the token state was read from storage on the first render and the
   * check leaves it, so the app counts as signed in with no user and a
   * token that is not JWT-shaped.
   */
  lemma LoneTokenStaysSignedIn()
    ensures var r := InitialSession(FirstRender(Some("abc"), None));
            TruthyStr(r.token) && r.user == None && !LooksLikeJwt(r.token.value)
  {
    assert Split("abc", '.') == ["abc"];
  }

  /** The check as its guard evidently intends: a session is kept only when it is adopted. */
  function IntendedInitialSession(a: Auth): (r: Auth)
    ensures TruthyStr(a.storedToken) && a.storedUser.Some? ==> r == InitialSession(a)
    ensures !(TruthyStr(a.storedToken) && a.storedUser.Some?) ==> r == a.(token := None, user := None)
  {
    if TruthyStr(a.storedToken) && a.storedUser.Some? then InitialSession(a) else a.(token := None, user := None)
  }

  /** After the intended check, being signed in means a JWT-shaped stored token and a parsed stored user. */
  lemma IntendedSessionIsAdopted(storedToken: Option<string>, storedUser: Option<StoredUser>)
    ensures var r := IntendedInitialSession(FirstRender(storedToken, storedUser));
            TruthyStr(r.token) ==>
              && r.token == storedToken && LooksLikeJwt(r.token.value)
              && storedUser.Some? && storedUser.value.UserJson? && r.user == Some(storedUser.value.user)
  {
  }

  /** The provider's state and the two storage keys. */
  class AuthState {
    var token: Option<string>
    var user: Option<UserClaim>
    var loading: bool
    var error: Option<string>
    var storedToken: Option<string>
    var storedUser: Option<StoredUser>

    function Snapshot(): (a: Auth)
      reads this
      ensures a.token == token && a.user == user && a.storedToken == storedToken && a.storedUser == storedUser
    {
      Auth(token, user, storedToken, storedUser)
    }

    /** `isAuthenticated: !!token` */
    function IsAuthenticated(): (b: bool)
      reads this
      ensures b <==> token.Some? && token.value != ""
    {
      TruthyStr(token)
    }

    /** The first render, before the effect runs. */
    constructor (initialToken: Option<string>, initialUser: Option<StoredUser>)
      ensures Snapshot() == FirstRender(initialToken, initialUser)
      ensures loading && error == None
    {
      token := initialToken;
      user := None;
      loading := true;
      error := None;
      storedToken := initialToken;
      storedUser := initialUser;
    }

    /** `setAuthData(userData, authToken)`: storage and state both take the pair; the error is cleared. */
    method SetAuthData(u: UserClaim, t: string)
      modifies this
      ensures storedToken == Some(t) && storedUser == Some(UserJson(u))
      ensures token == Some(t) && user == Some(u) && error == None && loading == old(loading)
    {
      storedToken := Some(t);
      storedUser := Some(UserJson(u));
      token := Some(t);
      user := Some(u);
      error := None;
    }

    /** `clearAuthData()`: both keys removed, token and user null. */
    method ClearAuthData()
      modifies this
      ensures Snapshot() == Cleared(old(Snapshot()))
      ensures !IsAuthenticated()
      ensures loading == old(loading) && error == old(error)
    {
      storedToken := None;
      storedUser := None;
      token := None;
      user := None;
    }

    /** The mount effect: the stored session is checked, then loading ends. */
    method InitialCheck()
      modifies this
      ensures Snapshot() == InitialSession(old(Snapshot()))
      ensures !loading && error == old(error)
    {
      if TruthyStr(storedToken) && storedUser.Some? {
        if |Split(storedToken.value, '.')| == 3 {
          token := storedToken;
          match storedUser.value {
            case UserJson(u) => user := Some(u);
            case Unparsable => ClearAuthData();
          }
        } else {
          ClearAuthData();
        }
      }
      loading := false;
    }

    /**
     * `login(email, password)` given the backend's reply: it succeeds only
     * with both a token and a user; otherwise the error is set, the auth
     * data cleared and the error rethrown (`threw`).
     */
    method Login(reply: Reply<LoginBody>) returns (threw: bool)
      modifies this
      ensures !loading
      ensures !threw <==> reply.Ok? && TruthyStr(reply.data.token) && reply.data.user.Some?
      ensures !threw ==> token == reply.data.token && user == reply.data.user
                         && storedToken == token && storedUser == Some(UserJson(user.value))
                         && error == None && IsAuthenticated()
      ensures threw ==> Snapshot() == Cleared(old(Snapshot())) && !IsAuthenticated()
      ensures threw && reply.Fail? ==> error == Some(StrOr(reply.bodyMessage, DefaultLoginError))
      ensures threw && reply.Ok? ==> error == Some(DefaultLoginError)
    {
      loading := true;
      error := None;
      match reply {
        case Ok(body) =>
          if TruthyStr(body.token) && body.user.Some? {
            SetAuthData(body.user.value, body.token.value);
            threw := false;
          } else {
            // `new Error('Login failed: ...')` has no `response`
            error := Some(DefaultLoginError);
            ClearAuthData();
            threw := true;
          }
        case Fail(_, bm, _) =>
          error := Some(StrOr(bm, DefaultLoginError));
          ClearAuthData();
          threw := true;
      }
      loading := false;
    }

    /** `register(...)`: nothing but the error and loading flag change; a failure is rethrown. */
    method Register<D>(reply: Reply<D>) returns (threw: bool)
      modifies this
      ensures !loading && Snapshot() == old(Snapshot())
      ensures threw <==> reply.Fail?
      ensures reply.Ok? ==> error == None
      ensures reply.Fail? ==> error == Some(StrOr(reply.bodyMessage, DefaultRegisterError))
    {
      loading := true;
      error := None;
      if reply.Fail? {
        error := Some(StrOr(reply.bodyMessage, DefaultRegisterError));
        threw := true;
      } else {
        threw := false;
      }
      loading := false;
    }

    /** `logout()` is `clearAuthData()`. */
    method Logout()
      modifies this
      ensures Snapshot() == Cleared(old(Snapshot())) && !IsAuthenticated()
      ensures loading == old(loading) && error == old(error)
    {
      ClearAuthData();
    }
  }
}
