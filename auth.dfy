/**
 * The session store: the logged-in user, the token and the
 * `isAuthenticated` flag, kept in memory and mirrored in `localStorage`
 * under `auth_token` and `auth_user`.
 */
module Auth {
  import opened Js
  import Http
  import opened Browser
  import UserService
  import UserJson

  type SessionUser = UserService.SessionUser

  /** `{success: true}`, or a failure with its message. */
  datatype LoginReply = LoginReply(success: bool, message: Option<string>)

  /** getRoleDisplayName of the session store, which also accepts the
      `undefined` role of a store without a user. */
  function RoleDisplayName(role: Option<string>): (r: Option<string>)
    ensures role.None? ==> r.None?
    ensures role.Some? ==> r == Some(UserService.RoleDisplayName(role.value))
  {
    match role
    case None => None
    case Some("admin") => Some("Administratör")
    case Some("designer") => Some("Designer")
    case Some("developer") => Some("Utvecklare")
    case Some("tester") => Some("Testare")
    case Some(other) => Some(other)
  }

  class AuthStore {
    var user: Option<SessionUser>
    var token: Option<string>
    var isAuthenticated: bool
    const window: Window

    /** A user is only held while authenticated, and authentication always
        comes with a token. */
    predicate Valid()
      reads this
    {
      (user.Some? ==> isAuthenticated) && (isAuthenticated ==> token.Some?)
    }

    /** The store as created: no user, the stored token, authenticated
        exactly when that token is truthy. */
    constructor(w: Window)
      ensures window == w && user.None?
      ensures token == Get(w.localStorage, TokenKey)
      ensures isAuthenticated <==> Truthy(token)
      ensures Valid()
    {
      window := w;
      user := None;
      token := Get(w.localStorage, TokenKey);
      isAuthenticated := Truthy(Get(w.localStorage, TokenKey));
    }

    /** `user?.role` */
    function UserRole(): (r: Option<string>)
      reads this
      ensures r.Some? ==> user.Some? && user.value.role == r
      ensures user.Some? ==> r == user.value.role
    {
      match user
      case None => None
      case Some(u) => u.role
    }

    /** logout: forgets the session in memory and in storage, and goes to
        the login page. */
    method Logout()
      modifies this, window
      ensures user.None? && token.None? && !isAuthenticated
      ensures window.localStorage == old(window.localStorage) - {TokenKey, UserKey}
      ensures window.href == "/login" && window.title == old(window.title)
      ensures Valid()
    {
      user := None;
      token := None;
      isAuthenticated := false;
      window.localStorage := window.localStorage - {TokenKey};
      window.localStorage := window.localStorage - {UserKey};
      window.href := "/login";
    }

    /**
     * login, given what `userService.login` gave: on success the session
     * is set in memory and in both storage keys; on failure nothing is
     * changed and the service's failure is passed on; a thrown error gives
     * the fixed failure message.
     */
    method Login(r: Http.Outcome<UserService.LoginResponse>) returns (reply: LoginReply)
      requires Valid()
      modifies this, window
      ensures Valid()
      ensures r.Returned? && r.value.LoggedIn? ==>
        user == Some(r.value.user) && token == Some(r.value.token) && isAuthenticated &&
        window.localStorage == old(window.localStorage)[TokenKey := r.value.token][UserKey := UserJson.Serialize(r.value.user)] &&
        reply == LoginReply(true, None)
      ensures r.Returned? && r.value.LoginFailed? ==>
        user == old(user) && token == old(token) && isAuthenticated == old(isAuthenticated) &&
        window.localStorage == old(window.localStorage) && reply == LoginReply(false, Some(r.value.message))
      ensures r.Threw? ==>
        user == old(user) && token == old(token) && isAuthenticated == old(isAuthenticated) &&
        window.localStorage == old(window.localStorage) && reply == LoginReply(false, Some("Inloggning misslyckades"))
      ensures window.href == old(window.href) && window.title == old(window.title)
    {
      match r
      case Threw =>
        reply := LoginReply(false, Some("Inloggning misslyckades"));
      case Returned(LoginFailed(message)) =>
        reply := LoginReply(false, Some(message));
      case Returned(LoggedIn(t, u)) =>
        user := Some(u);
        token := Some(t);
        isAuthenticated := true;
        window.localStorage := window.localStorage[TokenKey := t];
        window.localStorage := window.localStorage[UserKey := UserJson.Serialize(u)];
        reply := LoginReply(true, None);
    }

    /**
     * initializeAuth: when both keys hold truthy values the token is taken
     * over and the stored user parsed; if parsing fails both keys are
     * removed, but the token already taken over stays in memory.
     */
    method InitializeAuth()
      requires Valid()
      modifies this, window
      ensures Valid()
      ensures var t := Get(old(window.localStorage), TokenKey);
              var u := Get(old(window.localStorage), UserKey);
        if Truthy(t) && Truthy(u) then
          token == t &&
          (UserJson.Parse(u.value).Some? ==>
             user == UserJson.Parse(u.value) && isAuthenticated &&
             window.localStorage == old(window.localStorage)) &&
          (UserJson.Parse(u.value).None? ==>
             user == old(user) && isAuthenticated == old(isAuthenticated) &&
             window.localStorage == old(window.localStorage) - {TokenKey, UserKey})
        else
          user == old(user) && token == old(token) && isAuthenticated == old(isAuthenticated) &&
          window.localStorage == old(window.localStorage)
      ensures window.href == old(window.href) && window.title == old(window.title)
    {
      var storedToken := Get(window.localStorage, TokenKey);
      var storedUser := Get(window.localStorage, UserKey);
      if Truthy(storedToken) && Truthy(storedUser) {
        token := storedToken;
        var parsed := UserJson.Parse(storedUser.value);
        if parsed.Some? {
          user := parsed;
          isAuthenticated := true;
        } else {
          window.localStorage := window.localStorage - {TokenKey};
          window.localStorage := window.localStorage - {UserKey};
        }
      }
    }

    /** redirectToDashboard */
    method RedirectToDashboard(role: string)
      modifies window
      ensures window.href == "/dashboard/" + role
      ensures window.localStorage == old(window.localStorage) && window.title == old(window.title)
    {
      window.href := "/dashboard/" + role;
    }
  }

  /** Logging out twice leaves the same state, storage and location as
      logging out once. */
  method LogoutIsIdempotent(a: AuthStore)
    requires a.Valid()
    modifies a, a.window
    ensures a.user.None? && a.token.None? && !a.isAuthenticated
    ensures a.window.localStorage == old(a.window.localStorage) - {TokenKey, UserKey}
    ensures a.window.href == "/login"
  {
    a.Logout();
    var once := a.window.localStorage;
    a.Logout();
    assert a.window.localStorage == once - {TokenKey, UserKey};
  }

  /** A session written by a successful login is restored by a store
      created on the next page load. */
  method LoginThenReload(w: Window, t: string, u: SessionUser) returns (reloaded: AuthStore)
    requires t != ""
    modifies w
    ensures reloaded.window == w
    ensures reloaded.user == Some(u) && reloaded.token == Some(t) && reloaded.isAuthenticated
    ensures reloaded.Valid()
  {
    var a := new AuthStore(w);
    var reply := a.Login(Http.Returned(UserService.LoggedIn(t, u)));
    reloaded := new AuthStore(w);
    assert w.localStorage[UserKey] == UserJson.Serialize(u);
    UserJson.ParseSerialize(u);
    assert Truthy(Some(UserJson.Serialize(u))) by {
      assert |UserJson.Serialize(u)| > 0 by {
        assert UserJson.Serialize(u)[0] == '{';
      }
    }
    reloaded.InitializeAuth();
  }
}
