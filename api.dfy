/**
 * The shared HTTP client's two interceptors: the request interceptor adds
 * the bearer token, and the response interceptor turns every failed
 * request into one of three plain error objects, logging the session out
 * on 401.
 */
module Api {
  import opened Js
  import opened Http
  import opened Browser
  import Auth
  import UserService
  import PostService

  /** How an axios request failed: a response with an error status, a
      request sent but never answered, or a request that could not be
      sent (its error message, if any). */
  datatype AxiosFailure = HttpStatus(status: int, data: Body) | NoResponse | NotSent(message: Option<string>)

  const NetworkMessage: string := "Kan inte ansluta till servern. Kontrollera din internetanslutning."
  const UnknownMessage: string := "Ett oväntat fel uppstod"

  /** The value the response interceptor rejects with. */
  function Classify(f: AxiosFailure): (e: JsError)
    ensures e.response.None?
    ensures f.HttpStatus? ==>
      e.isApiError && !e.isNetworkError && !e.isUnknownError &&
      e.status == Some(f.status) && e.data == Some(f.data) &&
      (Truthy(f.data.message) ==> e.message == f.data.message) &&
      (!Truthy(f.data.message) ==> e.message == Some("HTTP-fel " + IntToString(f.status)))
    ensures f.NoResponse? ==>
      !e.isApiError && e.isNetworkError && !e.isUnknownError &&
      e.status == Some(0) && e.data.None? && e.message == Some(NetworkMessage)
    ensures f.NotSent? ==>
      !e.isApiError && !e.isNetworkError && e.isUnknownError &&
      e.status.None? && e.data.None? &&
      (Truthy(f.message) ==> e.message == f.message) &&
      (!Truthy(f.message) ==> e.message == Some(UnknownMessage))
  {
    match f
    case HttpStatus(s, d) =>
      JsError(Some(OrElse(d.message, "HTTP-fel " + IntToString(s))), Some(s), Some(d), None, true, false, false)
    case NoResponse =>
      JsError(Some(NetworkMessage), Some(0), None, None, false, true, false)
    case NotSent(m) =>
      JsError(Some(OrElse(m, UnknownMessage)), None, None, None, false, false, true)
  }

  /** Every rejection of the interceptor carries a non-empty message and
      exactly one of the three flags. */
  lemma ClassifiedErrorsAreUniform(f: AxiosFailure)
    ensures Truthy(Classify(f).message)
    ensures var e := Classify(f);
      (e.isApiError && !e.isNetworkError && !e.isUnknownError) ||
      (!e.isApiError && e.isNetworkError && !e.isUnknownError) ||
      (!e.isApiError && !e.isNetworkError && e.isUnknownError)
  {
    match f
    case HttpStatus(s, d) =>
      assert |"HTTP-fel " + IntToString(s)| > 0;
    case NoResponse =>
    case NotSent(m) =>
  }

  /** `authStore.token || localStorage.getItem('auth_token')` */
  function BearerToken(storeToken: Option<string>, storage: map<string, string>): (t: Option<string>)
    ensures Truthy(storeToken) ==> t == storeToken
    ensures !Truthy(storeToken) ==> t == Js.Get(storage, TokenKey)
  {
    if Truthy(storeToken) then storeToken else Js.Get(storage, TokenKey)
  }

  /** The headers of an outgoing request. */
  class RequestConfig {
    var headers: map<string, string>

    constructor(h: map<string, string>)
      ensures headers == h
    {
      headers := h;
    }
  }

  /** The request interceptor: adds `Authorization: Bearer <token>` when
      a truthy token is held in the store or in storage, and leaves the
      headers alone otherwise. */
  method InterceptRequest(config: RequestConfig, auth: Auth.AuthStore)
    modifies config
    ensures var t := BearerToken(auth.token, auth.window.localStorage);
      if Truthy(t) then config.headers == old(config.headers)["Authorization" := "Bearer " + t.value]
      else config.headers == old(config.headers)
  {
    var t := BearerToken(auth.token, auth.window.localStorage);
    if Truthy(t) {
      config.headers := config.headers["Authorization" := "Bearer " + t.value];
    }
  }

  /** A store created on page load sends the token saved in storage. */
  method ReloadedStoreSendsStoredToken(w: Window, config: RequestConfig, t: string)
    requires t != "" && Js.Get(w.localStorage, TokenKey) == Some(t)
    modifies config
    ensures config.headers == old(config.headers)["Authorization" := "Bearer " + t]
  {
    var a := new Auth.AuthStore(w);
    InterceptRequest(config, a);
  }

  /** After logout no Authorization header is added. */
  method LoggedOutStoreSendsNoToken(a: Auth.AuthStore, config: RequestConfig)
    requires a.Valid()
    modifies a, a.window, config
    ensures config.headers == old(config.headers)
  {
    a.Logout();
    InterceptRequest(config, a);
  }

  /**
   * The response interceptor's error branch: an HTTP 401 logs the session
   * out and goes to the login page; no other failure touches the session.
   * Every failure is rejected with its classified error.
   */
  method InterceptResponseError(f: AxiosFailure, auth: Auth.AuthStore) returns (e: JsError)
    requires auth.Valid()
    modifies auth, auth.window
    ensures e == Classify(f)
    ensures auth.Valid()
    ensures f.HttpStatus? && f.status == 401 ==>
      auth.user.None? && auth.token.None? && !auth.isAuthenticated &&
      auth.window.localStorage == old(auth.window.localStorage) - {TokenKey, UserKey} &&
      auth.window.href == "/login"
    ensures !(f.HttpStatus? && f.status == 401) ==>
      auth.user == old(auth.user) && auth.token == old(auth.token) &&
      auth.isAuthenticated == old(auth.isAuthenticated) &&
      auth.window.localStorage == old(auth.window.localStorage) &&
      auth.window.href == old(auth.window.href)
    ensures auth.window.title == old(auth.window.title)
  {
    if f.HttpStatus? && f.status == 401 {
      auth.Logout();
      auth.window.href := "/login";
    }
    e := Classify(f);
  }

  /** What an axios request settled with before the response interceptor
      ran: a response in the 2xx range, or a failure. */
  datatype Settled<T> = Received(response: T) | Errored(failure: AxiosFailure)

  /**
   * The response interceptor: a successful response passes through
   * unchanged and touches nothing; a failure is handled as above, so the
   * awaiting service sees `Fail` with the classified error.
   */
  method InterceptResponse<T>(s: Settled<T>, auth: Auth.AuthStore) returns (r: ApiResult<T>)
    requires auth.Valid()
    modifies auth, auth.window
    ensures auth.Valid()
    ensures s.Received? ==>
      r == Ok(s.response) &&
      auth.user == old(auth.user) && auth.token == old(auth.token) &&
      auth.isAuthenticated == old(auth.isAuthenticated) &&
      auth.window.localStorage == old(auth.window.localStorage) && auth.window.href == old(auth.window.href)
    ensures s.Errored? ==> r == Fail(Classify(s.failure))
    ensures s.Errored? && s.failure.HttpStatus? && s.failure.status == 401 ==>
      !auth.isAuthenticated && auth.user.None? && auth.token.None? &&
      auth.window.localStorage == old(auth.window.localStorage) - {TokenKey, UserKey} &&
      auth.window.href == "/login"
    ensures s.Errored? && !(s.failure.HttpStatus? && s.failure.status == 401) ==>
      auth.user == old(auth.user) && auth.token == old(auth.token) &&
      auth.isAuthenticated == old(auth.isAuthenticated) &&
      auth.window.localStorage == old(auth.window.localStorage) &&
      auth.window.href == old(auth.window.href)
    ensures auth.window.title == old(auth.window.title)
  {
    match s {
      case Received(x) =>
        r := Ok(x);
      case Errored(f) =>
        var e := InterceptResponseError(f, auth);
        r := Fail(e);
    }
  }

  // ---------------------------------------------------------------------
  // The server's reply as the user and post services report it

  /**
   * As written, the user and post services look for the server's message
   * and field errors under `error.response`, which the interceptor never
   * sets: whatever the server answered, the envelope holds only the
   * status's fixed message and no field errors.
   */
  lemma ServerReplyLostAsWritten(s: int, d: Body)
    ensures var e := Classify(HttpStatus(s, d));
      UserService.CreateFailureAsWritten(e) == Failed(UserService.CreateStatusMessage(Some(s)), Some(map[]), None) &&
      UserService.UpdateFailureAsWritten(e) == Failed(UserService.UpdateStatusMessage(Some(s)), Some(map[]), None) &&
      UserService.DeleteFailureAsWritten(e) == Failed(UserService.DeleteStatusMessage(Some(s)), None, None) &&
      PostService.CreateFailureAsWritten(e) == Failed(PostService.CreateStatusMessage(Some(s)), Some(map[]), None) &&
      PostService.UpdateFailureAsWritten(e) == Failed(PostService.UpdateStatusMessage(Some(s)), Some(map[]), None) &&
      PostService.DeleteFailureAsWritten(e) == Failed(PostService.DeleteStatusMessage(Some(s)), None, None)
  {
    var e := Classify(HttpStatus(s, d));
    assert ResponseMessage(e).None? && ResponseErrors(e) == map[];
  }

  /** A concrete case: a 409 naming the clashing field reaches the user
      form as the generic message with no field error, whatever valid data
      createUser sent. */
  lemma DuplicateUsernameDetailLost(u: UserService.UserInput, isLetter: char -> bool)
    ensures var d := Body(Some("Username 'anna' is taken"), Some(map["username" := "taken"]));
      UserService.CreateFailureAsWritten(Classify(HttpStatus(409, d))) ==
        Failed("Användarnamnet används redan", Some(map[]), None) &&
      (UserService.ValidateUserData(u, false, isLetter).isValid ==>
         UserService.CreateUser(u, isLetter, Fail(Classify(HttpStatus(409, d)))).result ==
           Failed("Användarnamnet används redan", Some(map[]), None))
  {
    var d := Body(Some("Username 'anna' is taken"), Some(map["username" := "taken"]));
    ServerReplyLostAsWritten(409, d);
  }

  /** Read from `error.data`, the server's message (when it sent one) and
      its field errors reach the envelope. */
  lemma ServerReplyKept(s: int, d: Body)
    ensures var e := Classify(HttpStatus(s, d));
      var errs := if d.errors.Some? then d.errors.value else map[];
      UserService.CreateFailure(e) == Failed(OrElse(d.message, UserService.CreateStatusMessage(Some(s))), Some(errs), None) &&
      UserService.UpdateFailure(e) == Failed(OrElse(d.message, UserService.UpdateStatusMessage(Some(s))), Some(errs), None) &&
      UserService.DeleteFailure(e) == Failed(OrElse(d.message, UserService.DeleteStatusMessage(Some(s))), None, None) &&
      PostService.CreateFailure(e) == Failed(OrElse(d.message, PostService.CreateStatusMessage(Some(s))), Some(errs), None) &&
      PostService.UpdateFailure(e) == Failed(OrElse(d.message, PostService.UpdateStatusMessage(Some(s))), Some(errs), None) &&
      PostService.DeleteFailure(e) == Failed(OrElse(d.message, PostService.DeleteStatusMessage(Some(s))), None, None)
  {
    var e := Classify(HttpStatus(s, d));
    assert DataMessage(e) == d.message;
  }
}
