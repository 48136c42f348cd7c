/**
 * The session state machine of src/auth/AuthContext.jsx: four state cells
 * (`user`, `token`, `isReady`, `isLoading`) updated by the startup restore,
 * login, logout and the forced logout run by the 401 handler.
 */
module AuthContext {
  import opened Wrappers
  import opened JsValue
  import opened HttpClient
  import AuthApi

  /** What `decodeToken` builds from the claims. */
  datatype UserInfo = UserInfo(id: Value, email: Value, role: Value, authenticated: bool)

  /** The one closure the provider registers: `() => { handleLogout(); }`. */
  datatype SessionHandler = LogoutOnUnauthorized

  /** `jwtDecode`: the payload's claims, or `None` where it throws. */
  type Decoder = string -> Option<Value>

  /**
   * `decodeToken(token)`: the user built from the token's claims, or `null`
   * when decoding throws (jwtDecode rejects non-strings, and reading a claim
   * of a `null` payload throws as well).
   */
  function DecodeToken(jwtDecode: Decoder, token: Value): (r: Option<UserInfo>)
    ensures r.Some? <==> token.Str? && jwtDecode(token.s).Some? && !Nullish(jwtDecode(token.s).value)
    ensures r.Some? ==> var claims := jwtDecode(token.s).value;
      r.value == UserInfo(Prop(claims, "id"), Prop(claims, "email"), Prop(claims, "role"), true)
  {
    if !token.Str? then None
    else match jwtDecode(token.s)
      case None => None
      case Some(claims) =>
        if Nullish(claims) then None
        else Some(UserInfo(Prop(claims, "id"), Prop(claims, "email"), Prop(claims, "role"), true))
  }

  /** The object the provider exposes to `useAuth` callers. */
  datatype AuthValue = AuthValue(user: Option<UserInfo>, token: Option<string>, isReady: bool, isLoading: bool, isAuthenticated: bool)

  /** `useAuth()`: the context value, or the error it throws outside an `AuthProvider`. */
  function UseAuth(context: Option<AuthValue>): (r: Result<AuthValue, string>)
    ensures r.Err? <==> context.None?
    ensures r.Ok? ==> r.value == context.value
  {
    match context
    case None => Err("useAuth must be used within AuthProvider")
    case Some(v) => Ok(v)
  }

  class AuthProvider {
    var user: Option<UserInfo>
    var token: Option<string>
    var isReady: bool
    var isLoading: bool
    const http: Interceptors<SessionHandler>
    const jwtDecode: Decoder

    /**
     * `user` and `token` are set and cleared together, and the user is the
     * one the token decodes to.
     */
    ghost predicate Valid()
      reads this
    {
      (user.Some? <==> token.Some?)
      && (token.Some? ==> user == DecodeToken(jwtDecode, Str(token.value)))
    }

    /** The four `useState` initial values. */
    constructor (http: Interceptors<SessionHandler>, jwtDecode: Decoder)
      ensures user == None && token == None && !isReady && !isLoading
      ensures Valid()
      ensures this.http == http && this.jwtDecode == jwtDecode
    {
      this.http := http;
      this.jwtDecode := jwtDecode;
      user, token := None, None;
      isReady, isLoading := false, false;
    }

    /** `isAuthenticated: !!token`, together with the other exposed cells. */
    function Value(): (v: AuthValue)
      reads this
      ensures v.isAuthenticated <==> token.Some? && token.value != ""
      ensures v.user == user && v.token == token && v.isReady == isReady && v.isLoading == isLoading
    {
      AuthValue(user, token, isReady, isLoading, token.Some? && token.value != "")
    }

    /** Whether a failed request with this reply makes the registered handler run. */
    predicate Fires(reply: Reply)
      reads http
    {
      reply.Err? && IsUnauthorized(reply.error) && http.unauthorizedHandler.Some?
    }

    /**
     * `checkAuth()`: restores the session from a stored, truthy, decodable
     * token; a missing or undecodable token leaves the session as it was and
     * no error escapes; `isReady` is set whatever happened.
     */
    method CheckAuth()
      requires Valid()
      modifies this
      ensures Valid() && isReady && isLoading == old(isLoading)
      ensures var saved := http.storage.Token();
        if Present(saved) && DecodeToken(jwtDecode, Str(saved.value)).Some?
        then token == saved && user == DecodeToken(jwtDecode, Str(saved.value))
        else token == old(token) && user == old(user)
    {
      var savedToken := AuthApi.GetToken(http.storage);
      if savedToken.Some? && savedToken.value != "" {
        var userInfo := DecodeToken(jwtDecode, Str(savedToken.value));
        if userInfo.Some? {
          token := savedToken;
          user := userInfo;
        }
      }
      isReady := true;
    }

    /** The mount effect: `checkAuth()`, then register the 401 handler. */
    method Mount()
      requires Valid()
      modifies this, http
      ensures Valid() && isReady && isLoading == old(isLoading)
      ensures var saved := http.storage.Token();
        if Present(saved) && DecodeToken(jwtDecode, Str(saved.value)).Some?
        then token == saved && user == DecodeToken(jwtDecode, Str(saved.value))
        else token == old(token) && user == old(user)
      ensures http.unauthorizedHandler == Some(LogoutOnUnauthorized)
    {
      CheckAuth();
      http.RegisterUnauthorizedHandler(LogoutOnUnauthorized);
    }

    /**
     * `handleLogout()`: clears the stored token and both cells; a second
     * call finds nothing left to clear.
     */
    method HandleLogout()
      modifies this, http.storage
      ensures Valid()
      ensures user == None && token == None
      ensures isReady == old(isReady) && isLoading == old(isLoading)
      ensures http.storage.items == old(http.storage.items) - {TokenKey}
    {
      AuthApi.Logout(http.storage);
      token := None;
      user := None;
    }

    /** Runs the handler the response interceptor invoked, if any. */
    method Run(fired: Option<SessionHandler>)
      requires Valid()
      modifies this, http.storage
      ensures Valid()
      ensures fired.None? ==> user == old(user) && token == old(token) && http.storage.items == old(http.storage.items)
      ensures fired.Some? ==> user == None && token == None && http.storage.items == old(http.storage.items) - {TokenKey}
      ensures isReady == old(isReady) && isLoading == old(isLoading)
    {
      if fired.Some? {
        HandleLogout();
      }
    }

    /**
     * `handleLogin(credentials)`: `isLoading` is set for the call and
     * cleared in `finally`. On success the decoded user and the token are
     * set together when the token decodes; on failure the error propagates,
     * and the session is left alone unless the failure was a 401 that ran
     * the registered handler.
     */
    method HandleLogin(credentials: map<string, Value>, reply: Reply) returns (result: Result<Value, JsError>, sent: Request)
      requires Valid()
      modifies this, http.storage
      ensures Valid() && !isLoading && isReady == old(isReady)
      ensures sent == Request(AuthService, Post, AuthApi.LoginPath, WithBearer(DefaultHeaders, old(http.storage.Token())), Obj(credentials))
      ensures result == AuthApi.LoginResult(reply)
      ensures result.Err? && old(Fires(reply))
              ==> user == None && token == None && http.storage.items == old(http.storage.items) - {TokenKey}
      ensures result.Err? && !old(Fires(reply))
              ==> user == old(user) && token == old(token) && http.storage.items == old(http.storage.items)
      ensures result.Ok? ==> http.storage.items == AuthApi.StoreAfterLogin(old(http.storage.items), reply)
      ensures result.Ok? && DecodeToken(jwtDecode, Prop(result.value, "token")).Some?
              ==> user == DecodeToken(jwtDecode, Prop(result.value, "token"))
                  && token == Some(Prop(result.value, "token").s)
      ensures result.Ok? && DecodeToken(jwtDecode, Prop(result.value, "token")).None?
              ==> user == old(user) && token == old(token)
    {
      isLoading := true;
      var fired;
      result, sent, fired := AuthApi.Login(http, credentials, reply);
      Run(fired);
      if result.Ok? {
        var data := result.value;
        var userInfo := DecodeToken(jwtDecode, Prop(data, "token"));
        if userInfo.Some? {
          token := Some(Prop(data, "token").s);
          user := userInfo;
        }
      }
      isLoading := false;
    }
  }

  /**
   * Logging out twice leaves the store, both cells and both flags exactly
   * as logging out once does.
   */
  method LogoutIdempotent(p: AuthProvider)
    modifies p, p.http.storage
    ensures p.Valid() && p.user == None && p.token == None
    ensures p.isReady == old(p.isReady) && p.isLoading == old(p.isLoading)
    ensures p.http.storage.items == old(p.http.storage.items) - {TokenKey}
  {
    p.HandleLogout();
    ghost var once := p.http.storage.items;
    p.HandleLogout();
    assert TokenKey !in once;
    assert p.http.storage.items == once;
  }
}
