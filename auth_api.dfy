/**
 * The auth-service adapter (src/api/authApi.js): login and register over
 * the auth client, and logout, isAuthenticated and getToken over the token
 * store.
 */
module AuthApi {
  import opened Wrappers
  import opened JsValue
  import opened HttpClient

  const LoginPath := "/login"
  const RegisterPath := "/register"

  /** The role every registration is sent with. */
  const DefaultRole: Value := Arr([Str("user")])

  function LoginCall(credentials: map<string, Value>): Call {
    Call(AuthService, Post, LoginPath, Obj(credentials))
  }

  /** `{ ...userData, role: ['user'] }`: the role is spread last, so it wins. */
  function RegisterBody(userData: map<string, Value>): (body: map<string, Value>)
    ensures "role" in body && body["role"] == DefaultRole
    ensures body.Keys == userData.Keys + {"role"}
    ensures forall k :: k in userData && k != "role" ==> body[k] == userData[k]
  {
    userData["role" := DefaultRole]
  }

  function RegisterCall(userData: map<string, Value>): Call {
    Call(AuthService, Post, RegisterPath, Obj(RegisterBody(userData)))
  }

  /**
   * What `login` resolves or rejects with once the reply is in:
   * `const { token } = response.data` throws a TypeError when the body is
   * `null` or `undefined`.
   */
  function LoginResult(reply: Reply): (r: Result<Value, JsError>)
    ensures reply.Err? ==> r == Err(reply.error)
    ensures reply.Ok? && Nullish(reply.value.data) ==> r == Err(JsError(None))
    ensures reply.Ok? && !Nullish(reply.value.data) ==> r == Ok(reply.value.data)
  {
    match reply
    case Err(e) => Err(e)
    case Ok(response) => if Nullish(response.data) then Err(JsError(None)) else Ok(response.data)
  }

  /** The token store after `login`: written with `String(token)` exactly when the body's `token` is truthy. */
  function StoreAfterLogin(items: map<string, string>, reply: Reply): (r: map<string, string>)
    ensures LoginResult(reply).Ok? && Truthy(Prop(reply.value.data, "token"))
            ==> r == items[TokenKey := ToJsString(Prop(reply.value.data, "token"))]
    ensures LoginResult(reply).Err? || !Truthy(Prop(reply.value.data, "token")) ==> r == items
  {
    match LoginResult(reply)
    case Ok(data) =>
      var token := Prop(data, "token");
      if Truthy(token) then items[TokenKey := ToJsString(token)] else items
    case Err(_) => items
  }

  /**
   * `login(credentials)`: posts the credentials unchanged, stores the
   * returned token when there is one, and resolves with the body.
   */
  method Login<H>(http: Interceptors<H>, credentials: map<string, Value>, reply: Reply)
    returns (result: Result<Value, JsError>, sent: Request, fired: Option<H>)
    modifies http.storage
    ensures sent == Request(AuthService, Post, LoginPath, WithBearer(DefaultHeaders, old(http.storage.Token())), Obj(credentials))
    ensures result == LoginResult(reply)
    ensures http.storage.items == StoreAfterLogin(old(http.storage.items), reply)
    ensures fired.Some? <==> reply.Err? && IsUnauthorized(reply.error) && http.unauthorizedHandler.Some?
    ensures fired.Some? ==> fired == http.unauthorizedHandler
  {
    var outcome;
    sent, outcome, fired := http.Send(LoginCall(credentials), reply);
    match outcome {
      case Err(e) =>
        result := Err(e);
      case Ok(response) =>
        if Nullish(response.data) {
          result := Err(JsError(None));
        } else {
          var token := Prop(response.data, "token");
          if Truthy(token) {
            http.storage.Set(ToJsString(token));
          }
          result := Ok(response.data);
        }
    }
  }

  /**
   * `register(userData)`: posts the caller's fields with the default role
   * and resolves with the body unchanged; the token store is not touched.
   */
  method Register<H>(http: Interceptors<H>, userData: map<string, Value>, reply: Reply)
    returns (result: Result<Value, JsError>, sent: Request, fired: Option<H>)
    ensures sent == Request(AuthService, Post, RegisterPath, WithBearer(DefaultHeaders, http.storage.Token()), Obj(RegisterBody(userData)))
    ensures reply.Ok? ==> result == Ok(reply.value.data)
    ensures reply.Err? ==> result == Err(reply.error)
    ensures fired.Some? <==> reply.Err? && IsUnauthorized(reply.error) && http.unauthorizedHandler.Some?
    ensures fired.Some? ==> fired == http.unauthorizedHandler
  {
    result, sent, fired := http.SendForData(RegisterCall(userData), reply);
  }

  /** `logout()`: removes the stored token and nothing else; no request is made. */
  method Logout(storage: TokenStorage)
    modifies storage
    ensures storage.Token() == None
    ensures storage.items == old(storage.items) - {TokenKey}
  {
    storage.Remove();
  }

  /** `!!tokenStorage.get()`. */
  method IsAuthenticated(storage: TokenStorage) returns (b: bool)
    ensures b <==> TokenKey in storage.items && storage.items[TokenKey] != ""
  {
    var token := storage.Get();
    b := token.Some? && token.value != "";
  }

  /** `tokenStorage.get()`, verbatim. */
  method GetToken(storage: TokenStorage) returns (t: Option<string>)
    ensures t.Some? <==> TokenKey in storage.items
    ensures t.Some? ==> t.value == storage.items[TokenKey]
  {
    t := storage.Get();
  }
}
