/** The submit handler of src/pages/LoginPage.jsx. */
module LoginPage {
  import opened Wrappers
  import opened JsValue
  import opened HttpClient
  import opened AuthContext
  import AuthApi

  const MissingFields := "Vänligen ange e-post och lösenord"
  const LoginFailed := "Inloggning misslyckades, kontrollera din e-post och lösenord"
  const AccountPath := "/account"

  /** The field check: both fields must be non-empty. */
  function Validate(email: string, password: string): (r: Option<string>)
    ensures r.Some? <==> email == "" || password == ""
    ensures r.Some? ==> r.value == MissingFields
  {
    if email == "" || password == "" then Some(MissingFields) else None
  }

  function Credentials(email: string, password: string): map<string, Value> {
    map["email" := Str(email), "password" := Str(password)]
  }

  class LoginPage {
    var email: string
    var password: string
    var error: Value

    constructor ()
      ensures email == "" && password == "" && error == Str("")
    {
      email, password, error := "", "", Str("");
    }

    /**
     * `handleSubmit`: clears the error, checks the fields, then awaits the
     * context's `login` and navigates to `/account`; a failure shows the
     * server's message or the fixed text and does not navigate.
     */
    method HandleSubmit(auth: AuthProvider, reply: Reply) returns (sent: seq<Request>, navigation: Option<string>)
      requires auth.Valid()
      modifies this`error, auth, auth.http.storage
      ensures auth.Valid()
      ensures Validate(email, password).Some?
              ==> error == Str(MissingFields) && sent == [] && navigation == None
                  && unchanged(auth) && unchanged(auth.http.storage)
      ensures Validate(email, password).None?
              ==> |sent| == 1 && sent[0].url == AuthApi.LoginPath && sent[0].data == Obj(Credentials(email, password))
                  && !auth.isLoading
      ensures Validate(email, password).None? && AuthApi.LoginResult(reply).Ok?
              ==> navigation == Some(AccountPath) && error == Str("")
      ensures Validate(email, password).None? && AuthApi.LoginResult(reply).Err?
              ==> navigation == None && error == MessageOr(AuthApi.LoginResult(reply).error, LoginFailed)
      // The session after the context's `login`.
      ensures auth.isReady == old(auth.isReady)
      ensures Validate(email, password).None? && AuthApi.LoginResult(reply).Err? && old(auth.Fires(reply))
              ==> auth.user == None && auth.token == None
                  && auth.http.storage.items == old(auth.http.storage.items) - {TokenKey}
      ensures Validate(email, password).None? && AuthApi.LoginResult(reply).Err? && !old(auth.Fires(reply))
              ==> auth.user == old(auth.user) && auth.token == old(auth.token)
                  && auth.http.storage.items == old(auth.http.storage.items)
      ensures Validate(email, password).None? && AuthApi.LoginResult(reply).Ok?
              ==> auth.http.storage.items == AuthApi.StoreAfterLogin(old(auth.http.storage.items), reply)
      ensures Validate(email, password).None? && AuthApi.LoginResult(reply).Ok?
              && DecodeToken(auth.jwtDecode, Prop(reply.value.data, "token")).Some?
              ==> auth.user == DecodeToken(auth.jwtDecode, Prop(reply.value.data, "token"))
                  && auth.token == Some(Prop(reply.value.data, "token").s)
      ensures Validate(email, password).None? && AuthApi.LoginResult(reply).Ok?
              && DecodeToken(auth.jwtDecode, Prop(reply.value.data, "token")).None?
              ==> auth.user == old(auth.user) && auth.token == old(auth.token)
    {
      error := Str("");
      sent, navigation := [], None;
      var invalid := Validate(email, password);
      if invalid.Some? {
        error := Str(invalid.value);
        return;
      }
      var result, request := auth.HandleLogin(Credentials(email, password), reply);
      sent := [request];
      match result {
        case Ok(_) => navigation := Some(AccountPath);
        case Err(e) => error := MessageOr(e, LoginFailed);
      }
    }
  }
}
