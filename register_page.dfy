/** The submit handler of src/pages/RegisterPage.jsx. */
module RegisterPage {
  import opened Wrappers
  import opened Strings
  import opened JsValue
  import opened HttpClient
  import opened AuthContext
  import AuthApi
  import LoginPage

  const MissingFields := "Vänligen fyll i alla fält"
  const PasswordMismatch := "Lösenorden matchar inte"
  const PasswordTooShort := "Lösenordet måste vara minst 6 tecken"
  const RegistrationFailed := "Registrering misslyckades"
  const MinPasswordLength := 6

  /**
   * The ordered validation chain: empty fields first, then mismatched
   * passwords, then a password shorter than six UTF-16 code units.
   */
  function Validate(username: string, email: string, password: string, confirmPassword: string): (r: Option<string>)
    ensures r == Some(MissingFields)
            <==> username == "" || email == "" || password == "" || confirmPassword == ""
    ensures r == Some(PasswordMismatch)
            <==> username != "" && email != "" && password != "" && confirmPassword != ""
                 && password != confirmPassword
    ensures r == Some(PasswordTooShort)
            <==> username != "" && email != "" && password != "" && password == confirmPassword
                 && Utf16Length(password) < MinPasswordLength
    ensures r == None
            <==> username != "" && email != "" && password == confirmPassword
                 && Utf16Length(password) >= MinPasswordLength
  {
    if username == "" || email == "" || password == "" || confirmPassword == "" then Some(MissingFields)
    else if password != confirmPassword then Some(PasswordMismatch)
    else if Utf16Length(password) < MinPasswordLength then Some(PasswordTooShort)
    else None
  }

  function UserData(username: string, email: string, password: string): map<string, Value> {
    map["username" := Str(username), "email" := Str(email), "password" := Str(password)]
  }

  class RegisterPage {
    var username: string
    var email: string
    var password: string
    var confirmPassword: string
    var error: Value
    var isLoading: bool

    constructor ()
      ensures username == "" && email == "" && password == "" && confirmPassword == ""
      ensures error == Str("") && !isLoading
    {
      username, email, password, confirmPassword := "", "", "", "";
      error, isLoading := Str(""), false;
    }

    /**
     * `handleSubmit`: clears the error, runs the validation chain, then
     * awaits `register`, the context's `login` and navigation to `/account`,
     * in that order; the first failure stops the sequence and shows the
     * server's message or the fixed text. `isLoading` is set after
     * validation passes and cleared in `finally`.
     */
    method HandleSubmit(auth: AuthProvider, registerReply: Reply, loginReply: Reply)
      returns (sent: seq<Request>, navigation: Option<string>)
      requires auth.Valid()
      modifies this`error, this`isLoading, auth, auth.http.storage
      ensures auth.Valid()
      ensures Validate(username, email, password, confirmPassword).Some?
              ==> error == Str(Validate(username, email, password, confirmPassword).value)
                  && sent == [] && navigation == None && isLoading == old(isLoading)
                  && unchanged(auth) && unchanged(auth.http.storage)
      ensures Validate(username, email, password, confirmPassword).None?
              ==> !isLoading && |sent| >= 1 && sent[0].url == AuthApi.RegisterPath
                  && sent[0].data == Obj(AuthApi.RegisterBody(UserData(username, email, password)))
      ensures Validate(username, email, password, confirmPassword).None? && registerReply.Err?
              ==> |sent| == 1 && navigation == None && error == MessageOr(registerReply.error, RegistrationFailed)
                  && auth.isLoading == old(auth.isLoading)
                  && (old(auth.Fires(registerReply))
                      ==> auth.user == None && auth.token == None
                          && auth.http.storage.items == old(auth.http.storage.items) - {TokenKey})
                  && (!old(auth.Fires(registerReply))
                      ==> auth.user == old(auth.user) && auth.token == old(auth.token)
                          && auth.http.storage.items == old(auth.http.storage.items))
      ensures Validate(username, email, password, confirmPassword).None? && registerReply.Ok?
              ==> |sent| == 2 && sent[1].url == AuthApi.LoginPath
                  && sent[1].data == Obj(LoginPage.Credentials(email, password))
      ensures Validate(username, email, password, confirmPassword).None? && registerReply.Ok?
              && AuthApi.LoginResult(loginReply).Ok?
              ==> navigation == Some(LoginPage.AccountPath) && error == Str("")
      ensures Validate(username, email, password, confirmPassword).None? && registerReply.Ok?
              && AuthApi.LoginResult(loginReply).Err?
              ==> navigation == None && error == MessageOr(AuthApi.LoginResult(loginReply).error, RegistrationFailed)
      // The session after the context's `login`.
      ensures auth.isReady == old(auth.isReady)
      ensures Validate(username, email, password, confirmPassword).None? && registerReply.Ok? ==> !auth.isLoading
      ensures Validate(username, email, password, confirmPassword).None? && registerReply.Ok? && AuthApi.LoginResult(loginReply).Err? && old(auth.Fires(loginReply))
              ==> auth.user == None && auth.token == None
                  && auth.http.storage.items == old(auth.http.storage.items) - {TokenKey}
      ensures Validate(username, email, password, confirmPassword).None? && registerReply.Ok? && AuthApi.LoginResult(loginReply).Err? && !old(auth.Fires(loginReply))
              ==> auth.user == old(auth.user) && auth.token == old(auth.token)
                  && auth.http.storage.items == old(auth.http.storage.items)
      ensures Validate(username, email, password, confirmPassword).None? && registerReply.Ok? && AuthApi.LoginResult(loginReply).Ok?
              ==> auth.http.storage.items == AuthApi.StoreAfterLogin(old(auth.http.storage.items), loginReply)
      ensures Validate(username, email, password, confirmPassword).None? && registerReply.Ok? && AuthApi.LoginResult(loginReply).Ok?
              && DecodeToken(auth.jwtDecode, Prop(loginReply.value.data, "token")).Some?
              ==> auth.user == DecodeToken(auth.jwtDecode, Prop(loginReply.value.data, "token"))
                  && auth.token == Some(Prop(loginReply.value.data, "token").s)
      ensures Validate(username, email, password, confirmPassword).None? && registerReply.Ok? && AuthApi.LoginResult(loginReply).Ok?
              && DecodeToken(auth.jwtDecode, Prop(loginReply.value.data, "token")).None?
              ==> auth.user == old(auth.user) && auth.token == old(auth.token)
    {
      error := Str("");
      sent, navigation := [], None;
      var invalid := Validate(username, email, password, confirmPassword);
      if invalid.Some? {
        error := Str(invalid.value);
        return;
      }
      isLoading := true;
      var registered, registerRequest, fired := AuthApi.Register(auth.http, UserData(username, email, password), registerReply);
      auth.Run(fired);
      sent := [registerRequest];
      if registered.Err? {
        error := MessageOr(registered.error, RegistrationFailed);
      } else {
        var loggedIn, loginRequest := auth.HandleLogin(LoginPage.Credentials(email, password), loginReply);
        sent := sent + [loginRequest];
        match loggedIn {
          case Ok(_) => navigation := Some(LoginPage.AccountPath);
          case Err(e) => error := MessageOr(e, RegistrationFailed);
        }
      }
      isLoading := false;
    }
  }
}
