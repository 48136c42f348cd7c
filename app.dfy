/** The route table and the protected-route gate of src/App.jsx. */
module App {
  import opened Wrappers
  import opened AuthContext

  datatype View = LoginView | RegisterView | AccountView

  /** What a route renders: a page, a page behind `ProtectedRoute`, or a `<Navigate replace>`. */
  datatype Element = Show(view: View) | Protected(view: View) | Redirect(to: string)

  /** ASCII lower-casing: a case-insensitive match against an all-ASCII route pattern. */
  function LowerChar(c: char): (l: char)
    ensures 'A' <= c <= 'Z' ==> l as int == c as int + 32
    ensures !('A' <= c <= 'Z') ==> l == c
  {
    if 'A' <= c <= 'Z' then (c as int + 32) as char else c
  }

  function Lower(s: string): (l: string)
    ensures |l| == |s| && forall i :: 0 <= i < |s| ==> l[i] == LowerChar(s[i])
  {
    seq(|s|, i requires 0 <= i < |s| => LowerChar(s[i]))
  }

  /** The path without its trailing `/`s, which a route pattern matches optionally. */
  function TrimTrailingSlashes(s: string): (r: string)
    ensures r <= s && (r == [] || r[|r| - 1] != '/')
    ensures forall i :: |r| <= i < |s| ==> s[i] == '/'
  {
    if s != [] && s[|s| - 1] == '/' then TrimTrailingSlashes(s[..|s| - 1]) else s
  }

  /** The form in which the router compares a location with a route pattern. */
  function RoutedPath(path: string): string {
    TrimTrailingSlashes(Lower(path))
  }

  /**
   * The `<Routes>` table, matched the router's default way (case-insensitive,
   * trailing `/` optional); a path no route matches renders nothing.
   */
  function RouteElement(path: string): Option<Element> {
    var p := RoutedPath(path);
    if p == "/login" then Some(Show(LoginView))
    else if p == "/register" then Some(Show(RegisterView))
    else if p == "/account" then Some(Protected(AccountView))
    else if p == "" then Some(Redirect("/login"))
    else None
  }

  /** `/account` is the only gated route, it gates the account page, and `/` sends to `/login`. */
  lemma RouteTable(path: string)
    ensures (RouteElement(path).Some? && RouteElement(path).value.Protected?) <==> RoutedPath(path) == "/account"
    ensures RoutedPath(path) == "/account" ==> RouteElement(path).value.view == AccountView
    ensures RouteElement(path).Some? <==> RoutedPath(path) in {"/login", "/register", "/account", ""}
  {
  }

  /** A trailing `/` never changes what a location renders. */
  lemma TrailingSlashIgnored(path: string)
    ensures RouteElement(path + "/") == RouteElement(path)
  {
    assert Lower(path + "/") == Lower(path) + "/";
    assert (Lower(path) + "/")[..|Lower(path) + "/"| - 1] == Lower(path);
  }

  lemma RouteExamples()
    ensures RouteElement("/") == Some(Redirect("/login"))
    ensures RouteElement("/account") == Some(Protected(AccountView))
    ensures RouteElement("/Account/") == Some(Protected(AccountView))
    ensures RouteElement("/accounts") == None
  {
    assert Lower("/") == "/";
    assert TrimTrailingSlashes("/") == TrimTrailingSlashes([]);
    assert Lower("/account") == "/account";
    assert Lower("/Account/") == "/account/";
    assert "/account/"[..8] == "/account";
    assert Lower("/accounts") == "/accounts";
  }

  /** The three things `ProtectedRoute` can render. */
  datatype Gate = Loading | RedirectToLogin | Children

  /** The decision of `ProtectedRoute` over the two context cells it reads. */
  function GateFor(isReady: bool, isAuthenticated: bool): (g: Gate)
    ensures g == Loading <==> !isReady
    ensures g == RedirectToLogin <==> isReady && !isAuthenticated
    ensures g == Children <==> isReady && isAuthenticated
  {
    if !isReady then Loading
    else if !isAuthenticated then RedirectToLogin
    else Children
  }

  /** `ProtectedRoute`: throws outside the provider, otherwise gates on readiness, then authentication. */
  function ProtectedRoute(context: Option<AuthValue>): (r: Result<Gate, string>)
    ensures r.Err? <==> context.None?
    ensures r.Ok? ==> r.value == GateFor(context.value.isReady, context.value.isAuthenticated)
  {
    match UseAuth(context)
    case Err(e) => Err(e)
    case Ok(v) => Ok(GateFor(v.isReady, v.isAuthenticated))
  }

  /** Behind the gate the account page shows only once the session is ready and holds a non-empty token. */
  lemma GateOpensOnlyForSession(p: AuthProvider)
    ensures ProtectedRoute(Some(p.Value())) == Ok(Children)
            <==> p.isReady && p.token.Some? && p.token.value != ""
  {
  }
}
