/**
 * The HTTP layer shared by both backend clients: the token store over
 * `localStorage`, the request interceptor that attaches the bearer
 * credential, the single-slot unauthorized handler and the response
 * interceptor that fires it on a 401 (src/api/httpClient.js).
 *
 * A request is described by a `Call`; the backend's answer is an input
 * `Reply`, and `Interceptors.Send` returns the request as it left the
 * browser together with the outcome the caller awaits.
 */
module HttpClient {
  import opened Wrappers
  import opened JsValue

  /** The one `localStorage` key the portal uses. */
  const TokenKey := "spark_auth_token"

  const AuthorizationHeader := "Authorization"
  const BearerPrefix := "Bearer "

  /** Headers both clients are created with. */
  const DefaultHeaders: map<string, string> := map["Content-Type" := "application/json"]

  /** The browser's `localStorage`, seen through the `tokenStorage` wrapper. */
  class TokenStorage {
    var items: map<string, string>

    constructor (items: map<string, string>)
      ensures this.items == items
    {
      this.items := items;
    }

    /** What `localStorage.getItem(TokenKey)` would return. */
    function Token(): Option<string>
      reads this
    {
      if TokenKey in items then Some(items[TokenKey]) else None
    }

    method Get() returns (t: Option<string>)
      ensures t.Some? <==> TokenKey in items
      ensures t.Some? ==> t.value == items[TokenKey]
    {
      if TokenKey in items {
        t := Some(items[TokenKey]);
      } else {
        t := None;
      }
    }

    method Set(token: string)
      modifies this
      ensures Token() == Some(token)
      ensures items == old(items)[TokenKey := token]
    {
      items := items[TokenKey := token];
    }

    method Remove()
      modifies this
      ensures Token() == None
      ensures items == old(items) - {TokenKey}
    {
      items := items - {TokenKey};
    }
  }

  /**
   * `set(t)` then `get()` reads back exactly `t`; `remove()` then `get()`
   * reads absent; every other key of the store ends as it began.
   */
  method TokenSlotRoundTrip(storage: TokenStorage, token: string) returns (afterSet: Option<string>, afterRemove: Option<string>)
    modifies storage
    ensures afterSet == Some(token) && afterRemove == None
    ensures storage.items == old(storage.items) - {TokenKey}
    ensures forall k :: k != TokenKey ==> (k in storage.items <==> k in old(storage.items))
    ensures forall k :: k != TokenKey && k in old(storage.items) ==> storage.items[k] == old(storage.items)[k]
  {
    storage.Set(token);
    afterSet := storage.Get();
    storage.Remove();
    afterRemove := storage.Get();
  }

  /** True when `if (token)` passes on a value read from the store. */
  predicate Present(token: Option<string>) {
    token.Some? && token.value != ""
  }

  /** The headers after the request interceptor ran with `token` in the store. */
  function WithBearer(headers: map<string, string>, token: Option<string>): (r: map<string, string>)
    ensures Present(token) ==> AuthorizationHeader in r && r[AuthorizationHeader] == BearerPrefix + token.value
    ensures !Present(token) ==> r == headers
    ensures r.Keys == headers.Keys + (if Present(token) then {AuthorizationHeader} else {})
    ensures forall k :: k in headers && k != AuthorizationHeader ==> r[k] == headers[k]
  {
    if Present(token) then headers[AuthorizationHeader := BearerPrefix + token.value] else headers
  }

  /**
   * The credential a resource server reads from the `Authorization` header
   * (the `Bearer` scheme of section 2.1 of RFC 6750).
   */
  function BearerCredential(headers: map<string, string>): Option<string> {
    if AuthorizationHeader in headers
       && |headers[AuthorizationHeader]| > |BearerPrefix|
       && headers[AuthorizationHeader][..|BearerPrefix|] == BearerPrefix
    then Some(headers[AuthorizationHeader][|BearerPrefix|..])
    else None
  }

  /** The server recovers exactly the stored token; with no token the header it reads is the one the caller set. */
  lemma BearerCredentialOfWithBearer(headers: map<string, string>, token: Option<string>)
    ensures Present(token) ==> BearerCredential(WithBearer(headers, token)) == token
    ensures !Present(token) ==> BearerCredential(WithBearer(headers, token)) == BearerCredential(headers)
  {
    if Present(token) {
      var v := BearerPrefix + token.value;
      assert v[..|BearerPrefix|] == BearerPrefix && v[|BearerPrefix|..] == token.value;
    }
  }

  datatype Client = AuthService | ScooterService
  datatype Verb = Get | Post

  /** What an API adapter asks a client to send. */
  datatype Call = Call(client: Client, verb: Verb, url: string, data: Value)

  /**
   * A request as the request interceptor hands it on: the headers are the
   * config's after the interceptor, before axios adds or drops any.
   */
  datatype Request = Request(client: Client, verb: Verb, url: string, headers: map<string, string>, data: Value)

  datatype HttpResponse = HttpResponse(status: int, data: Value)

  /**
   * A thrown error: an HTTP failure carries the response; a network error,
   * timeout or TypeError carries none.
   */
  datatype JsError = JsError(response: Option<HttpResponse>)

  /** What the backend answered: a 2xx response, or the error axios rejects with. */
  type Reply = Result<HttpResponse, JsError>

  /** `error.response?.status === 401`. */
  predicate IsUnauthorized(e: JsError) {
    e.response.Some? && e.response.value.status == 401
  }

  /** `err.response?.data?.message || fallback`, the pages' shared error text. */
  function MessageOr(e: JsError, fallback: string): (r: Value)
    requires fallback != ""
    ensures Truthy(r)
    ensures e.response.Some? && Truthy(Prop(e.response.value.data, "message")) ==> r == Prop(e.response.value.data, "message")
    ensures e.response.None? || !Truthy(Prop(e.response.value.data, "message")) ==> r == Str(fallback)
  {
    var message := if e.response.Some? then Prop(e.response.value.data, "message") else Undefined;
    if Truthy(message) then message else Str(fallback)
  }

  /** The mutable config object axios hands to request interceptors. */
  class RequestConfig {
    var verb: Verb
    var url: string
    var headers: map<string, string>
    var data: Value

    constructor (call: Call)
      ensures verb == call.verb && url == call.url && data == call.data
      ensures headers == DefaultHeaders
    {
      verb, url, data := call.verb, call.url, call.data;
      headers := DefaultHeaders;
    }
  }

  /**
   * The interceptor state both clients share: the token store they read
   * and the single unauthorized-handler slot. `H` stands for the handler
   * closures the application registers.
   */
  class Interceptors<H> {
    const storage: TokenStorage
    var unauthorizedHandler: Option<H>

    constructor (storage: TokenStorage)
      ensures this.storage == storage && unauthorizedHandler == None
    {
      this.storage := storage;
      unauthorizedHandler := None;
    }

    /** Last writer wins: the slot holds exactly the new handler. */
    method RegisterUnauthorizedHandler(handler: H)
      modifies this
      ensures unauthorizedHandler == Some(handler)
    {
      unauthorizedHandler := Some(handler);
    }

    /** Adds the bearer header when a truthy token is stored, in place, and returns the same config. */
    method AuthInterceptor(config: RequestConfig) returns (r: RequestConfig)
      modifies config
      ensures r == config
      ensures config.headers == WithBearer(old(config.headers), storage.Token())
      ensures config.verb == old(config.verb) && config.url == old(config.url) && config.data == old(config.data)
    {
      var token := storage.Get();
      if token.Some? && token.value != "" {
        config.headers := config.headers[AuthorizationHeader := BearerPrefix + token.value];
      }
      r := config;
    }

    /**
     * The rejection path: returns the handler it invoked (at most one
     * invocation) and the error it rejects with, which is the one it got.
     */
    method ResponseInterceptor(error: JsError) returns (invoked: Option<H>, rejected: JsError)
      ensures rejected == error
      ensures invoked.Some? <==> IsUnauthorized(error) && unauthorizedHandler.Some?
      ensures invoked.Some? ==> invoked == unauthorizedHandler
    {
      invoked := None;
      if IsUnauthorized(error) && unauthorizedHandler.Some? {
        invoked := unauthorizedHandler;
      }
      rejected := error;
    }

    /**
     * One request through a client: the request interceptor on a fresh
     * config, then the backend's reply; a success passes through unchanged,
     * a failure goes through `ResponseInterceptor`.
     */
    method Send(call: Call, reply: Reply) returns (sent: Request, outcome: Reply, fired: Option<H>)
      ensures sent == Request(call.client, call.verb, call.url, WithBearer(DefaultHeaders, storage.Token()), call.data)
      ensures outcome == reply
      ensures fired.Some? <==> reply.Err? && IsUnauthorized(reply.error) && unauthorizedHandler.Some?
      ensures fired.Some? ==> fired == unauthorizedHandler
    {
      var config := new RequestConfig(call);
      config := AuthInterceptor(config);
      sent := Request(call.client, config.verb, config.url, config.headers, config.data);
      fired := None;
      match reply {
        case Ok(response) =>
          outcome := Ok(response);
        case Err(error) =>
          var rejected;
          fired, rejected := ResponseInterceptor(error);
          outcome := Err(rejected);
      }
    }

    /** `(await client.verb(url, data)).data`: the adapters' common shape, resolving with the body unchanged. */
    method SendForData(call: Call, reply: Reply) returns (result: Result<Value, JsError>, sent: Request, fired: Option<H>)
      ensures sent == Request(call.client, call.verb, call.url, WithBearer(DefaultHeaders, storage.Token()), call.data)
      ensures reply.Ok? ==> result == Ok(reply.value.data)
      ensures reply.Err? ==> result == Err(reply.error)
      ensures fired.Some? <==> reply.Err? && IsUnauthorized(reply.error) && unauthorizedHandler.Some?
      ensures fired.Some? ==> fired == unauthorizedHandler
    {
      var outcome;
      sent, outcome, fired := Send(call, reply);
      match outcome {
        case Err(e) => result := Err(e);
        case Ok(response) => result := Ok(response.data);
      }
    }
  }
}
