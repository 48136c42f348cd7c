/**
 * The profile/scooter-service adapter (src/api/profileApi.js): path
 * templating for balance, fillup and profile requests, and the trip-history
 * query string.
 */
module ProfileApi {
  import opened Wrappers
  import opened Strings
  import opened JsValue
  import opened HttpClient

  function BalancePath(userId: Value): string {
    "/users/" + ToJsString(userId) + "/balance"
  }

  function FillupPath(userId: Value): string {
    "/users/" + ToJsString(userId) + "/fillup"
  }

  function ProfilePath(userId: Value): string {
    "/users/" + ToJsString(userId)
  }

  /** Splitting `/users/{id}/{tail}` on `/`. */
  lemma UserPathSegments(id: string, tail: string)
    requires '/' !in id && '/' !in tail
    ensures Split("/users/" + id + "/" + tail, '/') == ["", "users", id, tail]
  {
    var rest2 := id + "/" + tail;
    var rest1 := "users/" + rest2;
    assert "/users/" + id + "/" + tail == "" + ['/'] + rest1;
    assert rest1 == "users" + ['/'] + rest2;
    assert rest2 == id + ['/'] + tail;
    SplitWithoutSeparator(tail, '/');
    SplitAtSeparator(id, '/', tail);
    SplitAtSeparator("users", '/', rest2);
    SplitAtSeparator("", '/', rest1);
  }

  /** A router splitting the path on `/` finds the user id as the third segment. */
  lemma PathSegments(userId: Value)
    requires '/' !in ToJsString(userId)
    ensures Split(BalancePath(userId), '/') == ["", "users", ToJsString(userId), "balance"]
    ensures Split(FillupPath(userId), '/') == ["", "users", ToJsString(userId), "fillup"]
    ensures Split(ProfilePath(userId), '/') == ["", "users", ToJsString(userId)]
  {
    var id := ToJsString(userId);
    assert BalancePath(userId) == "/users/" + id + "/" + "balance";
    assert FillupPath(userId) == "/users/" + id + "/" + "fillup";
    UserPathSegments(id, "balance");
    UserPathSegments(id, "fillup");
    assert "/users/" + id == "" + ['/'] + ("users" + ['/'] + id);
    SplitWithoutSeparator(id, '/');
    SplitAtSeparator("users", '/', id);
    SplitAtSeparator("", '/', "users" + ['/'] + id);
  }

  /** `getUserRides(options)`; `getUserRides()` is `RidesOptions(None, None)`. */
  datatype RidesOptions = RidesOptions(limit: Option<int>, offset: Option<int>)

  /** `if (options.x)`: present and not zero. */
  predicate Sent(v: Option<int>) {
    v.Some? && v.value != 0
  }

  /** The pairs appended to the `URLSearchParams`, in order. */
  function Params(options: RidesOptions): (ps: seq<(string, string)>)
    ensures |ps| == (if Sent(options.limit) then 1 else 0) + (if Sent(options.offset) then 1 else 0)
    ensures Sent(options.limit) ==> ps[0] == ("limit", IntToString(options.limit.value))
    ensures Sent(options.offset) ==> ps[|ps| - 1] == ("offset", IntToString(options.offset.value))
  {
    (if Sent(options.limit) then [("limit", IntToString(options.limit.value))] else [])
    + (if Sent(options.offset) then [("offset", IntToString(options.offset.value))] else [])
  }

  function Pair(p: (string, string)): string {
    p.0 + "=" + p.1
  }

  /**
   * `URLSearchParams.toString()`: `k=v` pairs joined by `&`. Every key and
   * value the adapter appends is made of letters, digits and `-`, which the
   * form encoding leaves as they are, so no percent-encoding is modelled.
   */
  function Serialize(ps: seq<(string, string)>): string {
    if |ps| == 0 then ""
    else if |ps| == 1 then Pair(ps[0])
    else Pair(ps[0]) + "&" + Serialize(ps[1..])
  }

  function RidesQuery(options: RidesOptions): string {
    Serialize(Params(options))
  }

  /** The url `getUserRides` requests: `/rent/history?${params}`. */
  function RidesPath(options: RidesOptions): string {
    "/rent/history?" + RidesQuery(options)
  }

  /** A server's reading of one `k=v` pair. */
  function ParsePair(p: string): (string, string) {
    var parts := Split(p, '=');
    (parts[0], if |parts| > 1 then parts[1] else "")
  }

  /** A server's reading of a query string into its pairs. */
  function ParseQuery(q: string): seq<(string, string)> {
    if q == "" then [] else
      var parts := Split(q, '&');
      seq(|parts|, i requires 0 <= i < |parts| => ParsePair(parts[i]))
  }

  function Lookup(ps: seq<(string, string)>, key: string): Option<string> {
    if |ps| == 0 then None
    else if ps[0].0 == key then Some(ps[0].1)
    else Lookup(ps[1..], key)
  }

  /** The options a server recovers from the query string. */
  function ParseRidesQuery(q: string): RidesOptions {
    var ps := ParseQuery(q);
    var limit := Lookup(ps, "limit");
    var offset := Lookup(ps, "offset");
    RidesOptions(if limit.Some? then ParseInt(limit.value) else None,
                 if offset.Some? then ParseInt(offset.value) else None)
  }

  predicate PlainPart(s: string) {
    '&' !in s && '=' !in s
  }

  lemma ParsePairOfPair(p: (string, string))
    requires PlainPart(p.0) && PlainPart(p.1)
    ensures ParsePair(Pair(p)) == p
    ensures '&' !in Pair(p) && Pair(p) != ""
  {
    assert Pair(p) == p.0 + ['='] + p.1;
    SplitAtSeparator(p.0, '=', p.1);
    SplitWithoutSeparator(p.1, '=');
  }

  /** Splitting a serialized query on `&` gives back the serialized pairs. */
  lemma {:induction false} SplitSerialize(ps: seq<(string, string)>)
    requires |ps| > 0
    requires forall i :: 0 <= i < |ps| ==> PlainPart(ps[i].0) && PlainPart(ps[i].1)
    ensures Split(Serialize(ps), '&') == seq(|ps|, i requires 0 <= i < |ps| => Pair(ps[i]))
  {
    ParsePairOfPair(ps[0]);
    if |ps| == 1 {
      SplitWithoutSeparator(Pair(ps[0]), '&');
    } else {
      SplitSerialize(ps[1..]);
      assert Serialize(ps) == Pair(ps[0]) + ['&'] + Serialize(ps[1..]);
      SplitAtSeparator(Pair(ps[0]), '&', Serialize(ps[1..]));
    }
  }

  /** Parsing a serialized query gives back exactly the pairs, in order. */
  lemma ParseSerialize(ps: seq<(string, string)>)
    requires forall i :: 0 <= i < |ps| ==> PlainPart(ps[i].0) && PlainPart(ps[i].1)
    ensures ParseQuery(Serialize(ps)) == ps
  {
    if |ps| > 0 {
      SplitSerialize(ps);
      ParsePairOfPair(ps[0]);
      assert Serialize(ps) != "" by {
        if |ps| > 1 { assert Serialize(ps) == Pair(ps[0]) + "&" + Serialize(ps[1..]); }
      }
      forall i | 0 <= i < |ps| ensures ParsePair(Pair(ps[i])) == ps[i] {
        ParsePairOfPair(ps[i]);
      }
    }
  }

  /**
   * The query carries exactly the truthy options, `limit` before `offset`:
   * a server reads back each option that was sent and nothing for one that
   * was absent or zero.
   */
  lemma RidesQueryRoundTrip(options: RidesOptions)
    ensures ParseRidesQuery(RidesQuery(options))
         == RidesOptions(if Sent(options.limit) then options.limit else None,
                         if Sent(options.offset) then options.offset else None)
  {
    ParseSerialize(Params(options));
    LookupParams(options);
    if Sent(options.limit) { ParseIntOfIntToString(options.limit.value); }
    if Sent(options.offset) { ParseIntOfIntToString(options.offset.value); }
  }

  lemma LookupParams(options: RidesOptions)
    ensures Lookup(Params(options), "limit") == if Sent(options.limit) then Some(IntToString(options.limit.value)) else None
    ensures Lookup(Params(options), "offset") == if Sent(options.offset) then Some(IntToString(options.offset.value)) else None
  {
    var ps := Params(options);
    if |ps| == 2 {
      assert ps[1..] == [ps[1]];
      assert ps[1..][1..] == [];
    } else if |ps| == 1 {
      assert ps[1..] == [];
    }
  }

  /** The three query shapes: none, one pair with no `&`, both with `limit` first. */
  lemma RidesQueryShapes(options: RidesOptions)
    ensures !Sent(options.limit) && !Sent(options.offset) ==> RidesPath(options) == "/rent/history?"
    ensures Sent(options.limit) && !Sent(options.offset)
            ==> RidesQuery(options) == "limit=" + IntToString(options.limit.value) && '&' !in RidesQuery(options)
    ensures !Sent(options.limit) && Sent(options.offset)
            ==> RidesQuery(options) == "offset=" + IntToString(options.offset.value) && '&' !in RidesQuery(options)
    ensures Sent(options.limit) && Sent(options.offset)
            ==> RidesQuery(options) == "limit=" + IntToString(options.limit.value) + "&offset=" + IntToString(options.offset.value)
  {
    var ps := Params(options);
    if |ps| == 1 {
      ParsePairOfPair(ps[0]);
    } else if |ps| == 2 {
      var l, o := IntToString(options.limit.value), IntToString(options.offset.value);
      assert ps == [("limit", l), ("offset", o)];
      assert ps[1..] == [("offset", o)];
      calc {
        RidesQuery(options);
        Serialize(ps);
        Pair(ps[0]) + "&" + Serialize(ps[1..]);
        Pair(("limit", l)) + "&" + Pair(("offset", o));
        "limit" + "=" + l + "&" + ("offset" + "=" + o);
        { assert "limit" + "=" == "limit="; assert "&" + ("offset" + "=" + o) == "&offset=" + o; }
        "limit=" + l + "&offset=" + o;
      }
    }
  }

  lemma RidesPathExamples()
    ensures RidesPath(RidesOptions(None, None)) == "/rent/history?"
    ensures RidesPath(RidesOptions(Some(10), Some(5))) == "/rent/history?limit=10&offset=5"
    ensures RidesPath(RidesOptions(Some(20), None)) == "/rent/history?limit=20"
    ensures RidesPath(RidesOptions(Some(0), Some(0))) == "/rent/history?"
  {
    assert NatToString(10) == NatToString(1) + [DigitChar(0)];
    assert NatToString(20) == NatToString(2) + [DigitChar(0)];
  }

  function BalanceCall(userId: Value): Call {
    Call(ScooterService, Get, BalancePath(userId), Undefined)
  }

  function FillupCall(userId: Value, fillupData: Value): Call {
    Call(ScooterService, Post, FillupPath(userId), fillupData)
  }

  function RidesCall(options: RidesOptions): Call {
    Call(ScooterService, Get, RidesPath(options), Undefined)
  }

  function ProfileCall(userId: Value): Call {
    Call(ScooterService, Get, ProfilePath(userId), Undefined)
  }

  /** `getUserBalance(userId)`: GET `/users/{id}/balance`, resolving with the body. */
  method GetUserBalance<H>(http: Interceptors<H>, userId: Value, reply: Reply)
    returns (result: Result<Value, JsError>, sent: Request, fired: Option<H>)
    ensures sent == Request(ScooterService, Get, BalancePath(userId), WithBearer(DefaultHeaders, http.storage.Token()), Undefined)
    ensures reply.Ok? ==> result == Ok(reply.value.data)
    ensures reply.Err? ==> result == Err(reply.error)
    ensures fired.Some? <==> reply.Err? && IsUnauthorized(reply.error) && http.unauthorizedHandler.Some?
    ensures fired.Some? ==> fired == http.unauthorizedHandler
  {
    result, sent, fired := http.SendForData(BalanceCall(userId), reply);
  }

  /** `fillupBalance(userId, fillupData)`: POST `/users/{id}/fillup` with the data unchanged. */
  method FillupBalance<H>(http: Interceptors<H>, userId: Value, fillupData: Value, reply: Reply)
    returns (result: Result<Value, JsError>, sent: Request, fired: Option<H>)
    ensures sent == Request(ScooterService, Post, FillupPath(userId), WithBearer(DefaultHeaders, http.storage.Token()), fillupData)
    ensures reply.Ok? ==> result == Ok(reply.value.data)
    ensures reply.Err? ==> result == Err(reply.error)
    ensures fired.Some? <==> reply.Err? && IsUnauthorized(reply.error) && http.unauthorizedHandler.Some?
    ensures fired.Some? ==> fired == http.unauthorizedHandler
  {
    result, sent, fired := http.SendForData(FillupCall(userId, fillupData), reply);
  }

  /** `getUserRides(options)`: GET `/rent/history?…`; the user is identified by the bearer token. */
  method GetUserRides<H>(http: Interceptors<H>, options: RidesOptions, reply: Reply)
    returns (result: Result<Value, JsError>, sent: Request, fired: Option<H>)
    ensures sent == Request(ScooterService, Get, RidesPath(options), WithBearer(DefaultHeaders, http.storage.Token()), Undefined)
    ensures reply.Ok? ==> result == Ok(reply.value.data)
    ensures reply.Err? ==> result == Err(reply.error)
    ensures fired.Some? <==> reply.Err? && IsUnauthorized(reply.error) && http.unauthorizedHandler.Some?
    ensures fired.Some? ==> fired == http.unauthorizedHandler
  {
    result, sent, fired := http.SendForData(RidesCall(options), reply);
  }

  /** `getUserProfile(userId)`: GET `/users/{id}`. */
  method GetUserProfile<H>(http: Interceptors<H>, userId: Value, reply: Reply)
    returns (result: Result<Value, JsError>, sent: Request, fired: Option<H>)
    ensures sent == Request(ScooterService, Get, ProfilePath(userId), WithBearer(DefaultHeaders, http.storage.Token()), Undefined)
    ensures reply.Ok? ==> result == Ok(reply.value.data)
    ensures reply.Err? ==> result == Err(reply.error)
    ensures fired.Some? <==> reply.Err? && IsUnauthorized(reply.error) && http.unauthorizedHandler.Some?
    ensures fired.Some? ==> fired == http.unauthorizedHandler
  {
    result, sent, fired := http.SendForData(ProfileCall(userId), reply);
  }
}
