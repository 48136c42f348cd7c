/**
 * The decision logic of src/pages/AccountPage.jsx: the balance tab's load
 * and fillup handlers with their response-shape tolerance, the trips tab's
 * load with its default, the trip duration read from a string, and the
 * header's logout.
 */
module AccountPage {
  import opened Wrappers
  import opened Strings
  import opened JsValue
  import opened HttpClient
  import opened AuthContext
  import ProfileApi

  const BalanceLoadFailed := "Kunde inte ladda saldo"
  const InvalidAmount := "Vänligen ange ett giltigt belopp"
  const FillupFailed := "Påfyllning misslyckades"
  const TripsLoadFailed := "Kunde inte ladda resehistorik"
  const LoginPath := "/login"
  const TripsPageSize := 20

  /**
   * The balance a response body carries under `balance`, else under
   * `amount` (`data && typeof data.x !== 'undefined'`), if any.
   */
  function BalanceField(data: Value): (r: Option<Value>)
    ensures data.Obj? && Prop(data, "balance") != Undefined ==> r == Some(Prop(data, "balance"))
    ensures data.Obj? && Prop(data, "balance") == Undefined && Prop(data, "amount") != Undefined
            ==> r == Some(Prop(data, "amount"))
    ensures r.None? <==> !data.Obj? || (Prop(data, "balance") == Undefined && Prop(data, "amount") == Undefined)
  {
    if Truthy(data) && Prop(data, "balance") != Undefined then Some(Prop(data, "balance"))
    else if Truthy(data) && Prop(data, "amount") != Undefined then Some(Prop(data, "amount"))
    else None
  }

  /**
   * The balance `loadBalance` shows for a response body: the `balance`
   * field, else `amount`, else the body itself when it is a number, else 0.
   */
  function ExtractBalance(data: Value): (r: Value)
    ensures data.Obj? && Prop(data, "balance") != Undefined ==> r == Prop(data, "balance")
    ensures data.Obj? && Prop(data, "balance") == Undefined && Prop(data, "amount") != Undefined
            ==> r == Prop(data, "amount")
    ensures data.Num? ==> r == data
    ensures !data.Obj? && !data.Num? ==> r == Num(0)
    ensures data.Obj? && Prop(data, "balance") == Undefined && Prop(data, "amount") == Undefined ==> r == Num(0)
  {
    match BalanceField(data)
    case Some(v) => v
    case None => if data.Num? then data else Num(0)
  }

  /** `err.response?.status === 404`. */
  predicate NotFound(e: JsError) {
    e.response.Some? && e.response.value.status == 404
  }

  /** `user?.id` is truthy. */
  predicate HasUserId(user: Option<UserInfo>) {
    user.Some? && Truthy(user.value.id)
  }

  /** The balance cell after `loadBalance` got `reply`: a 404 reads as 0, another failure keeps the old value. */
  function LoadedBalance(previous: Value, reply: Reply): (r: Value)
    ensures reply.Ok? ==> r == ExtractBalance(reply.value.data)
    ensures reply.Err? && NotFound(reply.error) ==> r == Num(0)
    ensures reply.Err? && !NotFound(reply.error) ==> r == previous
  {
    match reply
    case Ok(response) => ExtractBalance(response.data)
    case Err(e) => if NotFound(e) then Num(0) else previous
  }

  /** The error cell after `loadBalance` got `reply`: set only for a failure other than 404. */
  function LoadError(reply: Reply): (r: Value)
    ensures r == Str(BalanceLoadFailed) <==> reply.Err? && !NotFound(reply.error)
    ensures r == Str("") <==> !(reply.Err? && !NotFound(reply.error))
  {
    if reply.Err? && !NotFound(reply.error) then Str(BalanceLoadFailed) else Str("")
  }

  /** `!amount || amount <= 0` on the parsed amount (`None` for NaN). */
  function FillupRejected(amount: Option<int>): (r: bool)
    ensures r <==> amount.None? || amount.value <= 0
  {
    match amount
    case None => true
    case Some(a) => !Truthy(Num(a)) || a <= 0
  }

  /** `data.trips || []`, for a body that is neither `null` nor `undefined`. */
  function TripsOrEmpty(data: Value): (r: Value)
    requires !Nullish(data)
    ensures data.Obj? && Truthy(Prop(data, "trips")) ==> r == data.fields["trips"]
    ensures !data.Obj? || !Truthy(Prop(data, "trips")) ==> r == Arr([])
  {
    var trips := Prop(data, "trips");
    if Truthy(trips) then trips else Arr([])
  }

  /**
   * The minutes shown for a trip: `parseInt` of the first run of digits of
   * `duration`, or nothing (shown as a dash) when there is no duration or
   * no digit in it.
   */
  function DurationMinutes(duration: Option<string>): (m: Option<nat>)
    ensures duration.None? ==> m.None?
    ensures duration.Some? ==> (m.None? <==> NoDigits(duration.value))
  {
    match duration
    case None => None
    case Some(s) =>
      match FirstDigitIndex(s)
      case None => None
      case Some(k) => Some(DigitsValue(LeadingDigits(s[k..])))
  }

  /**
   * A duration made of text without digits, a run of digits, then text not
   * starting with a digit reads as the run's decimal value; leading zeros
   * are read the way `parseInt` reads them.
   */
  lemma DurationOfDigits(prefix: string, digits: string, suffix: string)
    requires NoDigits(prefix)
    requires digits != [] && AllDigits(digits)
    requires suffix == [] || !IsDigit(suffix[0])
    ensures DurationMinutes(Some(prefix + digits + suffix)) == Some(DigitsValue(digits))
  {
    assert prefix + digits + suffix == prefix + (digits + suffix);
    FirstDigitAfter(prefix, digits + suffix);
    assert (prefix + digits + suffix)[|prefix|..] == digits + suffix;
    LeadingDigitsOfRun(digits, suffix);
  }

  /** A duration printed as `<text without digits><n><text not starting with a digit>` reads back as `n`. */
  lemma DurationOfFormatted(prefix: string, n: nat, suffix: string)
    requires NoDigits(prefix)
    requires suffix == [] || !IsDigit(suffix[0])
    ensures DurationMinutes(Some(prefix + NatToString(n) + suffix)) == Some(n)
  {
    DurationOfDigits(prefix, NatToString(n), suffix);
    DigitsValueOfNatToString(n);
  }

  lemma DurationExamples()
    ensures DurationMinutes(Some("1 minutes")) == Some(1)
    ensures DurationMinutes(Some("about 12 min")) == Some(12)
    ensures DurationMinutes(Some("minutes")) == None
    ensures DurationMinutes(None) == None
  {
    DurationOfFormatted("", 1, " minutes");
    assert "1 minutes" == "" + NatToString(1) + " minutes";
    assert NatToString(12) == NatToString(1) + [DigitChar(2)];
    DurationOfFormatted("about ", 12, " min");
    assert "about 12 min" == "about " + NatToString(12) + " min";
  }

  /** A leading zero does not change the minutes read. */
  lemma LeadingZeroDuration()
    ensures DurationMinutes(Some("05 min")) == Some(5)
  {
    var digits := "05";
    assert digits[..1] == "0" && digits[..1][..0] == [];
    assert DigitsValue(digits) == 5;
    DurationOfDigits("", digits, " min");
    assert "05 min" == "" + digits + " min";
  }

  class BalanceTab {
    var balance: Value
    var loading: bool
    var fillupAmount: string
    var fillupLoading: bool
    var error: Value

    constructor ()
      ensures balance == Null && loading && fillupAmount == "" && !fillupLoading && error == Str("")
    {
      balance, loading, fillupAmount, fillupLoading, error := Null, true, "", false, Str("");
    }

    /**
     * `loadBalance`: nothing happens without a user id; otherwise one GET of
     * the user's balance, the balance and error cells as `LoadedBalance`
     * and `LoadError` say, and `loading` cleared in `finally`.
     */
    method LoadBalance(auth: AuthProvider, reply: Reply) returns (sent: seq<Request>)
      requires auth.Valid()
      modifies this`balance, this`loading, this`error, auth, auth.http.storage
      ensures auth.Valid()
      ensures !old(HasUserId(auth.user))
              ==> sent == [] && unchanged(this) && unchanged(auth) && unchanged(auth.http.storage)
      ensures old(HasUserId(auth.user))
              ==> sent == [Request(ScooterService, Get, ProfileApi.BalancePath(old(auth.user).value.id),
                                   WithBearer(DefaultHeaders, old(auth.http.storage.Token())), Undefined)]
                  && !loading
                  && balance == LoadedBalance(old(balance), reply)
                  && error == LoadError(reply)
      ensures old(HasUserId(auth.user)) && old(auth.Fires(reply))
              ==> auth.user == None && auth.token == None
                  && auth.http.storage.items == old(auth.http.storage.items) - {TokenKey}
      ensures old(HasUserId(auth.user)) && !old(auth.Fires(reply))
              ==> auth.user == old(auth.user) && auth.token == old(auth.token)
                  && auth.http.storage.items == old(auth.http.storage.items)
      ensures auth.isReady == old(auth.isReady) && auth.isLoading == old(auth.isLoading)
    {
      sent := [];
      if !HasUserId(auth.user) {
        return;
      }
      loading := true;
      error := Str("");
      var result, request, fired := ProfileApi.GetUserBalance(auth.http, auth.user.value.id, reply);
      auth.Run(fired);
      sent := [request];
      match result {
        case Ok(data) =>
          balance := ExtractBalance(data);
        case Err(e) =>
          if NotFound(e) {
            balance := Num(0);
          } else {
            error := Str(BalanceLoadFailed);
          }
      }
      loading := false;
    }

    /**
     * `handleFillup`: rejects an unparsable, zero or negative amount without
     * a request; otherwise posts `{ amount }`, takes the new balance from the
     * reply's `balance` or `amount` or else reloads it, and clears the input;
     * a failure shows the server's message or the fixed text. `parseFloat`
     * is the browser's parse of the input.
     */
    method HandleFillup(auth: AuthProvider, parseFloat: string -> Option<int>, fillupReply: Reply, reloadReply: Reply)
      returns (sent: seq<Request>)
      requires auth.Valid()
      modifies this, auth, auth.http.storage
      ensures auth.Valid()
      ensures FillupRejected(parseFloat(old(fillupAmount)))
              ==> error == Str(InvalidAmount) && sent == []
                  && balance == old(balance) && loading == old(loading)
                  && fillupAmount == old(fillupAmount) && fillupLoading == old(fillupLoading)
                  && unchanged(auth) && unchanged(auth.http.storage)
      ensures !FillupRejected(parseFloat(old(fillupAmount))) ==> !fillupLoading
      ensures !FillupRejected(parseFloat(old(fillupAmount))) && old(auth.user).None?
              ==> error == Str(FillupFailed) && sent == []
                  && balance == old(balance) && fillupAmount == old(fillupAmount)
                  && unchanged(auth) && unchanged(auth.http.storage)
      ensures !FillupRejected(parseFloat(old(fillupAmount))) && old(auth.user).Some?
              ==> |sent| >= 1
                  && sent[0] == Request(ScooterService, Post, ProfileApi.FillupPath(old(auth.user).value.id),
                                        WithBearer(DefaultHeaders, old(auth.http.storage.Token())),
                                        Obj(map["amount" := Num(parseFloat(old(fillupAmount)).value)]))
      ensures !FillupRejected(parseFloat(old(fillupAmount))) && old(auth.user).Some? && fillupReply.Err?
              ==> |sent| == 1 && error == MessageOr(fillupReply.error, FillupFailed)
                  && balance == old(balance) && fillupAmount == old(fillupAmount)
      ensures !FillupRejected(parseFloat(old(fillupAmount))) && old(auth.user).Some? && fillupReply.Ok?
              && BalanceField(fillupReply.value.data).Some?
              ==> |sent| == 1 && balance == BalanceField(fillupReply.value.data).value
                  && error == Str("") && fillupAmount == ""
      ensures !FillupRejected(parseFloat(old(fillupAmount))) && old(auth.user).Some? && fillupReply.Ok?
              && BalanceField(fillupReply.value.data).None?
              ==> fillupAmount == ""
                  && (HasUserId(old(auth.user))
                      ==> |sent| == 2 && sent[1].url == ProfileApi.BalancePath(old(auth.user).value.id)
                          && balance == LoadedBalance(old(balance), reloadReply) && error == LoadError(reloadReply)
                          && !loading)
                  && (!HasUserId(old(auth.user)) ==> |sent| == 1 && balance == old(balance) && error == Str(""))
      ensures !(!FillupRejected(parseFloat(old(fillupAmount))) && old(auth.user).Some? && fillupReply.Ok?
                && BalanceField(fillupReply.value.data).None? && HasUserId(old(auth.user)))
              ==> loading == old(loading)
      // The session: each request goes through the response interceptor.
      ensures auth.isReady == old(auth.isReady) && auth.isLoading == old(auth.isLoading)
      ensures !FillupRejected(parseFloat(old(fillupAmount))) && old(auth.user).Some? && old(auth.Fires(fillupReply))
              ==> auth.user == None && auth.token == None
                  && auth.http.storage.items == old(auth.http.storage.items) - {TokenKey}
      ensures !FillupRejected(parseFloat(old(fillupAmount))) && old(auth.user).Some? && fillupReply.Err?
              && !old(auth.Fires(fillupReply))
              ==> auth.user == old(auth.user) && auth.token == old(auth.token)
                  && auth.http.storage.items == old(auth.http.storage.items)
      ensures !FillupRejected(parseFloat(old(fillupAmount))) && old(auth.user).Some? && fillupReply.Ok?
              && (BalanceField(fillupReply.value.data).Some? || !HasUserId(old(auth.user)))
              ==> auth.user == old(auth.user) && auth.token == old(auth.token)
                  && auth.http.storage.items == old(auth.http.storage.items)
      ensures !FillupRejected(parseFloat(old(fillupAmount))) && fillupReply.Ok?
              && BalanceField(fillupReply.value.data).None? && HasUserId(old(auth.user))
              ==> (old(auth.Fires(reloadReply))
                   ==> auth.user == None && auth.token == None
                       && auth.http.storage.items == old(auth.http.storage.items) - {TokenKey})
                  && (!old(auth.Fires(reloadReply))
                   ==> auth.user == old(auth.user) && auth.token == old(auth.token)
                       && auth.http.storage.items == old(auth.http.storage.items))
    {
      sent := [];
      var amount := parseFloat(fillupAmount);
      if FillupRejected(amount) {
        error := Str(InvalidAmount);
        return;
      }
      fillupLoading := true;
      error := Str("");
      if auth.user.None? {
        // `user.id` on a null user throws a TypeError, which has no response.
        error := MessageOr(JsError(None), FillupFailed);
      } else {
        var result, request, fired := ProfileApi.FillupBalance(auth.http, auth.user.value.id, Obj(map["amount" := Num(amount.value)]), fillupReply);
        auth.Run(fired);
        sent := [request];
        match result {
          case Err(e) =>
            error := MessageOr(e, FillupFailed);
          case Ok(data) =>
            match BalanceField(data) {
              case Some(v) => balance := v;
              case None =>
                var reload := LoadBalance(auth, reloadReply);
                sent := sent + reload;
            }
            fillupAmount := "";
        }
      }
      fillupLoading := false;
    }
  }

  class TripsTab {
    var trips: Value
    var loading: bool
    var error: Value

    constructor ()
      ensures trips == Arr([]) && loading && error == Str("")
    {
      trips, loading, error := Arr([]), true, Str("");
    }

    /**
     * `loadTrips`: one GET of the latest twenty trips; the list defaults to
     * empty when the body has no truthy `trips`; any failure, including a
     * `null` body, sets the error and keeps the old list.
     */
    method LoadTrips(auth: AuthProvider, reply: Reply) returns (sent: Request)
      requires auth.Valid()
      modifies this, auth, auth.http.storage
      ensures auth.Valid() && !loading
      ensures sent == Request(ScooterService, Get, ProfileApi.RidesPath(ProfileApi.RidesOptions(Some(TripsPageSize), None)),
                              WithBearer(DefaultHeaders, old(auth.http.storage.Token())), Undefined)
      ensures reply.Ok? && !Nullish(reply.value.data) ==> trips == TripsOrEmpty(reply.value.data) && error == Str("")
      ensures reply.Err? || Nullish(reply.value.data) ==> trips == old(trips) && error == Str(TripsLoadFailed)
      ensures auth.isReady == old(auth.isReady) && auth.isLoading == old(auth.isLoading)
      ensures old(auth.Fires(reply))
              ==> auth.user == None && auth.token == None
                  && auth.http.storage.items == old(auth.http.storage.items) - {TokenKey}
      ensures !old(auth.Fires(reply))
              ==> auth.user == old(auth.user) && auth.token == old(auth.token)
                  && auth.http.storage.items == old(auth.http.storage.items)
    {
      loading := true;
      error := Str("");
      var result, request, fired := ProfileApi.GetUserRides(auth.http, ProfileApi.RidesOptions(Some(TripsPageSize), None), reply);
      auth.Run(fired);
      sent := request;
      match result {
        case Ok(data) =>
          if Nullish(data) {
            // `data.trips` on a null body throws a TypeError.
            error := Str(TripsLoadFailed);
          } else {
            trips := TripsOrEmpty(data);
          }
        case Err(_) =>
          error := Str(TripsLoadFailed);
      }
      loading := false;
    }
  }

  /** The header's `handleLogout`: the context's logout, then navigation to `/login`. */
  method HandleLogout(auth: AuthProvider) returns (navigation: string)
    modifies auth, auth.http.storage
    ensures navigation == LoginPath
    ensures auth.user == None && auth.token == None && auth.http.storage.Token() == None
    ensures auth.http.storage.items == old(auth.http.storage.items) - {TokenKey}
    ensures auth.isReady == old(auth.isReady) && auth.isLoading == old(auth.isLoading)
  {
    auth.HandleLogout();
    navigation := LoginPath;
  }
}
