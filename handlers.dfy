/** The event handlers: the redirect guard and the token handler that both run
    on `app.record.index.show`, the submit hook that stores a fresh state
    nonce, and the submit-success hook that navigates to the authorize URL.
    Host calls are recorded as effects; their replies are inputs. */
module Handlers {
  import opened Wrappers
  import opened Form
  import opened Uuid
  import opened Credentials
  import opened Requests

  /** The payload the host passes to a record event handler. */
  class KintoneEvent {
    var record: KintoneRecord

    constructor (record: KintoneRecord)
      ensures this.record == record
    {
      this.record := record;
    }
  }

  /** What the handler does to `location.href`. */
  datatype Navigation = Stay | GoTo(url: string)

  /** The page and library context the handlers read: `location.host`, the
      app id, `encodeURIComponent`, and the Date operations. */
  datatype Host = Host(host: string, app: nat, encodeUriComponent: string -> string, calendar: Calendar)

  /** The `redirect_uri` value of every request: the encoded callback URL. */
  function EncodedRedirect(h: Host): string {
    h.encodeUriComponent(RedirectUri(h.host, h.app))
  }

  // ----- Redirect guard on the list view -----

  /** Navigation to the create screen happens exactly when the user does not
      own exactly one record. */
  function CreateRedirect(recordCount: nat, pathname: string): (nav: Navigation)
    ensures nav.GoTo? <==> recordCount != 1
    ensures nav.GoTo? ==> nav.url == pathname + "edit"
  {
    if recordCount != 1 then GoTo(pathname + "edit") else Stay
  }

  /** The first `app.record.index.show` handler: it returns its event as it
      came (it may not modify it) and maybe navigates to the create screen. */
  method OnIndexShowRedirect(event: KintoneEvent, records: seq<KintoneRecord>, pathname: string)
    returns (returned: KintoneEvent, nav: Navigation)
    ensures returned == event && returned.record == event.record
    ensures nav == CreateRedirect(|records|, pathname)
  {
    nav := Stay;
    if |records| != 1 {
      nav := GoTo(pathname + "edit");
    }
    returned := event;
  }

  // ----- Submission hooks -----

  /** The create/edit submit hook: overwrite the state field with a fresh
      nonce and leave every other field as it was. */
  method OnSubmit(event: KintoneEvent, draws: seq<int>) returns (returned: KintoneEvent)
    requires ValidDraws(draws)
    modifies event
    ensures returned == event
    ensures event.record == old(event.record).(state := Uuid.FromDraws(draws))
    ensures WellShaped(event.record.state)
  {
    var nonce := GenerateUuid(draws);
    event.record := event.record.(state := nonce);
    returned := event;
  }

  /** The create/edit submit-success hook: navigate to the authorize URL. */
  method OnSubmitSuccess(event: KintoneEvent, h: Host) returns (returned: KintoneEvent, nav: Navigation)
    ensures returned == event
    ensures nav == GoTo(AuthorizeUrl(event.record.clientId, EncodedRedirect(h), event.record.state))
  {
    nav := GoTo(AuthorizeUrl(event.record.clientId, EncodedRedirect(h), event.record.state));
    returned := event;
  }

  /** A nonce has no `&` or `=`, so it travels through a query string intact. */
  lemma NonceHasNoDelimiters(id: string)
    requires WellShaped(id)
    ensures '&' !in id && '=' !in id
  {
    forall i | 0 <= i < |id| ensures id[i] != '&' && id[i] != '=' {
      if i != 8 && i != 13 && i != 18 && i != 23 {
        assert IsHexDigit(id[i]);
      }
    }
  }

  /** The nonce the submit hook stores is the `state` field that splitting the
      authorize query finds, when the client id and redirect hold no `&`. */
  lemma AuthorizeUrlCarriesNonce(clientId: string, h: Host, draws: seq<int>)
    requires ValidDraws(draws)
    requires '&' !in clientId && '&' !in EncodedRedirect(h)
    ensures var url := AuthorizeUrl(clientId, EncodedRedirect(h), Uuid.FromDraws(draws));
      var n := |AuthorizeEndpoint| + 1;
      n <= |url| && |Decode(url[n..])| == 4 && Decode(url[n..])[3] == ("state", Uuid.FromDraws(draws))
  {
    NonceHasNoDelimiters(Uuid.FromDraws(draws));
    AuthorizeUrlFields(clientId, EncodedRedirect(h), Uuid.FromDraws(draws));
  }

  // ----- Token lifecycle on the list view -----

  /** The `code` and `state` query parameters of the landing URL; None when a
      parameter is absent. */
  datatype Callback = Callback(code: Option<string>, state: Option<string>)

  /** `if (code)`: an absent or empty code is falsy. */
  predicate HasCode(cb: Callback) {
    cb.code.Some? && cb.code.value != ""
  }

  /** A proxy reply: the body already decoded from JSON (None when it is not
      JSON and parsing throws) and the status code. */
  datatype ProxyReply<T> = ProxyReply(body: Option<T>, status: int)

  /** The alerts the token handler shows. */
  datatype Notice =
    | TokenRefreshed        // the access token was renewed
    | AuthSucceeded         // the first authorization succeeded
    | AuthFailed            // obtaining the credentials failed (state mismatch)
    | ApiFailed             // the resource call failed
    | CompanyName(name: string)  // the first company's display name

  /** The observable actions of a handler run, in order. */
  datatype Effect =
    | ProxyPost(url: string, headers: seq<Header>, body: string)
    | ProxyGet(url: string, headers: seq<Header>)
    | PutRecord(params: PutParams)
    | Alert(notice: Notice)
    | Rejected  // an exception ends the handler's promise

  /** The five outcomes of the token handler. */
  datatype Branch = DoNothing | Refresh | ExchangeCode | CsrfAbort | CallResource

  /** A refresh is due when the stored token is not valid and a refresh
      token is stored. */
  predicate RefreshDue(record: KintoneRecord, now: int, cal: Calendar) {
    !TokenValid(record, now, cal) && record.refreshToken != ""
  }

  /** The branch the token handler takes, in the script's priority order. */
  function Decide(records: seq<KintoneRecord>, cb: Callback, now: int, cal: Calendar): Branch {
    if |records| != 1 then DoNothing
    else if RefreshDue(records[0], now, cal) then Refresh
    else if HasCode(cb) then (if cb.state == Some(records[0].state) then ExchangeCode else CsrfAbort)
    else CallResource
  }

  /** Only 200 and 201 count as a successful resource call. */
  predicate StatusOk(status: int) {
    status == 200 || status == 201
  }

  /** After a token request: parse the reply, store the credentials, alert. */
  function AfterTokenReply(record: KintoneRecord, h: Host, reply: ProxyReply<RawCredentials>, success: Notice): seq<Effect> {
    match reply.body
    case None => [Rejected]
    case Some(c) => [PutRecord(SaveCredentials(h.app, record, c, h.calendar)), Alert(success)]
  }

  /** After the resource call: check the status, then show the first company. */
  function AfterResourceReply(reply: ProxyReply<seq<string>>): seq<Effect> {
    if !StatusOk(reply.status) then [Alert(ApiFailed)]
    else match reply.body
      case None => [Rejected]
      case Some(names) => if names == [] then [Rejected] else [Alert(CompanyName(names[0]))]
  }

  /** The effects of one run of the token handler. */
  function IndexShowEffects(records: seq<KintoneRecord>, cb: Callback, now: int, h: Host,
                            tokenReply: ProxyReply<RawCredentials>, resourceReply: ProxyReply<seq<string>>): seq<Effect>
  {
    match Decide(records, cb, now, h.calendar)
    case DoNothing => []
    case Refresh =>
      [ProxyPost(TokenEndpoint, FormHeaders, RefreshBody(records[0], EncodedRedirect(h)))] +
      AfterTokenReply(records[0], h, tokenReply, TokenRefreshed)
    case ExchangeCode =>
      [ProxyPost(TokenEndpoint, FormHeaders, CodeBody(records[0], EncodedRedirect(h), cb.code.value))] +
      AfterTokenReply(records[0], h, tokenReply, AuthSucceeded)
    case CsrfAbort => [Alert(AuthFailed)]
    case CallResource =>
      [ProxyGet(CompaniesEndpoint, [("Authorization", "Bearer " + records[0].accessToken)])] +
      AfterResourceReply(resourceReply)
  }

  /** The second `app.record.index.show` handler, step by step. */
  method OnIndexShowToken(records: seq<KintoneRecord>, cb: Callback, now: int, h: Host,
                          tokenReply: ProxyReply<RawCredentials>, resourceReply: ProxyReply<seq<string>>)
    returns (effects: seq<Effect>)
    ensures effects == IndexShowEffects(records, cb, now, h, tokenReply, resourceReply)
  {
    effects := [];
    if |records| != 1 {
      return;
    }
    var record := records[0];
    var valid := IsValid(record, now, h.calendar);
    if !valid && record.refreshToken != "" {
      var body := RefreshBody(record, EncodedRedirect(h));
      effects := effects + [ProxyPost(TokenEndpoint, FormHeaders, body)];
      match tokenReply.body {
        case None =>
          effects := effects + [Rejected];
        case Some(c) =>
          effects := effects + [PutRecord(SaveCredentials(h.app, record, c, h.calendar))];
          effects := effects + [Alert(TokenRefreshed)];
      }
    } else if cb.code.Some? && cb.code.value != "" {
      if cb.state != Some(record.state) {
        effects := effects + [Alert(AuthFailed)];
        return;
      }
      var body := CodeBody(record, EncodedRedirect(h), cb.code.value);
      effects := effects + [ProxyPost(TokenEndpoint, FormHeaders, body)];
      match tokenReply.body {
        case None =>
          effects := effects + [Rejected];
        case Some(c) =>
          effects := effects + [PutRecord(SaveCredentials(h.app, record, c, h.calendar))];
          effects := effects + [Alert(AuthSucceeded)];
      }
    } else {
      var headers := [("Authorization", "Bearer " + record.accessToken)];
      effects := effects + [ProxyGet(CompaniesEndpoint, headers)];
      if resourceReply.status != 200 && resourceReply.status != 201 {
        effects := effects + [Alert(ApiFailed)];
        return;
      }
      match resourceReply.body {
        case None =>
          effects := effects + [Rejected];
        case Some(names) =>
          if |names| == 0 {
            effects := effects + [Rejected];
          } else {
            effects := effects + [Alert(CompanyName(names[0]))];
          }
      }
    }
  }

  /** The requests a run sends to the token endpoint. */
  predicate IsTokenPost(e: Effect) {
    e.ProxyPost? && e.url == TokenEndpoint
  }

  function TokenRequests(effects: seq<Effect>): (posts: seq<Effect>)
    ensures |posts| <= |effects|
    ensures forall i :: 0 <= i < |posts| ==> IsTokenPost(posts[i])
  {
    if effects == [] then []
    else if IsTokenPost(effects[0]) then [effects[0]] + TokenRequests(effects[1..])
    else TokenRequests(effects[1..])
  }

  lemma {:induction false} TokenRequestsAppend(a: seq<Effect>, b: seq<Effect>)
    ensures TokenRequests(a + b) == TokenRequests(a) + TokenRequests(b)
  {
    if a == [] {
      assert a + b == b;
    } else {
      var e := a[0];
      assert (a + b)[0] == e && (a + b)[1..] == a[1..] + b;
      TokenRequestsAppend(a[1..], b);
      if IsTokenPost(e) {
        calc {
          TokenRequests(a + b);
          [e] + TokenRequests(a[1..] + b);
          [e] + (TokenRequests(a[1..]) + TokenRequests(b));
          ([e] + TokenRequests(a[1..])) + TokenRequests(b);
        }
      }
    }
  }

  /** The branches in priority order: nothing without exactly one record;
      a due refresh wins even over a returned code; then a code with a
      matching state exchanges it and one with any other state aborts; the
      resource call is the last resort. */
  lemma DecidePriority(records: seq<KintoneRecord>, cb: Callback, now: int, cal: Calendar)
    ensures Decide(records, cb, now, cal) == DoNothing <==> |records| != 1
    ensures Decide(records, cb, now, cal) == Refresh <==> |records| == 1 && RefreshDue(records[0], now, cal)
    ensures Decide(records, cb, now, cal) == ExchangeCode <==>
      |records| == 1 && !RefreshDue(records[0], now, cal) && HasCode(cb) && cb.state == Some(records[0].state)
    ensures Decide(records, cb, now, cal) == CsrfAbort <==>
      |records| == 1 && !RefreshDue(records[0], now, cal) && HasCode(cb) && cb.state != Some(records[0].state)
    ensures Decide(records, cb, now, cal) == CallResource <==>
      |records| == 1 && !RefreshDue(records[0], now, cal) && !HasCode(cb)
  {
  }

  /** When a refresh is due the callback parameters play no part in the run. */
  lemma RefreshIgnoresCallback(records: seq<KintoneRecord>, cb1: Callback, cb2: Callback, now: int, h: Host,
                               tokenReply: ProxyReply<RawCredentials>, resourceReply: ProxyReply<seq<string>>)
    requires |records| == 1 && RefreshDue(records[0], now, h.calendar)
    ensures IndexShowEffects(records, cb1, now, h, tokenReply, resourceReply) ==
            IndexShowEffects(records, cb2, now, h, tokenReply, resourceReply)
  {
  }

  /** A run sends a token request, and then exactly one, precisely when a
      refresh is due or a code came back with the stored state: a mismatching
      or missing state never reaches the token endpoint. */
  lemma TokenRequestOnlyOnRefreshOrMatch(records: seq<KintoneRecord>, cb: Callback, now: int, h: Host,
                                         tokenReply: ProxyReply<RawCredentials>, resourceReply: ProxyReply<seq<string>>)
    ensures var posts := TokenRequests(IndexShowEffects(records, cb, now, h, tokenReply, resourceReply));
      |posts| <= 1 &&
      (posts != [] <==>
        |records| == 1 &&
        (RefreshDue(records[0], now, h.calendar) || (HasCode(cb) && cb.state == Some(records[0].state))))
  {
    var effects := IndexShowEffects(records, cb, now, h, tokenReply, resourceReply);
    match Decide(records, cb, now, h.calendar)
    case DoNothing =>
    case Refresh =>
      var post := ProxyPost(TokenEndpoint, FormHeaders, RefreshBody(records[0], EncodedRedirect(h)));
      TokenRequestsAppend([post], AfterTokenReply(records[0], h, tokenReply, TokenRefreshed));
    case ExchangeCode =>
      var post := ProxyPost(TokenEndpoint, FormHeaders, CodeBody(records[0], EncodedRedirect(h), cb.code.value));
      TokenRequestsAppend([post], AfterTokenReply(records[0], h, tokenReply, AuthSucceeded));
    case CsrfAbort =>
    case CallResource =>
      var get := ProxyGet(CompaniesEndpoint, [("Authorization", "Bearer " + records[0].accessToken)]);
      TokenRequestsAppend([get], AfterResourceReply(resourceReply));
  }

  /** Of the two list-view handlers exactly one acts: the token handler does
      nothing exactly when the redirect guard navigates away. */
  lemma IndexShowHandlersComplement(records: seq<KintoneRecord>, pathname: string, cb: Callback, now: int, h: Host,
                                    tokenReply: ProxyReply<RawCredentials>, resourceReply: ProxyReply<seq<string>>)
    ensures IndexShowEffects(records, cb, now, h, tokenReply, resourceReply) == [] <==>
            CreateRedirect(|records|, pathname).GoTo?
  {
  }

  /** The nonce survives the authorization round trip: when the server echoes
      the `state` field it split out of the authorize query, the record still
      holds the nonce and no refresh is due, a returned code is exchanged
      rather than refused. */
  lemma EchoedNonceIsAccepted(records: seq<KintoneRecord>, draws: seq<int>, h: Host, code: string,
                              echoed: string, now: int)
    requires ValidDraws(draws)
    requires |records| == 1 && records[0].state == Uuid.FromDraws(draws)
    requires '&' !in records[0].clientId && '&' !in EncodedRedirect(h)
    requires !RefreshDue(records[0], now, h.calendar) && code != ""
    requires var url := AuthorizeUrl(records[0].clientId, EncodedRedirect(h), records[0].state);
      |AuthorizeEndpoint| + 1 <= |url| && ("state", echoed) in Decode(url[|AuthorizeEndpoint| + 1..])
    ensures Decide(records, Callback(Some(code), Some(echoed)), now, h.calendar) == ExchangeCode
  {
    NonceHasNoDelimiters(records[0].state);
    AuthorizeUrlState(records[0].clientId, EncodedRedirect(h), records[0].state, echoed);
  }

  /** Once credentials are stored, a later visit without a code calls the
      resource with the new token for as long as that token has not expired. */
  lemma StoredTokenIsUsed(record: KintoneRecord, c: RawCredentials, h: Host, later: int,
                           cb: Callback, tokenReply: ProxyReply<RawCredentials>, resourceReply: ProxyReply<seq<string>>)
    requires h.calendar.RoundTrips()
    requires later < ExpiryMillis(c) && c.accessToken != "" && !HasCode(cb)
    ensures var stored := Apply(record, SaveCredentials(h.app, record, c, h.calendar).record);
      IndexShowEffects([stored], cb, later, h, tokenReply, resourceReply)[0] ==
        ProxyGet(CompaniesEndpoint, [("Authorization", "Bearer " + c.accessToken)])
  {
    ValidAfterSave(h.app, record, c, h.calendar, later);
  }

  /** A code returned with the matching state and answered with
      `{"access_token":"A","refresh_token":"R","created_at":1000,"expires_in":100}`
      is posted once and stores A, R and the instant 1100 s. */
  lemma CodeExchangeScenario(record: KintoneRecord, h: Host, now: int, resourceReply: ProxyReply<seq<string>>)
    requires record.state == "xyz" && record.refreshToken == ""
    ensures var reply := ProxyReply(Some(RawCredentials(1000, 100, "A", "R")), 200);
      IndexShowEffects([record], Callback(Some("abc"), Some("xyz")), now, h, reply, resourceReply) ==
        [ProxyPost(TokenEndpoint, FormHeaders, CodeBody(record, EncodedRedirect(h), "abc")),
         PutRecord(PutParams(h.app, record.id, FieldDiff("A", "R", h.calendar.toIso(1100000)))),
         Alert(AuthSucceeded)]
  {
  }

  /** A code returned with another state only shows the failure alert. */
  lemma StateMismatchScenario(record: KintoneRecord, h: Host, now: int,
                              tokenReply: ProxyReply<RawCredentials>, resourceReply: ProxyReply<seq<string>>)
    requires record.state == "other" && record.refreshToken == ""
    ensures IndexShowEffects([record], Callback(Some("abc"), Some("xyz")), now, h, tokenReply, resourceReply) ==
      [Alert(AuthFailed)]
  {
  }

  /** A code returned with a state other than the stored nonce (or with no
      state at all) only shows the failure alert: no token request, no update. */
  lemma StateMismatchAborts(records: seq<KintoneRecord>, cb: Callback, now: int, h: Host,
                            tokenReply: ProxyReply<RawCredentials>, resourceReply: ProxyReply<seq<string>>)
    requires |records| == 1 && !RefreshDue(records[0], now, h.calendar)
    requires HasCode(cb) && cb.state != Some(records[0].state)
    ensures IndexShowEffects(records, cb, now, h, tokenReply, resourceReply) == [Alert(AuthFailed)]
  {
  }

  /** A resource call answered with a status other than 200 or 201 alerts the
      failure and never looks at the body. */
  lemma FailedStatusIsNotParsed(records: seq<KintoneRecord>, cb: Callback, now: int, h: Host,
                                tokenReply: ProxyReply<RawCredentials>, resourceReply: ProxyReply<seq<string>>)
    requires |records| == 1 && !RefreshDue(records[0], now, h.calendar) && !HasCode(cb)
    requires !StatusOk(resourceReply.status)
    ensures IndexShowEffects(records, cb, now, h, tokenReply, resourceReply) ==
      [ProxyGet(CompaniesEndpoint, [("Authorization", "Bearer " + records[0].accessToken)]), Alert(ApiFailed)]
  {
  }

  /** With a successful status the first company's name is shown; a body that
      is not JSON or lists no company ends the run with an exception. */
  lemma SuccessfulStatusShowsFirstCompany(records: seq<KintoneRecord>, cb: Callback, now: int, h: Host,
                                          tokenReply: ProxyReply<RawCredentials>, resourceReply: ProxyReply<seq<string>>)
    requires |records| == 1 && !RefreshDue(records[0], now, h.calendar) && !HasCode(cb)
    requires StatusOk(resourceReply.status)
    ensures var effects := IndexShowEffects(records, cb, now, h, tokenReply, resourceReply);
      |effects| == 2 &&
      (effects[1] == Rejected <==> resourceReply.body.None? || resourceReply.body.value == []) &&
      (resourceReply.body.Some? && resourceReply.body.value != [] ==>
         effects[1] == Alert(CompanyName(resourceReply.body.value[0])))
  {
  }

  /** A resource call answered with 404 alerts and parses nothing. */
  lemma NotFoundScenario(record: KintoneRecord, h: Host, now: int, body: Option<seq<string>>,
                         tokenReply: ProxyReply<RawCredentials>)
    requires !RefreshDue(record, now, h.calendar)
    ensures IndexShowEffects([record], Callback(None, None), now, h, tokenReply, ProxyReply(body, 404)) ==
      [ProxyGet(CompaniesEndpoint, [("Authorization", "Bearer " + record.accessToken)]), Alert(ApiFailed)]
  {
  }
}
