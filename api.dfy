/** The authenticated request gateway: one shared HTTP client with an outbound
    stage that stamps the bearer credential onto every request and an inbound
    stage that, on an authorisation failure, refreshes the access token once and
    re-issues the request, or clears the session and broadcasts `sessionExpired`.

    The server, the refresh endpoint and the transport are oracles: `server`
    answers a request record as sent, `refresh` answers a refresh token. The pure
    functions `Send` and `Inbound` say what one gateway call does; the class
    `Gateway` performs it step by step on the mutable store, window and request
    record, and is proved to agree with them. */
module Api {
  import opened Browser
  import opened Text

  const ApiBase: string := "https://8000-jorritvans-productivity-9zhpc5cokwg.ws.codeinstitute-ide.net/api"
  /** The dedicated endpoint the inbound stage posts the refresh token to. */
  const RefreshEndpoint: string := ApiBase + "/token/refresh/"
  /** Requests whose URL ends with this are credential issuance (login). */
  const LoginSuffix: string := "/token/"
  const Authorization: string := "Authorization"
  const Unauthorized: int := 401

  function Bearer(token: string): string
  {
    "Bearer " + token
  }

  /** The token carried by an `Authorization: Bearer <token>` header, if any. */
  function BearerToken(headers: map<string, string>): (r: Option<string>)
    ensures r.Some? ==> Authorization in headers && headers[Authorization] == Bearer(r.value)
  {
    if Authorization in headers && StartsWith(headers[Authorization], "Bearer ") then
      Some(headers[Authorization][7..])
    else None
  }

  /** A snapshot of the mutable request record: URL, headers, one-shot retry flag. */
  datatype Config = Config(url: string, headers: map<string, string>, retry: bool)

  datatype Response<D> = Response(status: int, data: D)

  /** What the transport delivers for a request: a response, no response to a
      request that was sent, or a request that could not be sent at all. */
  datatype Reply<D> = Answered(response: Response<D>) | NoAnswer | NotSent(message: string)

  /** Axios resolves exactly the 2xx responses; everything else is an error. */
  predicate IsSuccess<D>(reply: Reply<D>)
    ensures IsSuccess(reply) ==> reply.Answered?
    ensures reply.Answered? ==> (IsSuccess(reply) <==> 200 <= reply.response.status < 300)
  {
    reply.Answered? && 200 <= reply.response.status < 300
  }

  datatype RefreshReply<D> = Refreshed(access: string) | RefreshFailed(reply: Reply<D>)

  /** The rejections a gateway call can end in: the request's own error, the
      refresh endpoint's error, or the "No refresh token available" error. */
  datatype Error<D> =
    | RequestError(config: Config, reply: Reply<D>)
    | RefreshError(reply: Reply<D>)
    | NoRefreshToken

  datatype Outcome<D> = Fulfilled(response: Response<D>) | Rejected(error: Error<D>)

  /** The network calls a gateway call makes, in order. */
  datatype NetCall = ServerCall(config: Config) | RefreshCall(url: string, refresh: string)

  /** `error.response`: present for an answered request or refresh call. */
  function ErrorResponse<D>(e: Error<D>): (r: Option<Response<D>>)
    ensures r.Some? <==> (e.RequestError? || e.RefreshError?) && e.reply.Answered?
  {
    match e
    case RequestError(_, Answered(r)) => Some(r)
    case RefreshError(Answered(r)) => Some(r)
    case _ => None
  }

  /** `error.request`: set once a request (or refresh call) went out. */
  predicate RequestMade<D>(e: Error<D>)
    ensures ErrorResponse(e).Some? ==> RequestMade(e)
    ensures RequestMade(e) <==> !e.NoRefreshToken? && (e.reply.Answered? || e.reply.NoAnswer?)
  {
    (e.RequestError? || e.RefreshError?) && !e.reply.NotSent?
  }

  /** `error.message` for an error that never reached the network. */
  function ErrorMessage<D>(e: Error<D>): (m: string)
    requires !RequestMade(e) && ErrorResponse(e).None?
    ensures e.NoRefreshToken? ==> m == "No refresh token available"
    ensures !e.NoRefreshToken? ==> e.reply.NotSent? && m == e.reply.message
  {
    match e
    case NoRefreshToken => "No refresh token available"
    case RequestError(_, NotSent(m)) => m
    case RefreshError(NotSent(m)) => m
  }

  // ---------------------------------------------------------------------------
  // Outbound stage

  /** Axios merges the instance default `Authorization` under the request's own
      headers: the request's header, when present, wins. */
  function WithDefaults(defaultAuth: Option<string>, headers: map<string, string>): (h: map<string, string>)
    ensures Authorization in headers ==> h == headers
    ensures Authorization !in headers ==>
      (Authorization in h <==> defaultAuth.Some?) && (defaultAuth.Some? ==> h[Authorization] == defaultAuth.value)
    ensures forall k :: k != Authorization ==> (k in h <==> k in headers)
    ensures forall k :: k in h && k != Authorization ==> h[k] == headers[k]
  {
    if defaultAuth.Some? && Authorization !in headers then headers[Authorization := defaultAuth.value]
    else headers
  }

  /** The outbound stage: with a (truthy) access token stored, `Authorization`
      becomes exactly `Bearer <token>`; otherwise the headers are untouched.
      Other headers are never changed. */
  function Stamp(items: map<string, string>, headers: map<string, string>): (h: map<string, string>)
    ensures Truthy(Lookup(items, AccessToken)) ==>
      Authorization in h && h[Authorization] == Bearer(items[AccessToken])
    ensures !Truthy(Lookup(items, AccessToken)) ==> h == headers
    ensures forall k :: k != Authorization ==> (k in h <==> k in headers)
    ensures forall k :: k in h && k != Authorization ==> h[k] == headers[k]
  {
    var token := Lookup(items, AccessToken);
    if Truthy(token) then headers[Authorization := Bearer(token.value)] else headers
  }

  /** The request record as it leaves the client. Only the headers change.
      With an access token stored it carries `Bearer <token>` whatever the
      defaults say; without one, the request's own `Authorization` goes out
      as it is, and failing that the instance default does, so a default set
      by an earlier refresh outlives the removal of the stored tokens. */
  function Outgoing(items: map<string, string>, config: Config, defaultAuth: Option<string>): (c: Config)
    ensures c.url == config.url && c.retry == config.retry
    ensures Truthy(Lookup(items, AccessToken)) ==>
      Authorization in c.headers && c.headers[Authorization] == Bearer(items[AccessToken])
    ensures !Truthy(Lookup(items, AccessToken)) && Authorization in config.headers ==>
      Authorization in c.headers && c.headers[Authorization] == config.headers[Authorization]
    ensures !Truthy(Lookup(items, AccessToken)) && Authorization !in config.headers ==>
      (Authorization in c.headers <==> defaultAuth.Some?)
      && (defaultAuth.Some? ==> c.headers[Authorization] == defaultAuth.value)
    ensures forall k :: k != Authorization ==> (k in c.headers <==> k in config.headers)
    ensures forall k :: k in c.headers && k != Authorization ==> c.headers[k] == config.headers[k]
  {
    config.(headers := Stamp(items, WithDefaults(defaultAuth, config.headers)))
  }

  // ---------------------------------------------------------------------------
  // One gateway call

  /** What a gateway call leaves behind: the store, the request record, the
      instance default header, the events it dispatched, the network calls it
      made, and the outcome its caller sees. */
  datatype Step<D> = Step(
    items: map<string, string>,
    config: Config,
    defaultAuth: Option<string>,
    events: seq<Event>,
    calls: seq<NetCall>,
    outcome: Outcome<D>)

  function Measure(config: Config): nat
  {
    if config.retry then 0 else 1
  }

  /** `api(config)`: the outbound stage, the round trip, then the inbound stage
      on a failure. */
  function Send<D>(items: map<string, string>, config: Config, defaultAuth: Option<string>,
                   server: Config -> Reply<D>, refresh: string -> RefreshReply<D>): (s: Step<D>)
    ensures s.calls != [] && s.calls[0] == ServerCall(Outgoing(items, config, defaultAuth))
    decreases Measure(config), 1
  {
    var sent := Outgoing(items, config, defaultAuth);
    var reply := server(sent);
    if IsSuccess(reply) then
      Step(items, sent, defaultAuth, [], [ServerCall(sent)], Fulfilled(reply.response))
    else
      var s := Inbound(items, sent, reply, defaultAuth, server, refresh);
      s.(calls := [ServerCall(sent)] + s.calls)
  }

  /** The unrecoverable path: both tokens removed, one `sessionExpired`. */
  function Expire<D>(items: map<string, string>, config: Config, defaultAuth: Option<string>,
                     calls: seq<NetCall>, error: Error<D>): (s: Step<D>)
    ensures AccessToken !in s.items && RefreshToken !in s.items
    ensures forall k :: k != AccessToken && k != RefreshToken ==>
      (k in s.items <==> k in items) && (k in items ==> s.items[k] == items[k])
    ensures s.events == [SessionExpired] && s.outcome == Rejected(error)
    ensures s.config == config && s.defaultAuth == defaultAuth && s.calls == calls
  {
    Step(WithoutTokens(items), config, defaultAuth, [SessionExpired], calls, Rejected(error))
  }

  /** The inbound stage's error handler, for a request that failed with `reply`. */
  function Inbound<D>(items: map<string, string>, config: Config, reply: Reply<D>, defaultAuth: Option<string>,
                      server: Config -> Reply<D>, refresh: string -> RefreshReply<D>): (s: Step<D>)
    ensures s.calls != [] ==>
      && !EndsWith(config.url, LoginSuffix) && !config.retry
      && reply.Answered? && reply.response.status == Unauthorized
      && Truthy(Lookup(items, RefreshToken))
      && s.calls[0] == RefreshCall(RefreshEndpoint, items[RefreshToken])
    ensures s.calls == [] ==>
      || (s.items == items && s.events == [])
      || (s.events == [SessionExpired] && s.outcome == Rejected(NoRefreshToken))
    decreases Measure(config), 0
  {
    if EndsWith(config.url, LoginSuffix) then
      Step(items, config, defaultAuth, [], [], Rejected(RequestError(config, reply)))
    else if reply.Answered? && reply.response.status == Unauthorized && !config.retry then
      var marked := config.(retry := true);
      var stored := Lookup(items, RefreshToken);
      if !Truthy(stored) then
        Expire(items, marked, defaultAuth, [], NoRefreshToken)
      else
        var call := RefreshCall(RefreshEndpoint, stored.value);
        match refresh(stored.value)
        case Refreshed(access) =>
          var retried := marked.(headers := marked.headers[Authorization := Bearer(access)]);
          var s := Send(items[AccessToken := access], retried, Some(Bearer(access)), server, refresh);
          s.(calls := [call] + s.calls)
        case RefreshFailed(r) =>
          Expire(items, marked, defaultAuth, [call], RefreshError(r))
    else
      Step(items, config, defaultAuth, [], [], Rejected(RequestError(config, reply)))
  }

  // ---------------------------------------------------------------------------
  // Counting network calls

  function ServerCalls(calls: seq<NetCall>): nat
  {
    if calls == [] then 0 else (if calls[0].ServerCall? then 1 else 0) + ServerCalls(calls[1..])
  }

  function RefreshCalls(calls: seq<NetCall>): nat
  {
    if calls == [] then 0 else (if calls[0].RefreshCall? then 1 else 0) + RefreshCalls(calls[1..])
  }

  lemma {:induction false} CallCountsConcat(a: seq<NetCall>, b: seq<NetCall>)
    ensures ServerCalls(a + b) == ServerCalls(a) + ServerCalls(b)
    ensures RefreshCalls(a + b) == RefreshCalls(a) + RefreshCalls(b)
  {
    if a != [] {
      assert (a + b)[1..] == a[1..] + b;
      CallCountsConcat(a[1..], b);
    } else {
      assert a + b == b;
    }
  }

  lemma CallCountsSingle(c: NetCall)
    ensures ServerCalls([c]) == (if c.ServerCall? then 1 else 0)
    ensures RefreshCalls([c]) == (if c.RefreshCall? then 1 else 0)
  {
    assert [c][1..] == [];
  }

  // ---------------------------------------------------------------------------
  // Properties of one gateway call

  /** A request already marked retried is sent once and passes through: no
      refresh, no store change, no event. This is why the retried call's own
      failure (even a second 401) is returned as it is. */
  lemma RetriedRequestPassesThrough<D>(items: map<string, string>, config: Config, defaultAuth: Option<string>,
                                       server: Config -> Reply<D>, refresh: string -> RefreshReply<D>)
    requires config.retry
    ensures var s, sent := Send(items, config, defaultAuth, server, refresh), Outgoing(items, config, defaultAuth);
      && s.items == items && s.events == [] && s.defaultAuth == defaultAuth
      && s.calls == [ServerCall(sent)] && s.config == sent
      && s.outcome == if IsSuccess(server(sent)) then Fulfilled(server(sent).response)
                      else Rejected(RequestError(sent, server(sent)))
  {
  }

  /** Single retry: whatever the oracles answer, one call makes at most two
      server calls and one refresh call, and dispatches at most one event; a
      request already marked retried makes exactly one server call and no refresh. */
  lemma {:induction false} AtMostOneRetry<D>(items: map<string, string>, config: Config, defaultAuth: Option<string>,
                                             server: Config -> Reply<D>, refresh: string -> RefreshReply<D>)
    ensures var s := Send(items, config, defaultAuth, server, refresh);
      && ServerCalls(s.calls) <= (if config.retry then 1 else 2)
      && RefreshCalls(s.calls) <= (if config.retry then 0 else 1)
      && |s.events| <= 1
  {
    var sent := Outgoing(items, config, defaultAuth);
    var reply := server(sent);
    var s := Send(items, config, defaultAuth, server, refresh);
    CallCountsSingle(ServerCall(sent));
    if IsSuccess(reply) {
      assert s.calls == [ServerCall(sent)];
    } else if config.retry {
      RetriedRequestPassesThrough(items, config, defaultAuth, server, refresh);
    } else {
      var i := Inbound(items, sent, reply, defaultAuth, server, refresh);
      assert s.calls == [ServerCall(sent)] + i.calls;
      CallCountsConcat([ServerCall(sent)], i.calls);
      var stored := Lookup(items, RefreshToken);
      if !EndsWith(sent.url, LoginSuffix) && reply.Answered? && reply.response.status == Unauthorized
         && Truthy(stored) {
        var call := RefreshCall(RefreshEndpoint, stored.value);
        CallCountsSingle(call);
        if refresh(stored.value).Refreshed? {
          var access := refresh(stored.value).access;
          var retried := sent.(retry := true).(headers := sent.headers[Authorization := Bearer(access)]);
          var r := Send(items[AccessToken := access], retried, Some(Bearer(access)), server, refresh);
          RetriedRequestPassesThrough(items[AccessToken := access], retried, Some(Bearer(access)), server, refresh);
          CallCountsSingle(r.calls[0]);
          assert i.calls == [call] + r.calls;
          CallCountsConcat([call], r.calls);
        } else {
          assert i.calls == [call];
        }
      } else {
        assert i.calls == [];
      }
    }
  }

  /** Login exclusion: a request to the credential-issuance endpoint is never
      refreshed; it is answered with the original outcome, the store is
      unchanged and no event is dispatched. */
  lemma LoginIsNeverRefreshed<D>(items: map<string, string>, config: Config, defaultAuth: Option<string>,
                                 server: Config -> Reply<D>, refresh: string -> RefreshReply<D>)
    requires EndsWith(config.url, LoginSuffix)
    ensures var s, sent := Send(items, config, defaultAuth, server, refresh), Outgoing(items, config, defaultAuth);
      && s.items == items && s.events == [] && s.defaultAuth == defaultAuth
      && s.calls == [ServerCall(sent)] && RefreshCalls(s.calls) == 0
      && s.outcome == if IsSuccess(server(sent)) then Fulfilled(server(sent).response)
                      else Rejected(RequestError(sent, server(sent)))
  {
    var sent := Outgoing(items, config, defaultAuth);
    assert sent.url == config.url;
  }

  /** The path with no refresh token stored: the request is marked retried,
      both tokens are removed (nothing else), exactly one `sessionExpired` is
      dispatched, the call rejects with "No refresh token available" rather
      than the 401, and the refresh endpoint is never called. */
  lemma NoRefreshTokenExpires<D>(items: map<string, string>, config: Config, defaultAuth: Option<string>,
                                 server: Config -> Reply<D>, refresh: string -> RefreshReply<D>)
    requires !config.retry && !EndsWith(config.url, LoginSuffix)
    requires var reply := server(Outgoing(items, config, defaultAuth));
      reply.Answered? && reply.response.status == Unauthorized
    requires !Truthy(Lookup(items, RefreshToken))
    ensures var s, sent := Send(items, config, defaultAuth, server, refresh), Outgoing(items, config, defaultAuth);
      && s.items == WithoutTokens(items) && s.events == [SessionExpired]
      && s.outcome == Rejected(NoRefreshToken)
      && s.calls == [ServerCall(sent)] && RefreshCalls(s.calls) == 0
      && s.config == sent.(retry := true) && s.defaultAuth == defaultAuth
  {
  }

  /** Transparent recovery: on a refresh success the store's access token is
      the returned one (nothing else is written), the default header and the
      retried request's header are `Bearer <new>`, the request is re-issued
      once, marked retried, and its outcome is the caller's outcome as it is —
      a failure of the retried call dispatches nothing and removes nothing. */
  lemma RefreshSuccessRetries<D>(items: map<string, string>, config: Config, defaultAuth: Option<string>,
                                 server: Config -> Reply<D>, refresh: string -> RefreshReply<D>)
    requires !config.retry && !EndsWith(config.url, LoginSuffix)
    requires var reply := server(Outgoing(items, config, defaultAuth));
      reply.Answered? && reply.response.status == Unauthorized
    requires Truthy(Lookup(items, RefreshToken))
    requires refresh(items[RefreshToken]).Refreshed?
    ensures var s, access := Send(items, config, defaultAuth, server, refresh), refresh(items[RefreshToken]).access;
      && s.items == items[AccessToken := access]
      && s.defaultAuth == Some(Bearer(access))
      && s.events == []
      && |s.calls| == 3 && s.calls[1] == RefreshCall(RefreshEndpoint, items[RefreshToken])
      && s.calls[2].ServerCall? && s.calls[2].config == s.config
      && s.config.retry && s.config.url == config.url
      && BearerToken(s.config.headers) == Some(access)
      && s.outcome == if IsSuccess(server(s.config)) then Fulfilled(server(s.config).response)
                      else Rejected(RequestError(s.config, server(s.config)))
  {
    var sent := Outgoing(items, config, defaultAuth);
    var access := refresh(items[RefreshToken]).access;
    var retried := sent.(retry := true).(headers := sent.headers[Authorization := Bearer(access)]);
    var store' := items[AccessToken := access];
    RetriedRequestPassesThrough(store', retried, Some(Bearer(access)), server, refresh);
    var again := Outgoing(store', retried, Some(Bearer(access)));
    assert again.headers[Authorization] == Bearer(access);
    assert Bearer(access)[..7] == "Bearer ";
    assert Bearer(access)[7..] == access;
  }

  /** Refresh failure: both tokens removed, `user_id` and `username` untouched,
      one event, and the call rejects with the refresh error, not the 401. */
  lemma RefreshFailureExpires<D>(items: map<string, string>, config: Config, defaultAuth: Option<string>,
                                 server: Config -> Reply<D>, refresh: string -> RefreshReply<D>)
    requires !config.retry && !EndsWith(config.url, LoginSuffix)
    requires var reply := server(Outgoing(items, config, defaultAuth));
      reply.Answered? && reply.response.status == Unauthorized
    requires Truthy(Lookup(items, RefreshToken))
    requires refresh(items[RefreshToken]).RefreshFailed?
    ensures var s := Send(items, config, defaultAuth, server, refresh);
      && s.items == WithoutTokens(items)
      && Lookup(s.items, UserId) == Lookup(items, UserId)
      && Lookup(s.items, Username) == Lookup(items, Username)
      && s.events == [SessionExpired]
      && s.outcome == Rejected(RefreshError(refresh(items[RefreshToken]).reply))
      && s.calls == [ServerCall(Outgoing(items, config, defaultAuth)), RefreshCall(RefreshEndpoint, items[RefreshToken])]
      && s.config.retry && s.defaultAuth == defaultAuth
  {
  }

  /** Other failures (not 401, no response at all, or a 401 on a request
      already marked retried) pass through with no store change and no event. */
  lemma OtherFailuresPassThrough<D>(items: map<string, string>, config: Config, defaultAuth: Option<string>,
                                    server: Config -> Reply<D>, refresh: string -> RefreshReply<D>)
    requires var reply := server(Outgoing(items, config, defaultAuth));
      !IsSuccess(reply) && !(reply.Answered? && reply.response.status == Unauthorized && !config.retry)
    ensures var s, sent := Send(items, config, defaultAuth, server, refresh), Outgoing(items, config, defaultAuth);
      && s.items == items && s.events == [] && s.defaultAuth == defaultAuth
      && s.calls == [ServerCall(sent)]
      && s.outcome == Rejected(RequestError(sent, server(sent)))
  {
  }

  /** The store invariant: a gateway call writes or removes the access token,
      removes the refresh token, and touches no other key; and it dispatches
      `sessionExpired` exactly when it rejects with the refresh protocol's own
      error, and then both tokens are gone. */
  lemma {:induction false} StoreAndSignal<D>(items: map<string, string>, config: Config, defaultAuth: Option<string>,
                                             server: Config -> Reply<D>, refresh: string -> RefreshReply<D>)
    ensures var s := Send(items, config, defaultAuth, server, refresh);
      && (forall k :: k != AccessToken && k != RefreshToken ==> Lookup(s.items, k) == Lookup(items, k))
      && (s.items == items || s.items == WithoutTokens(items)
          || (AccessToken in s.items && s.items == items[AccessToken := s.items[AccessToken]]))
      && (s.events == [] || s.events == [SessionExpired])
      && (s.events == [SessionExpired] <==> s.outcome.Rejected? && !s.outcome.error.RequestError?)
      && (s.events != [] ==> s.items == WithoutTokens(items))
  {
    var sent := Outgoing(items, config, defaultAuth);
    var reply := server(sent);
    if IsSuccess(reply) || config.retry {
      if config.retry { RetriedRequestPassesThrough(items, config, defaultAuth, server, refresh); }
    } else {
      var stored := Lookup(items, RefreshToken);
      if !EndsWith(sent.url, LoginSuffix) && reply.Answered? && reply.response.status == Unauthorized
         && Truthy(stored) && refresh(stored.value).Refreshed? {
        var access := refresh(stored.value).access;
        var retried := sent.(retry := true).(headers := sent.headers[Authorization := Bearer(access)]);
        RetriedRequestPassesThrough(items[AccessToken := access], retried, Some(Bearer(access)), server, refresh);
      }
    }
  }

  // ---------------------------------------------------------------------------
  // Two concrete scenarios: transparent recovery, and a rejected refresh

  /** `/tasks/42/` with a stale access token: the server answers 401 to
      `Bearer A1` and 200 to `Bearer A2`; the refresh endpoint turns `R1` into
      `A2`. The caller receives the task body and never sees the 401. */
  lemma ScenarioTransparentRecovery()
    ensures var items := map[AccessToken := "A1", RefreshToken := "R1"];
      var server := (c: Config) =>
        if BearerToken(c.headers) == Some("A2") then Answered(Response(200, "task 42"))
        else Answered(Response(401, "token expired"));
      var refresh := (t: string) => if t == "R1" then Refreshed("A2") else RefreshFailed(Answered(Response(401, "")));
      var s := Send(items, Config("/tasks/42/", map[], false), None, server, refresh);
      && s.outcome == Fulfilled(Response(200, "task 42"))
      && Lookup(s.items, AccessToken) == Some("A2")
      && s.events == []
      && s.calls[1] == RefreshCall(RefreshEndpoint, "R1")
  {
    var items := map[AccessToken := "A1", RefreshToken := "R1"];
    var server := (c: Config) =>
      if BearerToken(c.headers) == Some("A2") then Answered(Response(200, "task 42"))
      else Answered(Response(401, "token expired"));
    var refresh := (t: string) => if t == "R1" then Refreshed("A2") else RefreshFailed(Answered(Response(401, "")));
    var config := Config("/tasks/42/", map[], false);
    var sent := Outgoing(items, config, None);
    assert sent.headers[Authorization] == "Bearer A1";
    assert BearerToken(sent.headers) == Some("A1");
    assert !EndsWith(config.url, LoginSuffix);
    RefreshSuccessRetries(items, config, None, server, refresh);
  }

  /** The same request, but the refresh endpoint answers 400: both tokens are
      removed, `sessionExpired` is dispatched, and the caller's call rejects
      with the refresh error rather than the original 401. */
  lemma ScenarioRefreshRejected()
    ensures var items := map[AccessToken := "A1", RefreshToken := "R1"];
      var server := (c: Config) => Answered(Response(401, "token expired"));
      var refresh := (t: string) => RefreshFailed(Answered(Response(400, "bad refresh")));
      var s := Send(items, Config("/tasks/42/", map[], false), None, server, refresh);
      && s.outcome == Rejected(RefreshError(Answered(Response(400, "bad refresh"))))
      && AccessToken !in s.items && RefreshToken !in s.items
      && s.events == [SessionExpired]
  {
    var items := map[AccessToken := "A1", RefreshToken := "R1"];
    var server := (c: Config) => Answered(Response(401, "token expired"));
    var refresh := (t: string) => RefreshFailed(Answered(Response(400, "bad refresh")));
    var config := Config("/tasks/42/", map[], false);
    assert !EndsWith(config.url, LoginSuffix);
    RefreshFailureExpires(items, config, None, server, refresh);
  }

  // ---------------------------------------------------------------------------
  // The mutable request record and the gateway object

  /** The request record the inbound stage mutates in place. */
  class Request {
    var url: string
    var headers: map<string, string>
    var retry: bool

    constructor (url: string, headers: map<string, string>)
      ensures Snapshot() == Config(url, headers, false)
    {
      this.url, this.headers, this.retry := url, headers, false;
    }

    function Snapshot(): Config
      reads this
    {
      Config(url, headers, retry)
    }
  }

  /** The shared client: its default `Authorization` header and the log of the
      network calls it has made. */
  class Gateway {
    var defaultAuth: Option<string>
    var trace: seq<NetCall>

    constructor ()
      ensures defaultAuth == None && trace == []
    {
      defaultAuth, trace := None, [];
    }

    /** The outbound stage, run on the request record in place. */
    method Outbound(store: Storage, req: Request)
      modifies req
      ensures req.Snapshot() == old(req.Snapshot()).(headers := Stamp(store.items, old(req.headers)))
    {
      var token := store.GetItem(AccessToken);
      if token.Some? && token.value != "" {
        req.headers := req.headers[Authorization := "Bearer " + token.value];
      }
    }

    /** The request record as it leaves the client: axios's merge of the
        instance defaults, then the outbound stage. */
    method Prepare(store: Storage, req: Request)
      modifies req
      ensures req.Snapshot() == Outgoing(store.items, old(req.Snapshot()), defaultAuth)
    {
      req.headers := WithDefaults(defaultAuth, req.headers);
      Outbound(store, req);
    }

    /** `api(req)`: one gateway call, as `Send` describes it. */
    method Call<D>(store: Storage, win: Window, req: Request,
                   server: Config -> Reply<D>, refresh: string -> RefreshReply<D>) returns (outcome: Outcome<D>)
      modifies this, store, win, req
      decreases Measure(req.Snapshot()), 1
      ensures var s := Send(old(store.items), old(req.Snapshot()), old(defaultAuth), server, refresh);
        && store.items == s.items && req.Snapshot() == s.config && defaultAuth == s.defaultAuth
        && win.dispatched == old(win.dispatched) + s.events && win.listeners == old(win.listeners)
        && trace == old(trace) + s.calls && outcome == s.outcome
    {
      Prepare(store, req);
      var sent := req.Snapshot();
      trace := trace + [ServerCall(sent)];
      var reply := server(sent);
      if IsSuccess(reply) {
        outcome := Fulfilled(reply.response);
      } else {
        ghost var s := Inbound(old(store.items), sent, reply, old(defaultAuth), server, refresh);
        outcome := OnError(store, win, req, reply, server, refresh);
        assert trace == old(trace) + ([ServerCall(sent)] + s.calls);
      }
    }

    /** The inbound stage's error handler, run on the request record in place. */
    method OnError<D>(store: Storage, win: Window, req: Request, reply: Reply<D>,
                      server: Config -> Reply<D>, refresh: string -> RefreshReply<D>) returns (outcome: Outcome<D>)
      modifies this, store, win, req
      decreases Measure(req.Snapshot()), 0
      ensures var s := Inbound(old(store.items), old(req.Snapshot()), reply, old(defaultAuth), server, refresh);
        && store.items == s.items && req.Snapshot() == s.config && defaultAuth == s.defaultAuth
        && win.dispatched == old(win.dispatched) + s.events && win.listeners == old(win.listeners)
        && trace == old(trace) + s.calls && outcome == s.outcome
    {
      if EndsWith(req.url, LoginSuffix) {
        return Rejected(RequestError(req.Snapshot(), reply));
      }
      if reply.Answered? && reply.response.status == Unauthorized && !req.retry {
        req.retry := true;
        var stored := store.GetItem(RefreshToken);
        var failure: Error<D>;
        if !(stored.Some? && stored.value != "") {
          failure := NoRefreshToken;
        } else {
          trace := trace + [RefreshCall(RefreshEndpoint, stored.value)];
          var answer := refresh(stored.value);
          match answer
          case Refreshed(access) =>
            ghost var before := trace;
            outcome := Reissue(store, win, req, access, server, refresh);
            assert trace == old(trace) + ([RefreshCall(RefreshEndpoint, stored.value)] + trace[|before|..]);
            return;
          case RefreshFailed(r) =>
            failure := RefreshError(r);
        }
        EndSession(store, win);
        return Rejected(failure);
      }
      outcome := Rejected(RequestError(req.Snapshot(), reply));
    }

    /** A successful refresh: the new token is stored and becomes the default
        header and the request's own, and the request is issued again. */
    method Reissue<D>(store: Storage, win: Window, req: Request, access: string,
                      server: Config -> Reply<D>, refresh: string -> RefreshReply<D>) returns (outcome: Outcome<D>)
      requires req.retry
      modifies this, store, win, req
      decreases Measure(req.Snapshot()), 2
      ensures var s := Send(old(store.items)[AccessToken := access],
                            old(req.Snapshot()).(headers := old(req.headers)[Authorization := Bearer(access)]),
                            Some(Bearer(access)), server, refresh);
        && store.items == s.items && req.Snapshot() == s.config && defaultAuth == s.defaultAuth
        && win.dispatched == old(win.dispatched) + s.events && win.listeners == old(win.listeners)
        && trace == old(trace) + s.calls && outcome == s.outcome
    {
      store.SetItem(AccessToken, access);
      defaultAuth := Some(Bearer(access));
      req.headers := req.headers[Authorization := Bearer(access)];
      outcome := Call(store, win, req, server, refresh);
    }

    /** The refresh path's catch block: both tokens removed, then the signal. */
    method EndSession(store: Storage, win: Window)
      modifies store, win
      ensures store.items == WithoutTokens(old(store.items))
      ensures win.dispatched == old(win.dispatched) + [SessionExpired] && win.listeners == old(win.listeners)
    {
      store.RemoveItem(AccessToken);
      store.RemoveItem(RefreshToken);
      win.DispatchEvent(SessionExpired);
    }
  }

  // ---------------------------------------------------------------------------
  // Comment endpoints

  datatype Verb = Get | Post | Patch | Delete
  datatype Endpoint = Endpoint(verb: Verb, url: string)

  const CommentsPath: string := "/comments/"
  const TaskQuery: string := "?task="

  /** `fetchComments(taskId)`. */
  function FetchComments(taskId: string): (e: Endpoint)
    ensures e.verb == Get && StartsWith(e.url, CommentsPath + TaskQuery)
    ensures |e.url| == |CommentsPath + TaskQuery| + |taskId|
  {
    Endpoint(Get, CommentsPath + TaskQuery + taskId)
  }

  /** `createComment(data)`. */
  function CreateComment(): (e: Endpoint)
    ensures e.verb == Post && e.url == CommentsPath
  {
    Endpoint(Post, CommentsPath)
  }

  /** `updateComment(commentId, data)`. */
  function UpdateComment(commentId: string): (e: Endpoint)
    ensures e.verb == Patch && StartsWith(e.url, CommentsPath) && EndsWith(e.url, "/")
    ensures |e.url| == |CommentsPath| + |commentId| + 1
  {
    Endpoint(Patch, CommentsPath + commentId + "/")
  }

  /** `deleteComment(commentId)`. */
  function DeleteComment(commentId: string): (e: Endpoint)
    ensures e.verb == Delete && StartsWith(e.url, CommentsPath) && EndsWith(e.url, "/")
    ensures |e.url| == |CommentsPath| + |commentId| + 1
  {
    Endpoint(Delete, CommentsPath + commentId + "/")
  }

  /** Reads the comment id back out of `/comments/<id>/`. */
  function CommentIdOf(url: string): Option<string>
  {
    if |url| > |CommentsPath| && StartsWith(url, CommentsPath) && url[|url| - 1] == '/' then
      Some(url[|CommentsPath|..|url| - 1])
    else None
  }

  /** Reads the task id back out of `/comments/?task=<id>`. */
  function TaskIdOf(url: string): Option<string>
  {
    var prefix := CommentsPath + TaskQuery;
    if StartsWith(url, prefix) then Some(url[|prefix|..]) else None
  }

  predicate IsDecimal(id: string)
  {
    forall i :: 0 <= i < |id| ==> '0' <= id[i] <= '9'
  }

  /** The per-comment URLs carry their id recoverably, for update and delete alike. */
  lemma CommentUrlRoundTrip(commentId: string)
    ensures CommentIdOf(UpdateComment(commentId).url) == Some(commentId)
    ensures CommentIdOf(DeleteComment(commentId).url) == Some(commentId)
    ensures UpdateComment(commentId).url == DeleteComment(commentId).url
  {
    var url := CommentsPath + commentId + "/";
    assert url[..|CommentsPath|] == CommentsPath;
    assert url[|CommentsPath|..|url| - 1] == commentId;
  }

  lemma TaskCommentsRoundTrip(taskId: string)
    ensures TaskIdOf(FetchComments(taskId).url) == Some(taskId)
  {
    var prefix := CommentsPath + TaskQuery;
    var url := prefix + taskId;
    assert url[..|prefix|] == prefix;
    assert url[|prefix|..] == taskId;
  }

  /** Comment URLs built from numeric ids are never mistaken for the login
      endpoint, so a 401 on them goes through the refresh protocol. */
  lemma CommentUrlsAreNotLogin(id: string)
    requires IsDecimal(id)
    ensures !EndsWith(FetchComments(id).url, LoginSuffix)
    ensures !EndsWith(UpdateComment(id).url, LoginSuffix)
    ensures !EndsWith(CreateComment().url, LoginSuffix)
  {
    var f := FetchComments(id).url;
    var u := UpdateComment(id).url;
    assert f[|f| - 1] != '/' by {
      if id != [] { assert f[|f| - 1] == id[|id| - 1]; }
    }
    assert u[|u| - 2] != 'n' by {
      if id != [] { assert u[|u| - 2] == id[|id| - 1]; }
    }
  }
}
