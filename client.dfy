/**
 * The booking client (uz/client/client.py): it owns a network session, caches
 * the authentication token and a random user agent, attaches the required
 * headers to every call and classifies every response; the domain operations
 * are one call each followed by decoding.
 */
module Client {
  import opened Wrappers
  import opened Json
  import opened Errors
  import opened Model
  import opened Protocol

  /** The headers `get_headers` builds for an authenticated call. */
  function DefaultHeaders(userAgent: string, token: Option<string>): Json {
    JObj(map[
      "User-Agent" := JStr(userAgent),
      "GV-Ajax" := JStr("1"),
      "GV-Referer" := JStr(BaseUrl),
      "GV-Token" := OrNull(token)])
  }

  /** The landing-page request a token refresh sends: explicit headers carrying only the user agent, and the jar just emptied. */
  function TokenPageRequest(userAgent: string): Request {
    Request("POST", Uri(""), JObj(map["User-Agent" := JStr(userAgent)]), JNull, map[])
  }

  /**
   * What the token refresh of a client that has drawn `draws` agents so far
   * obtains: the landing page is fetched with the next agent drawn, a status
   * other than 200 raises an HTTP error, and a page without a token raises
   * `FailedObtainToken`.
   */
  function Refresh(env: Env, draws: nat): (r: Result<string, Error>)
    ensures var page := env.net(TokenPageRequest(env.randomAgent(draws)));
      && (page.status != 200 ==>
            r.Err? && r.error.HttpFailure? && r.error.statusCode == page.status && r.error.body == page.body)
      && (page.status == 200 ==> (r.Ok? <==> env.parseToken(page.body).Some?))
      && (page.status == 200 && r.Err? ==> r.error == TokenFailure(page.body))
      && (r.Ok? ==> env.parseToken(page.body) == Some(r.value))
  {
    var page := env.net(TokenPageRequest(env.randomAgent(draws)));
    if page.status != 200 then Err(Classify(page, true, JNull).error)
    else match env.parseToken(page.body)
      case None => Err(TokenFailure(page.body))
      case Some(t) => Ok(t)
  }

  class UZClient {
    var session: Option<SessionHandle>
    /** The cookie jar of the session. */
    var cookies: map<string, string>
    var token: Option<string>
    var tokenDate: int
    var userAgent: Option<string>
    /** How many user agents have been drawn from the random generator so far. */
    var agentDraws: nat

    constructor (session: Option<SessionHandle>)
      ensures this.session == session && cookies == map[]
      ensures token == None && tokenDate == 0 && userAgent == None && agentDraws == 0
    {
      this.session := session;
      cookies := map[];
      token := None;
      tokenDate := 0;
      userAgent := None;
      agentDraws := 0;
    }

    /** `_is_token_outdated`, with the clock reading passed in. */
    predicate IsTokenOutdated(now: int)
      reads this
    {
      Outdated(now, tokenDate)
    }

    /**
     * The effect of `call(endpoint, method=verb, raw=raw, data=data)` with
     * the default headers, on a client that held token `token0` dated
     * `date0`, agent `agent0` after `draws0` draws, and jar `jar0`.  With a
     * fresh token the request carries the cached agent (drawn now if there
     * was none) and the cached token.  With an outdated one the agent and the
     * jar are discarded and the landing page is fetched: when that refresh
     * raises, nothing more is sent and the token date stays; otherwise the
     * request carries the new agent, the new token and the jar the landing
     * page set.
     */
    predicate Exchanged(env: Env, verb: string, endpoint: string, raw: bool, data: Json,
                        sent: Option<Request>, r: Result<Reply, Error>,
                        token0: Option<string>, date0: int, agent0: Option<string>, draws0: nat, jar0: map<string, string>)
      reads this
    {
      if !Outdated(env.now, date0) then
        var ua := agent0.GetOr(env.randomAgent(draws0));
        && token == token0 && tokenDate == date0 && userAgent == Some(ua)
        && agentDraws == (if agent0.Some? then draws0 else draws0 + 1)
        && Delivered(env, session, jar0, cookies, verb, endpoint, raw, DefaultHeaders(ua, token0), data, sent, r)
      else if session.None? then
        && sent == None && r == Err(ConfigFailure(NoSessionMessage))
        && token == token0 && tokenDate == date0 && userAgent == None && agentDraws == draws0 && cookies == jar0
      else
        var ua := env.randomAgent(draws0);
        var page := env.net(TokenPageRequest(ua));
        && userAgent == Some(ua) && agentDraws == draws0 + 1
        && match Refresh(env, draws0)
           case Ok(t) =>
             && token == Some(t) && tokenDate == env.now
             && Delivered(env, session, page.cookies, cookies, verb, endpoint, raw, DefaultHeaders(ua, Some(t)), data, sent, r)
           case Err(e) =>
             && sent == None && r == Err(e) && tokenDate == date0 && cookies == page.cookies
             && token == (if page.status == 200 then None else token0)
    }

    /** The `session` property: the configured session, or `ImproperlyConfigured`. */
    method Session() returns (r: Result<SessionHandle, Error>)
      ensures session.None? ==> r == Err(ConfigFailure(NoSessionMessage))
      ensures session.None? ==> IsInstance(r.error, ImproperlyConfigured) && !IsInstance(r.error, HTTPError)
      ensures session.Some? ==> r == Ok(session.value)
    {
      if session.None? {
        return Err(ConfigFailure(NoSessionMessage));
      }
      return Ok(session.value);
    }

    /** The `user_agent` property: draws a random agent the first time and caches it. */
    method UserAgent(env: Env) returns (ua: string)
      modifies this`userAgent, this`agentDraws
      ensures userAgent == Some(ua)
      ensures old(userAgent).Some? ==> ua == old(userAgent).value && agentDraws == old(agentDraws)
      ensures old(userAgent).None? ==> ua == env.randomAgent(old(agentDraws)) && agentDraws == old(agentDraws) + 1
    {
      if userAgent.None? {
        userAgent := Some(env.randomAgent(agentDraws));
        agentDraws := agentDraws + 1;
      }
      ua := userAgent.value;
    }

    /** The part of `call` after the headers are settled: send through the session and classify. */
    method Send(verb: string, endpoint: string, raw: bool, headers: Json, data: Json, env: Env)
      returns (r: Result<Reply, Error>, ghost sent: Option<Request>)
      modifies this`cookies
      ensures Delivered(env, session, old(cookies), cookies, verb, endpoint, raw, headers, data, sent, r)
    {
      var s := Session();
      if s.Err? {
        return Err(s.error), None;
      }
      var request := Request(verb, Uri(endpoint), headers, data, cookies);
      var response := env.net(request);
      cookies := cookies + response.cookies;
      return Classify(response, raw, data), Some(request);
    }

    /**
     * `get_token`: a fresh token is returned as cached; an outdated one is
     * refreshed by discarding the user agent and the cookies, fetching the
     * landing page with a newly drawn agent, and extracting the token from it.
     * A page without a token raises `FailedObtainToken` and leaves the token
     * date alone, so the next call tries again.
     */
    method GetToken(env: Env) returns (r: Result<Option<string>, Error>)
      modifies this
      ensures session == old(session)
      ensures !Outdated(env.now, old(tokenDate)) ==>
        && r == Ok(old(token)) && token == old(token) && tokenDate == old(tokenDate)
        && userAgent == old(userAgent) && agentDraws == old(agentDraws) && cookies == old(cookies)
      ensures Outdated(env.now, old(tokenDate)) && session.None? ==>
        && r == Err(ConfigFailure(NoSessionMessage)) && userAgent == None && agentDraws == old(agentDraws)
        && token == old(token) && tokenDate == old(tokenDate) && cookies == old(cookies)
      ensures Outdated(env.now, old(tokenDate)) && session.Some? ==>
        var ua := env.randomAgent(old(agentDraws));
        var page := env.net(TokenPageRequest(ua));
        && userAgent == Some(ua) && agentDraws == old(agentDraws) + 1 && cookies == page.cookies
        && match Refresh(env, old(agentDraws))
           case Ok(t) => r == Ok(Some(t)) && token == Some(t) && tokenDate == env.now
           case Err(e) => r == Err(e) && tokenDate == old(tokenDate) && token == (if page.status == 200 then None else old(token))
    {
      if IsTokenOutdated(env.now) {
        // The source re-tests staleness after taking the refresh lock; run
        // sequentially, nothing can have refreshed the token in between.
        userAgent := None;
        var s := Session();
        if s.Err? {
          return Err(s.error);
        }
        cookies := map[];
        var ua := UserAgent(env);
        var page;
        ghost var sent;
        page, sent := Send("POST", "", true, JObj(map["User-Agent" := JStr(ua)]), JNull, env);
        if page.Err? {
          return Err(page.error);
        }
        token := env.parseToken(page.value.text);
        if token.None? {
          return Err(TokenFailure(page.value.text));
        }
        tokenDate := env.now;
      }
      r := Ok(token);
    }

    /**
     * `get_headers` as written: the dict literal reads `self.user_agent`
     * before awaiting `get_token`, so when that call refreshes the token (and
     * with it the user agent) the headers carry the agent drawn before the
     * refresh, not the one the token page was fetched with.
     */
    method GetHeadersAsWritten(env: Env) returns (r: Result<Json, Error>)
      modifies this
      ensures session == old(session)
      ensures r.Ok? ==>
        var before := if old(userAgent).Some? then old(userAgent).value else env.randomAgent(old(agentDraws));
        r.value == DefaultHeaders(before, token)
      ensures !Outdated(env.now, old(tokenDate)) ==> r.Ok?
      ensures Outdated(env.now, old(tokenDate)) && session.Some? ==>
        (r.Ok? <==> Refresh(env, old(agentDraws) + if old(userAgent).Some? then 0 else 1).Ok?)
      ensures r.Ok? && Outdated(env.now, old(tokenDate)) ==>
        userAgent == Some(env.randomAgent(old(agentDraws) + if old(userAgent).Some? then 0 else 1))
    {
      var ua := UserAgent(env);
      var t := GetToken(env);
      if t.Err? {
        return Err(t.error);
      }
      r := Ok(DefaultHeaders(ua, t.value));
    }

    /**
     * `get_headers` with the token obtained first, so that the headers always
     * carry the client's current user agent: after a refresh, the agent the
     * token page was fetched with.
     */
    method GetHeaders(env: Env) returns (r: Result<Json, Error>)
      modifies this
      ensures session == old(session)
      ensures !Outdated(env.now, old(tokenDate)) ==>
        var ua := old(userAgent).GetOr(env.randomAgent(old(agentDraws)));
        && r == Ok(DefaultHeaders(ua, old(token))) && token == old(token) && tokenDate == old(tokenDate)
        && userAgent == Some(ua) && agentDraws == (if old(userAgent).Some? then old(agentDraws) else old(agentDraws) + 1)
        && cookies == old(cookies)
      ensures Outdated(env.now, old(tokenDate)) && session.None? ==>
        && r == Err(ConfigFailure(NoSessionMessage)) && userAgent == None && agentDraws == old(agentDraws)
        && token == old(token) && tokenDate == old(tokenDate) && cookies == old(cookies)
      ensures Outdated(env.now, old(tokenDate)) && session.Some? ==>
        var ua := env.randomAgent(old(agentDraws));
        var page := env.net(TokenPageRequest(ua));
        && userAgent == Some(ua) && agentDraws == old(agentDraws) + 1 && cookies == page.cookies
        && match Refresh(env, old(agentDraws))
           case Ok(t) => r == Ok(DefaultHeaders(ua, Some(t))) && token == Some(t) && tokenDate == env.now
           case Err(e) => r == Err(e) && tokenDate == old(tokenDate) && token == (if page.status == 200 then None else old(token))
    {
      var t := GetToken(env);
      if t.Err? {
        return Err(t.error);
      }
      var ua := UserAgent(env);
      r := Ok(DefaultHeaders(ua, t.value));
    }

    /**
     * `call`: the default headers are attached only when the caller passed no
     * `headers` argument; the request goes to `base_url/endpoint` and its
     * response is classified.
     */
    method Call(endpoint: string, verb: string, raw: bool, headers: Option<Json>, data: Json, env: Env)
      returns (r: Result<Reply, Error>, ghost sent: Option<Request>)
      modifies this
      ensures session == old(session)
      ensures headers.Some? ==>
        && token == old(token) && tokenDate == old(tokenDate) && userAgent == old(userAgent) && agentDraws == old(agentDraws)
        && Delivered(env, session, old(cookies), cookies, verb, endpoint, raw, headers.value, data, sent, r)
      ensures headers.None? ==>
        Exchanged(env, verb, endpoint, raw, data, sent, r, old(token), old(tokenDate), old(userAgent), old(agentDraws), old(cookies))
    {
      var h: Json;
      if headers.None? {
        var got := GetHeaders(env);
        if got.Err? {
          return Err(got.error), None;
        }
        h := got.value;
      } else {
        h := headers.value;
      }
      r, sent := Send(verb, endpoint, raw, h, data, env);
    }

    method SearchStations(name: string, env: Env)
      returns (r: Result<seq<Station>, Error>, ghost sent: Option<Request>, ghost reply: Result<Reply, Error>)
      modifies this
      ensures session == old(session)
      ensures Exchanged(env, "POST", StationSearchEndpoint(name), false, JNull, sent, reply, old(token), old(tokenDate), old(userAgent), old(agentDraws), old(cookies))
      ensures r == Then(reply, DecodeStations)
    {
      var res;
      res, sent := Call(StationSearchEndpoint(name), "POST", false, None, JNull, env);
      reply := res;
      r := Then(res, DecodeStations);
    }

    /** `fetch_first_station`: the first station the search returns, or None. */
    method FetchFirstStation(name: string, env: Env)
      returns (r: Result<Option<Station>, Error>, ghost sent: Option<Request>, ghost reply: Result<Reply, Error>)
      modifies this
      ensures session == old(session)
      ensures Exchanged(env, "POST", StationSearchEndpoint(name), false, JNull, sent, reply, old(token), old(tokenDate), old(userAgent), old(agentDraws), old(cookies))
      ensures r == Then(reply, DecodeFirstStation)
    {
      var stations;
      stations, sent, reply := SearchStations(name, env);
      r := if stations.Err? then Err(stations.error) else Ok(FirstStation(stations.value));
    }

    method ListTrains(dateDep: string, source: Station, destination: Station, env: Env)
      returns (r: Result<seq<Train>, Error>, ghost sent: Option<Request>, ghost reply: Result<Reply, Error>)
      modifies this
      ensures session == old(session)
      ensures Exchanged(env, "POST", "purchase/search/", false, TrainSearchData(dateDep, source, destination), sent, reply, old(token), old(tokenDate), old(userAgent), old(agentDraws), old(cookies))
      ensures r == Then(reply, DecodeTrains)
    {
      var res;
      res, sent := Call("purchase/search/", "POST", false, None, TrainSearchData(dateDep, source, destination), env);
      reply := res;
      r := Then(res, DecodeTrains);
    }

    /** `fetch_train`: the first listed train whose number is `num`, or None. */
    method FetchTrain(dateDep: string, source: Station, destination: Station, num: Json, env: Env)
      returns (r: Result<Option<Train>, Error>, ghost sent: Option<Request>, ghost reply: Result<Reply, Error>)
      modifies this
      ensures session == old(session)
      ensures Exchanged(env, "POST", "purchase/search/", false, TrainSearchData(dateDep, source, destination), sent, reply, old(token), old(tokenDate), old(userAgent), old(agentDraws), old(cookies))
      ensures r == Then(reply, rep => DecodeTrainNumbered(rep, num))
    {
      var trains;
      trains, sent, reply := ListTrains(dateDep, source, destination, env);
      r := if trains.Err? then Err(trains.error) else Ok(FirstTrainWithNum(trains.value, num));
    }

    /** `list_coaches`: this client reads the coaches from `result['coaches']`. */
    method ListCoaches(train: Train, coachType: CoachType, env: Env)
      returns (r: Result<seq<Coach>, Error>, ghost sent: Option<Request>, ghost reply: Result<Reply, Error>)
      modifies this
      ensures session == old(session)
      ensures Exchanged(env, "POST", "purchase/coaches/", false, CoachListData(train, coachType), sent, reply, old(token), old(tokenDate), old(userAgent), old(agentDraws), old(cookies))
      ensures r == Then(reply, rep => DecodeCoaches(rep, ["coaches"]))
    {
      var res;
      res, sent := Call("purchase/coaches/", "POST", false, None, CoachListData(train, coachType), env);
      reply := res;
      r := Then(res, rep => DecodeCoaches(rep, ["coaches"]));
    }

    /** `list_seats`: the union of the seat lists of every fare class. */
    method ListSeats(train: Train, coach: Coach, env: Env)
      returns (r: Result<set<Json>, Error>, ghost sent: Option<Request>, ghost reply: Result<Reply, Error>)
      modifies this
      ensures session == old(session)
      ensures Exchanged(env, "POST", "purchase/coach/", false, SeatListData(train, coach), sent, reply, old(token), old(tokenDate), old(userAgent), old(agentDraws), old(cookies))
      ensures r == Then(reply, DecodeSeats)
    {
      var res;
      res, sent := Call("purchase/coach/", "POST", false, None, SeatListData(train, coach), env);
      reply := res;
      r := Then(res, DecodeSeats);
    }

    /** `book_seat`: posts the booking form and returns the service's reply. */
    method BookSeat(train: Train, coach: Coach, seat: Json, firstname: string, lastname: string, env: Env)
      returns (r: Result<Reply, Error>, ghost sent: Option<Request>, ghost form: map<string, Json>)
      modifies this
      ensures IsBookingForm(form, train, coach, seat, firstname, lastname)
      ensures session == old(session)
      ensures Exchanged(env, "POST", "cart/add/", false, JObj(form), sent, r, old(token), old(tokenDate), old(userAgent), old(agentDraws), old(cookies))
    {
      var data := BookSeatPayload(train, coach, seat, firstname, lastname);
      form := data;
      r, sent := Call("cart/add/", "POST", false, None, JObj(data), env);
    }
  }

  /**
   * The first call of a new client, two seconds into a clock far past the
   * token age: its headers say "agent-0" while the client now holds "agent-1",
   * the agent the token was obtained with.
   */
  method StaleUserAgentAfterRefresh() returns (sentAgent: Json, heldAgent: Option<string>)
    ensures sentAgent == JStr("agent-0") && heldAgent == Some("agent-1")
  {
    var c := new UZClient(Some(SessionHandle(0)));
    var env := Env(1000, req => Response(200, "page", None, map[]), page => Some("token"),
                   n => if n == 0 then "agent-0" else "agent-1");
    var h := c.GetHeadersAsWritten(env);
    assert h.Ok?;
    sentAgent := h.value.fields["User-Agent"];
    heldAgent := c.userAgent;
  }
}
