/**
 * The older single-module booking client (uz/client.py).  It is the packaged
 * client without a user agent: its headers are the three `GV-` headers, a
 * token refresh fetches the landing page with the `headers` argument passed
 * explicitly as None (so no default headers are attached) and keeps the
 * cookie jar, and the coach list is read from `result['value']['coaches']`.
 */
module LegacyClient {
  import opened Wrappers
  import opened Json
  import opened Errors
  import opened Model
  import opened Protocol

  /** The headers `get_headers` builds. */
  function LegacyHeaders(token: Option<string>): Json {
    JObj(map[
      "GV-Ajax" := JStr("1"),
      "GV-Referer" := JStr(BaseUrl),
      "GV-Token" := OrNull(token)])
  }

  /** The landing-page request a token refresh sends: `headers=None`, no data, and the jar as it is. */
  function LegacyTokenPageRequest(jar: map<string, string>): Request {
    Request("POST", Uri(""), JNull, JNull, jar)
  }

  /**
   * What the token refresh of a client whose jar holds `jar` obtains: a
   * status other than 200 raises an HTTP error, and a landing page without
   * a token raises `FailedObtainToken`.
   */
  function Refresh(env: Env, jar: map<string, string>): (r: Result<string, Error>)
    ensures var page := env.net(LegacyTokenPageRequest(jar));
      && (page.status != 200 ==>
            r.Err? && r.error.HttpFailure? && r.error.statusCode == page.status && r.error.body == page.body)
      && (page.status == 200 ==> (r.Ok? <==> env.parseToken(page.body).Some?))
      && (page.status == 200 && r.Err? ==> r.error == TokenFailure(page.body))
      && (r.Ok? ==> env.parseToken(page.body) == Some(r.value))
  {
    var page := env.net(LegacyTokenPageRequest(jar));
    if page.status != 200 then Err(Classify(page, true, JNull).error)
    else match env.parseToken(page.body)
      case None => Err(TokenFailure(page.body))
      case Some(t) => Ok(t)
  }

  class UZClient {
    var session: Option<SessionHandle>
    /** The cookie jar of the session. */
    var cookies: map<string, string>
    var token: Option<string>
    var tokenDate: int

    constructor (session: Option<SessionHandle>)
      ensures this.session == session && cookies == map[] && token == None && tokenDate == 0
    {
      this.session := session;
      cookies := map[];
      token := None;
      tokenDate := 0;
    }

    /** `_is_token_outdated`, with the clock reading passed in. */
    predicate IsTokenOutdated(now: int)
      reads this
    {
      Outdated(now, tokenDate)
    }

    /**
     * The effect of `call(endpoint, method=verb, raw=raw, data=data)` with
     * the default headers, on a client that held token `token0` dated
     * `date0` and jar `jar0`.  With a fresh token the request carries it.
     * With an outdated one the landing page is fetched first, its cookies
     * joining the jar: when that refresh raises, nothing more is sent and
     * the token date stays; otherwise the request carries the new token.
     */
    predicate Exchanged(env: Env, verb: string, endpoint: string, raw: bool, data: Json,
                        sent: Option<Request>, r: Result<Reply, Error>,
                        token0: Option<string>, date0: int, jar0: map<string, string>)
      reads this
    {
      if !Outdated(env.now, date0) then
        && token == token0 && tokenDate == date0
        && Delivered(env, session, jar0, cookies, verb, endpoint, raw, LegacyHeaders(token0), data, sent, r)
      else if session.None? then
        sent == None && r == Err(ConfigFailure(NoSessionMessage)) && token == token0 && tokenDate == date0 && cookies == jar0
      else
        var page := env.net(LegacyTokenPageRequest(jar0));
        match Refresh(env, jar0)
        case Ok(t) =>
          && token == Some(t) && tokenDate == env.now
          && Delivered(env, session, jar0 + page.cookies, cookies, verb, endpoint, raw, LegacyHeaders(Some(t)), data, sent, r)
        case Err(e) =>
          && sent == None && r == Err(e) && tokenDate == date0 && cookies == jar0 + page.cookies
          && token == (if page.status == 200 then None else token0)
    }

    /** The `session` property: the configured session, or `ImproperlyConfigured`. */
    method Session() returns (r: Result<SessionHandle, Error>)
      ensures session.None? ==> r == Err(ConfigFailure(NoSessionMessage))
      ensures session.None? ==> IsInstance(r.error, ImproperlyConfigured) && !IsInstance(r.error, HTTPError)
      ensures session.Some? ==> r == Ok(session.value)
    {
      if session.None? {
        return Err(ConfigFailure(NoSessionMessage));
      }
      return Ok(session.value);
    }

    /** The part of `call` after the headers are settled: send through the session and classify. */
    method Send(verb: string, endpoint: string, raw: bool, headers: Json, data: Json, env: Env)
      returns (r: Result<Reply, Error>, ghost sent: Option<Request>)
      modifies this`cookies
      ensures Delivered(env, session, old(cookies), cookies, verb, endpoint, raw, headers, data, sent, r)
    {
      var s := Session();
      if s.Err? {
        return Err(s.error), None;
      }
      var request := Request(verb, Uri(endpoint), headers, data, cookies);
      var response := env.net(request);
      cookies := cookies + response.cookies;
      return Classify(response, raw, data), Some(request);
    }

    /**
     * `get_token`: a fresh token is returned as cached; an outdated one is
     * refreshed from the landing page, fetched with the cookie jar as it is.
     * A page without a token raises `FailedObtainToken` and leaves the token
     * date alone.
     */
    method GetToken(env: Env) returns (r: Result<Option<string>, Error>)
      modifies this
      ensures session == old(session)
      ensures !Outdated(env.now, old(tokenDate)) ==>
        r == Ok(old(token)) && token == old(token) && tokenDate == old(tokenDate) && cookies == old(cookies)
      ensures Outdated(env.now, old(tokenDate)) && session.None? ==>
        r == Err(ConfigFailure(NoSessionMessage)) && token == old(token) && tokenDate == old(tokenDate) && cookies == old(cookies)
      ensures Outdated(env.now, old(tokenDate)) && session.Some? ==>
        var page := env.net(LegacyTokenPageRequest(old(cookies)));
        && cookies == old(cookies) + page.cookies
        && match Refresh(env, old(cookies))
           case Ok(t) => r == Ok(Some(t)) && token == Some(t) && tokenDate == env.now
           case Err(e) => r == Err(e) && tokenDate == old(tokenDate) && token == (if page.status == 200 then None else old(token))
    {
      if IsTokenOutdated(env.now) {
        var page;
        ghost var sent;
        page, sent := Send("POST", "", true, JNull, JNull, env);
        if page.Err? {
          return Err(page.error);
        }
        token := env.parseToken(page.value.text);
        if token.None? {
          return Err(TokenFailure(page.value.text));
        }
        tokenDate := env.now;
      }
      r := Ok(token);
    }

    /** `get_headers`: the three `GV-` headers with the current token. */
    method GetHeaders(env: Env) returns (r: Result<Json, Error>)
      modifies this
      ensures session == old(session)
      ensures !Outdated(env.now, old(tokenDate)) ==>
        r == Ok(LegacyHeaders(old(token))) && token == old(token) && tokenDate == old(tokenDate) && cookies == old(cookies)
      ensures Outdated(env.now, old(tokenDate)) && session.None? ==>
        r == Err(ConfigFailure(NoSessionMessage)) && token == old(token) && tokenDate == old(tokenDate) && cookies == old(cookies)
      ensures Outdated(env.now, old(tokenDate)) && session.Some? ==>
        var page := env.net(LegacyTokenPageRequest(old(cookies)));
        && cookies == old(cookies) + page.cookies
        && match Refresh(env, old(cookies))
           case Ok(t) => r == Ok(LegacyHeaders(Some(t))) && token == Some(t) && tokenDate == env.now
           case Err(e) => r == Err(e) && tokenDate == old(tokenDate) && token == (if page.status == 200 then None else old(token))
    {
      var t := GetToken(env);
      if t.Err? {
        return Err(t.error);
      }
      r := Ok(LegacyHeaders(t.value));
    }

    /**
     * `call`: the default headers are attached only when the caller passed no
     * `headers` argument; the request goes to `base_url/endpoint` and its
     * response is classified.
     */
    method Call(endpoint: string, verb: string, raw: bool, headers: Option<Json>, data: Json, env: Env)
      returns (r: Result<Reply, Error>, ghost sent: Option<Request>)
      modifies this
      ensures session == old(session)
      ensures headers.Some? ==>
        && token == old(token) && tokenDate == old(tokenDate)
        && Delivered(env, session, old(cookies), cookies, verb, endpoint, raw, headers.value, data, sent, r)
      ensures headers.None? ==> Exchanged(env, verb, endpoint, raw, data, sent, r, old(token), old(tokenDate), old(cookies))
    {
      var h: Json;
      if headers.None? {
        var got := GetHeaders(env);
        if got.Err? {
          return Err(got.error), None;
        }
        h := got.value;
      } else {
        h := headers.value;
      }
      r, sent := Send(verb, endpoint, raw, h, data, env);
    }

    method SearchStations(name: string, env: Env)
      returns (r: Result<seq<Station>, Error>, ghost sent: Option<Request>, ghost reply: Result<Reply, Error>)
      modifies this
      ensures session == old(session)
      ensures Exchanged(env, "POST", StationSearchEndpoint(name), false, JNull, sent, reply, old(token), old(tokenDate), old(cookies))
      ensures r == Then(reply, DecodeStations)
    {
      var res;
      res, sent := Call(StationSearchEndpoint(name), "POST", false, None, JNull, env);
      reply := res;
      r := Then(res, DecodeStations);
    }

    /** `fetch_first_station`: the first station the search returns, or None. */
    method FetchFirstStation(name: string, env: Env)
      returns (r: Result<Option<Station>, Error>, ghost sent: Option<Request>, ghost reply: Result<Reply, Error>)
      modifies this
      ensures session == old(session)
      ensures Exchanged(env, "POST", StationSearchEndpoint(name), false, JNull, sent, reply, old(token), old(tokenDate), old(cookies))
      ensures r == Then(reply, DecodeFirstStation)
    {
      var stations;
      stations, sent, reply := SearchStations(name, env);
      r := if stations.Err? then Err(stations.error) else Ok(FirstStation(stations.value));
    }

    method ListTrains(dateDep: string, source: Station, destination: Station, env: Env)
      returns (r: Result<seq<Train>, Error>, ghost sent: Option<Request>, ghost reply: Result<Reply, Error>)
      modifies this
      ensures session == old(session)
      ensures Exchanged(env, "POST", "purchase/search/", false, TrainSearchData(dateDep, source, destination), sent, reply, old(token), old(tokenDate), old(cookies))
      ensures r == Then(reply, DecodeTrains)
    {
      var res;
      res, sent := Call("purchase/search/", "POST", false, None, TrainSearchData(dateDep, source, destination), env);
      reply := res;
      r := Then(res, DecodeTrains);
    }

    /** `fetch_train`: the first listed train whose number is `num`, or None. */
    method FetchTrain(dateDep: string, source: Station, destination: Station, num: Json, env: Env)
      returns (r: Result<Option<Train>, Error>, ghost sent: Option<Request>, ghost reply: Result<Reply, Error>)
      modifies this
      ensures session == old(session)
      ensures Exchanged(env, "POST", "purchase/search/", false, TrainSearchData(dateDep, source, destination), sent, reply, old(token), old(tokenDate), old(cookies))
      ensures r == Then(reply, rep => DecodeTrainNumbered(rep, num))
    {
      var trains;
      trains, sent, reply := ListTrains(dateDep, source, destination, env);
      r := if trains.Err? then Err(trains.error) else Ok(FirstTrainWithNum(trains.value, num));
    }

    /** `list_coaches`: this client reads the coaches from `result['value']['coaches']`. */
    method ListCoaches(train: Train, coachType: CoachType, env: Env)
      returns (r: Result<seq<Coach>, Error>, ghost sent: Option<Request>, ghost reply: Result<Reply, Error>)
      modifies this
      ensures session == old(session)
      ensures Exchanged(env, "POST", "purchase/coaches/", false, CoachListData(train, coachType), sent, reply, old(token), old(tokenDate), old(cookies))
      ensures r == Then(reply, rep => DecodeCoaches(rep, ["value", "coaches"]))
    {
      var res;
      res, sent := Call("purchase/coaches/", "POST", false, None, CoachListData(train, coachType), env);
      reply := res;
      r := Then(res, rep => DecodeCoaches(rep, ["value", "coaches"]));
    }

    /** `list_seats`: the union of the seat lists of every fare class. */
    method ListSeats(train: Train, coach: Coach, env: Env)
      returns (r: Result<set<Json>, Error>, ghost sent: Option<Request>, ghost reply: Result<Reply, Error>)
      modifies this
      ensures session == old(session)
      ensures Exchanged(env, "POST", "purchase/coach/", false, SeatListData(train, coach), sent, reply, old(token), old(tokenDate), old(cookies))
      ensures r == Then(reply, DecodeSeats)
    {
      var res;
      res, sent := Call("purchase/coach/", "POST", false, None, SeatListData(train, coach), env);
      reply := res;
      r := Then(res, DecodeSeats);
    }

    /** `book_seat`: posts the booking form and returns the service's reply. */
    method BookSeat(train: Train, coach: Coach, seat: Json, firstname: string, lastname: string, env: Env)
      returns (r: Result<Reply, Error>, ghost sent: Option<Request>, ghost form: map<string, Json>)
      modifies this
      ensures IsBookingForm(form, train, coach, seat, firstname, lastname)
      ensures session == old(session)
      ensures Exchanged(env, "POST", "cart/add/", false, JObj(form), sent, r, old(token), old(tokenDate), old(cookies))
    {
      var data := BookSeatPayload(train, coach, seat, firstname, lastname);
      form := data;
      r, sent := Call("cart/add/", "POST", false, None, JObj(data), env);
    }
  }
}
