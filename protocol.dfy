/**
 * The logic both booking clients share (uz/client/client.py and its older
 * twin uz/client.py define it identically): how a service response is
 * classified into a value or an exception, how URIs and request payloads are
 * built, how long a token stays fresh, and the selectors and decoders layered
 * on the service's replies.
 *
 * The network is a function from the request sent to the response received;
 * token extraction from the landing page and the random user-agent generator
 * are likewise parameters (`Env`).
 */
module Protocol {
  import opened Wrappers
  import opened Json
  import opened Errors
  import opened Model

  const BaseUrl: string := "http://booking.uz.gov.ua/en"

  /** Seconds a token stays usable after it was obtained. */
  const TokenMaxAge: int := 600

  const NoSessionMessage: string := "Session is not configured"

  /** An opened network session, opaque to the client. */
  datatype SessionHandle = SessionHandle(id: nat)

  /** What the service answered: status code, body text, the body decoded as JSON when it is JSON, and cookies set. */
  datatype Response = Response(status: int, body: string, json: Option<Json>, cookies: map<string, string>)

  /**
   * What was sent: HTTP method, full URI, the `headers` argument (None when
   * explicitly passed as None), `data`, and the cookies of the session's jar.
   */
  datatype Request = Request(verb: string, uri: string, headers: Json, data: Json, cookies: map<string, string>)

  /** What `call` returns: the raw body, or the decoded JSON. */
  datatype Reply = Body(text: string) | Parsed(json: Json)

  /**
   * The world outside the client: the clock reading for this call, the service,
   * the token extractor applied to the landing page, and the n-th value the
   * random user-agent generator produces.
   */
  datatype Env = Env(
    now: int,
    net: Request -> Response,
    parseToken: string -> Option<string>,
    randomAgent: nat -> string)

  // ---------------------------------------------------------------- URIs and tokens

  function Uri(endpoint: string): string {
    BaseUrl + "/" + endpoint
  }

  /** The endpoint can be read back from the URI, so distinct endpoints give distinct URIs. */
  lemma UriDeterminesEndpoint(e1: string, e2: string)
    ensures Uri(e1)[..|BaseUrl| + 1] == BaseUrl + "/"
    ensures Uri(e1)[|BaseUrl| + 1..] == e1
    ensures Uri(e1) == Uri(e2) ==> e1 == e2
  {
    assert Uri(e1)[|BaseUrl| + 1..] == e1;
    assert Uri(e2)[|BaseUrl| + 1..] == e2;
  }

  /** `_is_token_outdated`: strictly more than the maximum age has passed since the token date. */
  predicate Outdated(now: int, tokenDate: int) {
    now - tokenDate > TokenMaxAge
  }

  /**
   * A token obtained at `issued` is reused for exactly the next 600 seconds
   * (inclusive), and once it is outdated it stays outdated as the clock goes
   * on.  A client that never obtained one has token date 0.
   */
  lemma TokenLifetime(issued: int, now: int, later: int)
    ensures !Outdated(now, issued) <==> now <= issued + TokenMaxAge
    ensures Outdated(now, issued) && now <= later ==> Outdated(later, issued)
    ensures now > TokenMaxAge ==> Outdated(now, 0)
  {
  }

  // ---------------------------------------------------------------- response classification

  /**
   * The classification at the end of `call`: any status other than 200 raises
   * (`BadRequest` for 400, plain `HTTPError` otherwise, carrying the JSON body
   * if it decodes); a raw call returns the body untouched; otherwise the JSON
   * is returned unless its `error` entry is truthy, which raises
   * `ResponseError`.  A 200 body that is not JSON, or JSON that is not a dict,
   * raises an exception outside the taxonomy.
   */
  function Classify(resp: Response, raw: bool, data: Json): (r: Result<Reply, Error>)
    ensures resp.status == 400 ==> r.Err? && IsInstance(r.error, BadRequest)
    ensures resp.status != 200 && resp.status != 400 ==> r.Err? && ClassOf(r.error) == HTTPError
    ensures resp.status != 200 ==>
      && r.Err? && IsInstance(r.error, HTTPError) && !IsInstance(r.error, ResponseError)
      && r.error.statusCode == resp.status && r.error.body == resp.body
      && r.error.data == data && r.error.json == resp.json.GetOr(JNull)
    ensures resp.status == 200 && raw ==> r == Ok(Body(resp.body))
    ensures resp.status == 200 && !raw && resp.json.Some? && resp.json.value.JObj? ==>
      if Truthy(Get(resp.json.value.fields, "error"))
      then r.Err? && ClassOf(r.error) == ResponseError && r.error.statusCode == 200
        && r.error.body == resp.body && r.error.data == data && r.error.json == resp.json.value
      else r == Ok(Parsed(resp.json.value))
    ensures r.Ok? <==> resp.status == 200 && (raw || (resp.json.Some? && resp.json.value.JObj? && !Truthy(Get(resp.json.value.fields, "error"))))
    ensures r.Err? && IsInstance(r.error, UZException) ==> IsInstance(r.error, HTTPError)
  {
    if resp.status != 200 then
      Err(NewHttpError(if resp.status == 400 then BadRequest else HTTPError,
                       resp.status, resp.body, data, resp.json.GetOr(JNull)))
    else if raw then
      Ok(Body(resp.body))
    else match resp.json
      case None => Err(ForeignFailure("response body is not JSON"))
      case Some(j) =>
        if !j.JObj? then Err(ForeignFailure("decoded JSON has no get method"))
        else if Truthy(Get(j.fields, "error")) then Err(NewHttpError(ResponseError, resp.status, resp.body, data, j))
        else Ok(Parsed(j))
  }

  /**
   * `session.request(verb, uri, headers=headers, data=data)` on a client
   * whose session is `session` and whose jar holds `jar`: without a session
   * nothing is sent and `ImproperlyConfigured` is raised; otherwise the
   * request carries the jar, the cookies of the response join it, and the
   * reply is the classification of the response.
   */
  predicate Delivered(env: Env, session: Option<SessionHandle>, jar: map<string, string>, jarAfter: map<string, string>,
                      verb: string, endpoint: string, raw: bool, headers: Json, data: Json,
                      sent: Option<Request>, r: Result<Reply, Error>)
  {
    if session.None? then sent == None && r == Err(ConfigFailure(NoSessionMessage)) && jarAfter == jar
    else
      && sent == Some(Request(verb, Uri(endpoint), headers, data, jar))
      && jarAfter == jar + env.net(sent.value).cookies
      && r == Classify(env.net(sent.value), raw, data)
  }

  // ---------------------------------------------------------------- decoding replies

  /** `result[path[0]][path[1]]...` on a decoded reply; raises on a raw body. */
  function At(reply: Reply, path: seq<string>): Option<Json> {
    if reply.Body? then None else Lookup(reply.json, path)
  }

  function Lookup(v: Json, path: seq<string>): Option<Json>
    decreases |path|
  {
    if path == [] then Some(v)
    else match Field(v, path[0])
      case None => None
      case Some(w) => Lookup(w, path[1..])
  }

  /**
   * `[decode(i) for i in v]` over a reply entry: a missing entry raises
   * `KeyError`; a list decodes element by element, an empty string or dict
   * gives `[]`, and anything else raises.
   */
  function DecodeRecords<T>(v: Option<Json>, decode: Json -> Option<T>): (r: Result<seq<T>, Error>)
    requires forall s :: decode(JStr(s)).None?
    ensures r.Ok? <==> v.Some? && (|| (v.value.JArr? && forall i :: 0 <= i < |v.value.items| ==> decode(v.value.items[i]).Some?)
                                   || v.value == JStr("") || v.value == JObj(map[]))
    ensures r.Ok? && v.value.JArr? ==>
      |r.value| == |v.value.items| && forall i :: 0 <= i < |r.value| ==> decode(v.value.items[i]) == Some(r.value[i])
    ensures r.Ok? && !v.value.JArr? ==> r.value == []
    ensures r.Err? ==> r.error.ForeignFailure?
  {
    if v.None? then Err(ForeignFailure("KeyError"))
    else match DecodeIterated(v.value, decode)
      case None => Err(ForeignFailure("not a list of records"))
      case Some(xs) => Ok(xs)
  }

  /** Feed a call's outcome to a decoder, passing exceptions through. */
  function Then<T>(reply: Result<Reply, Error>, decode: Reply -> Result<T, Error>): Result<T, Error> {
    match reply
    case Err(e) => Err(e)
    case Ok(v) => decode(v)
  }

  function DecodeStations(reply: Reply): Result<seq<Station>, Error> {
    DecodeRecords(At(reply, ["value"]), StationFromDict)
  }

  function DecodeTrains(reply: Reply): Result<seq<Train>, Error> {
    DecodeRecords(At(reply, ["value"]), TrainFromDict)
  }

  /** The coach list found under `path` in the reply. */
  function DecodeCoaches(reply: Reply, path: seq<string>): Result<seq<Coach>, Error> {
    DecodeRecords(At(reply, path), CoachFromDict)
  }

  /** What `chain` draws from one fare class: a list's items, a string's characters, a dict's keys; None when it is not iterable. */
  function Iterated(v: Json): Option<set<Json>> {
    match v
    case JArr(items) => Some(set x | x in items)
    case JStr(s) => Some(set i | 0 <= i < |s| :: JStr([s[i]]))
    case JObj(m) => Some(set k | k in m :: JStr(k))
    case _ => None
  }

  /** A set can hold anything but a list or a dict. */
  predicate Hashable(j: Json) {
    !j.JArr? && !j.JObj?
  }

  /**
   * `set(chain(*places.values()))`: every seat label of every fare class,
   * duplicates across classes collapsing into one; a fare class that cannot
   * be iterated, or a label that cannot be hashed, raises `TypeError`.
   */
  function SeatUnion(places: map<string, Json>): (r: Result<set<Json>, Error>)
    ensures r.Ok? <==> forall fare :: fare in places ==>
      Iterated(places[fare]).Some? && forall s :: s in Iterated(places[fare]).value ==> Hashable(s)
    ensures (forall fare :: fare in places ==> places[fare].JArr?) ==>
      (r.Ok? <==> forall fare, s :: fare in places && places[fare].JArr? && s in places[fare].items ==> Hashable(s))
    ensures r.Ok? ==> forall fare, s :: fare in places && places[fare].JArr? && s in places[fare].items ==> s in r.value
    ensures r.Ok? ==> forall s :: s in r.value <==> exists fare :: fare in places && s in Iterated(places[fare]).value
    ensures r.Err? ==> r.error.ForeignFailure?
  {
    if forall fare :: fare in places ==> Iterated(places[fare]).Some? && forall s :: s in Iterated(places[fare]).value ==> Hashable(s)
    then
      assert forall fare, s :: fare in places && places[fare].JArr? && s in places[fare].items ==> s in Iterated(places[fare]).value;
      Ok(set fare, s | fare in places && s in Iterated(places[fare]).value :: s)
    else Err(ForeignFailure("TypeError"))
  }

  /** `fetch_first_station` on the reply of the station search it makes. */
  function DecodeFirstStation(reply: Reply): Result<Option<Station>, Error> {
    match DecodeStations(reply)
    case Err(e) => Err(e)
    case Ok(stations) => Ok(FirstStation(stations))
  }

  /** `fetch_train` on the reply of the train search it makes. */
  function DecodeTrainNumbered(reply: Reply, num: Json): Result<Option<Train>, Error> {
    match DecodeTrains(reply)
    case Err(e) => Err(e)
    case Ok(trains) => Ok(FirstTrainWithNum(trains, num))
  }

  function DecodeSeats(reply: Reply): Result<set<Json>, Error> {
    match At(reply, ["value", "places"])
    case Some(JObj(places)) => SeatUnion(places)
    case _ => Err(ForeignFailure("no seat map"))
  }

  // ---------------------------------------------------------------- selectors

  /** `stations and stations[0] or None`: a station object is always truthy, so the first one if any. */
  function FirstStation(stations: seq<Station>): (r: Option<Station>)
    ensures r.None? <==> stations == []
    ensures r.Some? ==> r.value == stations[0]
  {
    if stations == [] then None else Some(stations[0])
  }

  /** The search loop of `fetch_train`: the first train whose `num` equals the one asked for. */
  function FirstTrainWithNum(trains: seq<Train>, num: Json): (r: Option<Train>)
    ensures r.None? <==> forall i :: 0 <= i < |trains| ==> trains[i].num != num
    ensures r.Some? ==> exists i :: 0 <= i < |trains| && trains[i] == r.value && r.value.num == num
                                    && forall j :: 0 <= j < i ==> trains[j].num != num
    decreases |trains|
  {
    if trains == [] then None
    else if trains[0].num == num then Some(trains[0])
    else
      var r := FirstTrainWithNum(trains[1..], num);
      assert forall i :: 1 <= i < |trains| ==> trains[i] == trains[1..][i - 1];
      r
  }

  // ---------------------------------------------------------------- request payloads

  function StationSearchEndpoint(name: string): string {
    "purchase/station/" + name + "/"
  }

  /** The train search form; the date arrives already formatted as MM.DD.YYYY. */
  function TrainSearchData(dateDep: string, source: Station, destination: Station): Json {
    JObj(map[
      "station_id_from" := source.id,
      "station_id_till" := destination.id,
      "date_dep" := JStr(dateDep),
      "time_dep" := JStr("00:00"),
      "time_dep_till" := JStr(""),
      "another_ec" := JNum(0),
      "search" := JStr("")])
  }

  function CoachListData(train: Train, coachType: CoachType): Json {
    JObj(map[
      "station_id_from" := train.sourceStation.id,
      "station_id_till" := train.destinationStation.id,
      "train" := train.num,
      "model" := train.model,
      "date_dep" := JNum(train.departureTime.timestamp),
      "round_trip" := JNum(0),
      "another_ec" := JNum(0),
      "coach_type" := coachType.letter])
  }

  function SeatListData(train: Train, coach: Coach): Json {
    JObj(map[
      "station_id_from" := train.sourceStation.id,
      "station_id_till" := train.destinationStation.id,
      "train" := train.num,
      "coach_num" := coach.num,
      "coach_class" := coach.klass,
      "coach_type_id" := coach.typeId,
      "date_dep" := JNum(train.departureTime.timestamp)])
  }

  /** The five fields of a booking that are not about the place. */
  function BookingBase(train: Train): map<string, Json> {
    map[
      "code_station_from" := train.sourceStation.id,
      "code_station_to" := train.destinationStation.id,
      "train" := train.num,
      "date" := JNum(train.departureTime.timestamp),
      "round_trip" := JNum(0)]
  }

  /** The place dict of `book_seat`, in the order it is written. */
  function PlaceFields(coach: Coach, seat: Json, firstname: string, lastname: string): seq<(string, Json)> {
    [("ord", JNum(0)),
     ("coach_num", coach.num),
     ("coach_class", coach.klass),
     ("coach_type_id", coach.typeId),
     ("place_num", seat),
     ("firstname", JStr(firstname)),
     ("lastname", JStr(lastname)),
     ("bedding", JNum(0)),
     ("child", JStr("")),
     ("stud", JStr("")),
     ("transp", JNum(0)),
     ("reserve", JNum(0))]
  }

  /** The form key under which place field `k` of the first (only) place is sent. */
  function PlaceKey(k: string): string {
    "places[0][" + k + "]"
  }

  /** Different place fields are sent under different keys, none of them a base field. */
  lemma PlaceKeysAreDistinct(a: string, b: string, train: Train)
    ensures PlaceKey(a) == PlaceKey(b) ==> a == b
    ensures PlaceKey(a) !in BookingBase(train)
  {
    assert PlaceKey(a)[0] == 'p';
    if PlaceKey(a) == PlaceKey(b) {
      assert |a| == |b|;
      assert a == PlaceKey(a)[10..10 + |a|];
      assert b == PlaceKey(b)[10..10 + |b|];
    }
  }

  predicate DistinctNames(fields: seq<(string, Json)>) {
    forall i, j :: 0 <= i < j < |fields| ==> fields[i].0 != fields[j].0
  }

  /** The form `book_seat` posts: the five base fields, plus every place field `k` under the key `places[0][k]`, and nothing else. */
  predicate IsBookingForm(form: map<string, Json>, train: Train, coach: Coach, seat: Json, firstname: string, lastname: string) {
    var place := PlaceFields(coach, seat, firstname, lastname);
    && form.Keys == BookingBase(train).Keys + (set i | 0 <= i < |place| :: PlaceKey(place[i].0))
    && (forall k :: k in BookingBase(train) ==> form[k] == BookingBase(train)[k])
    && (forall i :: 0 <= i < |place| ==> form[PlaceKey(place[i].0)] == place[i].1)
  }

  /** The loop of `book_seat` that fills the form, starting from the base fields. */
  method BookSeatPayload(train: Train, coach: Coach, seat: Json, firstname: string, lastname: string)
    returns (data: map<string, Json>)
    ensures IsBookingForm(data, train, coach, seat, firstname, lastname)
  {
    var place := PlaceFields(coach, seat, firstname, lastname);
    assert DistinctNames(place);
    data := BookingBase(train);
    for i := 0 to |place|
      invariant data.Keys == BookingBase(train).Keys + (set m | 0 <= m < i :: PlaceKey(place[m].0))
      invariant forall k :: k in BookingBase(train) ==> data[k] == BookingBase(train)[k]
      invariant forall m :: 0 <= m < i ==> data[PlaceKey(place[m].0)] == place[m].1
    {
      forall m | 0 <= m < i ensures PlaceKey(place[i].0) != PlaceKey(place[m].0) {
        PlaceKeysAreDistinct(place[i].0, place[m].0, train);
      }
      PlaceKeysAreDistinct(place[i].0, place[i].0, train);
      data := data[PlaceKey(place[i].0) := place[i].1];
    }
  }
}
