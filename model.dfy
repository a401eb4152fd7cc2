/**
 * The domain records of the booking service and their mapping to and from the
 * service's JSON dicts (uz/model.py).
 *
 * `from_dict` reads a fixed set of keys; in Python a missing key or a value of
 * the wrong shape raises, which is `None` here.  `to_dict` writes exactly the
 * keys `from_dict` reads, renaming some on the way, so a dict survives the
 * round trip exactly when it holds those keys and no others.  Field values are
 * carried verbatim as `Json`; only a timestamp's `date` must be a number,
 * because the constructor converts it with `datetime.fromtimestamp`.
 */
module Model {
  import opened Wrappers
  import opened Json

  datatype Station = Station(id: Json, title: Json)

  datatype CoachType = CoachType(letter: Json, places: Json, title: Json)

  datatype Coach = Coach(
    allowBonus: Json, klass: Json, typeId: Json, hasBedding: Json, num: Json,
    placesCnt: Json, prices: Json, reservePrice: Json, services: Json)

  /** The epoch and the service's own rendering of it, carried as a pair. */
  datatype UZTimestamp = UZTimestamp(timestamp: int, strDate: Json)

  datatype Train = Train(
    category: Json, model: Json, num: Json, travelTime: Json,
    coachTypes: seq<CoachType>,
    sourceStation: Station, destinationStation: Station,
    departureTime: UZTimestamp, arrivalTime: UZTimestamp)

  // ---------------------------------------------------------------- lists

  /**
   * A list comprehension `[decode(i) for i in items]` whose element decoder
   * may raise: the whole comprehension raises as soon as one element does.
   */
  function DecodeAll<T>(items: seq<Json>, decode: Json -> Option<T>): (r: Option<seq<T>>)
    ensures r.Some? <==> forall i :: 0 <= i < |items| ==> decode(items[i]).Some?
    ensures r.Some? ==> |r.value| == |items| && forall i :: 0 <= i < |items| ==> decode(items[i]) == Some(r.value[i])
    decreases |items|
  {
    if items == [] then Some([])
    else match decode(items[0])
      case None => None
      case Some(x) =>
        match DecodeAll(items[1..], decode)
        case None => None
        case Some(xs) => Some([x] + xs)
  }

  /** The characters of a string, each the one-character string Python's iteration yields. */
  function Chars(s: string): seq<Json> {
    seq(|s|, i requires 0 <= i < |s| => JStr([s[i]]))
  }

  /**
   * `[decode(i) for i in v]` for a record decoder, which rejects every
   * string: a list yields its items and a string its characters; a dict
   * yields its keys, which are strings, so a non-empty dict raises whatever
   * its key order, and an empty one gives `[]`; anything else is not
   * iterable and raises.
   */
  function DecodeIterated<T>(v: Json, decode: Json -> Option<T>): (r: Option<seq<T>>)
    requires forall s :: decode(JStr(s)).None?
    ensures v.JArr? ==> (r.Some? <==> forall i :: 0 <= i < |v.items| ==> decode(v.items[i]).Some?)
    ensures r.Some? && v.JArr? ==> |r.value| == |v.items| && forall i :: 0 <= i < |v.items| ==> decode(v.items[i]) == Some(r.value[i])
    ensures !v.JArr? ==> (r.Some? <==> v == JStr("") || v == JObj(map[]))
    ensures r.Some? && !v.JArr? ==> r.value == []
  {
    match v
    case JArr(items) => DecodeAll(items, decode)
    case JStr(s) =>
      var r := DecodeAll(Chars(s), decode);
      assert s != [] ==> decode(Chars(s)[0]).None?;
      r
    case JObj(m) => if m == map[] then Some([]) else None
    case _ => None
  }

  // ---------------------------------------------------------------- Station

  /** `Station.from_dict`: raises unless `d` is a dict holding `station_id` and `title`. */
  function StationFromDict(d: Json): (r: Option<Station>)
    ensures r.Some? <==> d.JObj? && {"station_id", "title"} <= d.fields.Keys
    ensures r.Some? ==> r.value.id == d.fields["station_id"] && r.value.title == d.fields["title"]
  {
    if d.JObj? && "station_id" in d.fields && "title" in d.fields
    then Some(Station(d.fields["station_id"], d.fields["title"]))
    else None
  }

  /** `Station.to_dict`: a dict with exactly the two keys `from_dict` reads. */
  function StationToDict(s: Station): (r: Json)
    ensures r.JObj? && r.fields.Keys == {"station_id", "title"}
    ensures r.fields["station_id"] == s.id && r.fields["title"] == s.title
  {
    JObj(map["station_id" := s.id, "title" := s.title])
  }

  /** `Station.__eq__`: stations are the same when their ids are. */
  predicate SameStation(a: Station, b: Station) {
    a.id == b.id
  }

  predicate IsStationDict(d: Json) {
    d.JObj? && d.fields.Keys == {"station_id", "title"}
  }

  lemma StationRoundTrip(d: Json)
    requires IsStationDict(d)
    ensures StationFromDict(d).Some? && StationToDict(StationFromDict(d).value) == d
  {
    assert StationToDict(StationFromDict(d).value).fields == d.fields;
  }

  lemma StationDictRoundTrip(s: Station)
    ensures IsStationDict(StationToDict(s)) && StationFromDict(StationToDict(s)) == Some(s)
  {
  }

  /** Two stations decoded from the wire are equal iff their `station_id`s are, whatever the titles. */
  lemma StationEqualityByWireId(d1: Json, d2: Json)
    requires StationFromDict(d1).Some? && StationFromDict(d2).Some?
    ensures SameStation(StationFromDict(d1).value, StationFromDict(d2).value)
        <==> d1.fields["station_id"] == d2.fields["station_id"]
  {
  }

  // ---------------------------------------------------------------- UZTimestamp

  /** `UZTimestamp.from_dict`: raises unless `d` holds `date` and `src_date` and the date is a number. */
  function TimestampFromDict(d: Json): (r: Option<UZTimestamp>)
    ensures r.Some? <==> d.JObj? && {"date", "src_date"} <= d.fields.Keys && d.fields["date"].JNum?
    ensures r.Some? ==> JNum(r.value.timestamp) == d.fields["date"] && r.value.strDate == d.fields["src_date"]
  {
    if d.JObj? && "date" in d.fields && "src_date" in d.fields && d.fields["date"].JNum?
    then Some(UZTimestamp(d.fields["date"].n, d.fields["src_date"]))
    else None
  }

  /** `UZTimestamp.to_dict`: exactly `date` and `src_date`. */
  function TimestampToDict(t: UZTimestamp): (r: Json)
    ensures r.JObj? && r.fields.Keys == {"date", "src_date"}
    ensures r.fields["date"] == JNum(t.timestamp) && r.fields["src_date"] == t.strDate
  {
    JObj(map["date" := JNum(t.timestamp), "src_date" := t.strDate])
  }

  /** `UZTimestamp.__eq__`: only the epoch is compared. */
  predicate SameTimestamp(a: UZTimestamp, b: UZTimestamp) {
    a.timestamp == b.timestamp
  }

  predicate IsTimestampDict(d: Json) {
    d.JObj? && d.fields.Keys == {"date", "src_date"} && d.fields["date"].JNum?
  }

  lemma TimestampRoundTrip(d: Json)
    requires IsTimestampDict(d)
    ensures TimestampFromDict(d).Some? && TimestampToDict(TimestampFromDict(d).value) == d
    ensures TimestampFromDict(d).value.strDate == d.fields["src_date"]
  {
    assert TimestampToDict(TimestampFromDict(d).value).fields == d.fields;
  }

  lemma TimestampDictRoundTrip(t: UZTimestamp)
    ensures IsTimestampDict(TimestampToDict(t)) && TimestampFromDict(TimestampToDict(t)) == Some(t)
  {
  }

  /** Timestamps with the same epoch are equal even when their display strings differ. */
  lemma TimestampEqualityIgnoresDisplay(t: UZTimestamp, display: Json)
    ensures SameTimestamp(t, t.(strDate := display))
    ensures t.strDate != display ==> TimestampToDict(t) != TimestampToDict(t.(strDate := display))
  {
    if t.strDate != display {
      assert TimestampToDict(t).fields["src_date"] != TimestampToDict(t.(strDate := display)).fields["src_date"];
    }
  }

  // ---------------------------------------------------------------- CoachType

  /** `CoachType.from_dict`: raises unless `letter`, `places` and `title` are all present. */
  function CoachTypeFromDict(d: Json): (r: Option<CoachType>)
    ensures r.Some? <==> d.JObj? && {"letter", "places", "title"} <= d.fields.Keys
    ensures r.Some? ==> r.value == CoachType(d.fields["letter"], d.fields["places"], d.fields["title"])
  {
    if d.JObj? && "letter" in d.fields && "places" in d.fields && "title" in d.fields
    then Some(CoachType(d.fields["letter"], d.fields["places"], d.fields["title"]))
    else None
  }

  /** `CoachType.to_dict`: exactly the three keys `from_dict` reads. */
  function CoachTypeToDict(c: CoachType): (r: Json)
    ensures r.JObj? && r.fields.Keys == {"letter", "places", "title"}
    ensures r.fields["letter"] == c.letter && r.fields["places"] == c.places && r.fields["title"] == c.title
  {
    JObj(map["letter" := c.letter, "places" := c.places, "title" := c.title])
  }

  predicate IsCoachTypeDict(d: Json) {
    d.JObj? && d.fields.Keys == {"letter", "places", "title"}
  }

  lemma CoachTypeRoundTrip(d: Json)
    requires IsCoachTypeDict(d)
    ensures CoachTypeFromDict(d).Some? && CoachTypeToDict(CoachTypeFromDict(d).value) == d
  {
    assert CoachTypeToDict(CoachTypeFromDict(d).value).fields == d.fields;
  }

  lemma CoachTypeDictRoundTrip(c: CoachType)
    ensures IsCoachTypeDict(CoachTypeToDict(c)) && CoachTypeFromDict(CoachTypeToDict(c)) == Some(c)
  {
  }

  // ---------------------------------------------------------------- Coach

  const CoachKeys: set<string> :=
    {"allow_bonus", "coach_class", "coach_type_id", "hasBedding", "num",
     "places_cnt", "prices", "reserve_price", "services"}

  /** `Coach.from_dict`: raises unless all nine wire keys are present. */
  function CoachFromDict(d: Json): (r: Option<Coach>)
    ensures r.Some? <==> d.JObj? && CoachKeys <= d.fields.Keys
    ensures r.Some? ==>
      && r.value.allowBonus == d.fields["allow_bonus"]
      && r.value.klass == d.fields["coach_class"]
      && r.value.typeId == d.fields["coach_type_id"]
      && r.value.hasBedding == d.fields["hasBedding"]
      && r.value.num == d.fields["num"]
      && r.value.placesCnt == d.fields["places_cnt"]
      && r.value.prices == d.fields["prices"]
      && r.value.reservePrice == d.fields["reserve_price"]
      && r.value.services == d.fields["services"]
  {
    if d.JObj? && CoachKeys <= d.fields.Keys
    then Some(Coach(
      allowBonus := d.fields["allow_bonus"],
      klass := d.fields["coach_class"],
      typeId := d.fields["coach_type_id"],
      hasBedding := d.fields["hasBedding"],
      num := d.fields["num"],
      placesCnt := d.fields["places_cnt"],
      prices := d.fields["prices"],
      reservePrice := d.fields["reserve_price"],
      services := d.fields["services"]))
    else None
  }

  /** `Coach.to_dict`: exactly the nine wire keys, the renamed fields written back under their wire names. */
  function CoachToDict(c: Coach): (r: Json)
    ensures r.JObj? && r.fields.Keys == CoachKeys
    ensures
      && r.fields["allow_bonus"] == c.allowBonus
      && r.fields["coach_class"] == c.klass
      && r.fields["coach_type_id"] == c.typeId
      && r.fields["hasBedding"] == c.hasBedding
      && r.fields["num"] == c.num
      && r.fields["places_cnt"] == c.placesCnt
      && r.fields["prices"] == c.prices
      && r.fields["reserve_price"] == c.reservePrice
      && r.fields["services"] == c.services
  {
    JObj(map[
      "allow_bonus" := c.allowBonus,
      "coach_class" := c.klass,
      "coach_type_id" := c.typeId,
      "hasBedding" := c.hasBedding,
      "num" := c.num,
      "places_cnt" := c.placesCnt,
      "prices" := c.prices,
      "reserve_price" := c.reservePrice,
      "services" := c.services])
  }

  predicate IsCoachDict(d: Json) {
    d.JObj? && d.fields.Keys == CoachKeys
  }

  /** The renamed wire keys land in the renamed fields, and back. */
  lemma CoachRenaming(d: Json)
    requires CoachFromDict(d).Some?
    ensures CoachFromDict(d).value.klass == d.fields["coach_class"]
    ensures CoachFromDict(d).value.typeId == d.fields["coach_type_id"]
    ensures CoachFromDict(d).value.hasBedding == d.fields["hasBedding"]
    ensures CoachToDict(CoachFromDict(d).value).fields["coach_class"] == d.fields["coach_class"]
    ensures CoachToDict(CoachFromDict(d).value).fields["coach_type_id"] == d.fields["coach_type_id"]
    ensures CoachToDict(CoachFromDict(d).value).fields["hasBedding"] == d.fields["hasBedding"]
  {
  }

  lemma CoachRoundTrip(d: Json)
    requires IsCoachDict(d)
    ensures CoachFromDict(d).Some? && CoachToDict(CoachFromDict(d).value) == d
  {
    assert CoachToDict(CoachFromDict(d).value).fields == d.fields;
  }

  lemma CoachDictRoundTrip(c: Coach)
    ensures IsCoachDict(CoachToDict(c)) && CoachFromDict(CoachToDict(c)) == Some(c)
  {
    assert CoachToDict(c).fields.Keys == CoachKeys;
  }

  // ---------------------------------------------------------------- Train

  const TrainKeys: set<string> := {"category", "model", "num", "travel_time", "types", "from", "till"}

  /** A train's `from` or `till` entry: a station merged with a timestamp. */
  function StationPoint(t: UZTimestamp, s: Station): (r: Json)
    ensures r.JObj? && r.fields.Keys == {"station", "station_id", "date", "src_date"}
    ensures r.fields["station"] == s.title && r.fields["station_id"] == s.id
    ensures r.fields["date"] == JNum(t.timestamp) && r.fields["src_date"] == t.strDate
  {
    JObj(map["station" := s.title, "station_id" := s.id] + TimestampToDict(t).fields)
  }

  /** The station half of a `from`/`till` entry; note the key is `station`, not `title`. */
  function PointStation(p: Json): (r: Option<Station>)
    ensures r.Some? <==> p.JObj? && {"station_id", "station"} <= p.fields.Keys
    ensures r.Some? ==> r.value == Station(p.fields["station_id"], p.fields["station"])
  {
    if p.JObj? && "station_id" in p.fields && "station" in p.fields
    then Some(Station(p.fields["station_id"], p.fields["station"]))
    else None
  }

  /** `[CoachType.from_dict(i) for i in dikt['types']]`. */
  function CoachTypesFromList(v: Json): (r: Option<seq<CoachType>>)
    ensures v.JArr? ==> (r.Some? <==> forall i :: 0 <= i < |v.items| ==> CoachTypeFromDict(v.items[i]).Some?)
    ensures r.Some? && v.JArr? ==> |r.value| == |v.items| && forall i :: 0 <= i < |v.items| ==> CoachTypeFromDict(v.items[i]) == Some(r.value[i])
    ensures !v.JArr? ==> (r.Some? <==> v == JStr("") || v == JObj(map[])) && (r.Some? ==> r.value == [])
  {
    DecodeIterated(v, CoachTypeFromDict)
  }

  /**
   * `Train.from_dict`: raises unless the seven keys are present, the types
   * decode, and `from` and `till` each hold a station and a timestamp.
   */
  function TrainFromDict(d: Json): (r: Option<Train>)
    ensures r.Some? ==> d.JObj? && TrainKeys <= d.fields.Keys
    ensures r.Some? ==>
      && r.value.category == d.fields["category"] && r.value.model == d.fields["model"]
      && r.value.num == d.fields["num"] && r.value.travelTime == d.fields["travel_time"]
    ensures r.Some? ==>
      && PointStation(d.fields["from"]) == Some(r.value.sourceStation)
      && PointStation(d.fields["till"]) == Some(r.value.destinationStation)
      && TimestampFromDict(d.fields["from"]) == Some(r.value.departureTime)
      && TimestampFromDict(d.fields["till"]) == Some(r.value.arrivalTime)
      && CoachTypesFromList(d.fields["types"]) == Some(r.value.coachTypes)
    ensures
      (&& d.JObj? && TrainKeys <= d.fields.Keys && CoachTypesFromList(d.fields["types"]).Some?
       && PointStation(d.fields["from"]).Some? && PointStation(d.fields["till"]).Some?
       && TimestampFromDict(d.fields["from"]).Some? && TimestampFromDict(d.fields["till"]).Some?)
      ==> r.Some?
  {
    if !(d.JObj? && TrainKeys <= d.fields.Keys) then None
    else
      var types := CoachTypesFromList(d.fields["types"]);
      var source := PointStation(d.fields["from"]);
      var destination := PointStation(d.fields["till"]);
      var departure := TimestampFromDict(d.fields["from"]);
      var arrival := TimestampFromDict(d.fields["till"]);
      if types.None? || source.None? || destination.None? || departure.None? || arrival.None? then None
      else Some(Train(
        category := d.fields["category"],
        model := d.fields["model"],
        num := d.fields["num"],
        travelTime := d.fields["travel_time"],
        coachTypes := types.value,
        sourceStation := source.value,
        destinationStation := destination.value,
        departureTime := departure.value,
        arrivalTime := arrival.value))
  }

  /** `Train.to_dict`: exactly the seven keys, the types written out in order, `from`/`till` as station points. */
  function TrainToDict(t: Train): (r: Json)
    ensures r.JObj? && r.fields.Keys == TrainKeys
    ensures
      && r.fields["category"] == t.category && r.fields["model"] == t.model
      && r.fields["num"] == t.num && r.fields["travel_time"] == t.travelTime
    ensures r.fields["types"].JArr? && |r.fields["types"].items| == |t.coachTypes|
    ensures forall i :: 0 <= i < |t.coachTypes| ==> r.fields["types"].items[i] == CoachTypeToDict(t.coachTypes[i])
    ensures r.fields["from"] == StationPoint(t.departureTime, t.sourceStation)
    ensures r.fields["till"] == StationPoint(t.arrivalTime, t.destinationStation)
  {
    JObj(map[
      "category" := t.category,
      "model" := t.model,
      "num" := t.num,
      "travel_time" := t.travelTime,
      "types" := JArr(seq(|t.coachTypes|, i requires 0 <= i < |t.coachTypes| => CoachTypeToDict(t.coachTypes[i]))),
      "till" := StationPoint(t.arrivalTime, t.destinationStation),
      "from" := StationPoint(t.departureTime, t.sourceStation)])
  }

  /** `Train.__eq__`: trains are equal when their dicts are. */
  predicate SameTrain(a: Train, b: Train) {
    TrainToDict(a) == TrainToDict(b)
  }

  predicate IsStationPointDict(p: Json) {
    p.JObj? && p.fields.Keys == {"station", "station_id", "date", "src_date"} && p.fields["date"].JNum?
  }

  predicate IsTrainDict(d: Json) {
    && d.JObj? && d.fields.Keys == TrainKeys
    && d.fields["types"].JArr?
    && (forall i :: 0 <= i < |d.fields["types"].items| ==> IsCoachTypeDict(d.fields["types"].items[i]))
    && IsStationPointDict(d.fields["from"])
    && IsStationPointDict(d.fields["till"])
  }

  lemma StationPointRoundTrip(p: Json)
    requires IsStationPointDict(p)
    ensures PointStation(p).Some? && TimestampFromDict(p).Some?
    ensures StationPoint(TimestampFromDict(p).value, PointStation(p).value) == p
  {
    assert StationPoint(TimestampFromDict(p).value, PointStation(p).value).fields == p.fields;
  }

  lemma StationPointDecodes(t: UZTimestamp, s: Station)
    ensures IsStationPointDict(StationPoint(t, s))
    ensures PointStation(StationPoint(t, s)) == Some(s) && TimestampFromDict(StationPoint(t, s)) == Some(t)
  {
    var m := StationPoint(t, s).fields;
    assert m.Keys == {"station", "station_id", "date", "src_date"};
    assert m["station"] == s.title && m["station_id"] == s.id;
    assert m["date"] == JNum(t.timestamp) && m["src_date"] == t.strDate;
  }

  /** The coach-type list keeps its order and its length through `from_dict`. */
  lemma CoachTypesInOrder(d: Json)
    requires TrainFromDict(d).Some?
    ensures d.fields["types"].JArr? ==>
      && |TrainFromDict(d).value.coachTypes| == |d.fields["types"].items|
      && forall i :: 0 <= i < |d.fields["types"].items| ==>
           CoachTypeFromDict(d.fields["types"].items[i]) == Some(TrainFromDict(d).value.coachTypes[i])
    ensures !d.fields["types"].JArr? ==>
      TrainFromDict(d).value.coachTypes == [] && (d.fields["types"] == JStr("") || d.fields["types"] == JObj(map[]))
  {
  }

  lemma {:induction false} TrainRoundTrip(d: Json)
    requires IsTrainDict(d)
    ensures TrainFromDict(d).Some? && TrainToDict(TrainFromDict(d).value) == d
  {
    var items := d.fields["types"].items;
    forall i | 0 <= i < |items| ensures CoachTypeFromDict(items[i]).Some? {
      CoachTypeRoundTrip(items[i]);
    }
    StationPointRoundTrip(d.fields["from"]);
    StationPointRoundTrip(d.fields["till"]);
    var t := TrainFromDict(d).value;
    var types := TrainToDict(t).fields["types"];
    assert |types.items| == |items|;
    forall i | 0 <= i < |items| ensures types.items[i] == items[i] {
      CoachTypeRoundTrip(items[i]);
    }
    assert types.items == items;
    assert TrainToDict(t).fields == d.fields;
  }

  lemma {:induction false} TrainDictRoundTrip(t: Train)
    ensures IsTrainDict(TrainToDict(t)) && TrainFromDict(TrainToDict(t)) == Some(t)
  {
    var d := TrainToDict(t);
    var items := d.fields["types"].items;
    assert d.fields.Keys == TrainKeys;
    forall i | 0 <= i < |items|
      ensures IsCoachTypeDict(items[i]) && CoachTypeFromDict(items[i]) == Some(t.coachTypes[i])
    {
      CoachTypeDictRoundTrip(t.coachTypes[i]);
    }
    StationPointDecodes(t.departureTime, t.sourceStation);
    StationPointDecodes(t.arrivalTime, t.destinationStation);
    var types := DecodeAll(items, CoachTypeFromDict);
    assert types.Some? && types.value == t.coachTypes;
  }

  /** Because `to_dict` is invertible, dict equality of trains is plain structural equality. */
  lemma SameTrainIsEquality(a: Train, b: Train)
    ensures SameTrain(a, b) <==> a == b
  {
    if SameTrain(a, b) {
      TrainDictRoundTrip(a);
      TrainDictRoundTrip(b);
    }
  }

  /**
   * Train equality is stricter than station equality: retitling the source
   * station leaves it the same station but makes a different train.
   */
  lemma TrainEqualityComparesStationTitles(t: Train, title: Json)
    requires t.sourceStation.title != title
    ensures SameStation(t.sourceStation, t.sourceStation.(title := title))
    ensures !SameTrain(t, t.(sourceStation := t.sourceStation.(title := title)))
  {
    SameTrainIsEquality(t, t.(sourceStation := t.sourceStation.(title := title)));
  }
}
