/**
 * The seat scanner (uz/scanner.py): a registry of scan jobs keyed by scan id,
 * and one scan attempt per job, which looks the train up, narrows the coach
 * types to the requested letter, searches coach type by coach type, coach by
 * coach and seat by seat for the first seat that can be booked, and on
 * success reports the booking session and drops the job.
 *
 * The booking service is an oracle (`Service`): what the client answers for
 * each train lookup, coach list, seat list and booking.  The job's lock is a
 * flag; an attempt is `BeginAttempt` (take the lock, count the attempt)
 * followed by `FinishAttempt` (everything else, then release the lock), so a
 * second attempt started in between finds the lock held.
 */
module Scanner {
  import opened Wrappers
  import opened Json
  import opened Errors
  import opened Model

  /** A calendar date, as the client receives it for the train search. */
  datatype Date = Date(year: int, month: int, day: int)

  /** A registered scan: the dict `add_item` stores, with `lock` as a flag. */
  datatype Job = Job(
    successCbId: Json,
    firstname: string,
    lastname: string,
    date: Date,
    source: Station,
    destination: Station,
    trainNum: string,
    ctLetter: Option<string>,
    locked: bool,
    attempts: nat,
    error: Option<string>)

  /**
   * What the booking client answers, and what the success callback does.  A
   * seat list is given in the order the scanner iterates the seat set; a
   * successful booking yields the session id the client holds afterwards
   * (`get_session_id`, None without the cookie); `successCb` is the
   * exception `success_cb(success_cb_id, session_id)` raises, or None when
   * it returns.
   */
  datatype Service = Service(
    fetchTrain: (Date, Station, Station, string) -> Result<Option<Train>, Error>,
    listCoaches: (Train, CoachType) -> Result<seq<Coach>, Error>,
    listSeats: (Train, Coach) -> Result<seq<Json>, Error>,
    bookSeat: (Train, Coach, Json, string, string) -> Result<Option<string>, Error>,
    successCb: (Json, string) -> Option<Error>)

  /** How a search ends: a booking (with the session id read afterwards), nothing left to try, or an uncaught error. */
  datatype Search = Found(sessionId: Option<string>) | Exhausted | Failed(error: Error)

  /**
   * How one scan attempt ends: skipped under a held lock, a message recorded
   * on the job, a booking reported to the callback, an exception, or a
   * booking whose callback raised.
   */
  datatype ScanOutcome =
    | Skipped
    | Recorded(message: string)
    | Booked(sessionId: string)
    | Raised(error: Error)
    | CallbackRaised(sessionId: string, error: Error)

  const NoSeatsMessage: string := "No available seats"

  function TrainNotFound(trainNum: string): string {
    "Train " + trainNum + " not found"
  }

  function CoachTypeNotFound(letter: string): string {
    "Coach type " + letter + " not found"
  }

  // ---------------------------------------------------------------- the nested search

  /** Search `first`; only when it has nothing left to try, go on with `next`. */
  function Continue(first: Search, next: Search): Search {
    if first.Exhausted? then next else first
  }

  /** Try the seats of one coach in order; a `ResponseError` from the booking moves on to the next seat. */
  function SeatSearch(svc: Service, train: Train, coach: Coach, seats: seq<Json>, firstname: string, lastname: string): Search
    decreases |seats|
  {
    if seats == [] then Exhausted
    else match svc.bookSeat(train, coach, seats[0], firstname, lastname)
      case Ok(sid) => Found(sid)
      case Err(e) =>
        if IsInstance(e, ResponseError) then SeatSearch(svc, train, coach, seats[1..], firstname, lastname)
        else Failed(e)
  }

  /** Try the coaches in order; a `ResponseError` from the seat list skips the coach. */
  function CoachSearch(svc: Service, train: Train, coaches: seq<Coach>, firstname: string, lastname: string): Search
    decreases |coaches|
  {
    if coaches == [] then Exhausted
    else
      var rest := CoachSearch(svc, train, coaches[1..], firstname, lastname);
      match svc.listSeats(train, coaches[0])
      case Ok(seats) => Continue(SeatSearch(svc, train, coaches[0], seats, firstname, lastname), rest)
      case Err(e) => if IsInstance(e, ResponseError) then rest else Failed(e)
  }

  /** Try the coach types in order; an error from the coach list ends the search. */
  function TypeSearch(svc: Service, train: Train, coachTypes: seq<CoachType>, firstname: string, lastname: string): Search
    decreases |coachTypes|
  {
    if coachTypes == [] then Exhausted
    else match svc.listCoaches(train, coachTypes[0])
      case Ok(coaches) =>
        Continue(CoachSearch(svc, train, coaches, firstname, lastname),
                 TypeSearch(svc, train, coachTypes[1..], firstname, lastname))
      case Err(e) => Failed(e)
  }

  /** The booking of this seat failed with a `ResponseError`. */
  predicate SeatRejected(svc: Service, train: Train, coach: Coach, seat: Json, firstname: string, lastname: string) {
    var b := svc.bookSeat(train, coach, seat, firstname, lastname);
    b.Err? && IsInstance(b.error, ResponseError)
  }

  predicate SeatsRejected(svc: Service, train: Train, coach: Coach, seats: seq<Json>, firstname: string, lastname: string) {
    forall k :: 0 <= k < |seats| ==> SeatRejected(svc, train, coach, seats[k], firstname, lastname)
  }

  /** The coach's seat list failed with a `ResponseError`, or every one of its seats was rejected. */
  predicate CoachRejected(svc: Service, train: Train, coach: Coach, firstname: string, lastname: string) {
    var s := svc.listSeats(train, coach);
    (s.Err? && IsInstance(s.error, ResponseError)) || (s.Ok? && SeatsRejected(svc, train, coach, s.value, firstname, lastname))
  }

  predicate CoachesRejected(svc: Service, train: Train, coaches: seq<Coach>, firstname: string, lastname: string) {
    forall j :: 0 <= j < |coaches| ==> CoachRejected(svc, train, coaches[j], firstname, lastname)
  }

  /** Every coach type listed its coaches, and every coach of every type was rejected. */
  predicate TypesRejected(svc: Service, train: Train, coachTypes: seq<CoachType>, firstname: string, lastname: string) {
    forall i :: 0 <= i < |coachTypes| ==>
      var c := svc.listCoaches(train, coachTypes[i]);
      c.Ok? && CoachesRejected(svc, train, c.value, firstname, lastname)
  }

  lemma {:induction false} SeatSearchExhaustedIff(svc: Service, train: Train, coach: Coach, seats: seq<Json>, firstname: string, lastname: string)
    ensures SeatSearch(svc, train, coach, seats, firstname, lastname) == Exhausted <==> SeatsRejected(svc, train, coach, seats, firstname, lastname)
    decreases |seats|
  {
    if seats != [] {
      SeatSearchExhaustedIff(svc, train, coach, seats[1..], firstname, lastname);
      assert forall k :: 1 <= k < |seats| ==> seats[k] == seats[1..][k - 1];
    }
  }

  lemma {:induction false} CoachSearchExhaustedIff(svc: Service, train: Train, coaches: seq<Coach>, firstname: string, lastname: string)
    ensures CoachSearch(svc, train, coaches, firstname, lastname) == Exhausted <==> CoachesRejected(svc, train, coaches, firstname, lastname)
    decreases |coaches|
  {
    if coaches != [] {
      CoachSearchExhaustedIff(svc, train, coaches[1..], firstname, lastname);
      var s := svc.listSeats(train, coaches[0]);
      if s.Ok? {
        SeatSearchExhaustedIff(svc, train, coaches[0], s.value, firstname, lastname);
      }
      assert forall j :: 1 <= j < |coaches| ==> coaches[j] == coaches[1..][j - 1];
    }
  }

  /**
   * The search finds nothing exactly when every combination was tried and
   * rejected: every coach list arrived, and every coach was skipped or had
   * all its bookings refused with a `ResponseError`.
   */
  lemma {:induction false} ExhaustedIffAllRejected(svc: Service, train: Train, coachTypes: seq<CoachType>, firstname: string, lastname: string)
    ensures TypeSearch(svc, train, coachTypes, firstname, lastname) == Exhausted <==> TypesRejected(svc, train, coachTypes, firstname, lastname)
    decreases |coachTypes|
  {
    if coachTypes != [] {
      ExhaustedIffAllRejected(svc, train, coachTypes[1..], firstname, lastname);
      var c := svc.listCoaches(train, coachTypes[0]);
      if c.Ok? {
        CoachSearchExhaustedIff(svc, train, c.value, firstname, lastname);
      }
      assert forall i :: 1 <= i < |coachTypes| ==> coachTypes[i] == coachTypes[1..][i - 1];
    }
  }

  lemma {:induction false} SeatFoundIsFirst(svc: Service, train: Train, coach: Coach, seats: seq<Json>, firstname: string, lastname: string)
    returns (k: nat)
    requires SeatSearch(svc, train, coach, seats, firstname, lastname).Found?
    ensures k < |seats|
    ensures svc.bookSeat(train, coach, seats[k], firstname, lastname) == Ok(SeatSearch(svc, train, coach, seats, firstname, lastname).sessionId)
    ensures SeatsRejected(svc, train, coach, seats[..k], firstname, lastname)
    decreases |seats|
  {
    if svc.bookSeat(train, coach, seats[0], firstname, lastname).Ok? {
      k := 0;
    } else {
      var k' := SeatFoundIsFirst(svc, train, coach, seats[1..], firstname, lastname);
      k := k' + 1;
      assert seats[..k] == [seats[0]] + seats[1..][..k'];
    }
  }

  lemma {:induction false} CoachFoundIsFirst(svc: Service, train: Train, coaches: seq<Coach>, firstname: string, lastname: string)
    returns (j: nat, k: nat)
    requires CoachSearch(svc, train, coaches, firstname, lastname).Found?
    ensures j < |coaches| && svc.listSeats(train, coaches[j]).Ok?
    ensures var seats := svc.listSeats(train, coaches[j]).value;
      && k < |seats|
      && svc.bookSeat(train, coaches[j], seats[k], firstname, lastname) == Ok(CoachSearch(svc, train, coaches, firstname, lastname).sessionId)
      && SeatsRejected(svc, train, coaches[j], seats[..k], firstname, lastname)
    ensures CoachesRejected(svc, train, coaches[..j], firstname, lastname)
    decreases |coaches|
  {
    var s := svc.listSeats(train, coaches[0]);
    if s.Ok? && SeatSearch(svc, train, coaches[0], s.value, firstname, lastname).Found? {
      j := 0;
      k := SeatFoundIsFirst(svc, train, coaches[0], s.value, firstname, lastname);
    } else {
      if s.Ok? {
        SeatSearchExhaustedIff(svc, train, coaches[0], s.value, firstname, lastname);
      }
      var j';
      j', k := CoachFoundIsFirst(svc, train, coaches[1..], firstname, lastname);
      j := j' + 1;
      assert coaches[..j] == [coaches[0]] + coaches[1..][..j'];
    }
  }

  /**
   * A found booking is the first bookable (coach type, coach, seat) in
   * service order: every combination before it was rejected.
   */
  lemma {:induction false} FoundIsFirstSuccess(svc: Service, train: Train, coachTypes: seq<CoachType>, firstname: string, lastname: string)
    returns (i: nat, j: nat, k: nat)
    requires TypeSearch(svc, train, coachTypes, firstname, lastname).Found?
    ensures i < |coachTypes| && svc.listCoaches(train, coachTypes[i]).Ok?
    ensures var coaches := svc.listCoaches(train, coachTypes[i]).value;
      && j < |coaches| && svc.listSeats(train, coaches[j]).Ok?
      && k < |svc.listSeats(train, coaches[j]).value|
      && svc.bookSeat(train, coaches[j], svc.listSeats(train, coaches[j]).value[k], firstname, lastname)
           == Ok(TypeSearch(svc, train, coachTypes, firstname, lastname).sessionId)
      && SeatsRejected(svc, train, coaches[j], svc.listSeats(train, coaches[j]).value[..k], firstname, lastname)
      && CoachesRejected(svc, train, coaches[..j], firstname, lastname)
    ensures TypesRejected(svc, train, coachTypes[..i], firstname, lastname)
    decreases |coachTypes|
  {
    var c := svc.listCoaches(train, coachTypes[0]);
    if CoachSearch(svc, train, c.value, firstname, lastname).Found? {
      i := 0;
      j, k := CoachFoundIsFirst(svc, train, c.value, firstname, lastname);
    } else {
      CoachSearchExhaustedIff(svc, train, c.value, firstname, lastname);
      var i';
      i', j, k := FoundIsFirstSuccess(svc, train, coachTypes[1..], firstname, lastname);
      i := i' + 1;
      assert coachTypes[..i] == [coachTypes[0]] + coachTypes[1..][..i'];
    }
  }

  /** `except ResponseError` swallows every `ResponseError` raised for a seat list or a booking. */
  lemma {:induction false} CoachSearchKeepsNoResponseError(svc: Service, train: Train, coaches: seq<Coach>, firstname: string, lastname: string)
    ensures CoachSearch(svc, train, coaches, firstname, lastname).Failed? ==>
      !IsInstance(CoachSearch(svc, train, coaches, firstname, lastname).error, ResponseError)
    decreases |coaches|
  {
    if coaches != [] {
      CoachSearchKeepsNoResponseError(svc, train, coaches[1..], firstname, lastname);
      var s := svc.listSeats(train, coaches[0]);
      if s.Ok? {
        SeatSearchKeepsNoResponseError(svc, train, coaches[0], s.value, firstname, lastname);
      }
    }
  }

  lemma {:induction false} SeatSearchKeepsNoResponseError(svc: Service, train: Train, coach: Coach, seats: seq<Json>, firstname: string, lastname: string)
    ensures SeatSearch(svc, train, coach, seats, firstname, lastname).Failed? ==>
      !IsInstance(SeatSearch(svc, train, coach, seats, firstname, lastname).error, ResponseError)
    decreases |seats|
  {
    if seats != [] {
      SeatSearchKeepsNoResponseError(svc, train, coach, seats[1..], firstname, lastname);
    }
  }

  // ---------------------------------------------------------------- `book` as written

  /**
   * `book` as written passes `source` and `destination` on to
   * `list_coaches`, `list_seats` and `book_seat`, none of which accepts
   * them: the first `list_coaches` call raises `TypeError`, before anything
   * is sent, whatever the service would have answered.
   */
  function BookAsWritten(coachTypes: seq<CoachType>): (r: Search)
    ensures r.Found? ==> false
    ensures r.Exhausted? <==> coachTypes == []
    ensures r.Failed? ==> !IsInstance(r.error, UZException)
  {
    if coachTypes == [] then Exhausted
    else Failed(ForeignFailure("TypeError: list_coaches() takes 3 positional arguments but 5 were given"))
  }

  /** A service with a free seat in the only coach: the intended search books it, the written one raises. */
  lemma ArityMismatchLosesBooking(train: Train, ct: CoachType, coach: Coach)
    ensures
      var svc := Service(
        (d, s, t, n) => Ok(Some(train)),
        (tr, c) => Ok([coach]),
        (tr, c) => Ok([JStr("1")]),
        (tr, c, seat, f, l) => Ok(Some("ssid")),
        (id, sid) => None);
      && TypeSearch(svc, train, [ct], "firstname", "lastname") == Found(Some("ssid"))
      && BookAsWritten([ct]).Failed?
  {
    var svc := Service(
      (d, s, t, n) => Ok(Some(train)),
      (tr, c) => Ok([coach]),
      (tr, c) => Ok([JStr("1")]),
      (tr, c, seat, f, l) => Ok(Some("ssid")),
      (id, sid) => None);
    assert SeatSearch(svc, train, coach, [JStr("1")], "firstname", "lastname") == Found(Some("ssid"));
    assert CoachSearch(svc, train, [coach], "firstname", "lastname") == Found(Some("ssid"));
  }

  // ---------------------------------------------------------------- one attempt

  /** The first coach type carrying `letter`, or None. */
  function FirstCoachTypeWithLetter(coachTypes: seq<CoachType>, letter: Json): (r: Option<CoachType>)
    ensures r.None? <==> forall i :: 0 <= i < |coachTypes| ==> coachTypes[i].letter != letter
    ensures r.Some? ==> exists i :: (0 <= i < |coachTypes| && coachTypes[i] == r.value && r.value.letter == letter
                                     && forall m :: 0 <= m < i ==> coachTypes[m].letter != letter)
    decreases |coachTypes|
  {
    if coachTypes == [] then None
    else if coachTypes[0].letter == letter then Some(coachTypes[0])
    else
      var r := FirstCoachTypeWithLetter(coachTypes[1..], letter);
      assert forall i :: 1 <= i < |coachTypes| ==> coachTypes[i] == coachTypes[1..][i - 1];
      if r.Some? then
        var i' :| 0 <= i' < |coachTypes[1..]| && coachTypes[1..][i'] == r.value && r.value.letter == letter
          && forall m :: 0 <= m < i' ==> coachTypes[1..][m].letter != letter;
        assert coachTypes[i' + 1] == r.value;
        r
      else r
  }

  /** Python truthiness of the job's `ct_letter`: None and "" both mean "any coach type". */
  predicate HasLetter(job: Job) {
    job.ctLetter.Some? && job.ctLetter.value != ""
  }

  /**
   * How a search result is reported: a session id goes to the success
   * callback, and the booking stands unless the callback raises; None and an
   * exhausted search are "No available seats".
   */
  function SearchOutcome(job: Job, svc: Service, s: Search): ScanOutcome {
    match s
    case Found(Some(sid)) =>
      (match svc.successCb(job.successCbId, sid)
       case None => Booked(sid)
       case Some(e) => CallbackRaised(sid, e))
    case Found(None) => Recorded(NoSeatsMessage)
    case Exhausted => Recorded(NoSeatsMessage)
    case Failed(e) => Raised(e)
  }

  /** What an attempt on `job` (lock taken, attempt counted) ends with. */
  function AttemptOutcome(job: Job, svc: Service): ScanOutcome {
    match svc.fetchTrain(job.date, job.source, job.destination, job.trainNum)
    case Err(e) => Raised(e)
    case Ok(None) => Recorded(TrainNotFound(job.trainNum))
    case Ok(Some(train)) =>
      if HasLetter(job) then
        match FirstCoachTypeWithLetter(train.coachTypes, JStr(job.ctLetter.value))
        case None => Recorded(CoachTypeNotFound(job.ctLetter.value))
        case Some(ct) => SearchOutcome(job, svc, TypeSearch(svc, train, [ct], job.firstname, job.lastname))
      else SearchOutcome(job, svc, TypeSearch(svc, train, train.coachTypes, job.firstname, job.lastname))
  }

  /** The coach types an attempt searches once the train is found: the matching one, or all in train order. */
  function SearchedTypes(job: Job, train: Train): seq<CoachType> {
    if HasLetter(job) then
      match FirstCoachTypeWithLetter(train.coachTypes, JStr(job.ctLetter.value))
      case None => []
      case Some(ct) => [ct]
    else train.coachTypes
  }

  /**
   * A booking reported by an attempt (whether or not the callback then
   * raised) was made on a seat of a coach of a searched coach type of the
   * looked-up train, and the session id reported is the one the booking
   * yielded.
   */
  lemma BookedMeansSeatBooked(job: Job, svc: Service) returns (train: Train, ct: CoachType, coach: Coach, seat: Json)
    requires AttemptOutcome(job, svc).Booked? || AttemptOutcome(job, svc).CallbackRaised?
    ensures svc.fetchTrain(job.date, job.source, job.destination, job.trainNum) == Ok(Some(train))
    ensures ct in train.coachTypes && (HasLetter(job) ==> ct.letter == JStr(job.ctLetter.value))
    ensures svc.listCoaches(train, ct).Ok? && coach in svc.listCoaches(train, ct).value
    ensures svc.listSeats(train, coach).Ok? && seat in svc.listSeats(train, coach).value
    ensures svc.bookSeat(train, coach, seat, job.firstname, job.lastname) == Ok(Some(AttemptOutcome(job, svc).sessionId))
  {
    train := svc.fetchTrain(job.date, job.source, job.destination, job.trainNum).value.value;
    var types := SearchedTypes(job, train);
    assert TypeSearch(svc, train, types, job.firstname, job.lastname).Found?;
    var i, j, k := FoundIsFirstSuccess(svc, train, types, job.firstname, job.lastname);
    ct := types[i];
    coach := svc.listCoaches(train, ct).value[j];
    seat := svc.listSeats(train, coach).value[k];
  }

  /**
   * "No available seats" is reported exactly when the train was found, a
   * coach type to search was found, and either every combination was
   * rejected or the booking left no session id.
   */
  lemma NoSeatsMeansAllRejected(job: Job, svc: Service)
    requires svc.fetchTrain(job.date, job.source, job.destination, job.trainNum).Ok?
    requires svc.fetchTrain(job.date, job.source, job.destination, job.trainNum).value.Some?
    ensures var train := svc.fetchTrain(job.date, job.source, job.destination, job.trainNum).value.value;
      (AttemptOutcome(job, svc) == Recorded(NoSeatsMessage) <==>
        && (HasLetter(job) ==> FirstCoachTypeWithLetter(train.coachTypes, JStr(job.ctLetter.value)).Some?)
        && (TypesRejected(svc, train, SearchedTypes(job, train), job.firstname, job.lastname)
            || TypeSearch(svc, train, SearchedTypes(job, train), job.firstname, job.lastname) == Found(None)))
  {
    var train := svc.fetchTrain(job.date, job.source, job.destination, job.trainNum).value.value;
    ExhaustedIffAllRejected(svc, train, SearchedTypes(job, train), job.firstname, job.lastname);
    if HasLetter(job) && FirstCoachTypeWithLetter(train.coachTypes, JStr(job.ctLetter.value)).None? {
      assert AttemptOutcome(job, svc) == Recorded(CoachTypeNotFound(job.ctLetter.value));
      assert CoachTypeNotFound(job.ctLetter.value)[0] == 'C';
    }
  }

  /** The error a failed train lookup or coach-type filter records names what was looked for. */
  lemma RecordedMessages(job: Job, svc: Service)
    ensures svc.fetchTrain(job.date, job.source, job.destination, job.trainNum) == Ok(None) ==>
      AttemptOutcome(job, svc) == Recorded("Train " + job.trainNum + " not found")
    ensures var found := svc.fetchTrain(job.date, job.source, job.destination, job.trainNum);
      (&& found.Ok? && found.value.Some? && HasLetter(job)
       && (forall ct :: ct in found.value.value.coachTypes ==> ct.letter != JStr(job.ctLetter.value)))
      ==> AttemptOutcome(job, svc) == Recorded("Coach type " + job.ctLetter.value + " not found")
  {
  }

  /** A fresh scan id always exists: one longer than every id in use. */
  lemma FreshId(used: set<string>) returns (id: string)
    ensures id !in used
  {
    var n := LongerThanAll(used);
    id := seq(n, _ => 'a');
  }

  lemma {:induction false} LongerThanAll(used: set<string>) returns (n: nat)
    ensures forall s :: s in used ==> |s| < n
    decreases |used|
  {
    if used == {} {
      n := 0;
    } else {
      var x :| x in used;
      var m := LongerThanAll(used - {x});
      n := if |x| + 1 > m then |x| + 1 else m;
    }
  }

  class UZScanner {
    /** The registry: scan id to job. */
    var state: map<string, Job>
    /** The `success_cb(success_cb_id, session_id)` calls made so far, in order. */
    var notifications: seq<(Json, string)>

    constructor ()
      ensures state == map[] && notifications == []
    {
      state := map[];
      notifications := [];
    }

    /** `add_item`: registers a new job under `scanId`, a fresh id (`uuid4`). */
    method AddItem(successCbId: Json, firstname: string, lastname: string, date: Date, source: Station,
                   destination: Station, trainNum: string, ctLetter: Option<string>, scanId: string)
      returns (r: string)
      requires scanId !in state
      modifies this`state
      ensures r == scanId && r !in old(state)
      ensures state == old(state)[r := Job(successCbId, firstname, lastname, date, source, destination,
                                           trainNum, ctLetter, false, 0, None)]
    {
      state := state[scanId := Job(successCbId, firstname, lastname, date, source, destination,
                                   trainNum, ctLetter, false, 0, None)];
      r := scanId;
    }

    /** `status`: the attempt count and last error of a registered job, or `UknkownScanID`. */
    method Status(scanId: string) returns (r: Result<(nat, Option<string>), Error>)
      ensures scanId !in state ==> r == Err(UnknownScanFailure(scanId)) && IsInstance(r.error, UknkownScanID)
      ensures scanId in state ==> r == Ok((state[scanId].attempts, state[scanId].error))
    {
      if scanId !in state {
        return Err(UnknownScanFailure(scanId));
      }
      var job := state[scanId];
      return Ok((job.attempts, job.error));
    }

    /** `abort`: removes a registered job and answers true, or raises `UknkownScanID`. */
    method Abort(scanId: string) returns (r: Result<bool, Error>)
      modifies this`state
      ensures scanId in old(state) ==> r == Ok(true) && state == old(state) - {scanId}
      ensures scanId !in old(state) ==> r == Err(UnknownScanFailure(scanId)) && state == old(state)
      ensures scanId !in state
    {
      if scanId in state {
        state := state - {scanId};
        return Ok(true);
      }
      return Err(UnknownScanFailure(scanId));
    }

    /** `handle_error`: records the error message on the job. */
    method HandleError(scanId: string, error: string)
      requires scanId in state
      modifies this`state
      ensures state == old(state)[scanId := old(state)[scanId].(error := Some(error))]
    {
      state := state[scanId := state[scanId].(error := Some(error))];
    }

    /** `find_coach_type`: the first coach type of the train carrying the letter, or None. */
    static method FindCoachType(train: Train, letter: string) returns (r: Option<CoachType>)
      ensures r == FirstCoachTypeWithLetter(train.coachTypes, JStr(letter))
      ensures r.None? <==> forall i :: 0 <= i < |train.coachTypes| ==> train.coachTypes[i].letter != JStr(letter)
    {
      var i := 0;
      while i < |train.coachTypes|
        invariant 0 <= i <= |train.coachTypes|
        invariant FirstCoachTypeWithLetter(train.coachTypes, JStr(letter)) == FirstCoachTypeWithLetter(train.coachTypes[i..], JStr(letter))
      {
        if train.coachTypes[i].letter == JStr(letter) {
          return Some(train.coachTypes[i]);
        }
        assert train.coachTypes[i..][1..] == train.coachTypes[i + 1..];
        i := i + 1;
      }
      return None;
    }

    /**
     * `book`, with each client call given the arguments the client accepts:
     * coach types, coaches and seats in service order, `ResponseError` from
     * a seat list or a booking skipped, anything else raised, and the first
     * booking that goes through answered with the session id.
     */
    static method Book(train: Train, source: Station, destination: Station, coachTypes: seq<CoachType>,
                       firstname: string, lastname: string, svc: Service)
      returns (r: Search)
      ensures r == TypeSearch(svc, train, coachTypes, firstname, lastname)
    {
      var i := 0;
      while i < |coachTypes|
        invariant 0 <= i <= |coachTypes|
        invariant TypeSearch(svc, train, coachTypes, firstname, lastname) == TypeSearch(svc, train, coachTypes[i..], firstname, lastname)
      {
        assert coachTypes[i..][1..] == coachTypes[i + 1..];
        var coaches := svc.listCoaches(train, coachTypes[i]);
        if coaches.Err? {
          return Failed(coaches.error);
        }
        ghost var nextTypes := TypeSearch(svc, train, coachTypes[i + 1..], firstname, lastname);
        var j := 0;
        while j < |coaches.value|
          invariant 0 <= j <= |coaches.value|
          invariant TypeSearch(svc, train, coachTypes, firstname, lastname)
                    == Continue(CoachSearch(svc, train, coaches.value[j..], firstname, lastname), nextTypes)
        {
          assert coaches.value[j..][1..] == coaches.value[j + 1..];
          var coach := coaches.value[j];
          ghost var nextCoaches := CoachSearch(svc, train, coaches.value[j + 1..], firstname, lastname);
          var seats := svc.listSeats(train, coach);
          if seats.Err? {
            if IsInstance(seats.error, ResponseError) {
              j := j + 1;
              continue;
            }
            return Failed(seats.error);
          }
          var k := 0;
          while k < |seats.value|
            invariant 0 <= k <= |seats.value|
            invariant TypeSearch(svc, train, coachTypes, firstname, lastname)
                      == Continue(Continue(SeatSearch(svc, train, coach, seats.value[k..], firstname, lastname), nextCoaches), nextTypes)
          {
            assert seats.value[k..][1..] == seats.value[k + 1..];
            var booked := svc.bookSeat(train, coach, seats.value[k], firstname, lastname);
            if booked.Ok? {
              return Found(booked.value);
            }
            if !IsInstance(booked.error, ResponseError) {
              return Failed(booked.error);
            }
            k := k + 1;
          }
          j := j + 1;
        }
        i := i + 1;
      }
      return Exhausted;
    }

    /** The first half of `scan`: skip a locked job, otherwise take its lock and count the attempt. */
    method BeginAttempt(scanId: string) returns (skipped: bool)
      requires scanId in state
      modifies this`state
      ensures skipped == old(state)[scanId].locked
      ensures skipped ==> state == old(state)
      ensures !skipped ==> state == old(state)[scanId := old(state)[scanId].(locked := true, attempts := old(state)[scanId].attempts + 1)]
    {
      var job := state[scanId];
      if job.locked {
        return true;
      }
      state := state[scanId := job.(locked := true, attempts := job.attempts + 1)];
      return false;
    }

    /**
     * The rest of `scan`, under the lock: look the train up, pick the coach
     * types, search; record a failure on the job, or report the booking to
     * the success callback and remove the job.  When the callback raises,
     * `abort` is never reached and the job stays registered.  The lock is
     * released on every path.
     */
    method FinishAttempt(scanId: string, svc: Service) returns (outcome: ScanOutcome)
      requires scanId in state && state[scanId].locked
      modifies this`state, this`notifications
      ensures var job := old(state)[scanId];
        && outcome == AttemptOutcome(job, svc)
        && (outcome.Recorded? ==> state == old(state)[scanId := job.(locked := false, error := Some(outcome.message))])
        && (outcome.Raised? ==> state == old(state)[scanId := job.(locked := false)])
        && (outcome.Booked? ==> state == old(state) - {scanId})
        && (outcome.CallbackRaised? ==> state == old(state)[scanId := job.(locked := false)])
        && (outcome.Booked? || outcome.CallbackRaised? ==>
              notifications == old(notifications) + [(job.successCbId, outcome.sessionId)])
        && (!outcome.Booked? && !outcome.CallbackRaised? ==> notifications == old(notifications))
    {
      var job := state[scanId];
      var found := svc.fetchTrain(job.date, job.source, job.destination, job.trainNum);
      if found.Err? {
        state := state[scanId := job.(locked := false)];
        return Raised(found.error);
      }
      if found.value.None? {
        HandleError(scanId, TrainNotFound(job.trainNum));
        state := state[scanId := state[scanId].(locked := false)];
        return Recorded(TrainNotFound(job.trainNum));
      }
      var train := found.value.value;
      var coachTypes: seq<CoachType>;
      if HasLetter(job) {
        var ct := FindCoachType(train, job.ctLetter.value);
        if ct.None? {
          HandleError(scanId, CoachTypeNotFound(job.ctLetter.value));
          state := state[scanId := state[scanId].(locked := false)];
          return Recorded(CoachTypeNotFound(job.ctLetter.value));
        }
        coachTypes := [ct.value];
      } else {
        coachTypes := train.coachTypes;
      }
      var search := Book(train, job.source, job.destination, coachTypes, job.firstname, job.lastname, svc);
      if search.Failed? {
        state := state[scanId := job.(locked := false)];
        return Raised(search.error);
      }
      if search.Exhausted? || search.sessionId.None? {
        HandleError(scanId, NoSeatsMessage);
        state := state[scanId := state[scanId].(locked := false)];
        return Recorded(NoSeatsMessage);
      }
      notifications := notifications + [(job.successCbId, search.sessionId.value)];
      var failure := svc.successCb(job.successCbId, search.sessionId.value);
      if failure.Some? {
        state := state[scanId := job.(locked := false)];
        return CallbackRaised(search.sessionId.value, failure.value);
      }
      var _ := Abort(scanId);
      return Booked(search.sessionId.value);
    }

    /** `scan`: one attempt on a registered job. */
    method Scan(scanId: string, svc: Service) returns (outcome: ScanOutcome)
      requires scanId in state
      modifies this`state, this`notifications
      ensures old(state)[scanId].locked ==> outcome == Skipped && state == old(state) && notifications == old(notifications)
      ensures !old(state)[scanId].locked ==>
        var job := old(state)[scanId].(attempts := old(state)[scanId].attempts + 1);
        && outcome == AttemptOutcome(job, svc)
        && (outcome.Recorded? ==> state == old(state)[scanId := job.(error := Some(outcome.message))])
        && (outcome.Raised? ==> state == old(state)[scanId := job])
        && (outcome.Booked? ==> state == old(state) - {scanId})
        && (outcome.CallbackRaised? ==> state == old(state)[scanId := job])
        && (outcome.Booked? || outcome.CallbackRaised? ==>
              notifications == old(notifications) + [(job.successCbId, outcome.sessionId)])
        && (!outcome.Booked? && !outcome.CallbackRaised? ==> notifications == old(notifications))
    {
      var skipped := BeginAttempt(scanId);
      if skipped {
        return Skipped;
      }
      outcome := FinishAttempt(scanId, svc);
    }
  }

  /**
   * The registry life cycle: a new job reports no attempts and no error; it
   * can be aborted once; afterwards both `status` and `abort` raise
   * `UknkownScanID`.
   */
  method Lifecycle(station: Station) returns (first: Result<(nat, Option<string>), Error>, aborted: Result<bool, Error>,
                                              after: Result<(nat, Option<string>), Error>, again: Result<bool, Error>)
    ensures first == Ok((0, None)) && aborted == Ok(true)
    ensures after.Err? && IsInstance(after.error, UknkownScanID)
    ensures again.Err? && IsInstance(again.error, UknkownScanID)
  {
    var scanner := new UZScanner();
    var id := scanner.AddItem(JStr("id123"), "firstname", "lastname", Date(2016, 1, 1), station, station,
                              "741K", Some("C1"), "scan-0");
    first := scanner.Status(id);
    aborted := scanner.Abort(id);
    after := scanner.Status(id);
    again := scanner.Abort(id);
  }

  /**
   * A second attempt started while the first holds the lock does nothing:
   * the attempt count stays at one and no error is recorded.
   */
  method Exclusivity(station: Station, svc: Service) returns (outcome: ScanOutcome, status: Result<(nat, Option<string>), Error>)
    ensures outcome == Skipped
    ensures status == Ok((1, None))
  {
    var scanner := new UZScanner();
    var id := scanner.AddItem(JStr("id123"), "firstname", "lastname", Date(2016, 1, 1), station, station,
                              "741K", None, "scan-0");
    var skipped := scanner.BeginAttempt(id);
    outcome := scanner.Scan(id, svc);
    status := scanner.Status(id);
  }
}
