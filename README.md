# A verified model of the UZ booking client and seat scanner

This project models the core of a bot that books seats on Ukrainian Railways
(booking.uz.gov.ua). It has four parts.

- **The records** (`model.dfy`): stations, coach types, coaches, timestamps and
  trains, with their wire format (`from_dict` and `to_dict`), the key renamings,
  the merged station-and-time "point" of a train, and the three equality
  notions. Stations compare by id, timestamps by epoch, trains by their whole
  dict.
- **The booking client**, in two versions. `client.dfy` models the packaged
  client `uz/client/client.py`. `legacy_client.dfy` models its older twin
  `uz/client.py`. Shared logic that needs no state is in `protocol.dfy`:
  - the URI scheme and token staleness;
  - the response classifier at the end of `call`;
  - the reply decoders and selectors (first station, first train with a number,
    set union of seats);
  - the request forms, and the loop that fills the `places[0][key]` booking form.

  The client classes hold the session, the cookie jar, the token, its date and
  (packaged client only) the cached random user agent. Their methods update
  those fields as the Python methods do, with one exception: the packaged
  client's `call` uses the corrected `get_headers` recorded under
  "## Findings".
- **The error taxonomy** (`errors.dfy`): the class hierarchy with `issubclass`
  and `isinstance`, and the four fields an `HTTPError` carries.
- **The scanner** (`scanner.dfy`):
  - a class holding the registry `map<string, Job>`, with `add_item`, `status`,
    `abort` and `handle_error`;
  - the coach-type lookup;
  - the nested coach type, coach and seat search of `book`;
  - one `scan` attempt as a state machine over the job record: the lock flag,
    the attempt counter, the error message, the success notification and the
    removal of the job.

The network, the clock, the token extractor and the random user-agent
generator are not modelled; they are fields of an `Env` value passed to every
client operation:
- `net` maps the request sent to the response received;
- `now` is one clock reading per operation;
- `parseToken` is the token extractor;
- `randomAgent(n)` is the n-th random agent.

When the scanner uses the client, the client is an oracle `Service`: what
the booking service answers to each train lookup, coach list, seat list and
booking.

Python values decoded from JSON are the `Json` datatype. A dict is a
`map<string, Json>`, so Python's dict equality is map equality and key order
is not modelled.

Where the tests and the code disagree, the model follows the code. The
scanner test expects `book(train, coach_types, firstname, lastname)`
(uz/tests/test_scanner.py:128-129). The scanner calls `book` with the source
and destination stations as well (uz/scanner.py:131), and the model keeps the
source's six arguments.

## Model

| member | source | states |
|---|---|---|
| Errors.NewHttpError | uz/client/exceptions.py:9-18 | An `HTTPError` (or `BadRequest` or `ResponseError`) stores status code, body, data and json exactly as passed; data and json default to None; the result is an `HTTPError` and a `UZException` |
| Errors.Taxonomy | uz/client/exceptions.py:1-30 | `BadRequest` and `ResponseError` are `HTTPError`s and not each other; `FailedObtainToken` and `ImproperlyConfigured` are not `HTTPError`s; `UknkownScanID` is not a `UZException`; every class is an `Exception` |
| Errors.RootIsAncestor | uz/client/exceptions.py:1-30 | Every class in the hierarchy descends from `Exception` |
| Errors.ClientErrorsAreUZExceptions | uz/client.py:176-205 | Every error the clients raise (token, HTTP family, configuration) is a `UZException`; an unknown scan id and errors from outside the taxonomy are not |
| Errors.HttpFamilyIsUZ | uz/client/exceptions.py:9-26 | Every `HTTPError` subclass is a `UZException` subclass |
| Errors.CatchingResponseError | uz/client/exceptions.py:25-26 | `except ResponseError` catches exactly the errors raised as `ResponseError` |
| Model.DecodeIterated | uz/model.py:66 | A comprehension over a record decoder: a list decodes iff every element does, pointwise and in order; an empty string or dict gives `[]`; any other value raises |
| Model.StationFromDict | uz/model.py:191-193 | Decodes iff the dict holds `station_id` and `title`, keeping both values |
| Model.StationToDict | uz/model.py:195-198 | A dict with exactly `station_id` and `title`, holding the id and the title |
| Model.SameStation | uz/model.py:188-189 | `Station.__eq__`: the ids are equal |
| Model.TimestampFromDict | uz/model.py:220-222 | Decodes iff `date` and `src_date` are present and the date is a number |
| Model.TimestampToDict | uz/model.py:224-228 | A dict with exactly `date` and `src_date` |
| Model.SameTimestamp | uz/model.py:217-218 | `UZTimestamp.__eq__`: the epochs are equal |
| Model.CoachTypeFromDict | uz/model.py:110-112 | Decodes iff `letter`, `places` and `title` are present, keeping their values |
| Model.CoachTypeToDict | uz/model.py:114-118 | A dict with exactly `letter`, `places` and `title` |
| Model.CoachFromDict | uz/model.py:150-161 | Decodes iff all nine wire keys are present; each attribute holds the value of its wire key (`klass` from `coach_class`, `typeId` from `coach_type_id`, `placesCnt` from `places_cnt`, and so on) |
| Model.CoachToDict | uz/model.py:163-173 | A dict with exactly the nine wire keys, each holding the attribute `from_dict` reads it into |
| Model.StationPoint | uz/model.py:75-81 | `_station_point`: exactly `station`, `station_id`, `date` and `src_date`, from the station title and id and the timestamp |
| Model.PointStation | uz/model.py:66-69 | The station of a `from`/`till` entry, read from `station_id` and `station`; raises when either is missing |
| Model.CoachTypesFromList | uz/model.py:66 | The `types` list decodes iff every entry decodes, pointwise and in order; an empty string or dict gives no coach types; anything else raises |
| Model.TrainFromDict | uz/model.py:59-73 | Decodes iff the seven keys are present and the types, the two stations and the two timestamps decode; `category`, `model`, `num` and `travel_time` are taken as they are, and the other attributes are exactly those decoded parts |
| Model.TrainToDict | uz/model.py:83-94 | A dict with exactly the seven keys: `category`, `model`, `num` and `travel_time` hold the attributes, the coach types are written out in order, and `from`/`till` are station points |
| Model.SameTrain | uz/model.py:41-42 | `Train.__eq__`: the two `to_dict` dicts are equal |
| Model.DecodeAll | uz/model.py:66 | Decoding a list succeeds iff every element decodes; the result has the same length and holds each element's decoding at the same index |
| Model.StationRoundTrip | uz/model.py:191-198 | `to_dict(from_dict(d)) == d` for every dict with keys `station_id` and `title` |
| Model.StationDictRoundTrip | uz/model.py:191-198 | `from_dict(to_dict(s)) == s` for every station |
| Model.StationEqualityByWireId | uz/model.py:188-189 | Two decoded stations are equal iff their `station_id`s are equal, whatever their titles |
| Model.TimestampRoundTrip | uz/model.py:220-228 | A timestamp dict with a numeric `date` round-trips, and `src_date` is kept verbatim |
| Model.TimestampDictRoundTrip | uz/model.py:220-228 | `from_dict(to_dict(t)) == t` for every timestamp |
| Model.TimestampEqualityIgnoresDisplay | uz/model.py:217-218 | Timestamps with the same epoch are equal even when their display strings (and so their dicts) differ |
| Model.CoachTypeRoundTrip | uz/model.py:110-118 | A coach-type dict with keys `letter`, `places`, `title` round-trips unchanged |
| Model.CoachTypeDictRoundTrip | uz/model.py:110-118 | `from_dict(to_dict(c)) == c` for every coach type |
| Model.CoachRenaming | uz/model.py:150-173 | `coach_class`, `coach_type_id` and `hasBedding` land in `klass`, `type_id` and `has_bedding`, and `to_dict` writes them back under the wire names |
| Model.CoachRoundTrip | uz/model.py:150-173 | A coach dict with exactly the nine wire keys round-trips unchanged |
| Model.CoachDictRoundTrip | uz/model.py:150-173 | `from_dict(to_dict(c)) == c` for every coach |
| Model.StationPointRoundTrip | uz/model.py:75-81 | A `from`/`till` point (`station`, `station_id`, `date`, `src_date`) splits into a station and a timestamp that `_station_point` merges back into the same dict |
| Model.StationPointDecodes | uz/model.py:75-81 | `_station_point(t, s)` decodes back to station `s` and timestamp `t` |
| Model.CoachTypesInOrder | uz/model.py:59-73 | A decoded train's coach types are the decodings of the `types` list, index by index, same length |
| Model.TrainRoundTrip | uz/model.py:59-94 | `Train.to_dict(Train.from_dict(d)) == d` for every well-formed train dict |
| Model.TrainDictRoundTrip | uz/model.py:59-94 | `Train.from_dict(t.to_dict()) == t` for every train |
| Model.SameTrainIsEquality | uz/model.py:41-42 | Train equality (dict equality) holds iff the trains are the same value; in particular `from_dict(d) == from_dict(d)` |
| Model.TrainEqualityComparesStationTitles | uz/model.py:41-42 | Renaming a train's source station keeps the station equal but makes the train unequal |
| Protocol.Uri | uz/client/client.py:76-77 | `base_url + "/" + endpoint` |
| Protocol.Outdated | uz/client/client.py:50-51 | More than 600 seconds have passed since the token date |
| Protocol.Delivered | uz/client/client.py:92-108 | Without a session nothing is sent and `ImproperlyConfigured` is raised; otherwise the request carries the headers, data and jar, the response cookies join the jar, and the reply is the classification |
| Protocol.StationSearchEndpoint | uz/client/client.py:111 | `purchase/station/<name>/` |
| Protocol.TrainSearchData | uz/client/client.py:120-127 | The train search form: both station ids, the date, `00:00`, and the three constant fields |
| Protocol.CoachListData | uz/client/client.py:138-147 | The coach list form: the train's station ids, number, model, departure epoch, the coach-type letter, and two zero flags |
| Protocol.SeatListData | uz/client/client.py:152-160 | The seat list form: the train's station ids, number and departure epoch, and the coach's number, class and type id |
| Protocol.BookingBase | uz/client/client.py:165-170 | The five base fields of a booking |
| Protocol.PlaceFields | uz/client/client.py:172-184 | The twelve place fields of a booking, in the order they are written |
| Protocol.IsBookingForm | uz/client/client.py:165-186 | The posted form: the base fields plus every place field `k` under `places[0][k]`, and nothing else |
| Protocol.DecodeStations | uz/client/client.py:113 | The `value` entry decoded as a list of stations |
| Protocol.DecodeTrains | uz/client/client.py:129 | The `value` entry decoded as a list of trains |
| Protocol.DecodeCoaches | uz/client/client.py:149 | The entry under the given path decoded as a list of coaches |
| Protocol.DecodeSeats | uz/client/client.py:162 | The union of the seat labels under `value.places`; raises when that is not a dict |
| Protocol.UriDeterminesEndpoint | uz/client/client.py:76-77 | `uri(e)` is `base_url + "/" + e`; different endpoints give different URIs |
| Protocol.TokenLifetime | uz/client/client.py:50-51 | A token is reused for exactly 600 seconds inclusive and stays outdated afterwards; a new client, whose token date is 0, is outdated |
| Protocol.Classify | uz/client/client.py:95-108 | 400 raises `BadRequest`; every other non-200 status raises a plain `HTTPError`; both carry status, body, request data and the decoded JSON or None; raw 200 returns the body; 200 with a truthy `error` raises `ResponseError`; otherwise returns the JSON; the call succeeds iff none of these errors applies |
| Protocol.DecodeRecords | uz/client/client.py:110-113 | A missing entry raises; a list decodes iff every element decodes, pointwise, keeping order and length; an empty string or dict gives `[]`; anything else raises; every failure is outside the taxonomy |
| Protocol.SeatUnion | uz/client/client.py:161-162 | Succeeds iff every fare class can be iterated (list, string or dict) and yields only hashable labels; the seat set is then exactly the union of what the fare classes yield; for lists, every listed label is in it |
| Protocol.FirstStation | uz/client/client.py:115-117 | None iff there are no stations, otherwise the first one |
| Protocol.FirstTrainWithNum | uz/client/client.py:131-135 | None iff no train has the number; otherwise the first train that has it |
| Protocol.PlaceKeysAreDistinct | uz/client/client.py:185-186 | Distinct place fields go under distinct `places[0][k]` keys, none of which is a base field |
| Protocol.BookSeatPayload | uz/client/client.py:164-186 | The booking form holds exactly the five base fields plus every place field `k` under `places[0][k]`, with their values |
| Client.DefaultHeaders | uz/client/client.py:68-74 | The four headers: the agent, `GV-Ajax: 1`, the referer and the token |
| Client.TokenPageRequest | uz/client/client.py:57-60 | A POST to the base URL carrying only the user agent as headers and the emptied jar |
| Client.Refresh | uz/client/client.py:56-65 | Status other than 200 raises an HTTP error carrying the status and body; a 200 page yields its token, or raises `FailedObtainToken(page)` when it has none |
| Client.UZClient.Exchanged | uz/client/client.py:53-108 | What `call` with default headers does to the client and sends, case by case: fresh token, no session, failed refresh, successful refresh |
| Client.UZClient.constructor | uz/client/client.py:21-29 | A new client has no token, token date 0, no user agent and the given session |
| Client.UZClient.Session | uz/client/client.py:38-42 | No session raises `ImproperlyConfigured('Session is not configured')`, which is not an `HTTPError`; a session is returned unchanged |
| Client.UZClient.UserAgent | uz/client/client.py:44-48 | The cached agent is returned, or a new one drawn and cached |
| Client.UZClient.Send | uz/client/client.py:92-108 | Without a session nothing is sent and `ImproperlyConfigured` is raised; otherwise the request goes to `uri(endpoint)` with the given headers, data and the jar; the response's cookies join the jar; the result is its classification |
| Client.UZClient.GetToken | uz/client/client.py:53-66 | A token that is not outdated is returned with no fetch and no state change. Without a session an outdated token raises `ImproperlyConfigured` after dropping the agent. Otherwise the agent is redrawn, the jar is replaced by the landing page's cookies, and the refresh's error is raised with the token date unchanged, or its token is stored and dated now |
| Client.UZClient.GetHeadersAsWritten | uz/client/client.py:68-74 | As written: the headers carry the user agent read before the token refresh |
| Client.UZClient.GetHeaders | uz/client/client.py:68-74 | Corrected: with a fresh token, the four headers with the cached (or newly drawn) agent and the cached token; with an outdated one, the refresh's exact error, or the headers with the agent the token page was fetched with and the new token; agent, draws, jar, token and date afterwards in every case |
| Client.UZClient.Call | uz/client/client.py:83-108 | With a `headers` argument, the request is sent with it and the token state is untouched; without one, `Exchanged`: the request is sent whenever there is a session and the headers can be built (in particular after a successful refresh, with the new token and date), the refresh's exact error otherwise |
| Client.UZClient.SearchStations | uz/client/client.py:110-113 | `Exchanged` for a POST to `purchase/station/<name>/` without data; the result is the `value` entry decoded to stations |
| Client.UZClient.FetchFirstStation | uz/client/client.py:115-117 | `Exchanged` for the station search; the first station it finds, or None |
| Client.UZClient.ListTrains | uz/client/client.py:119-129 | `Exchanged` for a POST of the train search form to `purchase/search/`; the `value` entry decoded to trains |
| Client.UZClient.FetchTrain | uz/client/client.py:131-135 | `Exchanged` for the train search; the first listed train with the requested number, or None |
| Client.UZClient.ListCoaches | uz/client/client.py:137-149 | `Exchanged` for a POST of the coach form to `purchase/coaches/`; the coaches are read from `result['coaches']` |
| Client.UZClient.ListSeats | uz/client/client.py:151-162 | `Exchanged` for a POST of the seat form to `purchase/coach/`; the result is the union of the fare-class seat lists |
| Client.UZClient.BookSeat | uz/client/client.py:164-188 | `Exchanged` for a POST to `cart/add/` of exactly the booking form (the base fields and every place field under `places[0][k]`, nothing else); returns the classified reply |
| Client.StaleUserAgentAfterRefresh | uz/client/client.py:68-74 | On a new client's first call, the headers say `agent-0` while the token was fetched with, and the client holds, `agent-1` |
| LegacyClient.LegacyHeaders | uz/client.py:56-61 | The three `GV-` headers with the token |
| LegacyClient.LegacyTokenPageRequest | uz/client.py:48 | A POST to the base URL with `headers=None` and the jar as it is |
| LegacyClient.Refresh | uz/client.py:47-53 | Status other than 200 raises an HTTP error carrying the status and body; a 200 page yields its token, or raises `FailedObtainToken(page)` when it has none |
| LegacyClient.UZClient.Exchanged | uz/client.py:44-93 | What `call` with default headers does, case by case; the landing page's cookies join the jar the request then carries |
| LegacyClient.UZClient.constructor | uz/client.py:19-26 | A new client has no token, token date 0 and the given session |
| LegacyClient.UZClient.Session | uz/client.py:35-39 | No session raises `ImproperlyConfigured`; a session is returned unchanged |
| LegacyClient.UZClient.Send | uz/client.py:74-93 | Without a session nothing is sent and `ImproperlyConfigured` is raised; otherwise the request goes to `uri(endpoint)` with the given headers, data and jar; the cookies join the jar; the result is its classification |
| LegacyClient.UZClient.GetToken | uz/client.py:44-54 | A token that is not outdated is returned unchanged. An outdated one is refreshed from the landing page fetched with `headers=None` and the current jar, whose cookies join it; the refresh's error is raised with the token date unchanged, or its token is stored and dated now |
| LegacyClient.UZClient.GetHeaders | uz/client.py:56-61 | The three `GV-` headers with the cached token when it is fresh; otherwise the refresh's exact error, or the headers with the new token; jar, token and date afterwards in every case |
| LegacyClient.UZClient.Call | uz/client.py:70-93 | With a `headers` argument, sent with it and the token untouched; without one, `Exchanged`: sent whenever there is a session and the headers can be built, the refresh's exact error otherwise |
| LegacyClient.UZClient.SearchStations | uz/client.py:95-98 | `Exchanged` for a POST to `purchase/station/<name>/`; the `value` entry decoded to stations |
| LegacyClient.UZClient.FetchFirstStation | uz/client.py:100-102 | `Exchanged` for the station search; the first station, or None |
| LegacyClient.UZClient.ListTrains | uz/client.py:104-114 | `Exchanged` for a POST of the train search form; the `value` entry decoded to trains |
| LegacyClient.UZClient.FetchTrain | uz/client.py:116-120 | `Exchanged` for the train search; the first listed train with the requested number, or None |
| LegacyClient.UZClient.ListCoaches | uz/client.py:122-134 | `Exchanged` for a POST of the coach form; the coaches are read from `result['value']['coaches']` |
| LegacyClient.UZClient.ListSeats | uz/client.py:136-147 | `Exchanged` for a POST of the seat form; the union of the fare-class seat lists |
| LegacyClient.UZClient.BookSeat | uz/client.py:149-173 | `Exchanged` for a POST to `cart/add/` of exactly the booking form |
| Scanner.SeatSearch | uz/scanner.py:102-107 | The seat loop: the first booking that goes through, the next seat after a `ResponseError`, any other error raised |
| Scanner.CoachSearch | uz/scanner.py:97-107 | The coach loop: a coach whose seat list raises `ResponseError` is skipped, other errors are raised |
| Scanner.TypeSearch | uz/scanner.py:96-107 | The coach-type loop: an error from a coach list is raised |
| Scanner.HasLetter | uz/scanner.py:122 | Python truthiness of `ct_letter` |
| Scanner.SearchOutcome | uz/scanner.py:131-136 | A session id goes to the success callback and books unless the callback raises; no session id or nothing found records `No available seats`; an error is raised |
| Scanner.AttemptOutcome | uz/scanner.py:116-136 | The outcome of an attempt: the train lookup, the coach-type choice, then the search outcome |
| Scanner.SeatSearchExhaustedIff | uz/scanner.py:102-106 | The seat loop of a coach finds nothing iff every booking raised `ResponseError` |
| Scanner.CoachSearchExhaustedIff | uz/scanner.py:97-106 | The coach loop finds nothing iff every coach's seat list raised `ResponseError` or all its bookings did |
| Scanner.ExhaustedIffAllRejected | uz/scanner.py:94-107 | `book` finds nothing iff every coach list arrived and every combination was rejected with `ResponseError` |
| Scanner.SeatFoundIsFirst | uz/scanner.py:102-107 | A found seat is the first in the coach whose booking did not raise `ResponseError` |
| Scanner.CoachFoundIsFirst | uz/scanner.py:97-107 | A found booking is in the first coach not rejected, at the first seat not rejected |
| Scanner.FoundIsFirstSuccess | uz/scanner.py:94-107 | A found booking is the first (coach type, coach, seat) in service order whose booking went through; all earlier ones were rejected; the session id is the one read after it |
| Scanner.CoachSearchKeepsNoResponseError | uz/scanner.py:98-106 | A `ResponseError` from a seat list or a booking never escapes the coach loop |
| Scanner.SeatSearchKeepsNoResponseError | uz/scanner.py:102-106 | A `ResponseError` from a booking never escapes the seat loop |
| Scanner.BookAsWritten | uz/scanner.py:97-104 | As written: `book` never books; with any coach type to try it raises an error outside the client's taxonomy |
| Scanner.ArityMismatchLosesBooking | uz/scanner.py:97-104 | For a service with a free seat, the intended search books it while the written `book` raises |
| Scanner.FirstCoachTypeWithLetter | uz/scanner.py:88-91 | None iff no coach type has the letter; otherwise the first that does |
| Scanner.BookedMeansSeatBooked | uz/scanner.py:109-136 | A reported booking, whether or not the callback then raised, is one made on a seat of a coach of a searched coach type of the looked-up train, and reports that booking's session id |
| Scanner.NoSeatsMeansAllRejected | uz/scanner.py:122-133 | "No available seats" is recorded iff a coach type to search exists and every combination was rejected, or the booking left no session id |
| Scanner.RecordedMessages | uz/scanner.py:116-126 | A missing train records `Train <n> not found`; a missing letter records `Coach type <x> not found` |
| Scanner.FreshId | uz/scanner.py:54 | An id outside the registry always exists, so a fresh id can always be issued |
| Scanner.UZScanner.constructor | uz/scanner.py:20-28 | A new scanner has an empty registry and has made no callbacks |
| Scanner.UZScanner.AddItem | uz/scanner.py:52-67 | The fresh id maps to a new unlocked job with 0 attempts and no error; nothing else changes |
| Scanner.UZScanner.Status | uz/scanner.py:69-74 | `(attempts, error)` of a registered job; an unknown id raises `UknkownScanID`; nothing changes |
| Scanner.UZScanner.Abort | uz/scanner.py:76-80 | A registered job is removed (only it) and true returned; an unknown id raises `UknkownScanID`; afterwards the id is unknown |
| Scanner.UZScanner.HandleError | uz/scanner.py:82-85 | Only the job's error changes |
| Scanner.UZScanner.FindCoachType | uz/scanner.py:87-91 | The first coach type of the train with the letter; None iff none has it |
| Scanner.UZScanner.Book | uz/scanner.py:93-107 | Corrected: `book` calling the client with its own arguments (see "## Findings"). The nested loops return exactly the search result: the first booking that goes through, an uncaught error, or nothing |
| Scanner.UZScanner.BeginAttempt | uz/scanner.py:109-114 | A locked job is skipped and nothing changes; otherwise the lock is taken and attempts rise by exactly 1 |
| Scanner.UZScanner.FinishAttempt | uz/scanner.py:116-136 | The attempt's outcome: the error message is recorded and the job kept; an error propagates with the job kept; the callback gets `(success_cb_id, session_id)` once and the job is removed; or the callback raises and the job stays registered; the lock is released on every path |
| Scanner.UZScanner.Scan | uz/scanner.py:109-136 | A locked job is left unchanged. Otherwise attempts rise by exactly 1 and the outcome is the one above. A missing train gives `Train <n> not found`, a missing coach type gives `Coach type <x> not found`, and no seat gives `No available seats`; in each case the job stays registered, as it does when the callback raises |
| Scanner.Lifecycle | uz/scanner.py:52-80 | A new job reports `(0, None)` and can be aborted once; afterwards `status` and `abort` raise `UknkownScanID` |
| Scanner.Exclusivity | uz/scanner.py:109-114 | A scan started while another attempt holds the lock is skipped; the count stays at 1 with no error |

## Left out

- Asyncio scheduling is not modelled: `UZScanner.run`, `stop`, `emit_stats`, `ensure_future` and the sleep helper are about concurrency and timers. The job lock is a flag. One attempt is the sequence `BeginAttempt; FinishAttempt`, and concurrency is represented only by another attempt arriving between the two.
- The token lock and the second staleness test inside it are not modelled: run sequentially, the second test always repeats the first.
- Scanner.UZScanner.Scan: it requires the job to be registered when the attempt starts. `run` only schedules attempts with `ensure_future` (uz/scanner.py:35-36), so a job can be aborted before its attempt runs. That attempt still searches and books on the job dict it was given, and after the notification `abort` raises `UknkownScanID`. This path, and any attempt on a job aborted mid-attempt, is not modelled.
- Scanner.UZScanner.HandleError: it writes the message into the registry entry under `requires scanId in state`. `handle_error` (uz/scanner.py:82-85) writes into the `data` dict it was handed, which it can do even after the job was aborted. That case belongs to the aborted-attempt path above and is not modelled.
- Scanner.UZScanner.FinishAttempt: it searches with the corrected `Book`, not `BookAsWritten`, so it books where the code as written raises `TypeError` (see "## Findings").
- Scanner.UZScanner.Scan: uses the corrected `Book` through `FinishAttempt`; the as-written search is `BookAsWritten`.
- Client.UZClient.Call: it builds the default headers with the corrected `GetHeaders`, not `GetHeadersAsWritten`, so after a refresh the request carries the new agent where the code as written sends the old one (see "## Findings"). Every domain operation of the packaged client (SearchStations, FetchFirstStation, ListTrains, FetchTrain, ListCoaches, ListSeats, BookSeat) goes through this `Call`.
- The network and session are not modelled: aiohttp, the request timeout, `__enter__`/`__exit__`, `cleanup`, and the UTF-8 decoding of the token page. The network is the function `Env.net` from the request sent (verb, URI, headers, data and the cookies of the jar) to the response, and the cookie jar is a map that responses add to. Cookie expiry and domains are not modelled.
- `get_session_id` is not modelled directly. The scanner's oracle returns, for each successful booking, the session id read afterwards (None when the cookie is absent).
- Token extraction (`parse_gv_token` and its obfuscated-script decoder) is not modelled. It is the function `Env.parseToken`.
- Randomness is not modelled: the random user agent is `Env.randomAgent(n)`, the n-th draw, and `uuid4` is an id argument that must be fresh.
- Time is an integer clock reading `Env.now`, not a float from `time.time()`.
- `datetime.fromtimestamp` is not modelled: a timestamp is its epoch integer.
- `date.strftime` is not modelled: the train search takes the formatted date string.
- JSON numbers are integers. Floats, and Python's `True == 1`, are not modelled.
- Model.TrainRoundTrip: the round trip is stated for dicts with exactly the keys `from_dict` reads. With extra keys, `to_dict` drops them.
- Scanner.UZScanner.Book: the service gives each seat set as a sequence, in the order the scanner iterates it. Python's set iteration order is not modelled.
- Protocol.SeatUnion: Python's set identifies `True` with `1` and `False` with `0`; the model's set of JSON values keeps them apart. A dict's keys are taken as a set, since JSON key order is not modelled.
- Model.DecodeIterated: a non-empty dict is iterated over its keys in JSON order, which the model does not keep; every record decoder rejects a string key, so the comprehension raises whatever the order, and the model raises.
- Identity comparison is not modelled. `CoachType` and `Coach` define no `__eq__`, so Python compares them by identity; the model compares them as values. Nothing in the modelled code compares two of them directly.
- Errors: uz/client.py:176-205 declares its own `UZException`, `FailedObtainToken`, `HTTPError`, `BadRequest`, `ResponseError` and `ImproperlyConfigured`, separate from the classes of uz/client/exceptions.py. The model has one taxonomy for both clients, so a legacy `ResponseError` is the same class as the packaged one. In Python it is not, and the scanner's `except ResponseError` (imported from `uz.client.exceptions`, uz/scanner.py:8) would not catch a legacy one.
- Logging and metrics (statsd) are not modelled.
- Display methods (`__repr__`, `__str__`, `Train.info`) are not modelled.
- The Telegram interface, the serializer and process bootstrap are not modelled.

## Findings

| source | as written | input that shows it | evidently intended | confidence | as-written member | corrected member |
|---|---|---|---|---|---|---|
| uz/client/client.py:68-74 | The header dict reads `self.user_agent` before it awaits `get_token()`. A refresh inside `get_token` drops the user agent and draws a new one. | A new client whose random agents are `agent-0` then `agent-1`, at a clock reading past 600. Its first call sends `User-Agent: agent-0`. The token page was fetched as `agent-1`, and the client now holds `agent-1`. | Every request carries the user agent the token was obtained with, which is why a refresh redraws it. | medium, not executed | Client.UZClient.GetHeadersAsWritten, Client.StaleUserAgentAfterRefresh | Client.UZClient.GetHeaders |
| uz/scanner.py:97-104 | `book` calls `list_coaches(train, source, destination, coach_type)`, `list_seats(train, source, destination, coach)` and `book_seat(train, source, destination, coach, seat, ...)`. Both clients declare these without the two stations. | Any scan whose train is found and that has at least one coach type to try. The first `list_coaches` call raises `TypeError`: the exception escapes `scan` after the attempt was counted, and no booking is ever tried. | Call the client with its own arguments, so that the first bookable seat is booked. | high, not executed | Scanner.BookAsWritten, Scanner.ArityMismatchLosesBooking | Scanner.UZScanner.Book |
