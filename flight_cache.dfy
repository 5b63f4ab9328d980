/**
 * The freshness-bounded flight store shared by the Next.js route and the
 * Express controller: the collection as a sequence of entries in insertion
 * order, `findOne`/`find` as first-match and filter over it, and the
 * store-or-update rule with its 10-minute stale limit, as a specification
 * (`Upsert`) and as the in-place updates of a `FlightModel`.
 */
module FlightCache {
  import opened Wrappers
  import opened FlightTypes
  import opened FlightSchema

  /** `10 * 60 * 1000`: an entry younger than this is served without a write. */
  const StaleLimit: int := 600000

  /** The JSON body of a POST; a missing string field is modelled as "". */
  datatype PostBody = PostBody(
    from: string, to: string, departureDate: string, returnDate: Option<string>,
    travelClass: string, flights: seq<Flight>)

  /** `flights[0].airline`, or "" when there is no first flight. */
  function FirstAirline(flights: seq<Flight>): (a: string)
    ensures |flights| > 0 ==> a == flights[0].airline
    ensures |flights| == 0 ==> a == ""
  {
    if |flights| > 0 then flights[0].airline else ""
  }

  /**
   * The `findOne` filter: the five route fields and `flights.0.airline`. An
   * absent `returnDate` in the body matches exactly the entries without one.
   */
  predicate MatchesKey(e: FlightEntry, b: PostBody, airline: string) {
    && e.from == b.from && e.to == b.to && e.departureDate == b.departureDate
    && e.returnDate == b.returnDate && e.travelClass == b.travelClass
    && |e.flights| > 0 && e.flights[0].airline == airline
  }

  /** `findOne`: the index of the first entry, in collection order, matching the filter. */
  function FindOne(entries: seq<FlightEntry>, b: PostBody, airline: string): (r: Option<nat>)
    ensures r.Some? ==> r.value < |entries| && MatchesKey(entries[r.value], b, airline)
    ensures r.Some? ==> forall j :: 0 <= j < r.value ==> !MatchesKey(entries[j], b, airline)
    ensures r.None? ==> forall j :: 0 <= j < |entries| ==> !MatchesKey(entries[j], b, airline)
  {
    if entries == [] then None
    else if MatchesKey(entries[0], b, airline) then Some(0)
    else match FindOne(entries[1..], b, airline)
      case None => None
      case Some(i) => Some(i + 1)
  }

  /** The outcome of a POST, before the front end turns it into a status and a body. */
  datatype PostReply =
    | NoAirline                  // 400: no `flights[0].airline`
    | Cached(entry: FlightEntry) // 200: fresh entry, nothing written
    | Updated(entry: FlightEntry)// 200: stale entry refreshed in place
    | Stored(entry: FlightEntry) // 201: new entry appended
    | Invalid                    // 500: the schema rejected the document, nothing written

  function Status(r: PostReply): (s: int)
    ensures s in {200, 201, 400, 500}
    ensures s == 201 <==> r.Stored?
    ensures s == 400 <==> r.NoAirline?
    ensures s == 500 <==> r.Invalid?
  {
    match r
    case NoAirline => 400
    case Cached(_) => 200
    case Updated(_) => 200
    case Stored(_) => 201
    case Invalid => 500
  }

  datatype PostResult = PostResult(reply: PostReply, entries: seq<FlightEntry>)

  /** The stale entry with the new flights and `lastUpdatedAt = now`; every other field kept. */
  function Refresh(e: FlightEntry, flights: seq<Flight>, now: int): FlightEntry {
    e.(flights := ToDetailsAll(flights), lastUpdatedAt := now)
  }

  function Created(b: PostBody, now: int): FlightEntry {
    NewEntry(b.from, b.to, b.departureDate, b.returnDate, b.travelClass, b.flights, Some(now), now)
  }

  /** The store-or-update rule, as one sequential step. */
  function Upsert(entries: seq<FlightEntry>, b: PostBody, now: int): PostResult {
    var airline := FirstAirline(b.flights);
    if airline == "" then PostResult(NoAirline, entries)
    else match FindOne(entries, b, airline)
      case Some(i) =>
        if now - entries[i].lastUpdatedAt < StaleLimit then PostResult(Cached(entries[i]), entries)
        else
          var e := Refresh(entries[i], b.flights, now);
          if ValidEntry(e) then PostResult(Updated(e), entries[i := e]) else PostResult(Invalid, entries)
      case None =>
        var e := Created(b, now);
        if ValidEntry(e) then PostResult(Stored(e), entries + [e]) else PostResult(Invalid, entries)
  }

  /** Without a first airline nothing is looked up or written. */
  lemma NoAirlineUntouched(entries: seq<FlightEntry>, b: PostBody, now: int)
    ensures Upsert(entries, b, now).reply == NoAirline <==> FirstAirline(b.flights) == ""
    ensures FirstAirline(b.flights) == "" ==> Upsert(entries, b, now).entries == entries
  {
  }

  /**
   * The freshness rule: a matching entry is served as it is exactly when its
   * age is strictly under the limit; an age of exactly 10 minutes is stale.
   */
  lemma FreshIffYoung(entries: seq<FlightEntry>, b: PostBody, now: int)
    requires FirstAirline(b.flights) != ""
    requires FindOne(entries, b, FirstAirline(b.flights)).Some?
    ensures var i := FindOne(entries, b, FirstAirline(b.flights)).value;
      Upsert(entries, b, now).reply.Cached? <==> now - entries[i].lastUpdatedAt < StaleLimit
    ensures Upsert(entries, b, now).reply.Cached? ==> Upsert(entries, b, now).entries == entries
  {
  }

  lemma StaleBoundary(entries: seq<FlightEntry>, b: PostBody, last: int)
    requires FirstAirline(b.flights) != ""
    requires FindOne(entries, b, FirstAirline(b.flights)).Some?
    requires entries[FindOne(entries, b, FirstAirline(b.flights)).value].lastUpdatedAt == last
    ensures Upsert(entries, b, last + 599999).reply.Cached?
    ensures !Upsert(entries, b, last + 600000).reply.Cached?
  {
  }

  /** A stale entry is refreshed in place: same position, same route fields, nothing else touched. */
  lemma RefreshInPlace(entries: seq<FlightEntry>, b: PostBody, now: int)
    requires Upsert(entries, b, now).reply.Updated?
    ensures var i := FindOne(entries, b, FirstAirline(b.flights)).value;
      var r := Upsert(entries, b, now);
      && |r.entries| == |entries|
      && (forall j :: 0 <= j < |entries| && j != i ==> r.entries[j] == entries[j])
      && r.entries[i].from == entries[i].from && r.entries[i].to == entries[i].to
      && r.entries[i].departureDate == entries[i].departureDate
      && r.entries[i].returnDate == entries[i].returnDate
      && r.entries[i].travelClass == entries[i].travelClass
      && r.entries[i].flights == ToDetailsAll(b.flights) && r.entries[i].lastUpdatedAt == now
      && now - entries[i].lastUpdatedAt >= StaleLimit
  {
  }

  /** A new entry is only created when nothing matched, and it goes at the end. */
  lemma CreateOnlyWhenAbsent(entries: seq<FlightEntry>, b: PostBody, now: int)
    requires Upsert(entries, b, now).reply.Stored?
    ensures FindOne(entries, b, FirstAirline(b.flights)).None?
    ensures Upsert(entries, b, now).entries == entries + [Created(b, now)]
    ensures Created(b, now).lastUpdatedAt == now
  {
  }

  /** The store grows by at most one entry per POST, and never shrinks. */
  lemma GrowsByAtMostOne(entries: seq<FlightEntry>, b: PostBody, now: int)
    ensures |entries| <= |Upsert(entries, b, now).entries| <= |entries| + 1
    ensures |Upsert(entries, b, now).entries| == |entries| + 1 <==> Upsert(entries, b, now).reply.Stored?
  {
  }

  predicate AllValid(entries: seq<FlightEntry>) {
    forall i :: 0 <= i < |entries| ==> ValidEntry(entries[i])
  }

  /** Every write passed validation, so a valid store stays valid. */
  lemma UpsertKeepsValid(entries: seq<FlightEntry>, b: PostBody, now: int)
    requires AllValid(entries)
    ensures AllValid(Upsert(entries, b, now).entries)
  {
  }

  /** The lookup key of an entry. */
  predicate SameKey(e: FlightEntry, f: FlightEntry) {
    && e.from == f.from && e.to == f.to && e.departureDate == f.departureDate
    && e.returnDate == f.returnDate && e.travelClass == f.travelClass
    && |e.flights| > 0 && |f.flights| > 0 && e.flights[0].airline == f.flights[0].airline
  }

  /** No two entries share a key. Nothing enforces it; sequential POSTs keep it. */
  predicate UniqueKeys(entries: seq<FlightEntry>) {
    forall i, j :: 0 <= i < j < |entries| ==> !SameKey(entries[i], entries[j])
  }

  /** The key an entry is found under when a body names its fields and first airline. */
  lemma MatchesKeyOfSameKey(e: FlightEntry, f: FlightEntry, b: PostBody, airline: string)
    requires MatchesKey(f, b, airline)
    ensures SameKey(e, f) <==> MatchesKey(e, b, airline)
  {
  }

  lemma UpsertKeepsUniqueKeys(entries: seq<FlightEntry>, b: PostBody, now: int)
    requires UniqueKeys(entries)
    ensures UniqueKeys(Upsert(entries, b, now).entries)
  {
    var r := Upsert(entries, b, now);
    var airline := FirstAirline(b.flights);
    if r.reply.Updated? {
      var i := FindOne(entries, b, airline).value;
      assert forall j :: 0 <= j < |entries| ==> (SameKey(r.entries[i], entries[j]) <==> SameKey(entries[i], entries[j]));
    } else if r.reply.Stored? {
      var e := Created(b, now);
      assert e.flights[0] == ToDetails(b.flights[0]);
      forall j | 0 <= j < |entries| ensures !SameKey(entries[j], e) {
        MatchesKeyOfSameKey(entries[j], e, b, airline);
      }
      assert forall j :: 0 <= j < |entries| ==> r.entries[j] == entries[j];
    }
  }

  /** After a successful write, the same POST within the next 10 minutes is served from the store. */
  lemma SecondPostIsCached(entries: seq<FlightEntry>, b: PostBody, now: int, later: int)
    requires Upsert(entries, b, now).reply.Updated? || Upsert(entries, b, now).reply.Stored?
    requires now <= later < now + StaleLimit
    ensures var r := Upsert(entries, b, now);
      Upsert(r.entries, b, later) == PostResult(Cached(LastWritten(r.reply)), r.entries)
  {
    var r := Upsert(entries, b, now);
    var airline := FirstAirline(b.flights);
    if r.reply.Updated? {
      var i := FindOne(entries, b, airline).value;
      assert r.entries[i].flights[0] == ToDetails(b.flights[0]);
      FindOneAfterWrite(entries, r.entries, b, airline, i);
    } else {
      var e := Created(b, now);
      assert e.flights[0] == ToDetails(b.flights[0]);
      FindOneAfterWrite(entries, r.entries, b, airline, |entries|);
    }
  }

  function LastWritten(r: PostReply): FlightEntry
    requires r.Updated? || r.Stored?
  {
    r.entry
  }

  /** Entries before `i` are unchanged and did not match, and entry `i` now matches: it is the first match. */
  lemma FindOneAfterWrite(old_: seq<FlightEntry>, new_: seq<FlightEntry>, b: PostBody, airline: string, i: nat)
    requires i < |new_| && i <= |old_| && MatchesKey(new_[i], b, airline)
    requires forall j :: 0 <= j < i ==> new_[j] == old_[j] && !MatchesKey(old_[j], b, airline)
    ensures FindOne(new_, b, airline) == Some(i)
  {
  }

  /** GET's filter on the four fields; `returnDate` and the airline are ignored. */
  predicate MatchesQuery(e: FlightEntry, from: string, to: string, departureDate: string, travelClass: string) {
    e.from == from && e.to == to && e.departureDate == departureDate && e.travelClass == travelClass
  }

  /** `find`: every matching entry, in collection order. */
  function Find(entries: seq<FlightEntry>, from: string, to: string, departureDate: string, travelClass: string)
    : (r: seq<FlightEntry>)
    ensures |r| <= |entries|
    ensures forall e :: e in r <==> e in entries && MatchesQuery(e, from, to, departureDate, travelClass)
  {
    if entries == [] then []
    else
      (if MatchesQuery(entries[0], from, to, departureDate, travelClass) then [entries[0]] else [])
      + Find(entries[1..], from, to, departureDate, travelClass)
  }

  /** The outcome of a GET. */
  datatype GetReply = MissingParameters | NoFlights | Found(data: seq<FlightEntry>)

  function GetStatus(r: GetReply): int {
    match r
    case MissingParameters => 400
    case NoFlights => 404
    case Found(_) => 200
  }

  /** `!from || !to || !departureDate || !travelClass` on query values that may be absent. */
  function Get(entries: seq<FlightEntry>, from: Option<string>, to: Option<string>,
               departureDate: Option<string>, travelClass: Option<string>): (r: GetReply)
    ensures r == MissingParameters <==>
      OrNull(from) == "" || OrNull(to) == "" || OrNull(departureDate) == "" || OrNull(travelClass) == ""
    ensures r.Found? ==> r.data != [] && r.data == Find(entries, from.value, to.value, departureDate.value, travelClass.value)
    ensures r == NoFlights ==> forall e :: e in entries ==> !MatchesQuery(e, from.value, to.value, departureDate.value, travelClass.value)
  {
    if OrNull(from) == "" || OrNull(to) == "" || OrNull(departureDate) == "" || OrNull(travelClass) == "" then
      MissingParameters
    else
      var found := Find(entries, from.value, to.value, departureDate.value, travelClass.value);
      if found == [] then NoFlights else Found(found)
  }

  function OrNull(x: Option<string>): string {
    x.GetOr("")
  }

  /** After a successful write, a GET on its four route fields finds the written entry. */
  lemma GetAfterPost(entries: seq<FlightEntry>, b: PostBody, now: int)
    requires Upsert(entries, b, now).reply.Updated? || Upsert(entries, b, now).reply.Stored?
    ensures var r := Upsert(entries, b, now);
      var g := Get(r.entries, Some(b.from), Some(b.to), Some(b.departureDate), Some(b.travelClass));
      g.Found? && LastWritten(r.reply) in g.data
  {
    var r := Upsert(entries, b, now);
    var e := LastWritten(r.reply);
    if r.reply.Updated? {
      var i := FindOne(entries, b, FirstAirline(b.flights)).value;
      assert r.entries[i] == e;
    } else {
      assert r.entries[|entries|] == e;
    }
    assert e in r.entries;
  }

  /** The collection, updated in place by `save` and grown by `create`. */
  class FlightModel {
    var entries: seq<FlightEntry>

    constructor ()
      ensures entries == []
    {
      entries := [];
    }

    /** `existing.save()` after its fields were reassigned: validated, then written at its position. */
    method Save(i: nat, e: FlightEntry) returns (ok: bool)
      requires i < |entries|
      modifies this
      ensures ok == ValidEntry(e)
      ensures entries == if ok then old(entries)[i := e] else old(entries)
    {
      ok := ValidEntry(e);
      if ok {
        entries := entries[i := e];
      }
    }

    /** `FlightModel.create(doc)`: validated, then appended. */
    method Create(e: FlightEntry) returns (ok: bool)
      modifies this
      ensures ok == ValidEntry(e)
      ensures entries == if ok then old(entries) + [e] else old(entries)
    {
      ok := ValidEntry(e);
      if ok {
        entries := entries + [e];
      }
    }
  }

  /**
   * The POST handlers' steps against the collection: the airline check, the
   * lookup, then either nothing, a refresh in place (`save`), or a creation.
   */
  method StoreOrUpdate(db: FlightModel, b: PostBody, now: int) returns (reply: PostReply)
    modifies db
    ensures reply == Upsert(old(db.entries), b, now).reply
    ensures db.entries == Upsert(old(db.entries), b, now).entries
  {
    var airline := FirstAirline(b.flights);
    if airline == "" {
      return NoAirline;
    }
    var existing := FindOne(db.entries, b, airline);
    if existing.Some? {
      var current := db.entries[existing.value];
      var age := now - current.lastUpdatedAt;
      if age < StaleLimit {
        return Cached(current);
      }
      var refreshed := current.(flights := ToDetailsAll(b.flights), lastUpdatedAt := now);
      var ok := db.Save(existing.value, refreshed);
      if !ok {
        return Invalid;
      }
      return Updated(refreshed);
    }
    var created := NewEntry(b.from, b.to, b.departureDate, b.returnDate, b.travelClass, b.flights, Some(now), now);
    var ok := db.Create(created);
    if !ok {
      return Invalid;
    }
    return Stored(created);
  }

  /** The JSON bodies both front ends answer with. */
  datatype Body =
    | Saved(message: string, data: FlightEntry)  // `{ message, data }`
    | Problem(error: string, details: string)    // `{ error, details }`
    | Listing(entries: seq<FlightEntry>)        // `{ success: true, data: entries }`
    | Refused(message: string)                   // `{ success: false, message }`

  datatype Response = Response(status: int, body: Body)

  const NotStaleMessage := "Using cached data (not stale)"
  const UpdatedMessage := "Updated stale data"
  const StoredMessage := "New data stored"

  /**
   * A POST reply as a response. The 400 detail differs between the two front
   * ends; `errorDetail` is the message of the validation error, whose text is
   * Mongoose's.
   */
  function PostResponse(reply: PostReply, noAirlineDetail: string, errorDetail: string): (r: Response)
    ensures r.status == Status(reply)
    ensures reply.NoAirline? <==> r.body == Problem("Bad Request", noAirlineDetail)
    ensures reply.Invalid? <==> r.body == Problem("Internal Server Error", errorDetail)
    ensures reply.Cached? ==> r.body == Saved(NotStaleMessage, reply.entry)
    ensures reply.Updated? ==> r.body == Saved(UpdatedMessage, reply.entry)
    ensures reply.Stored? ==> r.body == Saved(StoredMessage, reply.entry)
  {
    match reply
    case NoAirline => Response(400, Problem("Bad Request", noAirlineDetail))
    case Cached(e) => Response(200, Saved(NotStaleMessage, e))
    case Updated(e) => Response(200, Saved(UpdatedMessage, e))
    case Stored(e) => Response(201, Saved(StoredMessage, e))
    case Invalid => Response(500, Problem("Internal Server Error", errorDetail))
  }

  function GetResponse(g: GetReply): (r: Response)
    ensures r.status == GetStatus(g)
    ensures g.Found? <==> r.body.Listing?
    ensures g.Found? ==> r.body.entries == g.data
    ensures g.MissingParameters? ==> r.body == Refused("Missing required parameters")
    ensures g.NoFlights? ==> r.body == Refused("No flights found")
  {
    match g
    case MissingParameters => Response(400, Refused("Missing required parameters"))
    case NoFlights => Response(404, Refused("No flights found"))
    case Found(data) => Response(200, Listing(data))
  }
}
