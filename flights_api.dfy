/**
 * The client's `fetchFlights`: the scrape query built from the parameters,
 * the answer of the scrape endpoint turned into two record lists (Qatar texts
 * parsed, nulls dropped), each non-empty list handed to the store, and every
 * failure rethrown with its message.
 */
module FlightsApi {
  import opened Wrappers
  import opened JsString
  import opened JsNumber
  import opened PieceRegex
  import opened FlightTypes
  import opened UrlQuery
  import opened Parse = ParseFlightData
  import opened ScraperUtils
  import opened QatarScraper
  import opened EmiratesScraper
  import opened FlightCache
  import opened ScrapeRoute

  /**
   * The entries of the parameter object whose value is not `undefined`, in the
   * order the form builds it; only `returnDate` may be undefined.
   */
  function QueryOf(p: ScrapeFlightParams): (q: seq<Param>)
    ensures |q| == if p.returnDate.Some? then 7 else 6
  {
    [Param("tripType", p.tripType), Param("from", p.from), Param("to", p.to), Param("departureDate", p.departureDate)]
    + (if p.returnDate.Some? then [Param("returnDate", p.returnDate.value)] else [])
    + [Param("travelClass", p.travelClass), Param("travellers", p.travellers)]
  }

  /** An undefined return date is left out of the query; every other parameter is in it with its value. */
  lemma QueryKeepsDefined(p: ScrapeFlightParams)
    ensures Lookup(QueryOf(p), "returnDate") == p.returnDate
    ensures Lookup(QueryOf(p), "tripType") == Some(p.tripType)
    ensures Lookup(QueryOf(p), "from") == Some(p.from) && Lookup(QueryOf(p), "to") == Some(p.to)
    ensures Lookup(QueryOf(p), "departureDate") == Some(p.departureDate)
    ensures Lookup(QueryOf(p), "travelClass") == Some(p.travelClass)
    ensures Lookup(QueryOf(p), "travellers") == Some(p.travellers)
  {
    QueryKeysDistinct(p);
    var q := QueryOf(p);
    var n := |q|;
    assert q[0] == Param("tripType", p.tripType) && q[1] == Param("from", p.from);
    assert q[2] == Param("to", p.to) && q[3] == Param("departureDate", p.departureDate);
    assert q[n - 2] == Param("travelClass", p.travelClass) && q[n - 1] == Param("travellers", p.travellers);
    LookupAt(q, 0);
    LookupAt(q, 1);
    LookupAt(q, 2);
    LookupAt(q, 3);
    LookupAt(q, n - 2);
    LookupAt(q, n - 1);
    ReturnDateLookup(p);
  }

  /** The return date is found exactly when it was defined. */
  lemma ReturnDateLookup(p: ScrapeFlightParams)
    ensures Lookup(QueryOf(p), "returnDate") == p.returnDate
  {
    var q := QueryOf(p);
    if p.returnDate.Some? {
      QueryKeysDistinct(p);
      assert q[4] == Param("returnDate", p.returnDate.value);
      LookupAt(q, 4);
    } else {
      assert forall k :: 0 <= k < |q| ==> q[k].key != "returnDate";
    }
  }

  /** The client's keys are pairwise distinct. */
  lemma QueryKeysDistinct(p: ScrapeFlightParams)
    ensures DistinctKeys(QueryOf(p))
  {
  }

  /** The scrape route reads the client's query back as the same parameters, an undefined return date as "". */
  lemma RouteReadsClientQuery(p: ScrapeFlightParams)
    ensures BaseParams(QueryOf(p)) == p.(returnDate := Some(p.returnDate.GetOr("")))
  {
    QueryKeepsDefined(p);
  }

  /** The two lists `fetchFlights` returns. */
  datatype Formatted = Formatted(qatar: seq<Flight>, emirates: seq<Flight>)

  /** `raw.map(parseFlightData)`. */
  function ParsedAll(raw: seq<string>): (r: seq<Option<Flight>>)
    ensures |r| == |raw|
    ensures forall i :: 0 <= i < |raw| ==> r[i] == ParseFlightData(raw[i])
  {
    seq(|raw|, i requires 0 <= i < |raw| => ParseFlightData(raw[i]))
  }

  /** `.filter(f => f !== null)`. */
  function Somes(xs: seq<Option<Flight>>): (r: seq<Flight>)
    ensures |r| <= |xs|
  {
    if xs == [] then []
    else if xs[0].Some? then [xs[0].value] + Somes(xs[1..])
    else Somes(xs[1..])
  }

  function ParseAll(raw: seq<string>): seq<Flight> {
    Somes(ParsedAll(raw))
  }

  /** A value is kept exactly when it is present, and nulls are all that is dropped. */
  lemma {:induction false} SomesMembers(xs: seq<Option<Flight>>, f: Flight)
    ensures f in Somes(xs) <==> Some(f) in xs
  {
    if xs != [] {
      SomesMembers(xs[1..], f);
      assert xs == [xs[0]] + xs[1..];
    }
  }

  lemma {:induction false} SomesOfNone(xs: seq<Option<Flight>>)
    requires forall i :: 0 <= i < |xs| ==> xs[i].None?
    ensures Somes(xs) == []
  {
    if xs != [] {
      SomesOfNone(xs[1..]);
    }
  }

  /** Dropping the nulls keeps the order: the kept values, in order. */
  lemma {:induction false} SomesAppend(a: seq<Option<Flight>>, b: seq<Option<Flight>>)
    ensures Somes(a + b) == Somes(a) + Somes(b)
  {
    if a != [] {
      assert (a + b)[1..] == a[1..] + b;
      SomesAppend(a[1..], b);
    } else {
      assert a + b == b;
    }
  }

  /** A record is kept exactly when some raw entry parses to it. */
  lemma ParseAllMembers(raw: seq<string>, f: Flight)
    ensures f in ParseAll(raw) <==> exists i :: 0 <= i < |raw| && ParseFlightData(raw[i]) == Some(f)
  {
    SomesMembers(ParsedAll(raw), f);
  }

  /** The message V8 gives when `.filter` is called on the Emirates error object, for the unminified client code. */
  const NotAnArray := "emiratesFlights.filter is not a function"

  /** The two slots of a successful scrape answer, formatted. */
  function Format(qatar: seq<string>, emirates: EmiratesResult): (r: Result<Formatted>)
    ensures r.Failure? <==> emirates.ErrorReport?
    ensures r.Failure? ==> r.error == NotAnArray
    ensures r.Success? ==> r.value.qatar == ParseAll(qatar) && r.value.emirates == emirates.flights
  {
    match emirates
    case Records(flights) => Success(Formatted(ParseAll(qatar), flights))
    case ErrorReport(_, _, _, _, _, _, _, _) => Failure(NotAnArray)
  }

  /** The lists handed to the store, in call order: each source's list when it is non-empty. */
  function StoreLists(f: Formatted): (r: seq<seq<Flight>>)
    ensures |r| <= 2
    ensures forall l :: l in r ==> l != [] && (l == f.qatar || l == f.emirates)
    ensures |r| == (if f.qatar != [] then 1 else 0) + (if f.emirates != [] then 1 else 0)
    ensures f.qatar != [] ==> r[0] == f.qatar
    ensures f.emirates != [] ==> r[|r| - 1] == f.emirates
  {
    (if f.qatar != [] then [f.qatar] else []) + (if f.emirates != [] then [f.emirates] else [])
  }

  /** The body each store call posts: the parameters spread, then the flights; `tripType` and `travellers` are ignored there. */
  function StoreBody(p: ScrapeFlightParams, flights: seq<Flight>): (b: PostBody)
    ensures b.flights == flights && b.returnDate == p.returnDate
    ensures b.from == p.from && b.to == p.to && b.departureDate == p.departureDate && b.travelClass == p.travelClass
  {
    PostBody(p.from, p.to, p.departureDate, p.returnDate, p.travelClass, flights)
  }

  /** What came back from the scrape endpoint: a transport error, or the route's answer. */
  datatype Fetched = NetworkFailure(message: string) | Answered(reply: ScrapeReply)

  function StatusFailure(status: nat): string {
    "API request failed with status " + NatToString(status)
  }

  /**
   * `fetchFlights`, given the scrape answer and the first rejection among the
   * store calls, if any: every error is rethrown with its own message.
   */
  function FetchFlights(fetched: Fetched, storeFailure: Option<string>): (r: Result<Formatted>)
    ensures fetched.NetworkFailure? ==> r == Failure(fetched.message)
    ensures fetched.Answered? && fetched.reply.ScrapeFailed? ==> r == Failure(StatusFailure(500))
    ensures r.Success? ==>
      && fetched.Answered? && fetched.reply.Joined?
      && Format(fetched.reply.qatar, fetched.reply.emirates) == Success(r.value)
    ensures fetched.Answered? && fetched.reply.Joined? && Format(fetched.reply.qatar, fetched.reply.emirates).Success? ==>
      var f := Format(fetched.reply.qatar, fetched.reply.emirates).value;
      && (r.Success? <==> StoreLists(f) == [] || storeFailure.None?)
      && (StoreLists(f) != [] && storeFailure.Some? ==> r == Failure(storeFailure.value))
    ensures fetched.Answered? && fetched.reply.Joined? && Format(fetched.reply.qatar, fetched.reply.emirates).Failure? ==>
      r == Failure(NotAnArray)
  {
    match fetched
    case NetworkFailure(message) => Failure(message)
    case Answered(reply) =>
      if ReplyStatus(reply) != 200 then Failure(StatusFailure(ReplyStatus(reply)))
      else match Format(reply.qatar, reply.emirates)
        case Failure(message) => Failure(message)
        case Success(f) =>
          if StoreLists(f) != [] && storeFailure.Some? then Failure(storeFailure.value) else Success(f)
  }

  /** The status in the failure message reads back as the number. */
  lemma StatusFailureReadsBack(status: nat)
    ensures |StatusFailure(status)| > 31
    ensures ParseInt(StatusFailure(status)[31..]) == Some(status)
  {
    assert StatusFailure(status)[31..] == NatToString(status);
    ParseIntNatToString(status);
  }

  /**
   * The Qatar chain keeps no recognised card: `processFlights` rewrites a
   * recognised card into a sentence without any currency symbol, which
   * `parseFlightData` cannot match, so every record kept comes from a card
   * tagged as unrecognized.
   */
  lemma QatarRecordsOnlyFromUnrecognized(texts: seq<string>)
    ensures forall i :: 0 <= i < |texts| && ParseFlightData(ProcessFlight(texts[i])).Some? ==>
              IsTagged(ProcessFlight(texts[i]))
  {
    forall i | 0 <= i < |texts| && !IsTagged(ProcessFlight(texts[i]))
      ensures ParseFlightData(ProcessFlight(texts[i])).None?
    {
      RecognizedGivesNoRecord(texts[i]);
    }
  }

  lemma RecognizedGivesNoRecord(flight: string)
    requires CardMatch(flight).Some?
    ensures ParseFlightData(ProcessFlight(flight)) == None
  {
    var s := ProcessFlight(flight);
    SentenceHasNoSymbol(CardMatch(flight).value);
    assert forall i :: 0 <= i < |s| ==> !IsCurrencySymbol(s[i]);
    NoSymbolNoRecord(s);
  }

  /** When every Qatar card is recognised, `fetchFlights` returns and stores no Qatar record. */
  lemma AllRecognizedNoQatarRecords(texts: seq<string>)
    requires forall i :: 0 <= i < |texts| ==> CardMatch(texts[i]).Some?
    ensures ParseAll(ProcessFlights(texts)) == []
  {
    var out := ProcessFlights(texts);
    forall i | 0 <= i < |out| ensures ParseFlightData(out[i]) == None {
      RecognizedGivesNoRecord(texts[i]);
    }
    NoneParsedIsEmpty(out);
  }

  lemma NoneParsedIsEmpty(raw: seq<string>)
    requires forall i :: 0 <= i < |raw| ==> ParseFlightData(raw[i]).None?
    ensures ParseAll(raw) == []
  {
    SomesOfNone(ParsedAll(raw));
  }
}
