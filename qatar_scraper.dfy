/**
 * The deterministic part of `scrapeFlightData` for Qatar Airways: the
 * flight-selection URL built from the search parameters, and the hand-off of
 * the scraped card texts to `processFlights`. What the browser returns is an
 * input (`QatarSession`).
 */
module QatarScraper {
  import opened Wrappers
  import opened JsString
  import opened AirportCode
  import opened ScraperUtils
  import opened FlightTypes
  import opened UrlQuery

  const FlightSelectionBase := "https://www.qatarairways.com/app/booking/flight-selection"

  /** The pairs of the URL template, in their order; the values are interpolated as they are, not encoded. */
  function QatarQuery(p: ScrapeFlightParams): seq<Param> {
    Template(
      if p.tripType == "oneWay" then "O" else "R",
      ExtractAirportCode(p.from),
      ExtractAirportCode(p.to),
      p.departureDate,
      if p.travelClass == "Economy" then "E" else "",
      p.travellers,
      p.returnDate.GetOr(""))
  }

  function Template(tripType: string, fromStation: string, toStation: string, departing: string,
                    bookingClass: string, adults: string, returning: string): seq<Param>
  {
    [ Param("widget", "QR"),
      Param("searchType", "F"),
      Param("addTaxToFare", "Y"),
      Param("minPurTime", "0"),
      Param("selLang", "en"),
      Param("tripType", tripType),
      Param("fromStation", fromStation),
      Param("toStation", toStation),
      Param("departing", departing),
      Param("bookingClass", bookingClass),
      Param("adults", adults),
      Param("children", "0"),
      Param("infants", "0"),
      Param("ofw", "0"),
      Param("teenager", "0"),
      Param("returning", returning),
      Param("flexibleDate", "off") ]
  }

  function QatarUrl(p: ScrapeFlightParams): string {
    FlightSelectionBase + "?" + Render(QatarQuery(p))
  }

  /** The search fields, none holding `&`. */
  predicate PlainFields(p: ScrapeFlightParams) {
    && '&' !in ExtractAirportCode(p.from) && '&' !in ExtractAirportCode(p.to)
    && '&' !in p.departureDate && '&' !in p.travellers && '&' !in p.returnDate.GetOr("")
  }

  lemma TemplateReadable(tripType: string, fromStation: string, toStation: string, departing: string,
                         bookingClass: string, adults: string, returning: string)
    requires '&' !in tripType && '&' !in bookingClass
    requires '&' !in fromStation && '&' !in toStation && '&' !in departing && '&' !in adults && '&' !in returning
    ensures Readable(Template(tripType, fromStation, toStation, departing, bookingClass, adults, returning))
  {
    var q := Template(tripType, fromStation, toStation, departing, bookingClass, adults, returning);
    var keys := ["widget", "searchType", "addTaxToFare", "minPurTime", "selLang", "tripType",
                 "fromStation", "toStation", "departing", "bookingClass", "adults", "children",
                 "infants", "ofw", "teenager", "returning", "flexibleDate"];
    assert forall k :: 0 <= k < |q| ==> q[k].key == keys[k];
    KeysPlain(keys);
  }

  lemma KeysPlain(keys: seq<string>)
    requires keys == ["widget", "searchType", "addTaxToFare", "minPurTime", "selLang", "tripType",
                      "fromStation", "toStation", "departing", "bookingClass", "adults", "children",
                      "infants", "ofw", "teenager", "returning", "flexibleDate"]
    ensures forall k :: 0 <= k < |keys| ==> '&' !in keys[k] && '=' !in keys[k]
  {
  }

  lemma TemplateKeysDistinct(tripType: string, fromStation: string, toStation: string, departing: string,
                             bookingClass: string, adults: string, returning: string)
    ensures DistinctKeys(Template(tripType, fromStation, toStation, departing, bookingClass, adults, returning))
  {
  }

  /**
   * What the site reads back from the URL: trip type O exactly for 'oneWay',
   * booking class E exactly for 'Economy', the extracted airport codes, the
   * traveller count verbatim, the return date or "", and no children,
   * infants or other passenger kinds.
   */
  lemma QatarUrlReadBack(p: ScrapeFlightParams)
    requires PlainFields(p)
    ensures QatarUrl(p)[..|FlightSelectionBase| + 1] == FlightSelectionBase + "?"
    ensures var q := ParseQuery(QatarUrl(p)[|FlightSelectionBase| + 1..]);
      && q == QatarQuery(p)
      && (Lookup(q, "tripType") == Some("O") <==> p.tripType == "oneWay")
      && (Lookup(q, "tripType") == Some("R") <==> p.tripType != "oneWay")
      && (Lookup(q, "bookingClass") == Some("E") <==> p.travelClass == "Economy")
      && (Lookup(q, "bookingClass") == Some("") <==> p.travelClass != "Economy")
      && Lookup(q, "fromStation") == Some(ExtractAirportCode(p.from))
      && Lookup(q, "toStation") == Some(ExtractAirportCode(p.to))
      && Lookup(q, "departing") == Some(p.departureDate)
      && Lookup(q, "adults") == Some(p.travellers)
      && Lookup(q, "returning") == Some(p.returnDate.GetOr(""))
      && Lookup(q, "children") == Some("0") && Lookup(q, "infants") == Some("0")
      && Lookup(q, "ofw") == Some("0") && Lookup(q, "teenager") == Some("0")
  {
    var url := QatarUrl(p);
    var n := |FlightSelectionBase| + 1;
    var q := QatarQuery(p);
    assert url[n..] == Render(q);
    var tripType := if p.tripType == "oneWay" then "O" else "R";
    var bookingClass := if p.travelClass == "Economy" then "E" else "";
    TemplateReadable(tripType, ExtractAirportCode(p.from), ExtractAirportCode(p.to), p.departureDate,
                     bookingClass, p.travellers, p.returnDate.GetOr(""));
    QueryRoundTrip(q);
    TemplateLookups(tripType, ExtractAirportCode(p.from), ExtractAirportCode(p.to), p.departureDate,
                    bookingClass, p.travellers, p.returnDate.GetOr(""));
  }

  /** Each parameter of the template is found under its own key. */
  lemma TemplateLookups(tripType: string, fromStation: string, toStation: string, departing: string,
                        bookingClass: string, adults: string, returning: string)
    ensures var q := Template(tripType, fromStation, toStation, departing, bookingClass, adults, returning);
      && Lookup(q, "tripType") == Some(tripType)
      && Lookup(q, "fromStation") == Some(fromStation) && Lookup(q, "toStation") == Some(toStation)
      && Lookup(q, "departing") == Some(departing) && Lookup(q, "bookingClass") == Some(bookingClass)
      && Lookup(q, "adults") == Some(adults) && Lookup(q, "returning") == Some(returning)
      && Lookup(q, "children") == Some("0") && Lookup(q, "infants") == Some("0")
      && Lookup(q, "ofw") == Some("0") && Lookup(q, "teenager") == Some("0")
  {
    var q := Template(tripType, fromStation, toStation, departing, bookingClass, adults, returning);
    TemplateKeysDistinct(tripType, fromStation, toStation, departing, bookingClass, adults, returning);
    LookupAt(q, 5);
    LookupAt(q, 6);
    LookupAt(q, 7);
    LookupAt(q, 8);
    LookupAt(q, 9);
    LookupAt(q, 10);
    LookupAt(q, 11);
    LookupAt(q, 12);
    LookupAt(q, 13);
    LookupAt(q, 14);
    LookupAt(q, 15);
  }

  /** What the browser session yields: a thrown error, or the text of each `.flight-card` (null-able). */
  datatype QatarSession = Threw(message: string) | CardTexts(texts: seq<Option<string>>)

  /** `el.textContent?.trim() || ""`. */
  function CardText(x: Option<string>): string {
    Or(Trim(x.GetOr("")), "")
  }

  function CardTextsOf(xs: seq<Option<string>>): (r: seq<string>)
    ensures |r| == |xs|
    ensures forall i :: 0 <= i < |xs| ==> r[i] == CardText(xs[i])
  {
    if xs == [] then [] else [CardText(xs[0])] + CardTextsOf(xs[1..])
  }

  /**
   * `scrapeFlightData` once the browser has loaded `QatarUrl(p)`: any error is
   * rethrown; otherwise each card text, in document order, goes through `processFlights`.
   */
  function ScrapeFlightData(session: QatarSession): (r: Result<seq<string>>)
    ensures session.Threw? ==> r == Failure(session.message)
    ensures session.CardTexts? ==> r.Success? && |r.value| == |session.texts|
    ensures session.CardTexts? ==> forall i :: 0 <= i < |r.value| ==>
              r.value[i] == ProcessFlight(Trim(session.texts[i].GetOr("")))
  {
    match session
    case Threw(message) => Failure(message)
    case CardTexts(texts) => Success(ProcessFlights(CardTextsOf(texts)))
  }
}
