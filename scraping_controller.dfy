/**
 * The Express scraping controller: the same join as the Next.js route, but
 * the scrapers run one after the other, and only `returnDate` is defaulted.
 */
module ScrapingController {
  import opened Wrappers
  import opened FlightTypes
  import opened UrlQuery
  import opened QatarScraper
  import opened EmiratesScraper
  import opened ScrapeRoute

  /** The parameter record; the other query values are taken as the strings the casts claim. */
  function ControllerParams(tripType: string, from: string, to: string, departureDate: string,
                            returnDate: Option<string>, travelClass: string, travellers: string)
    : (p: ScrapeFlightParams)
    ensures p.returnDate == Some(returnDate.GetOr(""))
  {
    ScrapeFlightParams(tripType, from, to, departureDate, Some(returnDate.GetOr("")), travelClass, travellers)
  }

  /** The scrapers, in the order the controller starts them. */
  datatype Adapter = QatarAdapter | EmiratesAdapter

  /**
   * `scrapeFlights`: Qatar first; when it throws, Emirates is never started.
   * Either scraper failing gives the fixed 500.
   */
  method ScrapeFlights(tripType: string, from: string, to: string, departureDate: string,
                       returnDate: Option<string>, travelClass: string, travellers: string,
                       session: QatarSession, page: EmiratesPage)
    returns (reply: ScrapeReply, started: seq<Adapter>, qatarUrl: string)
    ensures var p := ControllerParams(tripType, from, to, departureDate, returnDate, travelClass, travellers);
      && qatarUrl == QatarUrl(p)
      && (ScrapeFlightData(session).Failure? ==> reply == ScrapeFailed(ScrapeError) && started == [QatarAdapter])
      && (ScrapeFlightData(session).Success? ==>
            && started == [QatarAdapter, EmiratesAdapter]
            && (reply == ScrapeFailed(ScrapeError) <==> Rejects(p, page))
            && (reply.Joined? ==>
                  reply.qatar == ScrapeFlightData(session).value && ScrapedAs(p, page, Success(reply.emirates))))
  {
    var params := ControllerParams(tripType, from, to, departureDate, returnDate, travelClass, travellers);
    qatarUrl := QatarUrl(params);
    var qatar := ScrapeFlightData(session);
    started := [QatarAdapter];
    if qatar.Failure? {
      reply := ScrapeFailed(ScrapeError);
      return;
    }
    var emirates := ScrapeFlightDataEmirates(params, page);
    started := started + [EmiratesAdapter];
    if emirates.Failure? {
      reply := ScrapeFailed(ScrapeError);
      return;
    }
    reply := Joined(qatar.value, emirates.value);
  }

  /** When the query holds every parameter, the controller and the route scrape with the same record. */
  lemma SameParamsAsRoute(query: seq<Param>, tripType: string, from: string, to: string, departureDate: string,
                          returnDate: Option<string>, travelClass: string, travellers: string)
    requires Lookup(query, "tripType") == Some(tripType) && Lookup(query, "from") == Some(from)
    requires Lookup(query, "to") == Some(to) && Lookup(query, "departureDate") == Some(departureDate)
    requires Lookup(query, "returnDate") == returnDate
    requires Lookup(query, "travelClass") == Some(travelClass) && Lookup(query, "travellers") == Some(travellers)
    ensures BaseParams(query) == ControllerParams(tripType, from, to, departureDate, returnDate, travelClass, travellers)
  {
  }
}
