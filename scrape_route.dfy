/**
 * The Next.js `/api/scrape-flights` handler: the query read with every
 * missing parameter defaulting to "", both scrapers started on that one
 * parameter record, and their results joined, or a fixed 500 error.
 */
module ScrapeRoute {
  import opened Wrappers
  import opened FlightTypes
  import opened UrlQuery
  import opened QatarScraper
  import opened EmiratesScraper

  /** The JSON answer: `{ qatar, emirates }`, or `{ error }` with status 500. */
  datatype ScrapeReply = Joined(qatar: seq<string>, emirates: EmiratesResult) | ScrapeFailed(error: string)

  const ScrapeError := "Failed to scrape flight details"

  function ReplyStatus(r: ScrapeReply): int {
    if r.Joined? then 200 else 500
  }

  /** `searchParams.get(name) || ''`. */
  function SearchParam(query: seq<Param>, name: string): (v: string)
    ensures Lookup(query, name).None? ==> v == ""
    ensures Lookup(query, name).Some? ==> v == Lookup(query, name).value
  {
    Lookup(query, name).GetOr("")
  }

  function BaseParams(query: seq<Param>): ScrapeFlightParams {
    ScrapeFlightParams(
      SearchParam(query, "tripType"), SearchParam(query, "from"), SearchParam(query, "to"),
      SearchParam(query, "departureDate"), Some(SearchParam(query, "returnDate")),
      SearchParam(query, "travelClass"), SearchParam(query, "travellers"))
  }

  /**
   * `Promise.all` of the two scrapers: when either promise rejects, the
   * whole request fails with the fixed 500; otherwise both values are
   * answered in their slots.
   */
  function JoinReplies(qatar: Result<seq<string>>, emirates: Result<EmiratesResult>): (r: ScrapeReply)
    ensures r.ScrapeFailed? <==> qatar.Failure? || emirates.Failure?
    ensures r.ScrapeFailed? ==> r.error == ScrapeError && ReplyStatus(r) == 500
    ensures r.Joined? ==> r.qatar == qatar.value && Success(r.emirates) == emirates && ReplyStatus(r) == 200
  {
    if qatar.Failure? || emirates.Failure? then ScrapeFailed(ScrapeError) else Joined(qatar.value, emirates.value)
  }

  /**
   * `GET`: both scrapers are started, side by side, on `BaseParams(query)`;
   * the Qatar one opens `qatarUrl`. `session` and `page` stand for what each
   * browser yields.
   */
  method Get(query: seq<Param>, session: QatarSession, page: EmiratesPage)
    returns (reply: ScrapeReply, qatarUrl: string)
    ensures qatarUrl == QatarUrl(BaseParams(query))
    ensures reply == ScrapeFailed(ScrapeError) <==>
      ScrapeFlightData(session).Failure? || Rejects(BaseParams(query), page)
    ensures reply.Joined? ==> reply.qatar == ScrapeFlightData(session).value
    ensures reply.Joined? ==> ScrapedAs(BaseParams(query), page, Success(reply.emirates))
  {
    var params := BaseParams(query);
    qatarUrl := QatarUrl(params);
    var qatar := ScrapeFlightData(session);
    var emirates := ScrapeFlightDataEmirates(params, page);
    reply := JoinReplies(qatar, emirates);
  }
}
