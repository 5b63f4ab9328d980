/**
 * The Express flight controller: the same store-or-update step and search as
 * the Next.js route, answering with Express status codes.
 */
module FlightController {
  import opened Wrappers
  import opened FlightCache
  import FlightsRoute

  const NoAirlineDetail := "No airline information found in flights data"

  method StoreOrUpdateFlights(db: FlightModel, b: PostBody, now: int, errorDetail: string) returns (res: Response)
    modifies db
    ensures db.entries == Upsert(old(db.entries), b, now).entries
    ensures res == PostResponse(Upsert(old(db.entries), b, now).reply, NoAirlineDetail, errorDetail)
  {
    var reply := StoreOrUpdate(db, b, now);
    res := PostResponse(reply, NoAirlineDetail, errorDetail);
  }

  /** A query parameter is `None` when `req.query` has no such key. */
  method GetFlights(db: FlightModel, from: Option<string>, to: Option<string>,
                    departureDate: Option<string>, travelClass: Option<string>) returns (res: Response)
    ensures res == GetResponse(FlightCache.Get(db.entries, from, to, departureDate, travelClass))
    ensures res.status == 200 ==> forall e :: e in res.body.entries <==>
      e in db.entries && MatchesQuery(e, from.value, to.value, departureDate.value, travelClass.value)
  {
    var reply := FlightCache.Get(db.entries, from, to, departureDate, travelClass);
    res := GetResponse(reply);
  }

  /**
   * The controller and the route answer every POST alike, status and body,
   * except for the wording of the missing-airline detail.
   */
  lemma SameAsRoute(reply: PostReply, errorDetail: string)
    ensures PostResponse(reply, NoAirlineDetail, errorDetail).status
         == PostResponse(reply, FlightsRoute.NoAirlineDetail, errorDetail).status
    ensures PostResponse(reply, NoAirlineDetail, errorDetail) == PostResponse(reply, FlightsRoute.NoAirlineDetail, errorDetail)
         <==> !reply.NoAirline?
  {
    if reply.NoAirline? {
      assert |NoAirlineDetail| != |FlightsRoute.NoAirlineDetail|;
    }
  }
}
