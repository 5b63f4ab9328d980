/**
 * The Next.js `/api/flights` handlers: `POST` runs the store-or-update step
 * against the collection, `GET` the four-field search.
 */
module FlightsRoute {
  import opened Wrappers
  import opened FlightCache

  const NoAirlineDetail := "No airline information found"

  method Post(db: FlightModel, b: PostBody, now: int, errorDetail: string) returns (res: Response)
    modifies db
    ensures db.entries == Upsert(old(db.entries), b, now).entries
    ensures res == PostResponse(Upsert(old(db.entries), b, now).reply, NoAirlineDetail, errorDetail)
  {
    var reply := StoreOrUpdate(db, b, now);
    res := PostResponse(reply, NoAirlineDetail, errorDetail);
  }

  /** A search parameter is `None` when `searchParams.get` gives `null`. */
  method Get(db: FlightModel, from: Option<string>, to: Option<string>,
             departureDate: Option<string>, travelClass: Option<string>) returns (res: Response)
    ensures res == GetResponse(FlightCache.Get(db.entries, from, to, departureDate, travelClass))
    ensures res.status == 200 ==> forall e :: e in res.body.entries <==>
      e in db.entries && MatchesQuery(e, from.value, to.value, departureDate.value, travelClass.value)
  {
    var reply := FlightCache.Get(db.entries, from, to, departureDate, travelClass);
    res := GetResponse(reply);
  }
}
