/**
 * The stored shapes (`FlightDetails`, `IFlight`) and what the schema demands
 * of them: the four route fields and the six fields of every stored flight are
 * required strings, which for the schema means present and not empty;
 * `returnDate` is optional and `lastUpdatedAt` defaults to the creation time.
 * Times are integer milliseconds.
 */
module FlightSchema {
  import opened Wrappers
  import opened FlightTypes

  /** A stored flight: the record without its airport codes, which the schema does not have. */
  datatype FlightDetails = FlightDetails(
    airline: string, departureTime: string, arrivalTime: string,
    stops: string, duration: string, price: string)

  /** One stored search result. `returnDate` is `None` when the field is absent. */
  datatype FlightEntry = FlightEntry(
    from: string, to: string, departureDate: string, returnDate: Option<string>,
    travelClass: string, flights: seq<FlightDetails>, lastUpdatedAt: int)

  /** What saving keeps of a record: only the paths the schema declares. */
  function ToDetails(f: Flight): (d: FlightDetails)
    ensures d.airline == f.airline && d.departureTime == f.departureTime && d.arrivalTime == f.arrivalTime
    ensures d.stops == f.stops && d.duration == f.duration && d.price == f.price
  {
    FlightDetails(f.airline, f.departureTime, f.arrivalTime, f.stops, f.duration, f.price)
  }

  function ToDetailsAll(fs: seq<Flight>): (r: seq<FlightDetails>)
    ensures |r| == |fs|
    ensures forall i :: 0 <= i < |fs| ==> r[i] == ToDetails(fs[i])
  {
    if fs == [] then [] else [ToDetails(fs[0])] + ToDetailsAll(fs[1..])
  }

  /** Two records that differ only in their airport codes are stored alike. */
  lemma AirportsNotStored(f: Flight, g: Flight)
    requires f.(departureAirport := g.departureAirport, arrivalAirport := g.arrivalAirport) == g
    ensures ToDetails(f) == ToDetails(g)
  {
  }

  predicate ValidDetails(d: FlightDetails) {
    d.airline != "" && d.departureTime != "" && d.arrivalTime != ""
    && d.stops != "" && d.duration != "" && d.price != ""
  }

  /** The schema's validation, run on every `create` and `save`. */
  predicate ValidEntry(e: FlightEntry) {
    && e.from != "" && e.to != "" && e.departureDate != "" && e.travelClass != ""
    && forall i :: 0 <= i < |e.flights| ==> ValidDetails(e.flights[i])
  }

  /** A new document; without a `lastUpdatedAt` it gets the creation time `now`. */
  function NewEntry(from: string, to: string, departureDate: string, returnDate: Option<string>,
                    travelClass: string, flights: seq<Flight>, lastUpdatedAt: Option<int>, now: int): (e: FlightEntry)
    ensures e.lastUpdatedAt == if lastUpdatedAt.Some? then lastUpdatedAt.value else now
    ensures e.flights == ToDetailsAll(flights)
    ensures e.from == from && e.to == to && e.departureDate == departureDate
    ensures e.returnDate == returnDate && e.travelClass == travelClass
  {
    FlightEntry(from, to, departureDate, returnDate, travelClass, ToDetailsAll(flights), lastUpdatedAt.GetOr(now))
  }

  /** An entry is valid exactly when its route fields and every flight field are non-empty; the return date may be anything. */
  lemma ValidNewEntry(from: string, to: string, departureDate: string, returnDate: Option<string>,
                      travelClass: string, flights: seq<Flight>, now: int)
    ensures ValidEntry(NewEntry(from, to, departureDate, returnDate, travelClass, flights, None, now))
            <==> from != "" && to != "" && departureDate != "" && travelClass != ""
                 && forall i :: 0 <= i < |flights| ==>
                      var f := flights[i];
                      f.airline != "" && f.departureTime != "" && f.arrivalTime != ""
                      && f.stops != "" && f.duration != "" && f.price != ""
  {
    var e := NewEntry(from, to, departureDate, returnDate, travelClass, flights, None, now);
    assert forall i :: 0 <= i < |flights| ==> e.flights[i] == ToDetails(flights[i]);
  }
}
