/** The record and parameter shapes shared by the client, the parsers and the scrapers. */
module FlightTypes {
  import opened Wrappers

  /** One normalised fare (`Flights`); the optional database `_id` is not modelled. */
  datatype Flight = Flight(
    airline: string,
    departureTime: string,
    departureAirport: string,
    arrivalTime: string,
    arrivalAirport: string,
    stops: string,
    duration: string,
    price: string)

  /** The search parameters (`ScrapeFlightParams`); only `returnDate` may be undefined. */
  datatype ScrapeFlightParams = ScrapeFlightParams(
    tripType: string,
    from: string,
    to: string,
    departureDate: string,
    returnDate: Option<string>,
    travelClass: string,
    travellers: string)
}
