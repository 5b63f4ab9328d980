# Scraping-Airlines: a verified model of the core

Scraping-Airlines scrapes fares from two airline sites (Qatar Airways and
Emirates), normalises them into one record shape (`Flights`) and keeps them in
a MongoDB collection that works as a cache with a 10-minute freshness limit.
This project models the deterministic logic around the browser and the
database and proves properties of it:

- **Text-mode parsing of Qatar listings** (`PieceRegex`, `ParseFlightData`,
  `ScraperUtils`). The regular expressions are modelled as sequences of
  pieces. Each piece has a token language and an order in which it tries
  lengths (greedy or lazy). `Exec` follows ECMAScript backtracking: the
  leftmost start, then the first vector of lengths in priority order. It is
  proved sound and complete, and the chunks it returns are proved to be the
  first decomposition in that order (`ExecPriorityFirst`). `parseFlightData` builds records from the capture
  groups, and `processFlights` rewrites each card text into a fixed sentence
  or tags it as unrecognized.
- **Emirates field normalisation** (`EmiratesScraper`). The card selectors'
  texts are inputs. The model covers the price clean-up with its fallback,
  the airline, stops and default values, the final mapping that attaches the
  airport codes, and the error-shaped results.
- **Query encoding** (`AirportCode`, `EmiratesUrl`, `UrlQuery`,
  `QatarScraper`): `extractAirportCode`, the Emirates search request and the
  Qatar flight-selection URL.
- **The flight store** (`FlightSchema`, `FlightCache`, `FlightsRoute`,
  `FlightController`).
  - The collection is a `FlightModel` object whose `entries` sequence is
    updated in place by `save` and grown by `create`.
  - The POST rule is a specification function, `Upsert`: a fresh entry means
    no write, a stale entry is refreshed in place, and a missing entry is
    appended. The handlers are proved to follow it.
  - GET is a four-field filter answering 400, 404 or 200.
- **Joins and the client pipeline** (`ScrapeRoute`, `ScrapingController`,
  `FlightsApi`).
  - The two scrape endpoints join the adapters' outcomes. The Next.js route
    starts both scrapers. The Express controller runs them one after the
    other.
  - The client's `fetchFlights` turns the answer into two lists and stores
    each list that is non-empty.

Shared JavaScript semantics are in `JsString` and `JsNumber`: `trim`, the
`\s` class, `split`/`join`, `includes`, `indexOf`, `replace` with a string
pattern, `||`, `toLowerCase` on ASCII, `parseInt` and decimal rendering.
`Wrappers` holds `Option` (for `null`/`undefined`) and `Result` (a value or the
message of a thrown `Error`).

Where the code and the system's design description disagree, the model follows
the code:

- **Aggregator.** The design says one adapter's failure must not hide the
  other's result. In the code, a thrown Qatar scraper turns the whole scrape
  request into a 500 with no partial results. The Express controller does not
  even start the Emirates scraper in that case. The Emirates scraper catches
  its own errors, but the `browser.close()` inside its catch block is not
  guarded. When that close throws, the Emirates promise rejects and the request
  is a 500 as well, even after Qatar succeeded (`ScrapeRoute.Get`,
  `ScrapingController.ScrapeFlights`).
- **Fallback pattern.** The design's example listing with `Flight details`
  before the price is meant for the secondary pattern. In the code, any text
  the fallback pattern matches is already matched by the primary one, so the
  fallback branch never produces a record (`FallbackBranchNeverUsed`).
- **Duration.** The design says `duration` is trimmed. The code passes it
  through as captured.
- **Emirates records.** The design says field-mode records go through the
  record parser. The code returns the Emirates records as extracted; only the
  Qatar texts are parsed, on the client.
- **Qatar chain.** On the client, the Qatar texts are `processFlights`
  output. A recognised card's sentence contains no currency symbol, so
  `parseFlightData` drops it. Records can only come from cards tagged as
  unrecognized (`FlightsApi.QatarRecordsOnlyFromUnrecognized`).
- **Trip types.** The form sends `oneWay` and `roundTrip`. Neither is a key
  of the Emirates journey map, so both give a one-way search
  (`EmiratesUrl.FormTripTypesAreOneWay`).

## Model

| member | source | states |
|---|---|---|
| PieceRegex.Exec | utils/parseFlightData.ts:7-9 | a match starts at the leftmost position admitting one; its chunks are each in their piece's language and spell a slice of the input |
| PieceRegex.ExecPriorityFirst | utils/parseFlightData.ts:7-9 | the chunks returned are the first decomposition at the match's start in backtracking order: no other decomposition there gives an earlier piece a length that piece tries first (longer for greedy, shorter for lazy) |
| PieceRegex.MatchFromPriorityFirst | utils/parseFlightData.ts:7-9 | at a fixed start, the backtracking search returns the decomposition that comes first in that order |
| PieceRegex.LengthsInPriorityOrder | utils/parseFlightData.ts:8 | each piece tries its lengths in its priority order: longest first when greedy, shortest first when lazy, and for an optional lazy group every non-empty length before skipping it |
| PieceRegex.ExecComplete | utils/parseFlightData.ts:7-9 | whenever some decomposition of a slice into the pieces' languages exists, the match succeeds |
| PieceRegex.SearchComplete | utils/parseFlightData.ts:7-9 | a decomposition at position j makes the search from i succeed at or before j |
| ParseFlightData.PrimaryMatch | utils/parseFlightData.ts:7-9 | the ten groups of a primary match are well formed: a non-empty letter/space prefix, 1-2 digit clock, three upper-case codes, a `[\dh\s]+m` duration, an optional `+N`, one of £ $ € ¥ ₹ and a digits-and-commas amount |
| ParseFlightData.FallbackMatch | utils/parseFlightData.ts:25-27 | the same guarantees for the fallback pattern's groups |
| ParseFlightData.Assemble | utils/parseFlightData.ts:54-70 | the record built from well-formed groups has the parsed-record shape: default or parenthesised airline, clock, codes, clock with optional `+N`, trimmed stops, duration, symbol-led price |
| ParseFlightData.ParseFlightData | utils/parseFlightData.ts:3-71 | every record returned has the parsed-record shape |
| ParseFlightData.FallbackImpliesPrimary | utils/parseFlightData.ts:25-27 | any text the fallback pattern matches is matched by the primary pattern |
| ParseFlightData.FallbackBranchNeverUsed | utils/parseFlightData.ts:11-31 | the result is null exactly when the primary pattern fails, and otherwise is the record of the primary match |
| ParseFlightData.AirlineName | utils/parseFlightData.ts:58-59 | the airline is "Qatar Airways" exactly when the prefix is absent or blank, and otherwise "Qatar Airways (" + trimmed prefix + ")" |
| ParseFlightData.FieldsFromGroups | utils/parseFlightData.ts:61-70 | times and codes come verbatim from their groups, stops trimmed, duration untrimmed, arrival time is group 6 followed by the `+N` group exactly when it matched, price is symbol then amount |
| ParseFlightData.NoSymbolNoRecord | utils/parseFlightData.ts:8 | a text without any of £ $ € ¥ ₹ never parses |
| JsString.Trim | utils/scraperUtils.ts:6 | the result is the slice of the input left after the leading and trailing whitespace, and has no whitespace at either end |
| JsString.TrimEmptyIffBlank | utils/parseFlightData.ts:58 | trimming gives "" exactly for all-whitespace strings |
| JsString.Split | utils/extractAirportCode.ts:4 | at least one part, no part holds the separator, two or more parts exactly when the separator occurs, and joining the parts gives the input back |
| JsString.SplitJoin | utils/extractAirportCode.ts:4 | splitting undoes joining when no part holds the separator |
| JsString.ReplaceFirst | server/scraper/flightScraperEmirates.ts:149 | without an occurrence the text is unchanged; otherwise only the first occurrence is replaced |
| JsString.AsciiLower | utils/generateEmiratesUrl.ts:34 | same length, each upper-case ASCII letter lowered, every other character kept |
| JsNumber.NatToString | lib/api/Flightsapi.ts:46 | a non-empty run of decimal digits without a leading zero |
| JsNumber.ParseIntNatToString | utils/generateEmiratesUrl.ts:38 | `parseInt` reads a decimal rendering back as the number |
| JsNumber.ParseIntSkipsSpaces | utils/generateEmiratesUrl.ts:38 | leading whitespace never changes what `parseInt` returns |
| ScraperUtils.CollapseSpaces | utils/scraperUtils.ts:6 | every whitespace left is a plain space, no two spaces are adjacent, empty exactly for empty input, starting with whitespace exactly when the input does, and the non-whitespace text is unchanged |
| ScraperUtils.CollapseKeepsWords | utils/scraperUtils.ts:6 | collapsing keeps the words (the maximal non-whitespace runs) in order and ends with whitespace exactly when the input does, so each whitespace run becomes exactly one space |
| ScraperUtils.NormalizeShape | utils/scraperUtils.ts:6 | the collapsed and trimmed text has single plain spaces, none at the ends, the same non-whitespace characters and the same words in order |
| ScraperUtils.NormalizeUnique | utils/scraperUtils.ts:6 | the normalised text is the only text with single plain spaces, none at the ends, and the input's words in order |
| ScraperUtils.NormalizeIdempotent | utils/scraperUtils.ts:6 | normalising twice is normalising once |
| ScraperUtils.CardMatch | utils/scraperUtils.ts:3-7 | the five groups of a match on the normalised card are well formed: `dd:dd` departure, `N Stop`, duration, `dd:dd` with optional `+`/digit, `PKR ` amount |
| ScraperUtils.SentenceFields | utils/scraperUtils.ts:9 | the rewrite starts with the departure, then " from ISB to DXB at " and the arrival, and ends with the `PKR` price in parentheses |
| ScraperUtils.TaggedIffUnrecognized | utils/scraperUtils.ts:7-12 | an output carries "Unrecognized format: " exactly when the card did not match, and the tag is then followed by the original, un-normalised card |
| ScraperUtils.RecognizedHasStops | utils/scraperUtils.ts:3 | a recognised card's stops are digits followed by " Stop", so a direct listing never matches |
| ScraperUtils.ProcessFlights | utils/scraperUtils.ts:5-13 | one output per card in the same order, output i computed from card i alone |
| ScraperUtils.SentenceHasNoSymbol | utils/scraperUtils.ts:9 | the rewrite of a recognised card contains none of £ $ € ¥ ₹ |
| AirportCode.ParenthesisedCode | utils/extractAirportCode.ts:3-4 | with both parentheses present, the result is the longest parenthesis-free text right after the first '(' |
| AirportCode.UnparenthesisedUnchanged | utils/extractAirportCode.ts:8 | without both parentheses the input is returned unchanged |
| AirportCode.CodeIsSlice | utils/extractAirportCode.ts:3-8 | the result occurs in the input and is never longer |
| AirportCode.ExtractIdempotent | utils/extractAirportCode.ts:3-8 | extracting twice is extracting once |
| AirportCode.DubaiExample | utils/extractAirportCode.ts:4 | "Dubai (DXB)" gives "DXB" |
| EmiratesUrl.CabinClass | utils/generateEmiratesUrl.ts:22-27 | J exactly for Business, F exactly for First, the inherited member exactly for a name `Object.prototype` provides ("constructor", "toString", "__proto__", ...), Y for every other class |
| EmiratesUrl.JourneyType | utils/generateEmiratesUrl.ts:29-34 | RETURN exactly when the lowercased trip type is "return", MULTICITY exactly for "multi-city", the inherited member exactly when it lowers to a name `Object.prototype` provides, ONEWAY otherwise |
| EmiratesUrl.InheritedCabinClass | utils/generateEmiratesUrl.ts:27 | the classes "toString" and "constructor" find the inherited members, not the "Y" default |
| EmiratesUrl.InheritedJourneyType | utils/generateEmiratesUrl.ts:34 | a trip type finds an inherited member exactly when it lowers to "constructor" or "__proto__", the only such names without capitals |
| EmiratesUrl.FormTripTypesAreOneWay | utils/generateEmiratesUrl.ts:29-34 | "oneWay" and "roundTrip" both give ONEWAY |
| EmiratesUrl.CapitalisedReturn | utils/generateEmiratesUrl.ts:34 | "Return" gives RETURN: case does not matter |
| EmiratesUrl.PassengerCount | utils/generateEmiratesUrl.ts:36-38 | a number is kept; text is parsed, and NaN or 0 gives 1 |
| EmiratesUrl.PassengerCountOfDecimal | utils/generateEmiratesUrl.ts:36-38 | a decimal count as text gives that count, 0 gives 1 |
| EmiratesUrl.PassengerCountNaN | utils/generateEmiratesUrl.ts:38 | text with no leading number gives 1 |
| EmiratesUrl.GenerateEmiratesUrl | utils/generateEmiratesUrl.ts:4-69 | fails with "Missing or invalid parameters" exactly when a code or the date is empty; otherwise the fixed prefix, the extracted codes, REVENUE, one ADT passenger, an outbound segment, and an inbound, swapped segment with the same cabin exactly for the string RETURN with a non-empty return date |
| EmiratesScraper.KeepPriceChars | server/scraper/flightScraperEmirates.ts:111 | only digits, '.', ',' and $ € £ ¥ ₹ ₽ ₺ ﷼ د إ remain, never longer, and text made only of those is unchanged |
| EmiratesScraper.KeepPriceCharsAppend | server/scraper/flightScraperEmirates.ts:111 | the clean-up distributes over concatenation |
| EmiratesScraper.KeepPriceCharsIdempotent | server/scraper/flightScraperEmirates.ts:111 | cleaning twice is cleaning once |
| EmiratesScraper.CleanedPlaceholderIsEmpty | server/scraper/flightScraperEmirates.ts:109-111 | the "N/A" placeholder is cleaned to the empty string |
| EmiratesScraper.CleanedIsNotPlaceholder | server/scraper/flightScraperEmirates.ts:111-115 | a cleaned price is never "N/A" |
| EmiratesScraper.CardPrice | server/scraper/flightScraperEmirates.ts:103-119 | the price is the cleaned container text, or else the currency code followed by the amount or "N/A", and it is never empty |
| EmiratesScraper.ExtractCard | server/scraper/flightScraperEmirates.ts:121-128 | the record's airline is the alt text (default "Emirates") without its first "Operated by ", stops default to "Non-stop", the other fields are their selectors' trimmed texts, and price and stops are non-empty |
| EmiratesScraper.ExtractFlightResults | server/scraper/flightScraperEmirates.ts:94-135 | one record per card, in document order, each the card's record |
| EmiratesScraper.WithAirports | server/scraper/flightScraperEmirates.ts:142-151 | one record per extracted card, in order, with the search's airport codes, stops cleaned of "Opens a dialog" and the other fields copied |
| EmiratesScraper.NonStopDialog | server/scraper/flightScraperEmirates.ts:149 | "Non-stop Opens a dialog" becomes "Non-stop" |
| EmiratesScraper.Banner | server/scraper/flightScraperEmirates.ts:60-64 | no banner exactly when both error elements are absent or empty; a banner is never empty |
| EmiratesScraper.ErrorValue | server/scraper/flightScraperEmirates.ts:168-177 | the error value has airline "Emirates", no flights, the error text and the query echoed back with the return date defaulting to "" |
| EmiratesScraper.ScrapeFlightDataEmirates | server/scraper/flightScraperEmirates.ts:14-179 | the promise rejects with the close error exactly when the catch block's `browser.close()` throws: after a crash once the browser was launched, or after a banner whose own close threw. Otherwise an invalid query gives the error value with "Missing or invalid parameters", a crash the error value with its message, and a banner the error value with the banner text. With no banner, the result is one record per card with the query's codes and the normalised fields |
| EmiratesScraper.ScrapedAsDeterministic | server/scraper/flightScraperEmirates.ts:14-179 | the scraper's specification leaves nothing open: a query and a page admit exactly one outcome |
| UrlQuery.Lookup | app/api/scrape-flights/route.ts:12-20 | the value of the first pair under the key, or none when no pair has it |
| UrlQuery.NonEmptyParts | app/api/scrape-flights/route.ts:8 | the empty parts between `&`s are dropped and every other part is kept; a query with no empty part is unchanged |
| UrlQuery.QueryRoundTrip | server/scraper/flightScraper.ts:34 | reading back a rendered query gives its pairs, in order, when no key holds '&' or '=' and no value holds '&' |
| UrlQuery.LookupAt | server/scraper/flightScraper.ts:34 | with distinct keys, every pair is found under its own key |
| QatarScraper.QatarUrlReadBack | server/scraper/flightScraper.ts:31-34 | the URL is the flight-selection base, then a query that reads back with tripType O exactly for oneWay, bookingClass E exactly for Economy and "" otherwise, the extracted codes, the date, adults as given, returning as the return date or "", and children, infants, ofw and teenager 0 |
| QatarScraper.TemplateLookups | server/scraper/flightScraper.ts:34 | each parameter of the template is found under its own key |
| QatarScraper.CardTextsOf | server/scraper/flightScraper.ts:47 | one text per card, in order, each the trimmed text or "" |
| QatarScraper.ScrapeFlightData | server/scraper/flightScraper.ts:46-57 | a failure is rethrown with its message; otherwise the result is `processFlights` of the trimmed card texts, one per card, in order |
| FlightSchema.ToDetails | lib/db/models/Flights.ts:30-39 | a stored flight keeps exactly the six schema fields of the record |
| FlightSchema.ToDetailsAll | lib/db/models/Flights.ts:30-39 | one stored flight per record, in order |
| FlightSchema.AirportsNotStored | lib/db/models/Flights.ts:3-11 | two records differing only in their airport codes are stored alike |
| FlightSchema.NewEntry | lib/db/models/Flights.ts:40 | `lastUpdatedAt` is the given time, or the creation time when none is given |
| FlightSchema.ValidNewEntry | lib/db/models/Flights.ts:25-39 | a document validates exactly when the four route fields and the six fields of every flight are non-empty, whatever the return date |
| FlightCache.FirstAirline | app/api/flights/route.ts:62 | the first flight's airline, or "" without flights |
| FlightCache.FindOne | app/api/flights/route.ts:73-80 | the first entry in collection order matching the five route fields and the first airline, or none when no entry matches |
| FlightCache.Status | app/api/flights/route.ts:85-121 | 201 exactly for a creation, 400 exactly for a missing airline, 500 exactly for a rejected document, 200 otherwise |
| FlightCache.NoAirlineUntouched | app/api/flights/route.ts:62-70 | the reply is the missing-airline one exactly without a first airline, and the store is then unchanged |
| FlightCache.FreshIffYoung | app/api/flights/route.ts:86-94 | a matching entry is served as it is exactly when its age is under the limit, and nothing is written then |
| FlightCache.StaleBoundary | app/api/flights/route.ts:86-89 | an age of 599999 ms is a cache hit and an age of exactly 600000 ms is not |
| FlightCache.RefreshInPlace | app/api/flights/route.ts:96-104 | a refresh keeps the store's length, every other entry, and the entry's route fields, and replaces only its flights and sets `lastUpdatedAt` to now, for a stale entry only |
| FlightCache.CreateOnlyWhenAbsent | app/api/flights/route.ts:107-121 | a creation happens only when nothing matched, and appends exactly one entry with `lastUpdatedAt` = now |
| FlightCache.GrowsByAtMostOne | server/controllers/flightController.ts:59-72 | the store never shrinks, grows by at most one entry, and grows exactly on a creation |
| FlightCache.UpsertKeepsValid | lib/db/models/Flights.ts:23-45 | every write passes the schema, so a valid store stays valid |
| FlightCache.UpsertKeepsUniqueKeys | app/api/flights/route.ts:73-116 | one step after another, no two entries come to share a key |
| FlightCache.SecondPostIsCached | app/api/flights/route.ts:85-94 | after a write, the same POST within 10 minutes is served from the written entry with no write |
| FlightCache.Find | app/api/flights/route.ts:28-33 | an entry is returned exactly when it is stored and equal on from, to, departureDate and travelClass |
| FlightCache.Get | app/api/flights/route.ts:20-45 | missing parameters exactly when one is absent or empty; otherwise all four-field matches in order, or not-found when there is none |
| FlightCache.GetAfterPost | app/api/flights/route.ts:28-33 | after a successful write, a GET on the same four fields finds the written entry |
| FlightCache.PostResponse | app/api/flights/route.ts:64-121 | the status follows the reply, the 400 and 500 bodies carry their details exactly in those cases, and every success body carries the entry with its message |
| FlightCache.GetResponse | app/api/flights/route.ts:20-45 | 400 and 404 carry their messages, 200 carries exactly the found entries |
| FlightCache.FlightModel.Save | app/api/flights/route.ts:97-99 | the document is written at its position exactly when it validates, otherwise nothing changes |
| FlightCache.FlightModel.Create | app/api/flights/route.ts:108-116 | the document is appended exactly when it validates, otherwise nothing changes |
| FlightCache.StoreOrUpdate | app/api/flights/route.ts:62-121 | the reply and the new store are those of `Upsert` on the old store |
| FlightsRoute.Post | app/api/flights/route.ts:56-130 | the store becomes `Upsert`'s, and the response is its reply with the detail "No airline information found" |
| FlightsRoute.Get | app/api/flights/route.ts:8-54 | the response is the search's, and a 200 lists exactly the stored four-field matches |
| FlightController.StoreOrUpdateFlights | server/controllers/flightController.ts:7-80 | the store becomes `Upsert`'s, and the response is its reply with the detail "No airline information found in flights data" |
| FlightController.GetFlights | server/controllers/flightController.ts:82-129 | the response is the search's, and a 200 lists exactly the stored four-field matches |
| FlightController.SameAsRoute | server/controllers/flightController.ts:13-19 | controller and route give every POST the same status, and the same body except the missing-airline detail |
| ScrapeRoute.SearchParam | app/api/scrape-flights/route.ts:12-20 | a missing parameter is "", a present one its value |
| ScrapeRoute.JoinReplies | app/api/scrape-flights/route.ts:23-42 | 500 with "Failed to scrape flight details" exactly when either scraper's promise rejected, otherwise both results unchanged in their slots with 200 |
| ScrapeRoute.Get | app/api/scrape-flights/route.ts:6-43 | both scrapers run on the one defaulted parameter record; the reply is the fixed 500 exactly when the Qatar scraper threw or the Emirates promise rejected, and otherwise holds both results |
| ScrapingController.ControllerParams | server/controllers/flightScrapingController.ts:12-20 | the return date defaults to "" |
| ScrapingController.ScrapeFlights | server/controllers/flightScrapingController.ts:6-42 | Qatar runs first; when it throws, Emirates is never started and the reply is the fixed 500; otherwise Emirates runs, a rejected Emirates promise gives the fixed 500, and else both results are in their slots |
| ScrapingController.SameParamsAsRoute | server/controllers/flightScrapingController.ts:12-20 | with every parameter present, the controller and the route scrape with the same record |
| FlightsApi.QueryOf | lib/api/Flightsapi.ts:39-41 | six entries, or seven when the return date is defined |
| FlightsApi.QueryKeepsDefined | lib/api/Flightsapi.ts:39-42 | an undefined return date is left out of the query; every other parameter is in it with its value |
| FlightsApi.RouteReadsClientQuery | lib/api/Flightsapi.ts:42-43 | the scrape route reads the client's query back as the same parameters, an undefined return date as "" |
| FlightsApi.ParsedAll | lib/api/Flightsapi.ts:53-54 | one parse result per raw entry, in order |
| FlightsApi.SomesMembers | lib/api/Flightsapi.ts:55 | a record is kept exactly when it was a non-null result |
| FlightsApi.SomesAppend | lib/api/Flightsapi.ts:55 | dropping nulls keeps the order of what remains |
| FlightsApi.ParseAllMembers | lib/api/Flightsapi.ts:53-55 | a record is kept exactly when some raw entry parses to it |
| FlightsApi.Format | lib/api/Flightsapi.ts:49-59 | the Qatar texts parsed with nulls dropped and the Emirates records as they are; a non-array Emirates value fails with the TypeError, whose message is V8's "emiratesFlights.filter is not a function" |
| FlightsApi.StoreLists | lib/api/Flightsapi.ts:62-65 | each source's list is stored exactly when it is non-empty, the Qatar list first and the Emirates list last |
| FlightsApi.StoreBody | lib/api/StoringFlightapi.ts:30-33 | the POST body carries the route fields of the parameters and the list |
| FlightsApi.FetchFlights | lib/api/Flightsapi.ts:34-85 | a transport error is rethrown with its message, a failed scrape gives "API request failed with status 500", an Emirates error object gives the TypeError with V8's message "emiratesFlights.filter is not a function", a store rejection of a non-empty list is rethrown with its own message, and a success is exactly the formatted lists |
| FlightsApi.StatusFailureReadsBack | lib/api/Flightsapi.ts:45-47 | the status in the failure message reads back as the number |
| FlightsApi.QatarRecordsOnlyFromUnrecognized | lib/api/Flightsapi.ts:53-55 | a Qatar text that yields a record is always one tagged as unrecognized |
| FlightsApi.RecognizedGivesNoRecord | lib/api/Flightsapi.ts:53-55 | the rewrite of a recognised card never parses |
| FlightsApi.AllRecognizedNoQatarRecords | lib/api/Flightsapi.ts:53-55 | when every Qatar card is recognised, no Qatar record is returned or stored |

## Left out

- Browser driving (launch, navigation, waiting, scrolling, screenshots, sleeps, closing) is browser I/O. The model uses only its results. `QatarSession` holds the card texts or a thrown error. `EmiratesPage` holds each selector's text, the error elements, or a crash, and what `browser.close()` throws.
- EmiratesScraper.ScrapeFlightDataEmirates: every `browser.close()` call of one run is taken to behave alike, so after the banner path's close throws, the catch block's second close throws the same error.
- The Emirates results-timeout branch only logs and takes a screenshot. Its effect, zero or more cards, is covered by the `cards` input.
- The database connection (`connectDB`), MongoDB, Mongoose's `find`, `findOne`, `save` and `create`, and the model registry are replaced by the `FlightModel.entries` sequence.
  - A connection or driver failure (the GET 500 branch) is not modelled.
  - The validation error's message text is a parameter.
- Mongoose validation is modelled on the data as it arrives. A required string fails when it is empty, and a missing body field behaves like "".
  - Mongoose's casting of non-string values is not modelled.
  - The automatic `createdAt`/`updatedAt` timestamps are not modelled.
  - Subdocument `_id`s are not modelled.
- In the lookup filter, an undefined `returnDate` is taken to match the entries without one, which is the driver's `null` semantics.
- Dates are integer milliseconds. The clock is the `now` parameter.
- Concurrency:
  - `Promise.all` is modelled as both adapters being run; which rejection comes first does not matter, since the route answers the fixed 500 either way.
  - The unguarded read-check-write of POST is modelled as one sequential step.
  - The duplicate entries two concurrent POSTs can create are not modelled. `UniqueKeys` holds only for sequential steps.
- Wire formats:
  - Percent-encoding of query strings is not modelled; query values are taken as already decoded.
  - The JSON and base64 encoding of the Emirates search request is not modelled; the target holds the request value itself.
  - JSON transport of the results is not modelled.
- FlightsApi.FetchFlights: the store requests' outcome is the `storeFailure` input, the first rejection if any. Building the request in `StoringFlightapi` is outside this model. The fallback message 'Failed to fetch and process flights' is for values that are not `Error`s, which nothing here throws.
- FlightsApi.Format, FlightsApi.FetchFlights: the TypeError thrown when `.filter` is called on the Emirates error object gets its message from the JavaScript engine and the build, not from the program. A minified production bundle renames the local variable, and other engines word it differently. The model uses V8's text for the unminified code, "emiratesFlights.filter is not a function".
- FlightsApi.QueryOf: the key order is that of the form's parameter object.
- QatarScraper.QatarUrlReadBack: the read-back is stated only for field values without '&'. The source interpolates values unencoded, so an '&' in a value adds pairs; `QatarUrl` itself is defined for every input.
- ScrapingController.ScrapeFlights: the Express query values are taken as the strings the `as string` casts claim. An absent value is not modelled, and neither are arrays from repeated keys.
- EmiratesScraper.ErrorValue: `travelClass` is always a string here, so the banner case's default of "Economy" for an undefined class never applies. The two error values then coincide.
- EmiratesScraper.ExtractCard: the per-card `catch` is left out, because nothing in the card code can throw.
- AirportCode: the `catch` in `extractAirportCode` is left out, because `split('(')[1]` exists whenever '(' does.
- EmiratesUrl.JourneyType: lowercasing is modelled on ASCII letters only. This does not change which own key or inherited member is found. The Kelvin sign lowers to 'k', which no such name contains. 'İ' lowers to 'i' plus a combining dot, which none contains either. Every other character lowers to a non-ASCII one or to itself.
- EmiratesUrl.CabinClass, EmiratesUrl.JourneyType: an inherited member reaches the request as the `Inherited` value. `JSON.stringify` would drop it, or write `{}` for `__proto__`. The encoding is not modelled.
- JsNumber.ParseInt: numbers are unbounded. The rounding of doubles beyond 2^53 is not modelled.
- Strings are sequences of Unicode scalar values. ECMAScript's UTF-16 code units, which `.` matches one surrogate half at a time, are not modelled.
- Logging (`console.*`) is left out.
