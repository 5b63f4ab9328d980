/**
 * The deterministic part of `scrapeFlightDataEmirates`: the per-card field
 * normalisation run over the result cards, the final mapping that attaches the
 * airport codes, and the error values returned instead of flights. The page
 * itself (navigation, waiting, screenshots) is an input: `EmiratesPage` holds
 * what the page's selectors return.
 */
module EmiratesScraper {
  import opened Wrappers
  import opened JsString
  import opened FlightTypes
  import opened AirportCode
  import opened EmiratesUrl

  /**
   * What one `.flight-card-collapsed__wrapper` yields to its selectors: the text
   * of each element, `None` when the element (or the `alt` attribute) is absent.
   */
  datatype Card = Card(
    priceContainer: Option<string>,  // .flight-card-collapsed__price-container
    currencyCode: Option<string>,    // .currency-cash__code
    amount: Option<string>,          // .currency-cash__amount
    tailAlt: Option<string>,         // alt of .tail-info img
    departureTime: Option<string>,
    arrivalTime: Option<string>,
    stops: Option<string>,           // .flight-info__infographic__nonstop-cta
    duration: Option<string>)

  /** One extracted card (`FlightData`), before the airport codes are attached. */
  datatype FlightData = FlightData(
    airline: string, departureTime: string, arrivalTime: string,
    duration: string, stops: string, price: string)

  /** `getText(sel)`: the element's text trimmed, or "" without the element. */
  function GetText(x: Option<string>): string {
    Trim(x.GetOr(""))
  }

  /** The characters the price clean-up keeps: digits, `.`, `,` and the currency signs $ € £ ¥ ₹ ₽ ₺ ﷼ د إ. */
  predicate IsPriceChar(c: char) {
    IsDigit(c) || c == '.' || c == ',' || c == '$' || c == '\U{20AC}' || c == '\U{00A3}' || c == '\U{00A5}'
    || c == '\U{20B9}' || c == '\U{062F}' || c == '\U{0625}' || c == '\U{FDFC}' || c == '\U{20BD}' || c == '\U{20BA}'
  }

  /** `s.replace(/[^0-9$€£¥₹د.إ﷼₽₺.,]/g, "")`: every other character is dropped. */
  function KeepPriceChars(s: string): (r: string)
    ensures |r| <= |s|
    ensures forall i :: 0 <= i < |r| ==> IsPriceChar(r[i])
    ensures (forall i :: 0 <= i < |s| ==> IsPriceChar(s[i])) ==> r == s
  {
    if s == [] then [] else (if IsPriceChar(s[0]) then [s[0]] else []) + KeepPriceChars(s[1..])
  }

  /** The clean-up distributes over concatenation. */
  lemma {:induction false} KeepPriceCharsAppend(a: string, b: string)
    ensures KeepPriceChars(a + b) == KeepPriceChars(a) + KeepPriceChars(b)
  {
    if a == [] {
      assert a + b == b;
    } else {
      assert (a + b)[1..] == a[1..] + b;
      KeepPriceCharsAppend(a[1..], b);
    }
  }

  /** Cleaning twice is cleaning once. */
  lemma KeepPriceCharsIdempotent(s: string)
    ensures KeepPriceChars(KeepPriceChars(s)) == KeepPriceChars(s)
  {
  }

  /** The placeholder "N/A" is wiped out by the clean-up. */
  lemma CleanedPlaceholderIsEmpty()
    ensures KeepPriceChars("N/A") == ""
  {
    assert !IsPriceChar('N') && !IsPriceChar('/') && !IsPriceChar('A');
    assert "N/A"[1..] == "/A" && "/A"[1..] == "A" && "A"[1..] == "";
  }

  /** The container text once cleaned; "" without a container. */
  function CleanedContainer(c: Card): string {
    match c.priceContainer
    case None => ""
    case Some(text) => Trim(KeepPriceChars(Or(Trim(text), "N/A")))
  }

  /** The price the card yields: the cleaned container text, or else currency code followed by amount. */
  predicate IsCardPrice(c: Card, price: string) {
    if CleanedContainer(c) != "" then price == CleanedContainer(c)
    else price == GetText(c.currencyCode) + Or(GetText(c.amount), "N/A")
  }

  /** The other fields of the extracted record, each from its selector. */
  predicate IsCardRecord(c: Card, d: FlightData) {
    && d.airline == ReplaceFirst(c.tailAlt.GetOr("Emirates"), "Operated by ", "")
    && d.departureTime == GetText(c.departureTime)
    && d.arrivalTime == GetText(c.arrivalTime)
    && d.stops == Or(GetText(c.stops), "Non-stop")
    && d.duration == GetText(c.duration)
    && IsCardPrice(c, d.price)
  }

  /** A cleaned price has only kept characters, so it is never the placeholder. */
  lemma CleanedIsNotPlaceholder(s: string)
    ensures Trim(KeepPriceChars(s)) != "N/A"
  {
    var k := KeepPriceChars(s);
    var t := Trim(k);
    if |t| > 0 {
      assert t[0] == k[LeadingSpaces(k)];
      assert "N/A"[0] == 'N' && !IsPriceChar('N');
    }
  }

  /** The price of one card, reassigned step by step as the card's code does. */
  method CardPrice(c: Card) returns (price: string)
    ensures IsCardPrice(c, price)
    ensures price != ""
  {
    var priceWithCurrency := "";
    if c.priceContainer.Some? {
      priceWithCurrency := Or(Trim(c.priceContainer.value), "N/A");
      CleanedIsNotPlaceholder(priceWithCurrency);
      priceWithCurrency := Trim(KeepPriceChars(priceWithCurrency));
    }
    if priceWithCurrency == "" || priceWithCurrency == "N/A" {
      var currencySymbol := Or(GetText(c.currencyCode), "");
      var priceAmount := Or(GetText(c.amount), "N/A");
      priceWithCurrency := currencySymbol + priceAmount;
    }
    price := Or(priceWithCurrency, "N/A");
  }

  /** The record of one card; the per-card `catch` is unreachable, nothing in it can throw. */
  method ExtractCard(c: Card) returns (d: FlightData)
    ensures IsCompleteRecord(c, d)
  {
    var price := CardPrice(c);
    d := FlightData(
      ReplaceFirst(c.tailAlt.GetOr("Emirates"), "Operated by ", ""),
      GetText(c.departureTime),
      GetText(c.arrivalTime),
      GetText(c.duration),
      Or(GetText(c.stops), "Non-stop"),
      price);
  }

  /** `cards.forEach(card => results.push(...))`: one record per card, in document order. */
  method ExtractFlightResults(cards: seq<Card>) returns (results: seq<FlightData>)
    ensures |results| == |cards|
    ensures RecordsOf(cards, results)
  {
    results := [];
    var i := 0;
    while i < |cards|
      invariant 0 <= i <= |cards|
      invariant RecordsOf(cards[..i], results)
    {
      assert cards[..i + 1] == cards[..i] + [cards[i]];
      var d := ExtractCard(cards[i]);
      RecordsSnoc(cards[..i], results, cards[i], d);
      results := results + [d];
      i := i + 1;
    }
    assert cards[..i] == cards;
  }

  /** A card's record, with a price and stops. */
  predicate IsCompleteRecord(c: Card, d: FlightData) {
    IsCardRecord(c, d) && d.price != "" && d.stops != ""
  }

  /** `results` holds exactly one record per card, in the cards' order. */
  predicate RecordsOf(cards: seq<Card>, results: seq<FlightData>) {
    |results| == |cards| && forall j :: 0 <= j < |cards| ==> IsCompleteRecord(cards[j], results[j])
  }

  /** Pushing a card's record keeps one record per card. */
  lemma RecordsSnoc(cards: seq<Card>, results: seq<FlightData>, c: Card, d: FlightData)
    requires RecordsOf(cards, results) && IsCompleteRecord(c, d)
    ensures RecordsOf(cards + [c], results + [d])
  {
    var cs, rs := cards + [c], results + [d];
    forall j | 0 <= j < |cs| ensures IsCompleteRecord(cs[j], rs[j]) {
      if j < |cards| {
        assert cs[j] == cards[j] && rs[j] == results[j];
      }
    }
  }

  /** The stops text without its first "Opens a dialog", trimmed. */
  function CleanStops(stops: string): string {
    Trim(ReplaceFirst(stops, "Opens a dialog", ""))
  }

  /** The final `map`: the airport codes of the search are attached to every record. */
  function WithAirports(results: seq<FlightData>, fromCode: string, toCode: string): (r: seq<Flight>)
    ensures |r| == |results|
    ensures forall i :: 0 <= i < |r| ==>
      var d, f := results[i], r[i];
      && f.airline == d.airline && f.departureTime == d.departureTime && f.arrivalTime == d.arrivalTime
      && f.duration == d.duration && f.price == d.price && f.stops == CleanStops(d.stops)
      && f.departureAirport == fromCode && f.arrivalAirport == toCode
  {
    if results == [] then []
    else
      var d := results[0];
      [Flight(d.airline, d.departureTime, fromCode, d.arrivalTime, toCode, CleanStops(d.stops), d.duration, d.price)]
      + WithAirports(results[1..], fromCode, toCode)
  }

  /** The marketing suffix of the default stops text is removed. */
  lemma NonStopDialog()
    ensures CleanStops("Non-stop Opens a dialog") == "Non-stop"
  {
    DropDialog();
    TrimNonStop();
  }

  lemma DropDialog()
    ensures ReplaceFirst("Non-stop Opens a dialog", "Opens a dialog", "") == "Non-stop "
  {
    var s, w := "Non-stop Opens a dialog", "Opens a dialog";
    DialogAtNine();
    DropSuffix(s, w, 9);
    assert s[..9] == "Non-stop ";
  }

  /** Removing a pattern found at the very end leaves the text before it. */
  lemma DropSuffix(s: string, w: string, i: nat)
    requires Find(s, w) == Some(i) && i + |w| == |s|
    ensures ReplaceFirst(s, w, "") == s[..i]
  {
    assert s[i + |w|..] == [];
  }

  /** The suffix first occurs right after "Non-stop ". */
  lemma DialogAtNine()
    ensures Find("Non-stop Opens a dialog", "Opens a dialog") == Some(9)
  {
    var s, w := "Non-stop Opens a dialog", "Opens a dialog";
    assert OccursAt(s, 9, w) by {
      assert s[9..23] == w;
    }
    assert forall j :: 0 <= j < 9 ==> s[j] != w[0];
    FindFirstAt(s, w, 9);
  }

  /** Trimming drops the one trailing space. */
  lemma TrimNonStop()
    ensures Trim("Non-stop ") == "Non-stop"
  {
    var t := "Non-stop ";
    assert LeadingSpaces(t) == 0;
    assert t[..8] == "Non-stop";
    assert TrailingSpaces(t) == 1 by {
      assert TrailingSpaces(t[..8]) == 0;
    }
  }

  /**
   * What the browser does for one run. `closeFailure` is the message `browser.close()`
   * throws, if it throws; every call of it is taken to behave alike.
   */
  datatype EmiratesPage =
    | Crashed(message: string, launched: bool, closeFailure: Option<string>)  // an exception from the browser; `launched` once `puppeteer.launch` returned
    | Loaded(errorMsg: Option<string>, errorCode: Option<string>, cards: seq<Card>, closeFailure: Option<string>)

  /** The value returned: the records, or an object echoing the query with no flights and the error text. */
  datatype EmiratesResult =
    | Records(flights: seq<Flight>)
    | ErrorReport(airline: string, from: string, to: string, departureDate: string,
                  returnDate: string, travelClass: string, flights: seq<Flight>, error: string)

  /** `errorElement?.textContent || errorCode?.textContent || null`. */
  function Banner(errorMsg: Option<string>, errorCode: Option<string>): (r: Option<string>)
    ensures r.Some? ==> r.value != ""
    ensures r.None? <==> OrElse(errorMsg, "") == "" && OrElse(errorCode, "") == ""
  {
    var text := Or(OrElse(errorMsg, ""), OrElse(errorCode, ""));
    if text == "" then None else Some(text)
  }

  /** The error value: the query echoed back, `returnDate` defaulting to "". */
  function ErrorValue(p: ScrapeFlightParams, error: string): (r: EmiratesResult)
    ensures r.ErrorReport? && r.flights == [] && r.error == error && r.airline == "Emirates"
    ensures r.from == p.from && r.to == p.to && r.departureDate == p.departureDate
    ensures r.returnDate == p.returnDate.GetOr("") && r.travelClass == p.travelClass
  {
    ErrorReport("Emirates", p.from, p.to, p.departureDate, p.returnDate.GetOr(""), p.travelClass, [], error)
  }

  /** Both airport codes and the departure date are present, so the URL builder does not throw. */
  predicate ValidQuery(p: ScrapeFlightParams) {
    ExtractAirportCode(p.from) != "" && ExtractAirportCode(p.to) != "" && p.departureDate != ""
  }

  /**
   * The promise rejects: the `browser.close()` in the catch block throws. The
   * catch is reached with a browser after a crash once launched, and after the
   * banner path's own `close` threw.
   */
  predicate Rejects(p: ScrapeFlightParams, page: EmiratesPage) {
    && ValidQuery(p)
    && page.closeFailure.Some?
    && (page.Crashed? ==> page.launched)
    && (page.Loaded? ==> Banner(page.errorMsg, page.errorCode).Some?)
  }

  /**
   * What the scraper settles to for query `p` on `page`: the rejection when
   * `Rejects`; an error value echoing the query for an invalid query, a crash
   * or an error banner, carrying the message thrown or the banner text;
   * otherwise one record per card, in order, with the query's airport codes.
   */
  predicate ScrapedAs(p: ScrapeFlightParams, page: EmiratesPage, r: Result<EmiratesResult>) {
    && (r.Failure? <==> Rejects(p, page))
    && (r.Failure? ==> r.error == page.closeFailure.value)
    && (!ValidQuery(p) ==> r == Success(ErrorValue(p, MissingParameters)))
    && (ValidQuery(p) && page.Crashed? && !Rejects(p, page) ==> r == Success(ErrorValue(p, page.message)))
    && (ValidQuery(p) && page.Loaded? && Banner(page.errorMsg, page.errorCode).Some? && !Rejects(p, page)
        ==> r == Success(ErrorValue(p, Banner(page.errorMsg, page.errorCode).value)))
    && (r.Success? && r.value.Records? <==>
        ValidQuery(p) && page.Loaded? && Banner(page.errorMsg, page.errorCode).None?)
    && (r.Success? && r.value.Records? ==>
        && |r.value.flights| == |page.cards|
        && forall i :: 0 <= i < |r.value.flights| ==>
             var c, f := page.cards[i], r.value.flights[i];
             && f.departureAirport == ExtractAirportCode(p.from) && f.arrivalAirport == ExtractAirportCode(p.to)
             && f.airline == ReplaceFirst(c.tailAlt.GetOr("Emirates"), "Operated by ", "")
             && f.departureTime == GetText(c.departureTime) && f.arrivalTime == GetText(c.arrivalTime)
             && f.duration == GetText(c.duration)
             && f.stops == CleanStops(Or(GetText(c.stops), "Non-stop"))
             && IsCardPrice(c, f.price) && f.price != "")
  }

  /** `ScrapedAs` leaves nothing open: on a given query and page, one outcome satisfies it. */
  lemma ScrapedAsDeterministic(p: ScrapeFlightParams, page: EmiratesPage, r1: Result<EmiratesResult>,
                               r2: Result<EmiratesResult>)
    requires ScrapedAs(p, page, r1) && ScrapedAs(p, page, r2)
    ensures r1 == r2
  {
    if r1.Success? && r1.value.Records? {
      var a, b := r1.value.flights, r2.value.flights;
      forall i | 0 <= i < |a| ensures a[i] == b[i] {
      }
      assert a == b;
    }
  }

  /**
   * The whole scraper on a given page, as the promise it returns settles. An
   * invalid query is thrown by the URL builder before any browser exists and
   * is caught; a crash is caught, closing the browser when one was launched;
   * an error banner closes the browser and returns early; otherwise every
   * card becomes one record and the browser is left open.
   */
  method ScrapeFlightDataEmirates(p: ScrapeFlightParams, page: EmiratesPage) returns (r: Result<EmiratesResult>)
    ensures ScrapedAs(p, page, r)
  {
    var target := GenerateEmiratesUrl(p);
    if target.Failure? {
      return Success(ErrorValue(p, target.error));
    }
    if page.Crashed? {
      if page.launched && page.closeFailure.Some? {
        return Failure(page.closeFailure.value);
      }
      return Success(ErrorValue(p, page.message));
    }
    var hasError := Banner(page.errorMsg, page.errorCode);
    if hasError.Some? {
      if page.closeFailure.Some? {
        // the close before the early return threw; the catch block closes again
        return Failure(page.closeFailure.value);
      }
      return Success(ErrorValue(p, hasError.value));
    }
    var flightResults := ExtractFlightResults(page.cards);
    r := Success(Records(WithAirports(flightResults, target.value.fromCode, target.value.toCode)));
  }
}
