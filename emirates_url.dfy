/**
 * `generateEmiratesUrl`: the search request the Emirates results page is opened
 * with, built from the search parameters. The request is serialised as JSON and
 * base64-encoded after the fixed prefix; that encoding is not modelled, so the
 * target carries the prefix and the request value itself.
 */
module EmiratesUrl {
  import opened Wrappers
  import opened JsString
  import opened JsNumber
  import opened AirportCode
  import opened FlightTypes

  const SearchResultsPrefix := "https://www.emirates.com/booking/search-results/?searchRequest="
  const MissingParameters := "Missing or invalid parameters"

  /**
   * What `obj[key] || fallback` gives on an object literal of strings: a
   * string, or a member every object inherits from `Object.prototype` (a
   * function, or the prototype object itself for `__proto__`), which is truthy
   * and so is kept. `JSON.stringify` drops a function value and writes the
   * prototype object as `{}`.
   */
  datatype PropValue = Own(s: string) | Inherited(name: string)

  /** The names `Object.prototype` provides to every object literal. */
  predicate IsPrototypeMember(key: string) {
    key in {"constructor", "__defineGetter__", "__defineSetter__", "__lookupGetter__", "__lookupSetter__",
            "__proto__", "hasOwnProperty", "isPrototypeOf", "propertyIsEnumerable", "toLocaleString",
            "toString", "valueOf"}
  }

  /** `m[key] || fallback`, where `m` is an object literal whose own keys are those of `m`. */
  function LookupOr(m: map<string, string>, key: string, fallback: string): PropValue {
    if key in m then Own(Or(m[key], fallback))
    else if IsPrototypeMember(key) then Inherited(key)
    else Own(fallback)
  }

  datatype Segment = Segment(departure: string, arrival: string, travelDate: string, cabinClass: PropValue)

  datatype Passenger = Passenger(kind: string, count: int)

  datatype SearchRequest = SearchRequest(
    journeyType: PropValue,
    bookingType: string,
    passengers: seq<Passenger>,
    segments: seq<Segment>,
    referrer: string,
    source: string)

  /** `{ url, fromCode, toCode }`, with the url as its prefix and the request it encodes. */
  datatype EmiratesTarget = EmiratesTarget(urlPrefix: string, request: SearchRequest, fromCode: string, toCode: string)

  /** `cabinClassMap[travelClass] || "Y"`. */
  function CabinClass(travelClass: string): (r: PropValue)
    ensures r == Own("J") <==> travelClass == "Business"
    ensures r == Own("F") <==> travelClass == "First"
    ensures r.Inherited? <==> IsPrototypeMember(travelClass)
    ensures r.Inherited? ==> r.name == travelClass
    ensures r == Own("Y") <==> travelClass != "Business" && travelClass != "First" && !IsPrototypeMember(travelClass)
  {
    LookupOr(map["Economy" := "Y", "Business" := "J", "First" := "F"], travelClass, "Y")
  }

  /** `journeyTypeMap[tripType.toLowerCase()] || "ONEWAY"`. */
  function JourneyType(tripType: string): (r: PropValue)
    ensures r == Own("RETURN") <==> AsciiLower(tripType) == "return"
    ensures r == Own("MULTICITY") <==> AsciiLower(tripType) == "multi-city"
    ensures r.Inherited? <==> IsPrototypeMember(AsciiLower(tripType))
    ensures r.Inherited? ==> r.name == AsciiLower(tripType)
    ensures r == Own("ONEWAY") <==>
      AsciiLower(tripType) != "return" && AsciiLower(tripType) != "multi-city" && !IsPrototypeMember(AsciiLower(tripType))
  {
    LookupOr(map["one-way" := "ONEWAY", "return" := "RETURN", "multi-city" := "MULTICITY"], AsciiLower(tripType), "ONEWAY")
  }

  /** A class named after a prototype member finds that member, not the "Y" default. */
  lemma InheritedCabinClass()
    ensures CabinClass("toString") == Inherited("toString")
    ensures CabinClass("constructor") == Inherited("constructor")
  {
  }

  /**
   * Of the prototype members only "constructor" and "__proto__" are written
   * without capitals, so they are the only ones a lowered trip type can find.
   */
  lemma InheritedJourneyType(tripType: string)
    ensures JourneyType(tripType).Inherited? <==>
      AsciiLower(tripType) == "constructor" || AsciiLower(tripType) == "__proto__"
  {
    var k := AsciiLower(tripType);
    forall i | 0 <= i < |k| ensures !IsUpper(k[i]) {
      assert k[i] == if IsUpper(tripType[i]) then (tripType[i] as int + 32) as char else tripType[i];
    }
    if IsPrototypeMember(k) && k != "constructor" && k != "__proto__" {
      CapitalisedMembers(k);
      assert false;
    }
  }

  /** Every other prototype member has a capital letter. */
  lemma CapitalisedMembers(k: string)
    requires IsPrototypeMember(k) && k != "constructor" && k != "__proto__"
    ensures exists i :: 0 <= i < |k| && IsUpper(k[i])
  {
    if k == "__defineGetter__" || k == "__defineSetter__" || k == "__lookupGetter__" || k == "__lookupSetter__" {
      assert IsUpper(k[8]);
    } else if k == "hasOwnProperty" || k == "isPrototypeOf" {
      assert IsUpper(k[3]) || IsUpper(k[2]);
    } else if k == "toLocaleString" || k == "toString" {
      assert IsUpper(k[2]);
    } else if k == "propertyIsEnumerable" {
      assert IsUpper(k[8]);
    } else if k == "valueOf" {
      assert IsUpper(k[5]);
    } else {
      assert false;
    }
  }

  /** The form's own trip types are not keys of the map: both give a one-way journey. */
  lemma FormTripTypesAreOneWay()
    ensures JourneyType("oneWay") == Own("ONEWAY")
    ensures JourneyType("roundTrip") == Own("ONEWAY")
  {
    var a, b := AsciiLower("oneWay"), AsciiLower("roundTrip");
    FirstLetterRules(a, 'o');
    FirstLetterRules(b, 'r');
  }

  /** A key starting with 'o', or a nine-letter key starting with 'r', is neither a map key nor a prototype member. */
  lemma FirstLetterRules(k: string, c: char)
    requires |k| > 0 && k[0] == c && (c == 'o' || (c == 'r' && |k| == 9))
    ensures k != "return" && k != "multi-city" && !IsPrototypeMember(k)
  {
  }

  /** Case does not matter to the journey type. */
  lemma CapitalisedReturn()
    ensures JourneyType("Return") == Own("RETURN")
  {
    var r := AsciiLower("Return");
    assert r[0] == 'r' && r[1] == 'e' && r[2] == 't' && r[3] == 'u' && r[4] == 'r' && r[5] == 'n';
    assert r == "return";
  }

  /** The traveller count as given: a number, or text. */
  datatype Travellers = Count(n: int) | Text(s: string)

  /** `typeof travellers === "number" ? travellers : parseInt(travellers) || 1`. */
  function PassengerCount(t: Travellers): (r: int)
    ensures t.Count? ==> r == t.n
    ensures t.Text? && ParseInt(t.s).Some? && ParseInt(t.s).value != 0 ==> r == ParseInt(t.s).value
    ensures t.Text? && (ParseInt(t.s).None? || ParseInt(t.s) == Some(0)) ==> r == 1
  {
    match t
    case Count(n) => n
    case Text(s) =>
      match ParseInt(s)
      case None => 1
      case Some(n) => if n != 0 then n else 1
  }

  /** A decimal count written as text is read back; only zero becomes one. */
  lemma PassengerCountOfDecimal(n: nat)
    ensures PassengerCount(Text(NatToString(n))) == if n == 0 then 1 else n
  {
    ParseIntNatToString(n);
  }

  /** Text without a digit gives one passenger. */
  lemma PassengerCountNaN(s: string)
    requires ParseInt(s).None?
    ensures PassengerCount(Text(s)) == 1
  {
  }

  /**
   * Builds the request. The outbound segment is always there; the inbound one
   * is pushed afterwards, only for a RETURN journey with a non-empty return date.
   */
  method GenerateEmiratesUrl(p: ScrapeFlightParams) returns (r: Result<EmiratesTarget>)
    ensures r.Failure? <==> ExtractAirportCode(p.from) == "" || ExtractAirportCode(p.to) == "" || p.departureDate == ""
    ensures r.Failure? ==> r.error == MissingParameters
    ensures r.Success? ==>
      var t := r.value;
      var q := t.request;
      var cabin := CabinClass(p.travelClass);
      && t.urlPrefix == SearchResultsPrefix
      && t.fromCode == ExtractAirportCode(p.from) && t.toCode == ExtractAirportCode(p.to)
      && q.journeyType == JourneyType(p.tripType)
      && q.bookingType == "REVENUE"
      && q.passengers == [Passenger("ADT", PassengerCount(Text(p.travellers)))]
      && q.referrer == "/book" && q.source == "search-form"
      && 1 <= |q.segments| <= 2
      && q.segments[0] == Segment(t.fromCode, t.toCode, p.departureDate, cabin)
      && (|q.segments| == 2 <==> q.journeyType == Own("RETURN") && p.returnDate.GetOr("") != "")
      && (|q.segments| == 2 ==> q.segments[1] == Segment(t.toCode, t.fromCode, p.returnDate.GetOr(""), cabin))
  {
    var returnDate := p.returnDate.GetOr("");
    var fromCode := ExtractAirportCode(p.from);
    var toCode := ExtractAirportCode(p.to);
    if fromCode == "" || toCode == "" || p.departureDate == "" {
      return Failure(MissingParameters);
    }
    var cabinClass := CabinClass(p.travelClass);
    var journeyType := JourneyType(p.tripType);
    var passengerCount := PassengerCount(Text(p.travellers));
    var segments := [Segment(fromCode, toCode, p.departureDate, cabinClass)];
    if journeyType == Own("RETURN") && returnDate != "" {
      segments := segments + [Segment(toCode, fromCode, returnDate, cabinClass)];
    }
    var request := SearchRequest(journeyType, "REVENUE", [Passenger("ADT", passengerCount)], segments, "/book", "search-form");
    return Success(EmiratesTarget(SearchResultsPrefix, request, fromCode, toCode));
  }
}
