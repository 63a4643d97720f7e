/**
 * The Batik Air adapter (internal/platform/providers/batik.go): times with a
 * numeric offset, the fare's total as the price, fixed city names, and a
 * comma-separated baggage note.
 */
module Batik {
  import opened Wrappers
  import opened Text
  import opened Domain
  import opened Providers

  /** One decoded entry of the mock response's "results" array. */
  datatype BatikFlightRaw = BatikFlightRaw(
    flightNumber: string,
    airlineName: string,
    airlineIata: string,
    origin: string,
    destination: string,
    departureDateTime: string,
    arrivalDateTime: string,
    travelTime: string,
    numberOfStops: int,
    basePrice: real,
    taxes: real,
    totalPrice: real,
    currencyCode: string,
    fareClass: string,
    seatsAvailable: int,
    aircraftModel: string,
    baggageInfo: string,
    onboardServices: seq<string>)

  /** `time.Parse("2006-01-02T15:04:05-0700", text)`. */
  function Parse(kit: Toolkit, text: string): Option<Instant> {
    kit.parse(NumericOffset, UTC, text)
  }

  /** The record literal, for the parsed instants and the split baggage note. */
  function BuildFlight(f: BatikFlightRaw, dep: Instant, arr: Instant, baggage: BaggageInfo, kit: Toolkit): UnifiedFlight {
    var dur := CalculateDuration(dep, arr);
    UnifiedFlight(
      id := f.flightNumber + "_ID",
      provider := Name(BatikAirProvider),
      airline := AirlineInfo(f.airlineName, f.airlineIata),
      flightNumber := f.flightNumber,
      departure := FlightPoint(f.origin, "Jakarta", dep.rfc3339, dep.unix, dep),
      arrival := FlightPoint(f.destination, "Denpasar", arr.rfc3339, arr.unix, arr),
      duration := DurationInfo(dur, FormatDuration(dur)),
      stops := f.numberOfStops,
      price := PriceInfo(f.totalPrice, FormatIDR(f.totalPrice, kit), f.currencyCode),
      availableSeats := f.seatsAvailable,
      cabinClass := "economy",
      aircraft := f.aircraftModel,
      amenities := f.onboardServices,
      baggage := baggage,
      score := 0.0,
      isValid := arr.unix > dep.unix)
  }

  /** What one raw record becomes; it is skipped when either time fails to parse. */
  function ConvertFlight(f: BatikFlightRaw, kit: Toolkit): (r: Option<UnifiedFlight>)
    ensures r.None? <==> Parse(kit, f.departureDateTime).None? || Parse(kit, f.arrivalDateTime).None?
    ensures r.Some? ==>
      && r.value.departure.timeOfDay == Parse(kit, f.departureDateTime).value
      && r.value.arrival.timeOfDay == Parse(kit, f.arrivalDateTime).value
      && r.value.departure.timestamp == r.value.departure.timeOfDay.unix
      && r.value.arrival.timestamp == r.value.arrival.timeOfDay.unix
    ensures r.Some? ==> r.value.id == f.flightNumber + "_ID" && r.value.flightNumber == f.flightNumber
    ensures r.Some? ==> r.value.provider == "Batik Air" && r.value.cabinClass == "economy"
    ensures r.Some? ==> r.value.price == PriceInfo(f.totalPrice, FormatIDR(f.totalPrice, kit), f.currencyCode)
    ensures r.Some? ==> r.value.stops == f.numberOfStops && r.value.availableSeats == f.seatsAvailable
    ensures r.Some? ==> r.value.departure.city == "Jakarta" && r.value.arrival.city == "Denpasar"
    ensures r.Some? ==> r.value.departure.airport == f.origin && r.value.arrival.airport == f.destination
    ensures r.Some? ==> r.value.airline == AirlineInfo(f.airlineName, f.airlineIata)
    ensures r.Some? ==> r.value.baggage == SplitBaggageNote(f.baggageInfo)
    ensures r.Some? ==>
      && r.value.departure.datetime == r.value.departure.timeOfDay.rfc3339
      && r.value.arrival.datetime == r.value.arrival.timeOfDay.rfc3339
      && r.value.aircraft == f.aircraftModel && r.value.amenities == f.onboardServices
    ensures r.Some? ==> (r.value.isValid <==> r.value.arrival.timestamp > r.value.departure.timestamp)
    ensures r.Some? && r.value.isValid ==> r.value.duration.totalMinutes >= 0
    ensures r.Some? ==>
      var m := CalculateDuration(r.value.departure.timeOfDay, r.value.arrival.timeOfDay);
      r.value.duration == DurationInfo(m, FormatDuration(m))
  {
    var dep := Parse(kit, f.departureDateTime);
    var arr := Parse(kit, f.arrivalDateTime);
    if dep.None? || arr.None? then None
    else Some(BuildFlight(f, dep.value, arr.value, SplitBaggageNote(f.baggageInfo), kit))
  }

  function Converter(kit: Toolkit): BatikFlightRaw -> Option<UnifiedFlight> {
    f => ConvertFlight(f, kit)
  }

  /** `BatikAirProvider.Search` once the mock file has been read and decoded (or not). */
  method Search(c: SearchCriteria, feed: Feed<BatikFlightRaw>, kit: Toolkit) returns (out: SearchResult)
    ensures feed.ReadFailed? ==> out == SearchResult([], Some(feed.message))
    ensures feed.DecodeFailed? ==> out == SearchResult([], Some("batik: unmarshal error: " + feed.message))
    ensures feed.Loaded? ==> out == SearchResult(Collect(feed.records, Converter(kit)), None)
  {
    match feed
    case ReadFailed(message) => return SearchResult([], Some(message));
    case DecodeFailed(message) => return SearchResult([], Some("batik: unmarshal error: " + message));
    case Loaded(raws) =>
      var results: seq<UnifiedFlight> := [];
      for i := 0 to |raws|
        invariant results == Collect(raws[..i], Converter(kit))
      {
        assert raws[..i + 1][..i] == raws[..i];
        var f := raws[i];
        var depTime := Parse(kit, f.departureDateTime);
        var arrTime := Parse(kit, f.arrivalDateTime);
        if depTime.None? || arrTime.None? {
          continue;
        }
        var baggageParts := Split(f.baggageInfo, ',');
        var carryOn, checked := "", "";
        if |baggageParts| >= 1 {
          carryOn := TrimSpace(baggageParts[0]);
        }
        if |baggageParts| >= 2 {
          checked := TrimSpace(baggageParts[1]);
        }
        results := results + [BuildFlight(f, depTime.value, arrTime.value, BaggageInfo(carryOn, checked), kit)];
      }
      assert raws[..|raws|] == raws;
      return SearchResult(results, None);
  }

  /** Every emitted record is Batik Air's, carries the "_ID" suffix, and is valid exactly when it arrives after it departs. */
  lemma EmittedRecords(raws: seq<BatikFlightRaw>, kit: Toolkit)
    ensures forall r :: r in Collect(raws, Converter(kit)) ==>
      && r.provider == Name(BatikAirProvider)
      && (exists id :: r.id == id + "_ID" && r.flightNumber == id)
      && (r.isValid <==> r.arrival.timestamp > r.departure.timestamp)
  {
    forall r | r in Collect(raws, Converter(kit))
      ensures r.provider == Name(BatikAirProvider)
      ensures exists id :: r.id == id + "_ID" && r.flightNumber == id
      ensures r.isValid <==> r.arrival.timestamp > r.departure.timestamp
    {
      CollectMember(raws, Converter(kit), r);
      var j :| 0 <= j < |raws| && ConvertFlight(raws[j], kit) == Some(r);
      assert r.id == raws[j].flightNumber + "_ID" && r.flightNumber == raws[j].flightNumber;
    }
  }
}
