/**
 * The Lion Air adapter (internal/platform/providers/lion.go): local times
 * without an offset, read in WITA when the record names "Asia/Makassar" and
 * in WIB otherwise, each end deciding its own zone.
 */
module Lion {
  import opened Wrappers
  import opened Domain
  import opened Providers

  datatype Place = Place(code: string, name: string, city: string)

  /** One decoded entry of the mock response's "available_flights" array. */
  datatype LionFlightRaw = LionFlightRaw(
    id: string,
    carrierName: string,
    carrierIata: string,
    from: Place,
    to: Place,
    departure: string,
    departureTimezone: string,
    arrival: string,
    arrivalTimezone: string,
    stopCount: int,
    flightTime: int,
    isDirect: bool,
    total: real,
    currency: string,
    fareType: string,
    seats: int,
    planeType: string,
    wifiAvailable: bool,
    mealsIncluded: bool,
    cabinBaggage: string,
    holdBaggage: string)

  /** The location a schedule time is read in. */
  function ZoneFor(timezone: string): (z: Zone)
    ensures z == WITA <==> timezone == "Asia/Makassar"
    ensures z == WIB <==> timezone != "Asia/Makassar"
  {
    if timezone == "Asia/Makassar" then WITA else WIB
  }

  function Parse(kit: Toolkit, text: string, zone: Zone): Option<Instant> {
    kit.parse(LocalSeconds, zone, text)
  }

  /**
   * The record literal, for the parsed instants. The arrival's wall clock is
   * the DEPARTURE instant, as the adapter writes it.
   */
  function BuildFlight(f: LionFlightRaw, dep: Instant, arr: Instant, kit: Toolkit): UnifiedFlight {
    var dur := CalculateDuration(dep, arr);
    UnifiedFlight(
      id := f.id + "_JT",
      provider := Name(LionAirProvider),
      airline := AirlineInfo(f.carrierName, f.carrierIata),
      flightNumber := f.id,
      departure := FlightPoint(f.from.code, f.from.city, dep.rfc3339, dep.unix, dep),
      arrival := FlightPoint(f.to.code, f.to.city, arr.rfc3339, arr.unix, dep),
      duration := DurationInfo(dur, FormatDuration(dur)),
      stops := f.stopCount,
      price := PriceInfo(f.total, FormatIDR(f.total, kit), f.currency),
      availableSeats := f.seats,
      cabinClass := "economy",
      aircraft := f.planeType,
      amenities := [],
      baggage := BaggageInfo(f.cabinBaggage, f.holdBaggage),
      score := 0.0,
      isValid := arr.unix > dep.unix)
  }

  /** What one raw record becomes; it is skipped when either time fails to parse. */
  function ConvertFlight(f: LionFlightRaw, kit: Toolkit): (r: Option<UnifiedFlight>)
    ensures var dep := Parse(kit, f.departure, ZoneFor(f.departureTimezone));
            var arr := Parse(kit, f.arrival, ZoneFor(f.arrivalTimezone));
            && (r.None? <==> dep.None? || arr.None?)
            && (r.Some? ==>
                && r.value.departure.timeOfDay == dep.value
                && r.value.departure.timestamp == dep.value.unix
                && r.value.departure.datetime == dep.value.rfc3339
                && r.value.arrival.datetime == arr.value.rfc3339
                && r.value.arrival.timestamp == arr.value.unix
                && var m := CalculateDuration(dep.value, arr.value);
                   r.value.duration == DurationInfo(m, FormatDuration(m)))
    ensures r.Some? ==> r.value.id == f.id + "_JT" && r.value.flightNumber == f.id && r.value.provider == "Lion Air"
    ensures r.Some? ==> r.value.stops == f.stopCount && r.value.availableSeats == f.seats && r.value.cabinClass == "economy"
    ensures r.Some? ==> r.value.arrival.timeOfDay == r.value.departure.timeOfDay
    ensures r.Some? ==> r.value.aircraft == f.planeType && r.value.amenities == []
    ensures r.Some? ==> r.value.price == PriceInfo(f.total, FormatIDR(f.total, kit), f.currency)
    ensures r.Some? ==> r.value.airline == AirlineInfo(f.carrierName, f.carrierIata)
    ensures r.Some? ==>
      && r.value.departure.airport == f.from.code && r.value.departure.city == f.from.city
      && r.value.arrival.airport == f.to.code && r.value.arrival.city == f.to.city
    ensures r.Some? ==> (r.value.isValid <==> r.value.arrival.timestamp > r.value.departure.timestamp)
    ensures r.Some? && r.value.isValid ==> r.value.duration.totalMinutes >= 0
  {
    var dep := Parse(kit, f.departure, ZoneFor(f.departureTimezone));
    var arr := Parse(kit, f.arrival, ZoneFor(f.arrivalTimezone));
    if dep.None? || arr.None? then None else Some(BuildFlight(f, dep.value, arr.value, kit))
  }

  function Converter(kit: Toolkit): LionFlightRaw -> Option<UnifiedFlight> {
    f => ConvertFlight(f, kit)
  }

  /** `LionAirProvider.Search` once the mock file has been read and decoded (or not). */
  method Search(c: SearchCriteria, feed: Feed<LionFlightRaw>, kit: Toolkit) returns (out: SearchResult)
    ensures feed.ReadFailed? ==> out == SearchResult([], Some(feed.message))
    ensures feed.DecodeFailed? ==> out == SearchResult([], Some("lion: unmarshal error: " + feed.message))
    ensures feed.Loaded? ==> out == SearchResult(Collect(feed.records, Converter(kit)), None)
  {
    match feed
    case ReadFailed(message) => return SearchResult([], Some(message));
    case DecodeFailed(message) => return SearchResult([], Some("lion: unmarshal error: " + message));
    case Loaded(raws) =>
      var results: seq<UnifiedFlight> := [];
      for i := 0 to |raws|
        invariant results == Collect(raws[..i], Converter(kit))
      {
        assert raws[..i + 1][..i] == raws[..i];
        var f := raws[i];
        var depLoc := WIB;
        if f.departureTimezone == "Asia/Makassar" {
          depLoc := WITA;
        }
        var arrLoc := WIB;
        if f.arrivalTimezone == "Asia/Makassar" {
          arrLoc := WITA;
        }
        var depTime := Parse(kit, f.departure, depLoc);
        var arrTime := Parse(kit, f.arrival, arrLoc);
        if depTime.None? || arrTime.None? {
          continue;
        }
        results := results + [BuildFlight(f, depTime.value, arrTime.value, kit)];
      }
      assert raws[..|raws|] == raws;
      return SearchResult(results, None);
  }

  /**
   * Every emitted record is Lion Air's, carries the "_JT" suffix, and has an
   * arrival wall clock equal to its departure wall clock, so arrival
   * time-of-day bounds are checked against the departure time.
   */
  lemma EmittedRecords(raws: seq<LionFlightRaw>, kit: Toolkit)
    ensures forall r :: r in Collect(raws, Converter(kit)) ==>
      && r.provider == Name(LionAirProvider)
      && (exists id :: r.id == id + "_JT" && r.flightNumber == id)
      && r.arrival.timeOfDay == r.departure.timeOfDay
      && (r.isValid <==> r.arrival.timestamp > r.departure.timestamp)
  {
    forall r | r in Collect(raws, Converter(kit))
      ensures r.provider == Name(LionAirProvider)
      ensures exists id :: r.id == id + "_JT" && r.flightNumber == id
      ensures r.arrival.timeOfDay == r.departure.timeOfDay
      ensures r.isValid <==> r.arrival.timestamp > r.departure.timestamp
    {
      CollectMember(raws, Converter(kit), r);
      var j :| 0 <= j < |raws| && ConvertFlight(raws[j], kit) == Some(r);
      assert r.id == raws[j].id + "_JT" && r.flightNumber == raws[j].id;
    }
  }
}
