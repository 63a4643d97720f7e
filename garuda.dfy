/**
 * The Garuda Indonesia adapter (internal/platform/providers/garuda.go):
 * RFC 3339 times, a multi-stop record's times taken from its first and last
 * segments, and baggage allowances given as piece counts.
 */
module Garuda {
  import opened Wrappers
  import opened Text
  import opened Domain
  import opened Providers

  datatype Endpoint = Endpoint(airport: string, city: string, time: string)

  datatype Segment = Segment(departureTime: string, arrivalTime: string)

  /** One decoded entry of the mock response's "flights" array. */
  datatype GarudaFlightRaw = GarudaFlightRaw(
    flightId: string,
    airline: string,
    airlineCode: string,
    departure: Endpoint,
    arrival: Endpoint,
    stops: int,
    amount: real,
    currency: string,
    seats: int,
    segments: seq<Segment>,
    aircraft: string,
    amenities: seq<string>,
    carryOnPieces: int,
    checkedPieces: int)

  function Parse(kit: Toolkit, text: string): Option<Instant> {
    kit.parse(RFC3339, UTC, text)
  }

  /** A multi-stop record with at least two segments is timed by its segments. */
  predicate UsesSegments(f: GarudaFlightRaw) {
    f.stops > 0 && |f.segments| >= 2
  }

  /** `fmt.Sprintf("%d piece(s)", n)`. */
  function Pieces(n: int): string {
    DecimalString(n) + " piece(s)"
  }

  /** The record literal, for the departure and arrival instants already chosen. */
  function BuildFlight(f: GarudaFlightRaw, dep: Instant, arr: Instant, kit: Toolkit): UnifiedFlight {
    var dur := CalculateDuration(dep, arr);
    UnifiedFlight(
      id := f.flightId + "_GA",
      provider := Name(GarudaProvider),
      airline := AirlineInfo(f.airline, f.airlineCode),
      flightNumber := f.flightId,
      departure := FlightPoint(f.departure.airport, f.departure.city, dep.rfc3339, dep.unix, dep),
      arrival := FlightPoint(f.arrival.airport, f.arrival.city, arr.rfc3339, arr.unix, arr),
      duration := DurationInfo(dur, FormatDuration(dur)),
      stops := f.stops,
      price := PriceInfo(f.amount, FormatIDR(f.amount, kit), f.currency),
      availableSeats := f.seats,
      cabinClass := "economy",
      aircraft := f.aircraft,
      amenities := f.amenities,
      baggage := BaggageInfo(Pieces(f.carryOnPieces), Pieces(f.checkedPieces)),
      score := 0.0,
      isValid := arr.unix > dep.unix)
  }

  /**
   * What one raw record becomes. It is skipped exactly when its top-level
   * departure or arrival time does not parse; an unparseable segment time
   * silently becomes Go's zero instant.
   */
  function ConvertFlight(f: GarudaFlightRaw, kit: Toolkit): (r: Option<UnifiedFlight>)
    ensures r.None? <==> Parse(kit, f.departure.time).None? || Parse(kit, f.arrival.time).None?
    ensures r.Some? ==> r.value.id == f.flightId + "_GA" && r.value.flightNumber == f.flightId
    ensures r.Some? ==> r.value.provider == "Garuda Indonesia" && r.value.cabinClass == "economy"
    ensures r.Some? ==> r.value.stops == f.stops && r.value.availableSeats == f.seats && r.value.price.amount == f.amount
    ensures r.Some? && UsesSegments(f) ==>
      && r.value.departure.timeOfDay == Parse(kit, f.segments[0].departureTime).GetOr(ZeroInstant)
      && r.value.arrival.timeOfDay == Parse(kit, f.segments[|f.segments| - 1].arrivalTime).GetOr(ZeroInstant)
    ensures r.Some? && !UsesSegments(f) ==>
      && r.value.departure.timeOfDay == Parse(kit, f.departure.time).value
      && r.value.arrival.timeOfDay == Parse(kit, f.arrival.time).value
    ensures r.Some? ==>
      && r.value.departure.timestamp == r.value.departure.timeOfDay.unix
      && r.value.arrival.timestamp == r.value.arrival.timeOfDay.unix
    ensures r.Some? ==> (r.value.isValid <==> r.value.arrival.timestamp > r.value.departure.timestamp)
    ensures r.Some? && r.value.isValid ==> r.value.duration.totalMinutes >= 0
    ensures r.Some? ==>
      var m := CalculateDuration(r.value.departure.timeOfDay, r.value.arrival.timeOfDay);
      r.value.duration == DurationInfo(m, FormatDuration(m))
    ensures r.Some? ==> r.value.airline == AirlineInfo(f.airline, f.airlineCode)
    ensures r.Some? ==> r.value.price == PriceInfo(f.amount, FormatIDR(f.amount, kit), f.currency)
    ensures r.Some? ==>
      && r.value.departure.airport == f.departure.airport && r.value.departure.city == f.departure.city
      && r.value.arrival.airport == f.arrival.airport && r.value.arrival.city == f.arrival.city
    ensures r.Some? ==> r.value.baggage == BaggageInfo(Pieces(f.carryOnPieces), Pieces(f.checkedPieces))
    ensures r.Some? ==>
      && r.value.departure.datetime == r.value.departure.timeOfDay.rfc3339
      && r.value.arrival.datetime == r.value.arrival.timeOfDay.rfc3339
      && r.value.aircraft == f.aircraft && r.value.amenities == f.amenities
  {
    var depParsed := Parse(kit, f.departure.time);
    var arrParsed := Parse(kit, f.arrival.time);
    if depParsed.None? || arrParsed.None? then None
    else if UsesSegments(f) then
      Some(BuildFlight(f, Parse(kit, f.segments[0].departureTime).GetOr(ZeroInstant),
                       Parse(kit, f.segments[|f.segments| - 1].arrivalTime).GetOr(ZeroInstant), kit))
    else
      Some(BuildFlight(f, depParsed.value, arrParsed.value, kit))
  }

  function Converter(kit: Toolkit): GarudaFlightRaw -> Option<UnifiedFlight> {
    f => ConvertFlight(f, kit)
  }

  /** `GarudaProvider.Search` once the mock file has been read and decoded (or not). */
  method Search(c: SearchCriteria, feed: Feed<GarudaFlightRaw>, kit: Toolkit) returns (out: SearchResult)
    ensures feed.ReadFailed? ==> out == SearchResult([], Some(feed.message))
    ensures feed.DecodeFailed? ==> out == SearchResult([], Some("garuda: unmarshal error: " + feed.message))
    ensures feed.Loaded? ==> out == SearchResult(Collect(feed.records, Converter(kit)), None)
  {
    match feed
    case ReadFailed(message) => return SearchResult([], Some(message));
    case DecodeFailed(message) => return SearchResult([], Some("garuda: unmarshal error: " + message));
    case Loaded(raws) =>
      var results: seq<UnifiedFlight> := [];
      for i := 0 to |raws|
        invariant results == Collect(raws[..i], Converter(kit))
      {
        assert raws[..i + 1][..i] == raws[..i];
        var f := raws[i];
        var depParsed := Parse(kit, f.departure.time);
        var arrParsed := Parse(kit, f.arrival.time);
        var depTime := depParsed.GetOr(ZeroInstant);
        var arrTime := arrParsed.GetOr(ZeroInstant);
        if f.stops > 0 && |f.segments| >= 2 {
          depTime := Parse(kit, f.segments[0].departureTime).GetOr(ZeroInstant);
          arrTime := Parse(kit, f.segments[|f.segments| - 1].arrivalTime).GetOr(ZeroInstant);
        }
        if depParsed.None? || arrParsed.None? {
          continue;
        }
        results := results + [BuildFlight(f, depTime, arrTime, kit)];
      }
      assert raws[..|raws|] == raws;
      return SearchResult(results, None);
  }

  /**
   * Every record the adapter emits is marked as Garuda's, carries the
   * "_GA" id suffix, and is valid exactly when it arrives after it departs.
   */
  lemma EmittedRecords(raws: seq<GarudaFlightRaw>, kit: Toolkit)
    ensures forall r :: r in Collect(raws, Converter(kit)) ==>
      && r.provider == Name(GarudaProvider)
      && (exists id :: r.id == id + "_GA" && r.flightNumber == id)
      && (r.isValid <==> r.arrival.timestamp > r.departure.timestamp)
  {
    forall r | r in Collect(raws, Converter(kit))
      ensures r.provider == Name(GarudaProvider)
      ensures exists id :: r.id == id + "_GA" && r.flightNumber == id
      ensures r.isValid <==> r.arrival.timestamp > r.departure.timestamp
    {
      CollectMember(raws, Converter(kit), r);
      var j :| 0 <= j < |raws| && ConvertFlight(raws[j], kit) == Some(r);
      assert r.id == raws[j].flightId + "_GA" && r.flightNumber == raws[j].flightId;
    }
  }

  /** Records from raw entries with different flight ids get different ids. */
  lemma DistinctIds(f: GarudaFlightRaw, g: GarudaFlightRaw, kit: Toolkit)
    requires ConvertFlight(f, kit).Some? && ConvertFlight(g, kit).Some?
    requires f.flightId != g.flightId
    ensures ConvertFlight(f, kit).value.id != ConvertFlight(g, kit).value.id
  {
    if ConvertFlight(f, kit).value.id == ConvertFlight(g, kit).value.id {
      SuffixCancels(f.flightId, g.flightId, "_GA");
    }
  }
}
