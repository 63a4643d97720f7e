/**
 * The AirAsia adapter (internal/platform/providers/airasia.go): a bounded
 * retry gate before the mock file is read, RFC 3339 times whose raw text is
 * kept, a stop count from the stop list, and a comma-separated baggage note.
 */
module AirAsia {
  import opened Wrappers
  import opened Text
  import opened Domain
  import opened Providers

  const MaxRetries := 3

  datatype StopRaw = StopRaw(airport: string, waitTimeMinutes: int)

  /** One decoded entry of the mock response's "flights" array. */
  datatype AAFlightRaw = AAFlightRaw(
    flightCode: string,
    airline: string,
    fromAirport: string,
    toAirport: string,
    departTime: string,
    arriveTime: string,
    durationHours: real,
    directFlight: bool,
    stopsData: seq<StopRaw>,
    priceIdr: real,
    seats: int,
    cabinClass: string,
    baggageNote: string)

  function FailedAttempt(n: int): string {
    "AirAsia: failed attempt " + DecimalString(n)
  }

  function TimedOut(lastErr: string): string {
    "AirAsia timed out after " + DecimalString(MaxRetries) + " retries: " + lastErr
  }

  /**
   * The retry gate; `draws[i]` says whether attempt i + 1's random draw fell
   * under 0.9. Attempts stop at the first success and never exceed three;
   * the gate opens exactly when one of the first three draws succeeds.
   */
  method RetryGate(draws: seq<bool>) returns (success: bool, attempts: nat, lastErr: Option<string>)
    requires |draws| >= MaxRetries
    ensures 1 <= attempts <= MaxRetries
    ensures forall k :: 0 <= k < attempts - 1 ==> !draws[k]
    ensures success <==> draws[attempts - 1]
    ensures !success ==> attempts == MaxRetries
    ensures success <==> exists k :: 0 <= k < MaxRetries && draws[k]
    ensures attempts == 1 ==> lastErr == None
    ensures attempts > 1 || !success ==> lastErr == Some(FailedAttempt(if success then attempts - 1 else attempts))
  {
    success := false;
    lastErr := None;
    attempts := MaxRetries;
    var i := 0;
    while i < MaxRetries
      invariant 0 <= i <= MaxRetries
      invariant forall k :: 0 <= k < i ==> !draws[k]
      invariant i == 0 ==> lastErr == None
      invariant i > 0 ==> lastErr == Some(FailedAttempt(i))
    {
      if draws[i] {
        success := true;
        attempts := i + 1;
        break;
      }
      lastErr := Some(FailedAttempt(i + 1));
      i := i + 1;
    }
  }

  function Parse(kit: Toolkit, text: string): Option<Instant> {
    kit.parse(RFC3339, UTC, text)
  }

  /** Direct flights have no stops; otherwise each listed stop counts. */
  function StopCount(f: AAFlightRaw): nat {
    if f.directFlight then 0 else |f.stopsData|
  }

  /** The record literal, for the parsed instants, stop count and baggage. */
  function BuildFlight(f: AAFlightRaw, dep: Instant, arr: Instant, stops: int, baggage: BaggageInfo, kit: Toolkit): UnifiedFlight {
    var dur := CalculateDuration(dep, arr);
    UnifiedFlight(
      id := f.flightCode + "_QZ",
      provider := Name(AirAsiaProvider),
      airline := AirlineInfo(f.airline, "QZ"),
      flightNumber := f.flightCode,
      departure := FlightPoint(f.fromAirport, "Jakarta", f.departTime, dep.unix, dep),
      arrival := FlightPoint(f.toAirport, "Denpasar", f.arriveTime, arr.unix, arr),
      duration := DurationInfo(dur, FormatDuration(dur)),
      stops := stops,
      price := PriceInfo(f.priceIdr, FormatIDR(f.priceIdr, kit), "IDR"),
      availableSeats := f.seats,
      cabinClass := "economy",
      aircraft := "",
      amenities := [],
      baggage := baggage,
      score := 0.0,
      isValid := arr.unix > dep.unix)
  }

  /** What one raw record becomes; it is skipped when either time fails to parse. */
  function ConvertFlight(f: AAFlightRaw, kit: Toolkit): (r: Option<UnifiedFlight>)
    ensures r.None? <==> Parse(kit, f.departTime).None? || Parse(kit, f.arriveTime).None?
    ensures r.Some? ==>
      && r.value.departure.timeOfDay == Parse(kit, f.departTime).value
      && r.value.arrival.timeOfDay == Parse(kit, f.arriveTime).value
      && r.value.departure.timestamp == r.value.departure.timeOfDay.unix
      && r.value.arrival.timestamp == r.value.arrival.timeOfDay.unix
    ensures r.Some? ==> r.value.departure.datetime == f.departTime && r.value.arrival.datetime == f.arriveTime
    ensures r.Some? ==> r.value.departure.airport == f.fromAirport && r.value.arrival.airport == f.toAirport
    ensures r.Some? ==> r.value.departure.city == "Jakarta" && r.value.arrival.city == "Denpasar"
    ensures r.Some? ==> r.value.airline == AirlineInfo(f.airline, "QZ")
    ensures r.Some? ==> r.value.id == f.flightCode + "_QZ" && r.value.provider == "AirAsia"
    ensures r.Some? ==> r.value.airline.code == "QZ" && r.value.price.currency == "IDR" && r.value.cabinClass == "economy"
    ensures r.Some? ==> r.value.price == PriceInfo(f.priceIdr, FormatIDR(f.priceIdr, kit), "IDR")
    ensures r.Some? ==> r.value.availableSeats == f.seats
    ensures r.Some? ==> r.value.stops == (if f.directFlight then 0 else |f.stopsData|)
    ensures r.Some? ==> r.value.baggage == SplitBaggageNote(f.baggageNote)
    ensures r.Some? ==> (r.value.isValid <==> r.value.arrival.timestamp > r.value.departure.timestamp)
    ensures r.Some? && r.value.isValid ==> r.value.duration.totalMinutes >= 0
    ensures r.Some? ==>
      var m := CalculateDuration(r.value.departure.timeOfDay, r.value.arrival.timeOfDay);
      r.value.duration == DurationInfo(m, FormatDuration(m))
  {
    var dep := Parse(kit, f.departTime);
    var arr := Parse(kit, f.arriveTime);
    if dep.None? || arr.None? then None
    else Some(BuildFlight(f, dep.value, arr.value, StopCount(f), SplitBaggageNote(f.baggageNote), kit))
  }

  function Converter(kit: Toolkit): AAFlightRaw -> Option<UnifiedFlight> {
    f => ConvertFlight(f, kit)
  }

  /**
   * `AirAsiaProvider.Search`: when all three attempts fail, the error comes
   * back before the feed is looked at; otherwise the feed is converted.
   */
  method Search(c: SearchCriteria, draws: seq<bool>, feed: Feed<AAFlightRaw>, kit: Toolkit) returns (out: SearchResult)
    requires |draws| >= MaxRetries
    ensures (forall k :: 0 <= k < MaxRetries ==> !draws[k]) ==>
      out == SearchResult([], Some(TimedOut(FailedAttempt(MaxRetries))))
    ensures (exists k :: 0 <= k < MaxRetries && draws[k]) ==>
      && (feed.ReadFailed? ==> out == SearchResult([], Some(feed.message)))
      && (feed.DecodeFailed? ==> out == SearchResult([], Some("airasia: unmarshal error: " + feed.message)))
      && (feed.Loaded? ==> out == SearchResult(Collect(feed.records, Converter(kit)), None))
  {
    var success, _, lastErr := RetryGate(draws);
    if !success {
      return SearchResult([], Some(TimedOut(lastErr.value)));
    }
    match feed
    case ReadFailed(message) => return SearchResult([], Some(message));
    case DecodeFailed(message) => return SearchResult([], Some("airasia: unmarshal error: " + message));
    case Loaded(raws) =>
      var results: seq<UnifiedFlight> := [];
      for i := 0 to |raws|
        invariant results == Collect(raws[..i], Converter(kit))
      {
        assert raws[..i + 1][..i] == raws[..i];
        var f := raws[i];
        var depTime := Parse(kit, f.departTime);
        var arrTime := Parse(kit, f.arriveTime);
        if depTime.None? || arrTime.None? {
          continue;
        }
        var stops := 0;
        if !f.directFlight {
          stops := |f.stopsData|;
        }
        var baggageInfo := BaggageInfo("", "");
        var parts := Split(f.baggageNote, ',');
        if |parts| >= 1 {
          baggageInfo := baggageInfo.(carryOn := TrimSpace(parts[0]));
        }
        if |parts| >= 2 {
          baggageInfo := baggageInfo.(checked := TrimSpace(parts[1]));
        }
        results := results + [BuildFlight(f, depTime.value, arrTime.value, stops, baggageInfo, kit)];
      }
      assert raws[..|raws|] == raws;
      return SearchResult(results, None);
  }

  /** Every emitted record is AirAsia's, carries the "_QZ" suffix and code "QZ", and is valid exactly when it arrives after it departs. */
  lemma EmittedRecords(raws: seq<AAFlightRaw>, kit: Toolkit)
    ensures forall r :: r in Collect(raws, Converter(kit)) ==>
      && r.provider == Name(AirAsiaProvider)
      && r.airline.code == "QZ"
      && (exists id :: r.id == id + "_QZ" && r.flightNumber == id)
      && (r.isValid <==> r.arrival.timestamp > r.departure.timestamp)
  {
    forall r | r in Collect(raws, Converter(kit))
      ensures r.provider == Name(AirAsiaProvider) && r.airline.code == "QZ"
      ensures exists id :: r.id == id + "_QZ" && r.flightNumber == id
      ensures r.isValid <==> r.arrival.timestamp > r.departure.timestamp
    {
      CollectMember(raws, Converter(kit), r);
      var j :| 0 <= j < |raws| && ConvertFlight(raws[j], kit) == Some(r);
      assert r.id == raws[j].flightCode + "_QZ" && r.flightNumber == raws[j].flightCode;
    }
  }
}
