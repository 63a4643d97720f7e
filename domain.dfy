/**
 * The request, record and response shapes every stage of the flight search
 * works on (internal/core/domain/models.go). Go's nil pointers become
 * Option, so an absent bound is distinct from a zero bound; float64 amounts
 * and scores become `real`.
 */
module Domain {
  import opened Wrappers

  /** The optional narrowing a caller asks for; every bound is inclusive. */
  datatype FilterOptions = FilterOptions(
    maxPrice: Option<real>,
    minPrice: Option<real>,
    maxStops: Option<int>,
    airlines: seq<string>,          // allowed airline names; empty means any airline
    minDuration: Option<int>,       // minutes
    maxDuration: Option<int>,
    minDepTime: Option<string>,     // "HH:MM" wall-clock bounds, parsed when filtering
    maxDepTime: Option<string>,
    minArrTime: Option<string>,
    maxArrTime: Option<string>)

  datatype SearchCriteria = SearchCriteria(
    origin: string,
    destination: string,
    departureDate: string,          // "YYYY-MM-DD"
    returnDate: Option<string>,
    passengers: int,
    cabinClass: string,
    filters: FilterOptions,
    sortBy: string)

  /**
   * A parsed point in time: seconds since the Unix epoch, and the wall clock
   * of the zone it was parsed in (its date as "YYYY-MM-DD", its hour and
   * minute), with its RFC 3339 rendering in that zone.
   */
  datatype Instant = Instant(unix: int, date: string, hour: int, minute: int, rfc3339: string)

  /** Go's zero `time.Time`: midnight UTC on 1 January of year 1. */
  const ZeroInstant := Instant(-62135596800, "0001-01-01", 0, 0, "0001-01-01T00:00:00Z")

  datatype AirlineInfo = AirlineInfo(name: string, code: string)

  /** One end of a flight: `timestamp` drives the time sorts, `timeOfDay` the date and clock filters. */
  datatype FlightPoint = FlightPoint(
    airport: string,
    city: string,
    datetime: string,
    timestamp: int,
    timeOfDay: Instant)

  datatype DurationInfo = DurationInfo(totalMinutes: int, formatted: string)

  datatype BaggageInfo = BaggageInfo(carryOn: string, checked: string)

  datatype PriceInfo = PriceInfo(amount: real, formattedAmount: string, currency: string)

  /** The unified record; `isValid` is internal and never serialised. */
  datatype UnifiedFlight = UnifiedFlight(
    id: string,
    provider: string,
    airline: AirlineInfo,
    flightNumber: string,
    departure: FlightPoint,
    arrival: FlightPoint,
    duration: DurationInfo,
    stops: int,
    price: PriceInfo,
    availableSeats: int,
    cabinClass: string,
    aircraft: string,
    amenities: seq<string>,
    baggage: BaggageInfo,
    score: real,
    isValid: bool)

  datatype ResponseMetadata = ResponseMetadata(
    totalResults: int,
    providersQueried: int,
    providersSucceeded: int,
    providersFailed: int,
    searchTimeMs: int,
    cacheHit: bool)

  datatype SearchResponse = SearchResponse(
    searchCriteria: SearchCriteria,
    metadata: ResponseMetadata,
    flights: seq<UnifiedFlight>)
}
