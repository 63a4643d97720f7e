/**
 * The request filter (internal/core/services/aggregator_filter.go): a
 * record is kept when it passes every check of `filterFlights`; the kept
 * records form an order-preserving subsequence of the input.
 */
module Filter {
  import opened Wrappers
  import opened Sequences
  import opened Text
  import opened Domain

  /** `outOfRangeInt`: a present minimum above the value or a present maximum below it. */
  function OutOfRangeInt(value: int, min: Option<int>, max: Option<int>): (out: bool)
    ensures !out <==> (min.None? || min.value <= value) && (max.None? || value <= max.value)
  {
    (min.Some? && value < min.value) || (max.Some? && value > max.value)
  }

  /** `outOfRangeFloat`, with float64 amounts as reals. */
  function OutOfRangeReal(value: real, min: Option<real>, max: Option<real>): (out: bool)
    ensures !out <==> (min.None? || min.value <= value) && (max.None? || value <= max.value)
  {
    (min.Some? && value < min.value) || (max.Some? && value > max.value)
  }

  /** What `timeOnly` keeps of a parsed time: its hour and minute. */
  datatype Clock = Clock(hour: int, minute: int)

  predicate ValidClock(c: Clock) {
    0 <= c.hour < 24 && 0 <= c.minute < 60
  }

  function MinutesOfDay(c: Clock): int {
    c.hour * 60 + c.minute
  }

  /**
   * `time.Parse` with layout "15:04": the hour is one digit, or two when a
   * second digit follows, and below 24; then ':'; then exactly two minute
   * digits below 60; then nothing more.
   */
  function ParseClock(s: string): (r: Option<Clock>)
    ensures r.Some? ==> ValidClock(r.value)
    ensures r.Some? ==> |s| == 4 || |s| == 5
  {
    if |s| == 0 || !IsDigit(s[0]) then None
    else
      var twoDigitHour := |s| >= 2 && IsDigit(s[1]);
      var hour := if twoDigitHour then DigitValue(s[0]) * 10 + DigitValue(s[1]) else DigitValue(s[0]);
      var rest := if twoDigitHour then s[2..] else s[1..];
      if hour < 24 && |rest| == 3 && rest[0] == ':' && IsDigit(rest[1]) && IsDigit(rest[2]) then
        var minute := DigitValue(rest[1]) * 10 + DigitValue(rest[2]);
        if minute < 60 then Some(Clock(hour, minute)) else None
      else None
  }

  /** A two-digit field, zero-padded. */
  function TwoDigits(n: nat): (s: string)
    requires n < 100
    ensures |s| == 2 && AllDigits(s)
  {
    [DigitChar(n / 10), DigitChar(n % 10)]
  }

  /** The "15:04" rendering of a clock: both fields zero-padded. */
  function FormatClock(c: Clock): string
    requires ValidClock(c)
  {
    TwoDigits(c.hour) + ":" + TwoDigits(c.minute)
  }

  /** The unpadded rendering Go also accepts for an hour below ten. */
  function ShortClock(c: Clock): string
    requires ValidClock(c) && c.hour < 10
  {
    [DigitChar(c.hour)] + ":" + TwoDigits(c.minute)
  }

  lemma DigitRoundTrip(d: nat)
    requires d < 10
    ensures DigitValue(DigitChar(d)) == d
  {
    assert "0123456789"[d] as int - '0' as int == d;
  }

  /** Both renderings of a valid clock parse back to it. */
  lemma ParseFormatClock(c: Clock)
    requires ValidClock(c)
    ensures ParseClock(FormatClock(c)) == Some(c)
    ensures c.hour < 10 ==> ParseClock(ShortClock(c)) == Some(c)
  {
    DigitRoundTrip(c.hour / 10);
    DigitRoundTrip(c.hour % 10);
    DigitRoundTrip(c.minute / 10);
    DigitRoundTrip(c.minute % 10);
    DigitRoundTrip(c.hour % 10);
    var s := FormatClock(c);
    assert s[2..] == ":" + TwoDigits(c.minute);
    if c.hour < 10 {
      var t := ShortClock(c);
      assert t[1..] == ":" + TwoDigits(c.minute);
      assert c.hour % 10 == c.hour;
    }
  }

  lemma CharRoundTrip(ch: char)
    requires IsDigit(ch)
    ensures DigitChar(DigitValue(ch)) == ch
  {
  }

  /** Only the two renderings parse: whatever parses is one of them. */
  lemma ParsedIsRendering(s: string)
    requires ParseClock(s).Some?
    ensures var c := ParseClock(s).value;
      s == FormatClock(c) || (c.hour < 10 && s == ShortClock(c))
  {
    var c := ParseClock(s).value;
    CharRoundTrip(s[0]);
    if |s| == 5 {
      CharRoundTrip(s[1]);
      CharRoundTrip(s[3]);
      CharRoundTrip(s[4]);
      assert c.hour / 10 == DigitValue(s[0]) && c.hour % 10 == DigitValue(s[1]);
      assert c.minute / 10 == DigitValue(s[3]) && c.minute % 10 == DigitValue(s[4]);
      assert s == FormatClock(c);
    } else {
      CharRoundTrip(s[2]);
      CharRoundTrip(s[3]);
      assert c.minute / 10 == DigitValue(s[2]) && c.minute % 10 == DigitValue(s[3]);
      assert s == ShortClock(c);
    }
  }

  /** `parseFilterTime`: an absent bound and a bound that does not parse are both no bound. */
  function ParseFilterTime(s: Option<string>): Option<Clock> {
    if s.None? then None else ParseClock(s.value)
  }

  /**
   * A bound yields clock `c` exactly when it is present and is one of `c`'s
   * two renderings; an absent bound and any other text yield no bound.
   */
  lemma ParseFilterTimeMeaning(s: Option<string>, c: Clock)
    ensures ParseFilterTime(s) == Some(c)
        <==> s.Some? && ValidClock(c) && (s.value == FormatClock(c) || (c.hour < 10 && s.value == ShortClock(c)))
  {
    if ParseFilterTime(s) == Some(c) {
      ParsedIsRendering(s.value);
    }
    if s.Some? && ValidClock(c) {
      ParseFormatClock(c);
    }
  }

  /** The minutes-of-day of a record's wall clock; its date plays no part. */
  function InstantMinutes(t: Instant): int {
    t.hour * 60 + t.minute
  }

  /** The inclusive clock window a parsed pair of bounds leaves open. */
  predicate WithinClock(minutes: int, lo: Option<Clock>, hi: Option<Clock>) {
    (lo.None? || MinutesOfDay(lo.value) <= minutes) && (hi.None? || minutes <= MinutesOfDay(hi.value))
  }

  /** The four time-of-day bounds, parsed once per request. */
  datatype ClockBounds = ClockBounds(minDep: Option<Clock>, maxDep: Option<Clock>, minArr: Option<Clock>, maxArr: Option<Clock>)

  function ParsedBounds(fo: FilterOptions): ClockBounds {
    ClockBounds(ParseFilterTime(fo.minDepTime), ParseFilterTime(fo.maxDepTime),
                ParseFilterTime(fo.minArrTime), ParseFilterTime(fo.maxArrTime))
  }

  /** The route, cabin, seats and date checks. */
  predicate MatchesRequest(f: UnifiedFlight, c: SearchCriteria) {
    && f.departure.airport == c.origin
    && f.arrival.airport == c.destination
    && (c.cabinClass == "" || f.cabinClass == c.cabinClass)
    && (c.passengers == 0 || f.availableSeats >= c.passengers)
    && f.departure.timeOfDay.date == c.departureDate
  }

  /** The price, stops, duration and airline checks. */
  predicate MatchesOptions(f: UnifiedFlight, fo: FilterOptions) {
    && !OutOfRangeReal(f.price.amount, fo.minPrice, fo.maxPrice)
    && !OutOfRangeInt(f.stops, None, fo.maxStops)
    && !OutOfRangeInt(f.duration.totalMinutes, fo.minDuration, fo.maxDuration)
    && (|fo.airlines| == 0 || f.airline.name in fo.airlines)
  }

  /** The time-of-day checks against already parsed bounds. */
  predicate MatchesClock(f: UnifiedFlight, b: ClockBounds) {
    && WithinClock(InstantMinutes(f.departure.timeOfDay), b.minDep, b.maxDep)
    && WithinClock(InstantMinutes(f.arrival.timeOfDay), b.minArr, b.maxArr)
  }

  /** Whether `filterFlights` keeps a record. */
  predicate Admits(f: UnifiedFlight, c: SearchCriteria) {
    MatchesRequest(f, c) && MatchesOptions(f, c.filters) && MatchesClock(f, ParsedBounds(c.filters))
  }

  /** The kept records in input order. */
  function Filtered(flights: seq<UnifiedFlight>, c: SearchCriteria): seq<UnifiedFlight> {
    if flights == [] then []
    else
      var n := |flights| - 1;
      Filtered(flights[..n], c) + (if Admits(flights[n], c) then [flights[n]] else [])
  }

  lemma FilteredStep(flights: seq<UnifiedFlight>, i: nat, c: SearchCriteria)
    requires i < |flights|
    ensures Filtered(flights[..i + 1], c)
         == Filtered(flights[..i], c) + (if Admits(flights[i], c) then [flights[i]] else [])
  {
    assert flights[..i + 1][..i] == flights[..i];
  }

  /** `filterFlights`: builds the airline set, then keeps each record that passes every check. */
  method FilterFlights(flights: seq<UnifiedFlight>, opts: SearchCriteria) returns (res: seq<UnifiedFlight>)
    ensures res == Filtered(flights, opts)
  {
    res := [];
    var minDepTime := ParseFilterTime(opts.filters.minDepTime);
    var maxDepTime := ParseFilterTime(opts.filters.maxDepTime);
    var minArrTime := ParseFilterTime(opts.filters.minArrTime);
    var maxArrTime := ParseFilterTime(opts.filters.maxArrTime);

    var airlines := opts.filters.airlines;
    var allowedAirlines: set<string> := {};
    for i := 0 to |airlines|
      invariant forall name :: name in allowedAirlines <==> name in airlines[..i]
    {
      assert airlines[..i + 1] == airlines[..i] + [airlines[i]];
      allowedAirlines := allowedAirlines + {airlines[i]};
    }
    assert airlines[..|airlines|] == airlines;
    assert |allowedAirlines| == 0 <==> |airlines| == 0 by {
      if |airlines| > 0 {
        assert airlines[0] in allowedAirlines;
      }
    }

    for i := 0 to |flights|
      invariant res == Filtered(flights[..i], opts)
    {
      FilteredStep(flights, i, opts);
      var f := flights[i];
      if f.departure.airport != opts.origin || f.arrival.airport != opts.destination {
        continue;
      }
      if opts.cabinClass != "" && f.cabinClass != opts.cabinClass {
        continue;
      }
      if opts.passengers != 0 && f.availableSeats < opts.passengers {
        continue;
      }
      if f.departure.timeOfDay.date != opts.departureDate {
        continue;
      }
      if OutOfRangeReal(f.price.amount, opts.filters.minPrice, opts.filters.maxPrice)
         || OutOfRangeInt(f.stops, None, opts.filters.maxStops)
         || OutOfRangeInt(f.duration.totalMinutes, opts.filters.minDuration, opts.filters.maxDuration) {
        continue;
      }
      if |allowedAirlines| > 0 {
        if f.airline.name !in allowedAirlines {
          continue;
        }
      }
      var depMinutes := f.departure.timeOfDay.hour * 60 + f.departure.timeOfDay.minute;
      var arrMinutes := f.arrival.timeOfDay.hour * 60 + f.arrival.timeOfDay.minute;
      if (minDepTime.Some? && depMinutes < minDepTime.value.hour * 60 + minDepTime.value.minute)
         || (maxDepTime.Some? && depMinutes > maxDepTime.value.hour * 60 + maxDepTime.value.minute)
         || (minArrTime.Some? && arrMinutes < minArrTime.value.hour * 60 + minArrTime.value.minute)
         || (maxArrTime.Some? && arrMinutes > maxArrTime.value.hour * 60 + maxArrTime.value.minute) {
        continue;
      }
      res := res + [f];
    }
    assert flights[..|flights|] == flights;
  }

  /** The input positions of the admitted records, in increasing order. */
  function KeptPositions(flights: seq<UnifiedFlight>, c: SearchCriteria): seq<nat> {
    if flights == [] then []
    else
      var n := |flights| - 1;
      KeptPositions(flights[..n], c) + (if Admits(flights[n], c) then [n] else [])
  }

  lemma {:induction false} KeptPositionsMatch(flights: seq<UnifiedFlight>, c: SearchCriteria)
    ensures |KeptPositions(flights, c)| == |Filtered(flights, c)|
    ensures forall k :: 0 <= k < |KeptPositions(flights, c)| ==>
      KeptPositions(flights, c)[k] < |flights| && flights[KeptPositions(flights, c)[k]] == Filtered(flights, c)[k]
  {
    if flights != [] {
      var n := |flights| - 1;
      var init := flights[..n];
      KeptPositionsMatch(init, c);
      var idx, prev := KeptPositions(flights, c), KeptPositions(init, c);
      var out, before := Filtered(flights, c), Filtered(init, c);
      forall k | 0 <= k < |prev|
        ensures idx[k] < |flights| && flights[idx[k]] == out[k]
      {
        assert idx[k] == prev[k] && flights[prev[k]] == init[prev[k]] && out[k] == before[k];
      }
    }
  }

  lemma {:induction false} KeptPositionsIncrease(flights: seq<UnifiedFlight>, c: SearchCriteria)
    ensures StrictlyIncreasing(KeptPositions(flights, c))
    ensures forall k :: 0 <= k < |KeptPositions(flights, c)| ==> KeptPositions(flights, c)[k] < |flights|
  {
    if flights != [] {
      KeptPositionsIncrease(flights[..|flights| - 1], c);
    }
  }

  lemma {:induction false} KeptPositionsComplete(flights: seq<UnifiedFlight>, c: SearchCriteria)
    ensures forall j :: 0 <= j < |flights| && Admits(flights[j], c) ==> j in KeptPositions(flights, c)
  {
    if flights != [] {
      var n := |flights| - 1;
      var init := flights[..n];
      KeptPositionsComplete(init, c);
      forall j | 0 <= j < n && Admits(flights[j], c)
        ensures j in KeptPositions(flights, c)
      {
        assert init[j] == flights[j];
      }
    }
  }

  /**
   * The output is an order-preserving subsequence of the input: output
   * position k is input position idx[k], the positions increase, and every
   * admitted input position appears.
   */
  lemma FilteredInOrder(flights: seq<UnifiedFlight>, c: SearchCriteria) returns (idx: seq<nat>)
    ensures |idx| == |Filtered(flights, c)| && StrictlyIncreasing(idx)
    ensures forall k :: 0 <= k < |idx| ==> idx[k] < |flights| && flights[idx[k]] == Filtered(flights, c)[k]
    ensures forall j :: 0 <= j < |flights| && Admits(flights[j], c) ==> j in idx
  {
    idx := KeptPositions(flights, c);
    KeptPositionsMatch(flights, c);
    KeptPositionsIncrease(flights, c);
    KeptPositionsComplete(flights, c);
  }

  /** Every kept record is an input record that passes every check, and no more are kept than came in. */
  lemma {:induction false} FilteredSound(flights: seq<UnifiedFlight>, c: SearchCriteria)
    ensures |Filtered(flights, c)| <= |flights|
    ensures forall f :: f in Filtered(flights, c) ==> f in flights && Admits(f, c)
  {
    if flights != [] {
      var n := |flights| - 1;
      FilteredSound(flights[..n], c);
      forall f | f in Filtered(flights[..n], c)
        ensures f in flights
      {
        assert f in flights[..n];
      }
    }
  }

  /** Filtering a concatenation filters each part. */
  lemma {:induction false} FilteredAppend(a: seq<UnifiedFlight>, b: seq<UnifiedFlight>, c: SearchCriteria)
    ensures Filtered(a + b, c) == Filtered(a, c) + Filtered(b, c)
    decreases |b|
  {
    if b == [] {
      assert a + b == a;
    } else {
      var m := |b| - 1;
      FilteredAppend(a, b[..m], c);
      assert (a + b)[..|a + b| - 1] == a + b[..m];
    }
  }

  /** Filtering twice with the same criteria keeps what filtering once kept. */
  lemma {:induction false} FilterIdempotent(flights: seq<UnifiedFlight>, c: SearchCriteria)
    ensures Filtered(Filtered(flights, c), c) == Filtered(flights, c)
  {
    if flights != [] {
      var n := |flights| - 1;
      FilterIdempotent(flights[..n], c);
      var once, x := Filtered(flights[..n], c), flights[n];
      if Admits(x, c) {
        var twice := once + [x];
        assert Filtered(flights, c) == twice;
        assert twice[..|twice| - 1] == once && twice[|twice| - 1] == x;
        assert Filtered(twice, c) == Filtered(once, c) + [x];
      } else {
        assert Filtered(flights, c) == once;
      }
    }
  }

  /** The bounds as they constrain: every bound that does not parse dropped. */
  function WithoutMalformed(fo: FilterOptions): (r: FilterOptions)
    ensures ParsedBounds(r) == ParsedBounds(fo)
  {
    fo.(minDepTime := if ParseFilterTime(fo.minDepTime).None? then None else fo.minDepTime,
        maxDepTime := if ParseFilterTime(fo.maxDepTime).None? then None else fo.maxDepTime,
        minArrTime := if ParseFilterTime(fo.minArrTime).None? then None else fo.minArrTime,
        maxArrTime := if ParseFilterTime(fo.maxArrTime).None? then None else fo.maxArrTime)
  }

  /** A time bound that does not parse constrains nothing: the output is as if it were absent. */
  lemma {:induction false} MalformedBoundIgnored(flights: seq<UnifiedFlight>, c: SearchCriteria)
    ensures Filtered(flights, c) == Filtered(flights, c.(filters := WithoutMalformed(c.filters)))
  {
    if flights != [] {
      MalformedBoundIgnored(flights[..|flights| - 1], c);
    }
  }

  /** A record's fate does not depend on its score, nor on the requested sort or return date. */
  lemma AdmitsIgnoresPresentation(f: UnifiedFlight, c: SearchCriteria, score: real, sortBy: string, returnDate: Option<string>)
    ensures Admits(f.(score := score), c.(sortBy := sortBy, returnDate := returnDate)) == Admits(f, c)
  {
  }
}
