# Flight search aggregator — a verified Dafny model

This project models the core of a flight-search service that asks four airline
providers (Garuda Indonesia, Lion Air, Batik Air and AirAsia) for flights and
merges their answers. It covers the following parts:

- **Provider adapters** (`garuda.dfy`, `lion.dfy`, `batik.dfy`, `airasia.dfy`,
  with the shared helpers in `providers.dfy`). Each adapter turns each decoded
  raw record into a `UnifiedFlight`, or skips it when its times do not parse.
  The rules covered are:
  - the validity flag;
  - the duration, in whole minutes truncated toward zero;
  - the id suffix;
  - the stops rule;
  - the baggage split;
  - each adapter's literal quirks: Garuda's segment override, Lion's arrival
    wall clock set to the departure, and Batik's fixed city names.

  AirAsia's three-attempt retry gate comes first.
- **Cache key** (`cache_key.dfy`). The key is built from origin, destination,
  departure date and cabin class, joined by `_` and then digested.
- **Fetch** (`fetch.dfy`). The goroutine per provider is run one after
  another:
  - a failed provider contributes nothing;
  - a successful one contributes its valid records;
  - the blocks may arrive in any order;
  - successes are counted.
- **Filter** (`filter.dfy`). It keeps the records that pass every check of the
  request, in input order. Time bounds are parsed as `15:04`.
- **Ranking** (`ranking.dfy`). It writes the best-value score into each record
  in place, then sorts in place by the comparator the sort key selects.
- **Aggregator** (`aggregator.dfy`). The `Aggregator` class holds the result
  cache as a `map` field:
  - a fresh entry, younger than 60 s, is served without asking the providers;
  - a stale entry is deleted;
  - a miss fetches, then stores the unfiltered merged set.

  Every answer is filter, then score, then sort.

The domain types are in `domain.dfy`. `Option` is in `wrappers.dfy`. The small
pieces of Go's `fmt` and `strings` that the adapters rely on are in `text.dfy`:
`%d`, `strings.Split`, `strings.TrimSpace` and `unicode.IsSpace`.

Foreign code and the environment reach the model as parameters:

- `time.Parse` and `time.ParseInLocation` are one function, `Toolkit.parse`.
  It takes a layout, a zone and the text, and returns `Option<Instant>`. An
  `Instant` holds epoch seconds, the wall-clock date, hour and minute, and its
  RFC 3339 rendering.
- The Indonesian-locale number printer is `Toolkit.localeDigits`.
- SHA-256 with hex encoding is the `digest` function the aggregator is built
  with.
- The mock files, once read and decoded, are a `Feed`: either the records, or
  the read or decode error.
- AirAsia's random draws are a sequence of booleans.
- Each provider's answer is a `SearchResult` in the input `outcomes`. The
  order the goroutines finish in is the permutation `arrival`.
- The age check's `now` and the store time `storedAt` are integer
  nanoseconds. The reported search time `elapsedMs` is in whole milliseconds,
  as `Milliseconds()` gives it; the model only echoes it.

## Model

| member | source | states |
|---|---|---|
| Text.DecimalRoundTrip | internal/platform/providers/garuda.go:113-114 | The `%d` rendering of any integer reads back as that integer, so "{n} piece(s)" keeps the count. |
| Text.JoinSplit | internal/platform/providers/batik.go:73 | Splitting on one separator loses nothing: joining the pieces gives the note back. |
| Text.SplitAtFirst | internal/platform/providers/batik.go:73 | A separator-free prefix followed by the separator is split off whole as the first piece. |
| Text.TrimSpaceIsInnerSlice | internal/platform/providers/batik.go:74-80 | The result is a slice of the input, everything cut off at either end is white space, and neither end of what is kept is white space. |
| Providers.Div60 | internal/platform/providers/lion.go:125 | Go's `/60` truncates toward zero: the quotient times 60 lies within one step of the dividend, on the dividend's side of zero. |
| Providers.Rem60 | internal/platform/providers/lion.go:125 | Go's `%60`: dividend = quotient·60 + remainder, and the remainder has the dividend's sign and is below 60 in magnitude. |
| Providers.TruncationDiffersFromFloor | internal/platform/providers/interface.go:25 | −90 s gives −1 minute with remainder −30, where flooring would give −2 and 30. |
| Providers.CalculateDuration | internal/platform/providers/interface.go:24-26 | Whole minutes between start and end, with the fraction dropped toward zero. The result is non-negative when end ≥ start, non-positive when end < start, and 0 when they are equal. |
| Providers.FormatDurationShows | internal/platform/providers/lion.go:125 | The rendering is "{h}h {m}m" with h·60 + m = the duration and m below 60 in magnitude with the duration's sign, which is Go's truncating `/` and `%`; both numbers read back from their text. |
| Providers.FormatDurationExamples | internal/platform/providers/lion.go:125 | 150 minutes render as "2h 30m", and −90 minutes as "-1h -30m". |
| Providers.TruncateToInt | internal/platform/providers/interface.go:29 | `int64(v)` drops the fraction toward zero, for negative amounts too. |
| Providers.FormatIDR | internal/platform/providers/interface.go:28-31 | The rendering starts with "Rp". |
| Providers.FormatIDRDropsFraction | internal/platform/providers/interface.go:29-30 | Two amounts that truncate to the same integer print the same. |
| Providers.CollectInOrder | internal/platform/providers/garuda.go:58-117 | The adapter loop emits exactly the conversions of the records that convert, in input order: a strictly increasing embedding that misses no converting record. |
| Providers.CollectMember | internal/platform/providers/garuda.go:58-117 | Every emitted record is the conversion of some input record. |
| Providers.CollectOneForOne | internal/platform/providers/garuda.go:58-117 | When no record is skipped, the output has one record per input record, position by position. |
| Providers.SuffixCancels | internal/platform/providers/garuda.go:76 | Adding one suffix to two raw ids keeps them distinct. |
| Providers.SuffixesSeparate | internal/platform/providers/airasia.go:97 | Ids with different suffixes of the same length ("_GA", "_JT", "_ID", "_QZ") never collide across providers. |
| Providers.BaggageWithoutComma | internal/platform/providers/batik.go:73-80 | A note without a comma becomes carry-on = the trimmed note and checked = "". |
| Providers.BaggageTwoPieces | internal/platform/providers/airasia.go:87-95 | A note with two or more pieces becomes carry-on = the trimmed first piece and checked = the trimmed second piece; later pieces are ignored. |
| Garuda.ConvertFlight | internal/platform/providers/garuda.go:58-117 | Skipped iff a top-level time fails to parse. With stops > 0 and at least 2 segments, the times are the first segment's departure and the last segment's arrival, and an unparseable segment time becomes the zero instant. Valid iff arrival > departure. The duration is CalculateDuration on those chosen instants, with its "{h}h {m}m" rendering. Airline name and code and both airports and cities come from the raw record. Price is the amount with its "Rp" rendering and the raw currency. The datetime strings are the RFC 3339 renderings of the chosen instants, and aircraft and amenities are the raw ones. Also fixes the id suffix "_GA", the flight number, provider, stops, seats, "{n} piece(s)" baggage and "economy". |
| Garuda.Search | internal/platform/providers/garuda.go:17-119 | A read error is returned as is; a decode error is returned prefixed "garuda: unmarshal error: "; otherwise the records are the in-order conversions, with no error. |
| Garuda.EmittedRecords | internal/platform/providers/garuda.go:75-83 | Every emitted record is Garuda Indonesia's, its id is its flight number + "_GA", and it is valid iff it arrives after it departs. |
| Garuda.DistinctIds | internal/platform/providers/garuda.go:76 | Raw records with different flight ids give records with different ids. |
| Lion.ZoneFor | internal/platform/providers/lion.go:78-85 | WITA iff the zone name is "Asia/Makassar", otherwise WIB. |
| Lion.ConvertFlight | internal/platform/providers/lion.go:77-138 | Skipped iff either time fails to parse in its own zone. The arrival wall clock is the departure's. Valid iff arrival > departure. The duration is CalculateDuration on the two parsed instants, with its "{h}h {m}m" rendering. Airline name and code and both airports and cities come from the raw record. Price is the pricing total with its "Rp" rendering and the raw currency. The datetime strings are the RFC 3339 renderings of the two parsed instants, aircraft is the plane type and amenities are empty. Also fixes "_JT", provider, stops, seats and "economy". |
| Lion.Search | internal/platform/providers/lion.go:17-141 | Read and decode errors as for Garuda, with the prefix "lion: unmarshal error: "; otherwise the in-order conversions. |
| Lion.EmittedRecords | internal/platform/providers/lion.go:99-122 | Every emitted record is Lion Air's, carries "_JT", has its arrival wall clock equal to its departure wall clock, and is valid iff it arrives after it departs. |
| Batik.ConvertFlight | internal/platform/providers/batik.go:61-123 | Skipped iff either time fails the numeric-offset layout. Price is the fare total with its "Rp" rendering and the raw currency code, seats are the raw seat count, cities are "Jakarta"/"Denpasar", airports and airline come from the raw record, and baggage is the split note. Valid iff arrival > departure. The duration is CalculateDuration on the parsed instants, with its "{h}h {m}m" rendering. The datetime strings are the RFC 3339 renderings of the parsed instants, aircraft is the aircraft model and amenities are the onboard services. Also fixes "_ID", stops and "economy". |
| Batik.Search | internal/platform/providers/batik.go:18-126 | Read and decode errors, with the prefix "batik: unmarshal error: "; otherwise the in-order conversions. |
| Batik.EmittedRecords | internal/platform/providers/batik.go:82-90 | Every emitted record is Batik Air's, carries "_ID", and is valid iff it arrives after it departs. |
| AirAsia.RetryGate | internal/platform/providers/airasia.go:19-30 | Between 1 and 3 attempts, stopping at the first success. Succeeds iff one of the first three draws succeeds. The last error names the last failed attempt. |
| AirAsia.Search | internal/platform/providers/airasia.go:18-137 | If all three attempts fail, the answer is the timeout error naming attempt 3, and the feed is never used. Otherwise read and decode errors, or the in-order conversions. |
| AirAsia.ConvertFlight | internal/platform/providers/airasia.go:70-135 | Skipped iff either time fails to parse. Stops = 0 for a direct flight, otherwise the number of stop entries. Baggage is the split note, and the datetime strings are the raw ones. Airports come from the raw record and cities are "Jakarta"/"Denpasar". Price is price_idr with its "Rp" rendering and "IDR", and seats are the raw seat count. Also fixes "_QZ", code "QZ", "IDR" and "economy". Valid iff arrival > departure. The duration is CalculateDuration on the parsed instants, with its "{h}h {m}m" rendering. |
| AirAsia.EmittedRecords | internal/platform/providers/airasia.go:96-99 | Every emitted record is AirAsia's, has airline code "QZ", carries "_QZ", and is valid iff it arrives after it departs. |
| CacheKey.RouteIdentity | internal/core/services/aggregator_cache.go:11 | The pre-hash text is the four route fields joined by three "_" separators. |
| CacheKey.KeyIgnoresDisplayFields | internal/core/services/aggregator_cache.go:10-15 | Requests that agree on origin, destination, date and cabin get the same key, whatever their passengers, return date, filters or sort key. |
| CacheKey.RouteIdentitySplits | internal/core/services/aggregator_cache.go:11 | When no field holds "_", splitting the pre-hash text on "_" gives back the four fields in order. |
| CacheKey.RouteIdentityInjective | internal/core/services/aggregator_cache.go:11 | For such fields, equal pre-hash texts mean the same route. |
| CacheKey.SeparatorInFieldCollides | internal/core/services/aggregator_cache.go:11 | ("A_B", "C") and ("A", "B_C") are different routes with the same pre-hash text, hence one cache entry. |
| Fetch.ValidOnly | internal/core/services/aggregator_fetch.go:28-34 | A successful provider forwards only valid records taken from its own answer. |
| Fetch.ValidOnlyExact | internal/core/services/aggregator_fetch.go:28-34 | It forwards exactly its valid records, each as often as it occurs. |
| Fetch.KeepValid | internal/core/services/aggregator_fetch.go:28-34 | The goroutine's loop computes exactly that list, in the provider's order. |
| Fetch.MergedValid | internal/core/services/aggregator_fetch.go:42-45 | Every merged record is valid. |
| Fetch.SuccessCount | internal/core/services/aggregator_fetch.go:47-52 | The success count is at most the number of providers. |
| Fetch.DeliveredAppend | internal/core/services/aggregator_fetch.go:42-52 | Delivering in two batches gives the two merges concatenated, and the two counts added. |
| Fetch.DeliveryOrderIrrelevant | internal/core/services/aggregator_fetch.go:42-52 | Any two delivery orders of the same providers give the same records as a multiset, and the same count. |
| Fetch.ArrivalOrderIrrelevant | internal/core/services/aggregator_fetch.go:42-52 | Whatever order the goroutines finish in, the records equal the provider-order merge as a multiset and are all valid, and the successes are the providers without error. |
| Fetch.ProviderOrder | internal/core/services/aggregator_fetch.go:42-52 | Delivering in provider order gives the provider-order merge and the provider-order count. |
| Fetch.FetchInParallel | internal/core/services/aggregator_fetch.go:10-55 | The result is the merge in arrival order, equal as a multiset to the provider-order concatenation of the valid lists. The count is the number of providers without error, at most their number, and every record is valid. |
| Fetch.AllFailed | internal/core/services/aggregator_fetch.go:42-54 | When every provider fails, the result is empty and the count is 0. |
| Fetch.AllSucceeded | internal/core/services/aggregator_fetch.go:47-52 | When no provider fails, the count is the number of providers. |
| Fetch.OneFailed | internal/core/services/aggregator_fetch.go:19-27 | Exactly one failure out of N gives N − 1 successes. |
| Fetch.FailedRecordsDiscarded | internal/core/services/aggregator_fetch.go:21-25 | Records returned alongside an error never reach the merge, whatever they are. |
| Fetch.RecordsDoNotAffectCount | internal/core/services/aggregator_fetch.go:27-33 | A provider's records, valid or not, never change the success count. |
| Filter.OutOfRangeInt | internal/core/services/aggregator_filter.go:12-14 | The value is in range iff an absent or satisfied minimum and an absent or satisfied maximum both hold, inclusive. |
| Filter.OutOfRangeReal | internal/core/services/aggregator_filter.go:16-18 | The same for float amounts. |
| Filter.ParseClock | internal/core/services/aggregator_filter.go:24-28 | Layout "15:04": anything that parses has hour < 24 and minute < 60, and is 4 or 5 characters long. |
| Filter.ParseFormatClock | internal/core/services/aggregator_filter.go:24-28 | Every valid clock parses back from its zero-padded form, and from its one-digit-hour form when the hour is below 10. |
| Filter.ParsedIsRendering | internal/core/services/aggregator_filter.go:24-28 | Conversely, only those two renderings parse. |
| Filter.ParseFilterTimeMeaning | internal/core/services/aggregator_filter.go:20-30 | A bound yields clock c iff it is present and is c's zero-padded "15:04" rendering, or its one-digit-hour rendering when the hour is below 10. An absent or malformed bound yields no bound. |
| Filter.FilteredSound | internal/core/services/aggregator_filter.go:45-82 | The kept records are input records that pass every check: route, cabin, seats, date, price, stops, duration, airline list, and the time-of-day bounds. |
| Filter.FilterFlights | internal/core/services/aggregator_filter.go:32-85 | The loop, with its airline set and its early `continue`s, keeps exactly those records in input order. |
| Filter.FilteredInOrder | internal/core/services/aggregator_filter.go:45-82 | The output is an order-preserving subsequence of the input that misses no admitted record. |
| Filter.FilteredAppend | internal/core/services/aggregator_filter.go:45-82 | Filtering a concatenation filters each part. |
| Filter.FilterIdempotent | internal/core/services/aggregator_filter.go:45-82 | Filtering twice with the same request gives what filtering once gave. |
| Filter.WithoutMalformed | internal/core/services/aggregator_filter.go:20-30 | Dropping every time bound that does not parse leaves the parsed bounds unchanged. |
| Filter.MalformedBoundIgnored | internal/core/services/aggregator_filter.go:20-30 | A time bound that does not parse constrains nothing: the output is as if it were absent. |
| Filter.AdmitsIgnoresPresentation | internal/core/services/aggregator_filter.go:45-79 | Whether a record is kept depends neither on its score nor on the sort key or return date. |
| Ranking.Scored | internal/core/services/aggregator_sort.go:9-13 | Scoring keeps the length and order and sets each record's score to price/1000 + minutes·5 + stops·5000, changing no other field. |
| Ranking.CalculateBestValue | internal/core/services/aggregator_sort.go:8-15 | The in-place loop leaves the array equal to the scored records. |
| Ranking.ScoringKeepsFields | internal/core/services/aggregator_sort.go:10-12 | A scored record differs from its original only in the score. |
| Ranking.SortOrderOf | internal/core/services/aggregator_sort.go:19-36 | "best_value", "" and any unrecognised key select the score comparator, and the six named keys select their own. |
| Ranking.LessIsKeyOrder | internal/core/services/aggregator_sort.go:18-37 | Each comparator is "smaller key", with the descending keys negated. |
| Ranking.SortedIsNoInversion | internal/core/services/aggregator_sort.go:18-37 | Sorted by key iff no later record is `less` than an earlier one. Ties may come in any order. |
| Ranking.SortFlights | internal/core/services/aggregator_sort.go:17-39 | The in-place sort leaves a permutation of its input, ordered by the selected key. |
| Ranking.SortedMeaning | internal/core/services/aggregator_sort.go:19-36 | What ordered means per key: price and duration ascending or descending, departure and arrival timestamp ascending, otherwise score ascending. |
| Aggregation.FreshnessBoundary | internal/core/services/aggregator.go:34-36 | An entry is fresh iff it is younger than 60 s. At exactly 60 s it is stale, and one nanosecond earlier it is fresh. |
| Aggregation.FilterScoreSort | internal/core/services/aggregator.go:37-39 | Filter into a fresh list, score, sort: the answer is a permutation of the scored admitted records, ordered by the requested key. |
| Aggregation.AnswerIsAdmittedAndScored | internal/core/services/aggregator.go:65-67 | Every answered record is an admitted raw record with its best-value score. No admitted record is lost, and the count equals the filter's. |
| Aggregation.Aggregator.constructor | internal/core/services/aggregator.go:23-28 | The given providers and an empty cache. |
| Aggregation.Aggregator.SearchFlights | internal/core/services/aggregator.go:30-84 | On a hit, the providers are not asked, the cache is unchanged, the answer comes from the cached set, and succeeded = queried with failed = 0. Otherwise the merged set is stored with the store time under this key only, succeeded is the success count, and failed = queried − succeeded ≥ 0. Both echo the criteria, total = the answer's length, and cacheHit is true iff the entry was fresh. |
| Aggregation.RepeatWithinAMinute | internal/core/services/aggregator.go:34-63 | A second search for the same route within a minute of the first's store is a hit, answered from what the first search fetched. |

## Left out

- I/O is not modelled: reading and decoding the mock JSON files, `log.Printf`, and the adapters' `fmt.Printf` of parse errors. Decoded records and the read or decode error reach the model as a `Feed`.
- Goroutines, channels, `sync.WaitGroup` and `sync.Map` are replaced by a sequential fold, with the delivery order as an input permutation. The model assumes the result and status channels are filled in the same order; the success count does not depend on that order.
- `time.Now`, `time.Since`, `time.Sleep` and `math/rand` are left out: clocks are integer parameters and AirAsia's draws are an input. The reported search time is echoed from its parameter and is not constrained.
- `time.Parse`, `ParseInLocation`, `Format`, `LoadLocation` and the timezone database are foreign: the parse function is a parameter of the model. A location that fails to load is not modelled.
- Sub-second parts of times are not modelled: durations are computed from whole epoch seconds.
- CalculateDuration: Go `Duration` saturation of `Sub` for instants more than about 292 years apart is not modelled; the model gives the true whole-minute difference where Go gives the saturated one. This is reachable for any record of any adapter whose two times are that far apart, and in particular through Garuda's zero-instant segment times.
- Float64 prices and scores are `real`: IEEE-754 rounding, NaN and infinities are not modelled, and neither is `int64` overflow in `FormatIDR`'s conversion.
- The Indonesian-locale digit grouping of `FormatIDR` is a parameter.
- SHA-256 and hex encoding are a parameter, `digest`. Distinct texts may share a digest in the model, as in reality.
- Ranking.SortFlights: ties keep no promised order, because `sort.Slice` is not stable. The model's insertion sort is one admissible order, not Go's pdqsort.
- The HTTP server, the handler's request decoding and its default sort key are not part of this model; the sort's default branch covers an empty key.
