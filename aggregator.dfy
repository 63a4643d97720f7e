/**
 * The search service (internal/core/services/aggregator.go): a result cache
 * keyed by the route, in front of the provider fan-out. A fresh entry is
 * served without asking the providers; a stale one is deleted; on a miss
 * the merged records are stored unfiltered, stamped with the store time.
 * Every answer is the stored or fetched set filtered for the request,
 * scored and sorted by the requested key.
 *
 * Clocks are parameters. `now` (the time the entry's age is measured at)
 * and `storedAt` (the time a fetched set is stamped with) are integer
 * nanoseconds; `elapsedMs` is the search time reported back, in whole
 * milliseconds as `Milliseconds()` gives it, and is only echoed. The providers' answers are the
 * input `outcomes` (outcomes[i] is what providers[i].Search returned) and
 * `arrival` is the order their goroutines finished in.
 */
module Aggregation {
  import opened Domain
  import opened Providers
  import opened CacheKey
  import opened Fetch
  import opened Filter
  import opened Ranking

  /** Sixty seconds, in nanoseconds. */
  const CacheExpiration: int := 60 * 1000000000

  datatype CachedResponse = CachedResponse(flights: seq<UnifiedFlight>, timestamp: int)

  /** `time.Since(cached.Timestamp) < CacheExpiration`: strictly younger than a minute. */
  predicate IsFresh(entry: CachedResponse, now: int) {
    now - entry.timestamp < CacheExpiration
  }

  /** An entry is fresh up to the last nanosecond before its minute is up and stale from then on. */
  lemma FreshnessBoundary(entry: CachedResponse, now: int)
    ensures IsFresh(entry, now) <==> now < entry.timestamp + 60000000000
    ensures !IsFresh(entry, entry.timestamp + CacheExpiration)
    ensures IsFresh(entry, entry.timestamp + CacheExpiration - 1)
  {
  }

  /**
   * What a search answers from a raw set: the records the request admits,
   * each scored, ordered by the requested key; among ties any order.
   */
  predicate IsAnswer(out: seq<UnifiedFlight>, raw: seq<UnifiedFlight>, c: SearchCriteria) {
    multiset(out) == multiset(Scored(Filtered(raw, c))) && Sorted(SortOrderOf(c.sortBy), out)
  }

  /** Filter into a fresh list, score it, sort it. The raw set itself is a value and stays as it was. */
  method FilterScoreSort(raw: seq<UnifiedFlight>, criteria: SearchCriteria) returns (out: seq<UnifiedFlight>)
    ensures IsAnswer(out, raw, criteria)
  {
    var filteredFlights := FilterFlights(raw, criteria);
    var slice := new UnifiedFlight[|filteredFlights|](k requires 0 <= k < |filteredFlights| => filteredFlights[k]);
    assert slice[..] == filteredFlights;
    CalculateBestValue(slice);
    SortFlights(slice, criteria.sortBy);
    out := slice[..];
  }

  /** A scored record of the filtered set is an admitted raw record with its score written. */
  lemma ScoredFilteredMember(raw: seq<UnifiedFlight>, c: SearchCriteria, f: UnifiedFlight)
    requires f in Scored(Filtered(raw, c))
    ensures Admits(f, c) && f.score == BestValue(f)
    ensures exists g :: g in raw && f == g.(score := BestValue(g))
  {
    var filtered := Filtered(raw, c);
    var k :| 0 <= k < |filtered| && Scored(filtered)[k] == f;
    var g := filtered[k];
    FilteredSound(raw, c);
    assert g in filtered;
    assert f == g.(score := BestValue(g));
    AdmitsIgnoresPresentation(g, c, BestValue(g), c.sortBy, c.returnDate);
    assert c.(sortBy := c.sortBy, returnDate := c.returnDate) == c;
  }

  /** Every admitted raw record appears, scored, in the scored filtered set. */
  lemma AdmittedIsScored(raw: seq<UnifiedFlight>, c: SearchCriteria, g: UnifiedFlight)
    requires g in raw && Admits(g, c)
    ensures g.(score := BestValue(g)) in Scored(Filtered(raw, c))
  {
    var idx := FilteredInOrder(raw, c);
    var j :| 0 <= j < |raw| && raw[j] == g;
    var k :| 0 <= k < |idx| && idx[k] == j;
    assert Scored(Filtered(raw, c))[k] == g.(score := BestValue(g));
  }

  /**
   * Every answered record is an admitted raw record with its best-value
   * score written, and nothing admitted is lost.
   */
  lemma AnswerIsAdmittedAndScored(out: seq<UnifiedFlight>, raw: seq<UnifiedFlight>, c: SearchCriteria)
    requires IsAnswer(out, raw, c)
    ensures |out| == |Filtered(raw, c)|
    ensures forall f :: f in out ==> Admits(f, c) && f.score == BestValue(f)
    ensures forall f :: f in out ==> exists g :: g in raw && f == g.(score := BestValue(g))
    ensures forall g :: g in raw && Admits(g, c) ==> g.(score := BestValue(g)) in out
  {
    var scored := Scored(Filtered(raw, c));
    assert multiset(out) == multiset(scored);
    assert |out| == |multiset(out)| == |multiset(scored)| == |scored|;
    forall f | f in out
      ensures Admits(f, c) && f.score == BestValue(f)
      ensures exists g :: g in raw && f == g.(score := BestValue(g))
    {
      assert f in multiset(scored);
      ScoredFilteredMember(raw, c, f);
    }
    forall g | g in raw && Admits(g, c)
      ensures g.(score := BestValue(g)) in out
    {
      AdmittedIsScored(raw, c, g);
      assert g.(score := BestValue(g)) in multiset(out);
    }
  }

  class Aggregator {
    const providers: seq<Provider>
    const digest: string -> string
    var flightCache: map<string, CachedResponse>

    /** `NewAggregator`: the given providers and an empty cache. */
    constructor (providers: seq<Provider>, digest: string -> string)
      ensures this.providers == providers && this.digest == digest
      ensures flightCache == map[]
    {
      this.providers := providers;
      this.digest := digest;
      flightCache := map[];
    }

    /** Whether this request would be served from the cache at time `now`. */
    predicate Hits(criteria: SearchCriteria, now: int)
      reads this
    {
      var key := CriteriaHash(criteria, digest);
      key in flightCache && IsFresh(flightCache[key], now)
    }

    /** `SearchFlights`. */
    method SearchFlights(criteria: SearchCriteria, outcomes: seq<SearchResult>, arrival: seq<nat>,
                         now: int, storedAt: int, elapsedMs: int) returns (resp: SearchResponse)
      requires |outcomes| == |providers| && IsArrivalOrder(arrival, |outcomes|)
      modifies this
      ensures resp.searchCriteria == criteria
      ensures resp.metadata.totalResults == |resp.flights|
      ensures resp.metadata.providersQueried == |providers|
      ensures resp.metadata.searchTimeMs == elapsedMs
      ensures resp.metadata.cacheHit == old(Hits(criteria, now))
      // hit: the providers are not asked and the cache is not written
      ensures old(Hits(criteria, now)) ==>
        && flightCache == old(flightCache)
        && resp.metadata.providersSucceeded == |providers|
        && resp.metadata.providersFailed == 0
        && IsAnswer(resp.flights, old(flightCache)[CriteriaHash(criteria, digest)].flights, criteria)
      // miss, or a stale entry: the merged set is stored under the key, every other key is untouched
      ensures !old(Hits(criteria, now)) ==>
        && flightCache == old(flightCache)[CriteriaHash(criteria, digest) := CachedResponse(Delivered(outcomes, arrival), storedAt)]
        && resp.metadata.providersSucceeded == SuccessCount(outcomes)
        && resp.metadata.providersFailed == |providers| - SuccessCount(outcomes)
        && resp.metadata.providersFailed >= 0
        && IsAnswer(resp.flights, Delivered(outcomes, arrival), criteria)
    {
      var cacheKey := CriteriaHash(criteria, digest);

      if cacheKey in flightCache {
        var cached := flightCache[cacheKey];
        if now - cached.timestamp < CacheExpiration {
          var sortedFlights := FilterScoreSort(cached.flights, criteria);
          resp := SearchResponse(
            criteria,
            ResponseMetadata(|sortedFlights|, |providers|, |providers|, 0, elapsedMs, true),
            sortedFlights);
          return;
        } else {
          flightCache := flightCache - {cacheKey};
        }
      }

      var flights, providersSucceeded := FetchInParallel(outcomes, arrival);

      flightCache := flightCache[cacheKey := CachedResponse(flights, storedAt)];

      var sortedFlights := FilterScoreSort(flights, criteria);

      var providersQueried := |providers|;
      var providersFailed := providersQueried - providersSucceeded;

      resp := SearchResponse(
        criteria,
        ResponseMetadata(|sortedFlights|, providersQueried, providersSucceeded, providersFailed, elapsedMs, false),
        sortedFlights);
    }
  }

  /**
   * Two searches for the same route within a minute of the first one's
   * store: the second is a hit, answered from what the first fetched,
   * whatever its filters or sort key, and the cache is left as the first
   * search left it.
   */
  method RepeatWithinAMinute(agg: Aggregator, first: SearchCriteria, second: SearchCriteria,
                             outcomes: seq<SearchResult>, arrival: seq<nat>,
                             now1: int, storedAt: int, now2: int)
    returns (r1: SearchResponse, r2: SearchResponse)
    requires |outcomes| == |agg.providers| && IsArrivalOrder(arrival, |outcomes|)
    requires !agg.Hits(first, now1)
    requires SameRoute(first, second) && now2 - storedAt < CacheExpiration
    modifies agg
    ensures !r1.metadata.cacheHit && r2.metadata.cacheHit
    ensures IsAnswer(r2.flights, Delivered(outcomes, arrival), second)
    ensures r2.metadata.providersFailed == 0
  {
    r1 := agg.SearchFlights(first, outcomes, arrival, now1, storedAt, 0);
    KeyIgnoresDisplayFields(first, second, agg.digest);
    r2 := agg.SearchFlights(second, outcomes, arrival, now2, now2, 0);
  }
}
