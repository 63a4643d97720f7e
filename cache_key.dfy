/**
 * The result cache's key (internal/core/services/aggregator_cache.go): the
 * route identity (origin, destination, departure date, cabin class) joined
 * by "_", then digested. SHA-256 with hex encoding is foreign code and
 * reaches the model as the function `digest`.
 */
module CacheKey {
  import opened Text
  import opened Domain

  /** The text that is hashed: `fmt.Sprintf("%s_%s_%s_%s", ...)` of the four route fields. */
  function RouteIdentity(c: SearchCriteria): (s: string)
    ensures |s| == |c.origin| + |c.destination| + |c.departureDate| + |c.cabinClass| + 3
  {
    c.origin + "_" + c.destination + "_" + c.departureDate + "_" + c.cabinClass
  }

  /** `criteriaHash`. */
  function CriteriaHash(c: SearchCriteria, digest: string -> string): string {
    digest(RouteIdentity(c))
  }

  predicate SameRoute(c1: SearchCriteria, c2: SearchCriteria) {
    && c1.origin == c2.origin
    && c1.destination == c2.destination
    && c1.departureDate == c2.departureDate
    && c1.cabinClass == c2.cabinClass
  }

  /**
   * Passengers, return date, filters and sort key do not reach the key, so
   * requests differing only in them share one cache entry.
   */
  lemma KeyIgnoresDisplayFields(c1: SearchCriteria, c2: SearchCriteria, digest: string -> string)
    requires SameRoute(c1, c2)
    ensures CriteriaHash(c1, digest) == CriteriaHash(c2, digest)
  {
  }

  predicate NoSeparator(c: SearchCriteria) {
    '_' !in c.origin && '_' !in c.destination && '_' !in c.departureDate && '_' !in c.cabinClass
  }

  /** When no field holds "_", splitting the route identity on "_" gives back the four fields. */
  lemma RouteIdentitySplits(c: SearchCriteria)
    requires NoSeparator(c)
    ensures Split(RouteIdentity(c), '_') == [c.origin, c.destination, c.departureDate, c.cabinClass]
  {
    var tail2 := c.departureDate + "_" + c.cabinClass;
    var tail1 := c.destination + "_" + tail2;
    assert RouteIdentity(c) == c.origin + ['_'] + tail1;
    SplitAtFirst(c.origin, '_', tail1);
    assert tail1 == c.destination + ['_'] + tail2;
    SplitAtFirst(c.destination, '_', tail2);
    assert tail2 == c.departureDate + ['_'] + c.cabinClass;
    SplitAtFirst(c.departureDate, '_', c.cabinClass);
    SplitNoSeparator(c.cabinClass, '_');
  }

  /** ... so for such fields the route identity is injective: one entry per route. */
  lemma RouteIdentityInjective(c1: SearchCriteria, c2: SearchCriteria)
    requires NoSeparator(c1) && NoSeparator(c2)
    requires RouteIdentity(c1) == RouteIdentity(c2)
    ensures SameRoute(c1, c2)
  {
    RouteIdentitySplits(c1);
    RouteIdentitySplits(c2);
  }

  /** With "_" inside a field, two different routes share one identity and hence one entry. */
  lemma SeparatorInFieldCollides(c: SearchCriteria)
    ensures var c1 := c.(origin := "A_B", destination := "C");
            var c2 := c.(origin := "A", destination := "B_C");
            !SameRoute(c1, c2) && RouteIdentity(c1) == RouteIdentity(c2)
  {
  }
}
