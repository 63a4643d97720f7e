/**
 * Scoring and ordering of the filtered records
 * (internal/core/services/aggregator_sort.go). Both work in place on the
 * caller's slice, here an array: `CalculateBestValue` writes each record's
 * score, `SortFlights` reorders the records by the comparator the sort key
 * selects. The sort is not stable and the model promises no order among ties.
 */
module Ranking {
  import opened Domain

  /** The best-value score: price in thousands, plus 5 per minute, plus 5000 per stop. */
  function BestValue(f: UnifiedFlight): real {
    f.price.amount / 1000.0 + (f.duration.totalMinutes as real) * 5.0 + (f.stops as real) * 5000.0
  }

  /** The records with their scores written and nothing else changed. */
  function Scored(flights: seq<UnifiedFlight>): (r: seq<UnifiedFlight>)
    ensures |r| == |flights|
    ensures forall k :: 0 <= k < |r| ==> r[k] == flights[k].(score := BestValue(flights[k]))
  {
    if flights == [] then []
    else
      var n := |flights| - 1;
      Scored(flights[..n]) + [flights[n].(score := BestValue(flights[n]))]
  }

  /** `calculateBestValue`: writes each record's score in place. */
  method CalculateBestValue(flights: array<UnifiedFlight>)
    modifies flights
    ensures flights[..] == Scored(old(flights[..]))
  {
    for i := 0 to flights.Length
      invariant forall k :: 0 <= k < i ==> flights[k] == old(flights[k]).(score := BestValue(old(flights[k])))
      invariant forall k :: i <= k < flights.Length ==> flights[k] == old(flights[k])
    {
      var f := flights[i];
      var score := f.price.amount / 1000.0 + (f.duration.totalMinutes as real) * 5.0 + (f.stops as real) * 5000.0;
      flights[i] := f.(score := score);
    }
  }

  /** Scoring a record touches only its score; everything the filter looks at stays. */
  lemma ScoringKeepsFields(flights: seq<UnifiedFlight>, k: nat)
    requires k < |flights|
    ensures Scored(flights)[k].(score := flights[k].score) == flights[k]
    ensures Scored(flights)[k].score == BestValue(flights[k])
  {
  }

  /** The comparators `sortFlights` can select. */
  datatype SortOrder = PriceAsc | PriceDesc | DurationAsc | DurationDesc | DepTimeAsc | ArrTimeAsc | ByBestValue

  /** The comparator a sort key selects; "best_value", "" and every unknown key select the score. */
  function SortOrderOf(sortType: string): (order: SortOrder)
    ensures order == ByBestValue
        <==> sortType !in ["price_asc", "price_desc", "duration_asc", "duration_desc", "dep_time_asc", "arr_time_asc"]
  {
    match sortType
    case "price_asc" => PriceAsc
    case "price_desc" => PriceDesc
    case "duration_asc" => DurationAsc
    case "duration_desc" => DurationDesc
    case "dep_time_asc" => DepTimeAsc
    case "arr_time_asc" => ArrTimeAsc
    case _ => ByBestValue
  }

  /** The `less` function handed to `sort.Slice`. */
  predicate Less(order: SortOrder, x: UnifiedFlight, y: UnifiedFlight) {
    match order
    case PriceAsc => x.price.amount < y.price.amount
    case PriceDesc => x.price.amount > y.price.amount
    case DurationAsc => x.duration.totalMinutes < y.duration.totalMinutes
    case DurationDesc => x.duration.totalMinutes > y.duration.totalMinutes
    case DepTimeAsc => x.departure.timestamp < y.departure.timestamp
    case ArrTimeAsc => x.arrival.timestamp < y.arrival.timestamp
    case ByBestValue => x.score < y.score
  }

  /** One number per record that every comparator orders ascending; descending keys are negated. */
  function Key(order: SortOrder, f: UnifiedFlight): real {
    match order
    case PriceAsc => f.price.amount
    case PriceDesc => -f.price.amount
    case DurationAsc => f.duration.totalMinutes as real
    case DurationDesc => -(f.duration.totalMinutes as real)
    case DepTimeAsc => f.departure.timestamp as real
    case ArrTimeAsc => f.arrival.timestamp as real
    case ByBestValue => f.score
  }

  /** The comparator is "smaller key". */
  lemma LessIsKeyOrder(order: SortOrder, x: UnifiedFlight, y: UnifiedFlight)
    ensures Less(order, x, y) <==> Key(order, x) < Key(order, y)
  {
  }

  /** Ordered by the selected key, ties in any order. */
  predicate Sorted(order: SortOrder, s: seq<UnifiedFlight>) {
    forall p, q :: 0 <= p < q < |s| ==> Key(order, s[p]) <= Key(order, s[q])
  }

  /** Sorted means: no later record is `less` than an earlier one. */
  lemma SortedIsNoInversion(order: SortOrder, s: seq<UnifiedFlight>)
    ensures Sorted(order, s) <==> forall p, q :: 0 <= p < q < |s| ==> !Less(order, s[q], s[p])
  {
    forall p, q | 0 <= p < q < |s| {
      LessIsKeyOrder(order, s[q], s[p]);
    }
  }

  /** Exchanges two neighbouring records. */
  method SwapDown(flights: array<UnifiedFlight>, j: nat)
    requires 0 < j < flights.Length
    modifies flights
    ensures flights[..] == old(flights[..])[j - 1 := old(flights[j])][j := old(flights[j - 1])]
    ensures multiset(flights[..]) == multiset(old(flights[..]))
  {
    flights[j - 1], flights[j] := flights[j], flights[j - 1];
  }

  /** Sinks record i into the sorted prefix before it. */
  method InsertAt(flights: array<UnifiedFlight>, i: nat, order: SortOrder)
    requires 0 < i < flights.Length
    requires forall p, q :: 0 <= p < q < i ==> Key(order, flights[p]) <= Key(order, flights[q])
    modifies flights
    ensures forall p, q :: 0 <= p < q <= i ==> Key(order, flights[p]) <= Key(order, flights[q])
    ensures multiset(flights[..]) == multiset(old(flights[..]))
  {
    var j := i;
    while j > 0 && Less(order, flights[j], flights[j - 1])
      invariant 0 <= j <= i
      invariant forall p, q :: 0 <= p < q <= i && p != j && q != j ==> Key(order, flights[p]) <= Key(order, flights[q])
      invariant forall q :: j < q <= i ==> Key(order, flights[j]) <= Key(order, flights[q])
      invariant multiset(flights[..]) == multiset(old(flights[..]))
    {
      LessIsKeyOrder(order, flights[j], flights[j - 1]);
      SwapDown(flights, j);
      j := j - 1;
    }
    if j > 0 {
      LessIsKeyOrder(order, flights[j], flights[j - 1]);
    }
  }

  /** `sortFlights`: reorders in place by the selected comparator. */
  method SortFlights(flights: array<UnifiedFlight>, sortType: string)
    modifies flights
    ensures Sorted(SortOrderOf(sortType), flights[..])
    ensures multiset(flights[..]) == multiset(old(flights[..]))
  {
    var order := SortOrderOf(sortType);
    var i := 1;
    while i < flights.Length
      invariant forall p, q :: 0 <= p < q < i && q < flights.Length ==> Key(order, flights[p]) <= Key(order, flights[q])
      invariant multiset(flights[..]) == multiset(old(flights[..]))
    {
      InsertAt(flights, i, order);
      i := i + 1;
    }
  }

  /** What the ordering means for each sort key the source names. */
  lemma SortedMeaning(sortType: string, s: seq<UnifiedFlight>)
    requires Sorted(SortOrderOf(sortType), s)
    ensures sortType == "price_asc" ==> forall p, q :: 0 <= p < q < |s| ==> s[p].price.amount <= s[q].price.amount
    ensures sortType == "price_desc" ==> forall p, q :: 0 <= p < q < |s| ==> s[p].price.amount >= s[q].price.amount
    ensures sortType == "duration_asc" ==> forall p, q :: 0 <= p < q < |s| ==> s[p].duration.totalMinutes <= s[q].duration.totalMinutes
    ensures sortType == "duration_desc" ==> forall p, q :: 0 <= p < q < |s| ==> s[p].duration.totalMinutes >= s[q].duration.totalMinutes
    ensures sortType == "dep_time_asc" ==> forall p, q :: 0 <= p < q < |s| ==> s[p].departure.timestamp <= s[q].departure.timestamp
    ensures sortType == "arr_time_asc" ==> forall p, q :: 0 <= p < q < |s| ==> s[p].arrival.timestamp <= s[q].arrival.timestamp
    ensures SortOrderOf(sortType) == ByBestValue ==> forall p, q :: 0 <= p < q < |s| ==> s[p].score <= s[q].score
  {
  }
}
