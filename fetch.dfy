/**
 * The fan-out/fan-in fetch (internal/core/services/aggregator_fetch.go),
 * with the goroutines run one after another. Each provider's outcome is an
 * input; the order in which the goroutines deliver is the input `arrival`,
 * a permutation of the provider positions.
 */
module Fetch {
  import opened Wrappers
  import opened Domain
  import opened Providers

  /** The records a successful provider's goroutine forwards: its valid ones, in its order. */
  function ValidOnly(flights: seq<UnifiedFlight>): (r: seq<UnifiedFlight>)
    ensures |r| <= |flights|
    ensures forall f :: f in r ==> f.isValid && f in flights
  {
    if flights == [] then []
    else
      var last := flights[|flights| - 1];
      ValidOnly(flights[..|flights| - 1]) + (if last.isValid then [last] else [])
  }

  /** Exactly the valid records are kept, each as often as it occurs. */
  lemma {:induction false} ValidOnlyExact(flights: seq<UnifiedFlight>)
    ensures forall f :: multiset(ValidOnly(flights))[f] == if f.isValid then multiset(flights)[f] else 0
  {
    if flights != [] {
      var n := |flights| - 1;
      ValidOnlyExact(flights[..n]);
      assert flights == flights[..n] + [flights[n]];
    }
  }

  /** What one provider adds to the merged set: nothing when its search failed. */
  function Contribution(o: SearchResult): seq<UnifiedFlight> {
    if o.err.None? then ValidOnly(o.flights) else []
  }

  /** The merged set in provider order. */
  function Merged(outcomes: seq<SearchResult>): seq<UnifiedFlight> {
    if outcomes == [] then []
    else Merged(outcomes[..|outcomes| - 1]) + Contribution(outcomes[|outcomes| - 1])
  }

  /** The number of providers whose search returned no error. */
  function SuccessCount(outcomes: seq<SearchResult>): (n: nat)
    ensures n <= |outcomes|
  {
    if outcomes == [] then 0
    else SuccessCount(outcomes[..|outcomes| - 1]) + (if outcomes[|outcomes| - 1].err.None? then 1 else 0)
  }

  function Indices(n: nat): (r: seq<nat>)
    ensures |r| == n && forall k :: 0 <= k < n ==> r[k] == k
  {
    if n == 0 then [] else Indices(n - 1) + [n - 1]
  }

  predicate InRange(order: seq<nat>, n: nat) {
    forall k :: 0 <= k < |order| ==> order[k] < n
  }

  /** An order in which the n goroutines can finish: each provider position exactly once. */
  predicate IsArrivalOrder(arrival: seq<nat>, n: nat) {
    |arrival| == n && InRange(arrival, n) && multiset(arrival) == multiset(Indices(n))
  }

  /** The merged set when the providers deliver in `order`. */
  function Delivered(outcomes: seq<SearchResult>, order: seq<nat>): seq<UnifiedFlight>
    requires InRange(order, |outcomes|)
  {
    if order == [] then []
    else Delivered(outcomes, order[..|order| - 1]) + Contribution(outcomes[order[|order| - 1]])
  }

  /** The number of successes among the providers in `order`. */
  function SucceededIn(outcomes: seq<SearchResult>, order: seq<nat>): nat
    requires InRange(order, |outcomes|)
  {
    if order == [] then 0
    else SucceededIn(outcomes, order[..|order| - 1]) + (if outcomes[order[|order| - 1]].err.None? then 1 else 0)
  }

  lemma InRangeAppend(p: seq<nat>, q: seq<nat>, n: nat)
    requires InRange(p, n) && InRange(q, n)
    ensures InRange(p + q, n)
  {
    forall k | 0 <= k < |p + q|
      ensures (p + q)[k] < n
    {
      if k < |p| {
        assert (p + q)[k] == p[k];
      } else {
        assert (p + q)[k] == q[k - |p|];
      }
    }
  }

  /** Delivering in two batches merges the two batches' records and adds their counts. */
  lemma {:induction false} DeliveredAppend(outcomes: seq<SearchResult>, p: seq<nat>, q: seq<nat>)
    requires InRange(p, |outcomes|) && InRange(q, |outcomes|)
    ensures InRange(p + q, |outcomes|)
    ensures Delivered(outcomes, p + q) == Delivered(outcomes, p) + Delivered(outcomes, q)
    ensures SucceededIn(outcomes, p + q) == SucceededIn(outcomes, p) + SucceededIn(outcomes, q)
    decreases |q|
  {
    InRangeAppend(p, q, |outcomes|);
    if q == [] {
      assert p + q == p;
    } else {
      var m := |q| - 1;
      var init := q[..m];
      assert InRange(init, |outcomes|);
      DeliveredAppend(outcomes, p, init);
      var pq := p + q;
      assert pq[..|pq| - 1] == p + init;
      assert pq[|pq| - 1] == q[m];
    }
  }

  /** Removing position k of a sequence removes one occurrence of its element. */
  lemma RemoveAt(order: seq<nat>, k: nat, n: nat)
    requires InRange(order, n) && k < |order|
    ensures order == order[..k] + ([order[k]] + order[k + 1..])
    ensures InRange(order[..k], n) && InRange(order[k + 1..], n)
    ensures multiset(order[..k] + order[k + 1..]) == multiset(order) - multiset{order[k]}
  {
    var front, back := order[..k], order[k + 1..];
    assert order == front + [order[k]] + back;
    assert multiset(order) == multiset(front) + multiset{order[k]} + multiset(back);
  }

  lemma DeliveredSingle(outcomes: seq<SearchResult>, x: nat)
    requires x < |outcomes|
    ensures InRange([x], |outcomes|)
    ensures Delivered(outcomes, [x]) == Contribution(outcomes[x])
    ensures SucceededIn(outcomes, [x]) == if outcomes[x].err.None? then 1 else 0
  {
    assert [x][..0] == [];
  }

  lemma MultisetOfJoin<T>(a: seq<T>, b: seq<T>, c: seq<T>)
    ensures multiset(a + (b + c)) == multiset(a + c) + multiset(b)
  {
    calc {
      multiset(a + (b + c));
      multiset(a) + multiset(b + c);
      multiset(a) + multiset(b) + multiset(c);
      multiset(a + c) + multiset(b);
    }
  }

  /**
   * Taking the provider at position k out of an order takes its
   * contribution out of the merge and its success out of the count.
   */
  lemma RemoveProvider(outcomes: seq<SearchResult>, order: seq<nat>, k: nat) returns (rest: seq<nat>)
    requires InRange(order, |outcomes|) && k < |order|
    ensures InRange(rest, |outcomes|) && multiset(rest) == multiset(order) - multiset{order[k]}
    ensures |rest| == |order| - 1
    ensures multiset(Delivered(outcomes, order)) == multiset(Delivered(outcomes, rest)) + multiset(Contribution(outcomes[order[k]]))
    ensures SucceededIn(outcomes, order) == SucceededIn(outcomes, rest) + (if outcomes[order[k]].err.None? then 1 else 0)
  {
    RemoveAt(order, k, |outcomes|);
    var front, x, back := order[..k], order[k], order[k + 1..];
    rest := front + back;
    DeliveredSingle(outcomes, x);
    DeliveredAppend(outcomes, [x], back);
    DeliveredAppend(outcomes, front, [x] + back);
    DeliveredAppend(outcomes, front, back);
    MultisetOfJoin(Delivered(outcomes, front), Contribution(outcomes[x]), Delivered(outcomes, back));
  }

  /**
   * The delivery order does not matter: any two orders holding the same
   * providers give the same records (as a multiset) and the same count.
   */
  lemma {:induction false} DeliveryOrderIrrelevant(outcomes: seq<SearchResult>, o1: seq<nat>, o2: seq<nat>)
    requires InRange(o1, |outcomes|) && InRange(o2, |outcomes|)
    requires multiset(o1) == multiset(o2)
    ensures multiset(Delivered(outcomes, o1)) == multiset(Delivered(outcomes, o2))
    ensures SucceededIn(outcomes, o1) == SucceededIn(outcomes, o2)
    decreases |o1|
  {
    if o1 == [] {
      assert |multiset(o2)| == 0;
      assert o2 == [];
    } else {
      var x := o1[0];
      assert x in multiset(o2);
      var k :| 0 <= k < |o2| && o2[k] == x;
      var rest1 := RemoveProvider(outcomes, o1, 0);
      var rest2 := RemoveProvider(outcomes, o2, k);
      assert multiset(rest1) == multiset(rest2) && |rest1| < |o1|;
      DeliveryOrderIrrelevant(outcomes, rest1, rest2);
    }
  }

  /** Delivering in provider order gives the provider-order merge and count. */
  lemma {:induction false} ProviderOrder(outcomes: seq<SearchResult>, n: nat)
    requires n <= |outcomes|
    ensures InRange(Indices(n), |outcomes|)
    ensures Delivered(outcomes, Indices(n)) == Merged(outcomes[..n])
    ensures SucceededIn(outcomes, Indices(n)) == SuccessCount(outcomes[..n])
  {
    var ix := Indices(n);
    assert InRange(ix, |outcomes|);
    if n > 0 {
      ProviderOrder(outcomes, n - 1);
      assert ix[..n - 1] == Indices(n - 1);
      assert ix[n - 1] == n - 1;
      assert outcomes[..n][..n - 1] == outcomes[..n - 1];
      assert outcomes[..n][n - 1] == outcomes[n - 1];
    }
  }

  /** The goroutine's filtering loop. */
  method KeepValid(res: seq<UnifiedFlight>) returns (validFlights: seq<UnifiedFlight>)
    ensures validFlights == ValidOnly(res)
  {
    validFlights := [];
    for i := 0 to |res|
      invariant validFlights == ValidOnly(res[..i])
    {
      assert res[..i + 1][..i] == res[..i];
      if res[i].isValid {
        validFlights := validFlights + [res[i]];
      }
    }
    assert res[..|res|] == res;
  }

  function Concat(blocks: seq<seq<UnifiedFlight>>): seq<UnifiedFlight> {
    if blocks == [] then [] else Concat(blocks[..|blocks| - 1]) + blocks[|blocks| - 1]
  }

  function CountTrue(statuses: seq<bool>): nat {
    if statuses == [] then 0 else CountTrue(statuses[..|statuses| - 1]) + (if statuses[|statuses| - 1] then 1 else 0)
  }

  /** One more delivery adds that provider's contribution and its success. */
  lemma ArrivalStep(outcomes: seq<SearchResult>, arrival: seq<nat>, k: nat)
    requires InRange(arrival, |outcomes|) && k < |arrival|
    ensures InRange(arrival[..k], |outcomes|) && InRange(arrival[..k + 1], |outcomes|)
    ensures Delivered(outcomes, arrival[..k + 1]) == Delivered(outcomes, arrival[..k]) + Contribution(outcomes[arrival[k]])
    ensures SucceededIn(outcomes, arrival[..k + 1])
         == SucceededIn(outcomes, arrival[..k]) + (if outcomes[arrival[k]].err.None? then 1 else 0)
  {
    assert arrival[..k + 1][..k] == arrival[..k];
  }

  /**
   * Whatever order the goroutines finish in, the records are the
   * provider-order merge (as a multiset), every one of them valid, and the
   * successes are the providers without error.
   */
  lemma ArrivalOrderIrrelevant(outcomes: seq<SearchResult>, arrival: seq<nat>)
    requires IsArrivalOrder(arrival, |outcomes|)
    ensures multiset(Delivered(outcomes, arrival)) == multiset(Merged(outcomes))
    ensures SucceededIn(outcomes, arrival) == SuccessCount(outcomes)
    ensures forall f :: f in Delivered(outcomes, arrival) ==> f.isValid
  {
    ProviderOrder(outcomes, |outcomes|);
    assert outcomes[..|outcomes|] == outcomes;
    DeliveryOrderIrrelevant(outcomes, arrival, Indices(|outcomes|));
    MergedValid(outcomes);
    forall f | f in Delivered(outcomes, arrival)
      ensures f.isValid
    {
      assert f in multiset(Merged(outcomes));
    }
  }

  /**
   * `fetchInParallel`: the records are the successful providers' valid
   * records in delivery order — as a multiset, their provider-order
   * concatenation — and the count is the number of providers without error.
   */
  method FetchInParallel(outcomes: seq<SearchResult>, arrival: seq<nat>) returns (allFlights: seq<UnifiedFlight>, successCount: nat)
    requires IsArrivalOrder(arrival, |outcomes|)
    ensures allFlights == Delivered(outcomes, arrival)
    ensures multiset(allFlights) == multiset(Merged(outcomes))
    ensures successCount == SuccessCount(outcomes) && successCount <= |outcomes|
    ensures forall f :: f in allFlights ==> f.isValid
  {
    // the goroutines, in the order they finish, fill the two channels
    var resultsChan: seq<seq<UnifiedFlight>> := [];
    var statusChan: seq<bool> := [];
    for k := 0 to |arrival|
      invariant InRange(arrival[..k], |outcomes|)
      invariant Concat(resultsChan) == Delivered(outcomes, arrival[..k])
      invariant CountTrue(statusChan) == SucceededIn(outcomes, arrival[..k])
    {
      ArrivalStep(outcomes, arrival, k);
      var res := outcomes[arrival[k]];
      if res.err.Some? {
        assert CountTrue(statusChan + [false]) == CountTrue(statusChan) by {
          assert (statusChan + [false])[..|statusChan|] == statusChan;
        }
        statusChan := statusChan + [false];
        continue;
      }
      assert CountTrue(statusChan + [true]) == CountTrue(statusChan) + 1 by {
        assert (statusChan + [true])[..|statusChan|] == statusChan;
      }
      statusChan := statusChan + [true];
      var validFlights := KeepValid(res.flights);
      assert Concat(resultsChan + [validFlights]) == Concat(resultsChan) + validFlights by {
        assert (resultsChan + [validFlights])[..|resultsChan|] == resultsChan;
      }
      resultsChan := resultsChan + [validFlights];
    }
    assert arrival[..|arrival|] == arrival;

    allFlights := [];
    for k := 0 to |resultsChan|
      invariant allFlights == Concat(resultsChan[..k])
    {
      assert resultsChan[..k + 1][..k] == resultsChan[..k];
      allFlights := allFlights + resultsChan[k];
    }
    assert resultsChan[..|resultsChan|] == resultsChan;

    successCount := 0;
    for k := 0 to |statusChan|
      invariant successCount == CountTrue(statusChan[..k])
    {
      assert statusChan[..k + 1][..k] == statusChan[..k];
      if statusChan[k] {
        successCount := successCount + 1;
      }
    }
    assert statusChan[..|statusChan|] == statusChan;

    ArrivalOrderIrrelevant(outcomes, arrival);
  }

  /** Every merged record is valid. */
  lemma {:induction false} MergedValid(outcomes: seq<SearchResult>)
    ensures forall f :: f in Merged(outcomes) ==> f.isValid
  {
    if outcomes != [] {
      MergedValid(outcomes[..|outcomes| - 1]);
    }
  }

  /** When every provider fails, nothing is merged and nothing succeeded. */
  lemma {:induction false} AllFailed(outcomes: seq<SearchResult>)
    requires forall i :: 0 <= i < |outcomes| ==> outcomes[i].err.Some?
    ensures Merged(outcomes) == [] && SuccessCount(outcomes) == 0
  {
    if outcomes != [] {
      AllFailed(outcomes[..|outcomes| - 1]);
    }
  }

  /** When every provider answers, every one counts as a success. */
  lemma {:induction false} AllSucceeded(outcomes: seq<SearchResult>)
    requires forall i :: 0 <= i < |outcomes| ==> outcomes[i].err.None?
    ensures SuccessCount(outcomes) == |outcomes|
  {
    if outcomes != [] {
      AllSucceeded(outcomes[..|outcomes| - 1]);
    }
  }

  /** One failing provider out of N leaves N - 1 successes. */
  lemma {:induction false} OneFailed(outcomes: seq<SearchResult>, i: nat)
    requires i < |outcomes| && outcomes[i].err.Some?
    requires forall j :: 0 <= j < |outcomes| && j != i ==> outcomes[j].err.None?
    ensures SuccessCount(outcomes) == |outcomes| - 1
  {
    var n := |outcomes| - 1;
    if i == n {
      AllSucceeded(outcomes[..n]);
    } else {
      OneFailed(outcomes[..n], i);
    }
  }

  /** A failing provider's records, whatever they are, never reach the merge. */
  lemma {:induction false} FailedRecordsDiscarded(outcomes: seq<SearchResult>, i: nat, records: seq<UnifiedFlight>)
    requires i < |outcomes| && outcomes[i].err.Some?
    ensures Merged(outcomes[i := outcomes[i].(flights := records)]) == Merged(outcomes)
  {
    var n := |outcomes| - 1;
    var changed := outcomes[i := outcomes[i].(flights := records)];
    if i < n {
      FailedRecordsDiscarded(outcomes[..n], i, records);
      assert changed[..n] == outcomes[..n][i := outcomes[i].(flights := records)];
    } else {
      assert changed[..n] == outcomes[..n];
    }
  }

  /** Which records a provider returns — valid or not — never changes the success count. */
  lemma {:induction false} RecordsDoNotAffectCount(outcomes: seq<SearchResult>, i: nat, records: seq<UnifiedFlight>)
    requires i < |outcomes|
    ensures SuccessCount(outcomes[i := outcomes[i].(flights := records)]) == SuccessCount(outcomes)
  {
    var n := |outcomes| - 1;
    var changed := outcomes[i := outcomes[i].(flights := records)];
    if i < n {
      RecordsDoNotAffectCount(outcomes[..n], i, records);
      assert changed[..n] == outcomes[..n][i := outcomes[i].(flights := records)];
    } else {
      assert changed[..n] == outcomes[..n];
    }
  }
}
