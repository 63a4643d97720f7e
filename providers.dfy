/**
 * What the four source adapters share (internal/platform/providers/interface.go):
 * the provider capability, Go's truncating duration arithmetic, the rupiah
 * formatting, the one-record-in, at-most-one-record-out loop shape, and the
 * comma-separated baggage note that two adapters split.
 *
 * Go's time parser and the Indonesian-locale number printer are foreign code;
 * they reach the model as the functions of a Toolkit.
 */
module Providers {
  import opened Wrappers
  import opened Sequences
  import opened Text
  import opened Domain

  /** The registered sources; `Name` is what `ProviderInterface.Name()` returns. */
  datatype Provider = GarudaProvider | LionAirProvider | BatikAirProvider | AirAsiaProvider

  function Name(p: Provider): string {
    match p
    case GarudaProvider => "Garuda Indonesia"
    case LionAirProvider => "Lion Air"
    case BatikAirProvider => "Batik Air"
    case AirAsiaProvider => "AirAsia"
  }

  /** What `Search(criteria)` returns: the records and the error, if any. */
  datatype SearchResult = SearchResult(flights: seq<UnifiedFlight>, err: Option<string>)

  /** The three time layouts the adapters parse with. */
  datatype Layout =
    | RFC3339        // time.RFC3339
    | LocalSeconds   // "2006-01-02T15:04:05", no zone in the text
    | NumericOffset  // "2006-01-02T15:04:05-0700"

  /** The location a layout without a zone is read in; `time.Parse` uses UTC. */
  datatype Zone = UTC | WIB | WITA

  /**
   * The foreign functions the adapters call: `time.Parse`/`ParseInLocation`
   * (None when the text does not match the layout) and the locale printer
   * behind FormatIDR.
   */
  datatype Toolkit = Toolkit(parse: (Layout, Zone, string) -> Option<Instant>, localeDigits: int -> string)

  /** The outcome of `os.ReadFile` followed by `json.Unmarshal` on a mock file. */
  datatype Feed<R> = Loaded(records: seq<R>) | ReadFailed(message: string) | DecodeFailed(message: string)

  /** Go's integer `x / 60`, which truncates toward zero. */
  function Div60(a: int): (q: int)
    ensures a >= 0 ==> 0 <= q * 60 <= a < q * 60 + 60
    ensures a < 0 ==> q * 60 - 60 < a <= q * 60 <= 0
  {
    if a >= 0 then a / 60 else -((-a) / 60)
  }

  /** Go's integer `x % 60`: its sign follows the dividend. */
  function Rem60(a: int): (r: int)
    ensures a == Div60(a) * 60 + r
    ensures a >= 0 ==> 0 <= r < 60
    ensures a < 0 ==> -60 < r <= 0
  {
    a - Div60(a) * 60
  }

  /** Dafny's `/` is Euclidean (with divisor 60 it floors); Go's truncates: -90 seconds is -1 minute in Go, not -2. */
  lemma TruncationDiffersFromFloor()
    ensures Div60(-90) == -1 && -90 / 60 == -2
    ensures Rem60(-90) == -30 && -90 % 60 == 30
  {
  }

  /**
   * `CalculateDuration`: the whole minutes from `start` to `end`, the
   * fraction dropped toward zero (sub-second parts are not modelled).
   */
  function CalculateDuration(start: Instant, end: Instant): (minutes: int)
    ensures end.unix >= start.unix ==> 0 <= minutes * 60 <= end.unix - start.unix < minutes * 60 + 60
    ensures end.unix < start.unix ==> minutes * 60 - 60 < end.unix - start.unix <= minutes * 60 <= 0
    ensures end.unix == start.unix ==> minutes == 0
  {
    Div60(end.unix - start.unix)
  }

  /** `fmt.Sprintf("%dh %dm", dur/60, dur%60)`. */
  function FormatDuration(dur: int): string {
    DecimalString(Div60(dur)) + "h " + DecimalString(Rem60(dur)) + "m"
  }

  /**
   * The rendering shows hours h and minutes m with h * 60 + m == dur, the
   * minutes below 60 in magnitude and of the duration's sign, and both
   * numbers read back from their text.
   */
  lemma FormatDurationShows(dur: int)
    ensures exists h: int, m: int ::
      && FormatDuration(dur) == DecimalString(h) + "h " + DecimalString(m) + "m"
      && h * 60 + m == dur
      && (dur >= 0 ==> 0 <= m < 60)
      && (dur < 0 ==> -60 < m <= 0)
      && DecimalValue(DecimalString(h)) == h && DecimalValue(DecimalString(m)) == m
  {
    var h, m := Div60(dur), Rem60(dur);
    DecimalRoundTrip(h);
    DecimalRoundTrip(m);
    assert FormatDuration(dur) == DecimalString(h) + "h " + DecimalString(m) + "m";
  }

  /** 150 minutes print as "2h 30m"; -90 minutes, Go's division truncating toward zero, as "-1h -30m". */
  lemma FormatDurationExamples()
    ensures FormatDuration(150) == "2h 30m"
    ensures FormatDuration(-90) == "-1h -30m"
  {
    assert Div60(150) == 2 && Rem60(150) == 30;
    assert NatDigits(2) == "2" && NatDigits(3) == "3" && NatDigits(30) == "30";
    assert Div60(-90) == -1 && Rem60(-90) == -30;
    assert NatDigits(1) == "1";
    assert DecimalString(-1) == "-1" && DecimalString(-30) == "-30";
  }

  /** `int64(v)` for an in-range float: the fraction is dropped toward zero. */
  function TruncateToInt(v: real): (n: int)
    ensures v >= 0.0 ==> 0.0 <= n as real <= v < n as real + 1.0
    ensures v < 0.0 ==> n as real - 1.0 < v <= n as real <= 0.0
  {
    if v >= 0.0 then v.Floor else -((-v).Floor)
  }

  /** `FormatIDR`: "Rp" and the locale rendering of the truncated amount. */
  function FormatIDR(v: real, kit: Toolkit): (s: string)
    ensures |s| >= 2 && s[..2] == "Rp"
  {
    "Rp" + kit.localeDigits(TruncateToInt(v))
  }

  /** The fractional rupiah never shows: amounts that truncate alike print alike. */
  lemma FormatIDRDropsFraction(v: real, w: real, kit: Toolkit)
    requires TruncateToInt(v) == TruncateToInt(w)
    ensures FormatIDR(v, kit) == FormatIDR(w, kit)
  {
  }

  /**
   * The adapters' loop: each raw record converts to one unified record, or
   * to none when it is skipped; the emitted records keep the input order.
   */
  function Collect<R>(raws: seq<R>, convert: R -> Option<UnifiedFlight>): seq<UnifiedFlight>
  {
    if raws == [] then []
    else
      var last := convert(raws[|raws| - 1]);
      Collect(raws[..|raws| - 1], convert) + (if last.Some? then [last.value] else [])
  }

  /** The input positions of the records that convert, in increasing order. */
  function Positions<R>(raws: seq<R>, convert: R -> Option<UnifiedFlight>): seq<nat> {
    if raws == [] then []
    else
      var n := |raws| - 1;
      Positions(raws[..n], convert) + (if convert(raws[n]).Some? then [n] else [])
  }

  lemma {:induction false} PositionsMatch<R>(raws: seq<R>, convert: R -> Option<UnifiedFlight>)
    ensures |Positions(raws, convert)| == |Collect(raws, convert)|
    ensures forall k :: 0 <= k < |Positions(raws, convert)| ==>
      Positions(raws, convert)[k] < |raws| && convert(raws[Positions(raws, convert)[k]]) == Some(Collect(raws, convert)[k])
  {
    if raws != [] {
      var n := |raws| - 1;
      var init := raws[..n];
      PositionsMatch(init, convert);
      var idx, prev := Positions(raws, convert), Positions(init, convert);
      var out, before := Collect(raws, convert), Collect(init, convert);
      forall k | 0 <= k < |prev|
        ensures idx[k] < |raws| && convert(raws[idx[k]]) == Some(out[k])
      {
        assert idx[k] == prev[k] && raws[prev[k]] == init[prev[k]] && out[k] == before[k];
      }
    }
  }

  lemma {:induction false} PositionsIncrease<R>(raws: seq<R>, convert: R -> Option<UnifiedFlight>)
    ensures StrictlyIncreasing(Positions(raws, convert))
    ensures forall k :: 0 <= k < |Positions(raws, convert)| ==> Positions(raws, convert)[k] < |raws|
  {
    if raws != [] {
      var n := |raws| - 1;
      PositionsIncrease(raws[..n], convert);
    }
  }

  lemma {:induction false} PositionsComplete<R>(raws: seq<R>, convert: R -> Option<UnifiedFlight>)
    ensures forall j :: 0 <= j < |raws| && convert(raws[j]).Some? ==> j in Positions(raws, convert)
  {
    if raws != [] {
      var n := |raws| - 1;
      var init := raws[..n];
      PositionsComplete(init, convert);
      forall j | 0 <= j < n && convert(raws[j]).Some?
        ensures j in Positions(raws, convert)
      {
        assert init[j] == raws[j];
      }
    }
  }

  /**
   * The emitted records are exactly the conversions of the records that
   * convert, in input order: output position k comes from input position
   * idx[k], the positions increase, and no converting record is missed.
   */
  lemma CollectInOrder<R>(raws: seq<R>, convert: R -> Option<UnifiedFlight>) returns (idx: seq<nat>)
    ensures |idx| == |Collect(raws, convert)| && StrictlyIncreasing(idx)
    ensures forall k :: 0 <= k < |idx| ==> idx[k] < |raws| && convert(raws[idx[k]]) == Some(Collect(raws, convert)[k])
    ensures forall j :: 0 <= j < |raws| && convert(raws[j]).Some? ==> j in idx
  {
    idx := Positions(raws, convert);
    PositionsMatch(raws, convert);
    PositionsIncrease(raws, convert);
    PositionsComplete(raws, convert);
  }

  /** Every emitted record is the conversion of some input record. */
  lemma CollectMember<R>(raws: seq<R>, convert: R -> Option<UnifiedFlight>, f: UnifiedFlight)
    requires f in Collect(raws, convert)
    ensures exists j :: 0 <= j < |raws| && convert(raws[j]) == Some(f)
  {
    var idx := CollectInOrder(raws, convert);
    var k :| 0 <= k < |Collect(raws, convert)| && Collect(raws, convert)[k] == f;
    assert convert(raws[idx[k]]) == Some(f);
  }

  /** When no record is skipped, the output is the input converted one for one. */
  lemma {:induction false} CollectOneForOne<R>(raws: seq<R>, convert: R -> Option<UnifiedFlight>)
    requires forall j :: 0 <= j < |raws| ==> convert(raws[j]).Some?
    ensures |Collect(raws, convert)| == |raws|
    ensures forall k :: 0 <= k < |raws| ==> Collect(raws, convert)[k] == convert(raws[k]).value
  {
    if raws != [] {
      var n := |raws| - 1;
      CollectOneForOne(raws[..n], convert);
    }
  }

  /** Appending one suffix to two ids keeps them apart: equal results mean equal ids. */
  lemma SuffixCancels(a: string, b: string, suffix: string)
    requires a + suffix == b + suffix
    ensures a == b
  {
    assert |a| == |b|;
    assert a == (a + suffix)[..|a|];
    assert b == (b + suffix)[..|b|];
  }

  /** Ids carrying different suffixes of one length ("_GA", "_JT", "_ID", "_QZ") never collide. */
  lemma SuffixesSeparate(a: string, b: string, s1: string, s2: string)
    requires |s1| == |s2| && s1 != s2
    ensures a + s1 != b + s2
  {
    assert (a + s1)[|a|..] == s1;
    assert (b + s2)[|b|..] == s2;
  }

  /**
   * The baggage-note rule of two adapters: split on ",", the carry-on
   * allowance is the first piece trimmed (always present, "" for an empty
   * note), the checked allowance the second piece trimmed or "".
   */
  function SplitBaggageNote(note: string): BaggageInfo {
    var parts := Split(note, ',');
    BaggageInfo(TrimSpace(parts[0]), if |parts| >= 2 then TrimSpace(parts[1]) else "")
  }

  /** A note without a comma is all carry-on allowance. */
  lemma BaggageWithoutComma(note: string)
    requires ',' !in note
    ensures SplitBaggageNote(note) == BaggageInfo(TrimSpace(note), "")
  {
    SplitNoSeparator(note, ',');
  }

  /** With two or more pieces, the first two are used and the rest ignored. */
  lemma BaggageTwoPieces(carryOn: string, checked: string, tail: string)
    requires ',' !in carryOn && ',' !in checked
    requires tail == [] || tail[0] == ','
    ensures SplitBaggageNote(carryOn + "," + checked + tail) == BaggageInfo(TrimSpace(carryOn), TrimSpace(checked))
  {
    var note := carryOn + "," + checked + tail;
    assert note == carryOn + [','] + (checked + tail);
    SplitAtFirst(carryOn, ',', checked + tail);
    if tail == [] {
      assert checked + tail == checked;
      SplitNoSeparator(checked, ',');
    } else {
      assert checked + tail == checked + [','] + tail[1..];
      SplitAtFirst(checked, ',', tail[1..]);
    }
  }
}
