/**
 * The few pieces of Go's `fmt` and `strings` packages that the adapters and
 * the cache key rely on: the `%d` verb, `strings.Split` on one separator,
 * `strings.Join` as its inverse, and `strings.TrimSpace`.
 */
module Text {

  predicate IsDigit(ch: char) {
    '0' <= ch <= '9'
  }

  function DigitChar(d: nat): (ch: char)
    requires d < 10
    ensures IsDigit(ch)
  {
    "0123456789"[d]
  }

  function DigitValue(ch: char): (d: nat)
    requires IsDigit(ch)
    ensures d < 10
  {
    (ch as int - '0' as int) as nat
  }

  predicate AllDigits(s: string) {
    forall k :: 0 <= k < |s| ==> IsDigit(s[k])
  }

  /** The decimal digits of `n`, most significant first, with no leading zero. */
  function NatDigits(n: nat): (s: string)
    ensures |s| >= 1 && AllDigits(s)
    ensures n >= 10 ==> s[0] != '0'
    decreases n
  {
    if n < 10 then [DigitChar(n)] else NatDigits(n / 10) + [DigitChar(n % 10)]
  }

  /** The number a string of decimal digits denotes. */
  function DigitsValue(s: string): nat
    requires AllDigits(s)
  {
    if s == [] then 0 else DigitsValue(s[..|s| - 1]) * 10 + DigitValue(s[|s| - 1])
  }

  /** What `fmt.Sprintf("%d", n)` writes: an optional minus sign, then the digits. */
  function DecimalString(n: int): (s: string)
    ensures |s| >= 1
    ensures n >= 0 <==> AllDigits(s)
    ensures n < 0 ==> s[0] == '-' && AllDigits(s[1..])
  {
    if n < 0 then
      var s := "-" + NatDigits(-n);
      assert !IsDigit(s[0]);
      s
    else NatDigits(n)
  }

  /** Reads back what DecimalString writes. */
  function DecimalValue(s: string): int
    requires |s| >= 1
    requires AllDigits(s) || (s[0] == '-' && AllDigits(s[1..]))
  {
    if s[0] == '-' then -(DigitsValue(s[1..]) as int) else DigitsValue(s)
  }

  lemma {:induction false} NatDigitsRoundTrip(n: nat)
    ensures DigitsValue(NatDigits(n)) == n
    decreases n
  {
    if n >= 10 {
      var s := NatDigits(n);
      NatDigitsRoundTrip(n / 10);
      assert s[..|s| - 1] == NatDigits(n / 10);
    }
  }

  /** `%d` loses nothing: the printed integer reads back as itself. */
  lemma {:induction false} DecimalRoundTrip(n: int)
    ensures DecimalValue(DecimalString(n)) == n
  {
    if n < 0 {
      NegativeRoundTrip(n);
    } else {
      NatDigitsRoundTrip(n);
    }
  }

  lemma NegativeRoundTrip(n: int)
    requires n < 0
    ensures DecimalValue(DecimalString(n)) == n
  {
    var m: nat := -n;
    calc {
      DecimalValue(DecimalString(n));
      { NegativeShape(n); }
      DecimalValue("-" + NatDigits(m));
      { SignedDigitsValue(m); }
      n;
    }
  }

  lemma NegativeShape(n: int)
    requires n < 0
    ensures DecimalString(n) == "-" + NatDigits(-n)
  {
  }

  lemma SignedDigitsValue(m: nat)
    ensures DecimalValue("-" + NatDigits(m)) == -(m as int)
  {
    MinusDigits(NatDigits(m));
    NatDigitsRoundTrip(m);
  }

  lemma MinusDigits(digits: string)
    requires |digits| >= 1 && AllDigits(digits)
    ensures DecimalValue("-" + digits) == -(DigitsValue(digits) as int)
  {
    assert ("-" + digits)[1..] == digits;
  }

  /** `strings.Split(s, string(sep))` for a one-character separator. */
  function Split(s: string, sep: char): (parts: seq<string>)
    ensures |parts| >= 1
    ensures forall k :: 0 <= k < |parts| ==> sep !in parts[k]
    decreases |s|
  {
    if s == [] then [""]
    else
      var rest := Split(s[1..], sep);
      if s[0] == sep then [""] + rest else [[s[0]] + rest[0]] + rest[1..]
  }

  /** `strings.Join(parts, string(sep))`. */
  function Join(parts: seq<string>, sep: char): string
    requires |parts| >= 1
    decreases |parts|
  {
    if |parts| == 1 then parts[0] else parts[0] + [sep] + Join(parts[1..], sep)
  }

  /** Splitting loses nothing: joining the pieces gives the input back. */
  lemma {:induction false} JoinSplit(s: string, sep: char)
    ensures Join(Split(s, sep), sep) == s
    decreases |s|
  {
    if s != [] {
      var rest := Split(s[1..], sep);
      JoinSplit(s[1..], sep);
      if s[0] == sep {
        assert Split(s, sep)[1..] == rest;
      } else if |rest| == 1 {
        assert Join(Split(s, sep), sep) == [s[0]] + rest[0];
      } else {
        var parts := Split(s, sep);
        assert parts[1..] == rest[1..];
        assert Join(rest, sep) == rest[0] + [sep] + Join(rest[1..], sep);
      }
    }
  }

  /** A piece free of the separator is split off whole at the first separator. */
  lemma {:induction false} SplitAtFirst(a: string, sep: char, b: string)
    requires sep !in a
    ensures Split(a + [sep] + b, sep) == [a] + Split(b, sep)
    decreases |a|
  {
    if a == [] {
      assert ([sep] + b)[1..] == b;
    } else {
      assert (a + [sep] + b)[1..] == a[1..] + [sep] + b;
      SplitAtFirst(a[1..], sep, b);
      assert [a[0]] + a[1..] == a;
    }
  }

  /** A piece free of the separator splits into itself alone. */
  lemma {:induction false} SplitNoSeparator(a: string, sep: char)
    requires sep !in a
    ensures Split(a, sep) == [a]
    decreases |a|
  {
    if a != [] {
      SplitNoSeparator(a[1..], sep);
      assert [a[0]] + a[1..] == a;
    }
  }

  /** Go's `unicode.IsSpace`. */
  predicate IsSpace(ch: char) {
    ch == ' ' || ('\U{9}' <= ch <= '\U{D}') || ch == '\U{85}' || ch == '\U{A0}'
    || ch == '\U{1680}' || ('\U{2000}' <= ch <= '\U{200A}') || ch == '\U{2028}' || ch == '\U{2029}'
    || ch == '\U{202F}' || ch == '\U{205F}' || ch == '\U{3000}'
  }

  /** The first position at or after `i` that is not white space, or `|s|`. */
  function SpaceEnd(s: string, i: nat): (start: nat)
    requires i <= |s|
    ensures i <= start <= |s|
    ensures forall k :: i <= k < start ==> IsSpace(s[k])
    ensures start == |s| || !IsSpace(s[start])
    decreases |s| - i
  {
    if i < |s| && IsSpace(s[i]) then SpaceEnd(s, i + 1) else i
  }

  /** The position just after the last character before `j`, and not before `lo`, that is not white space. */
  function SpaceStart(s: string, lo: nat, j: nat): (stop: nat)
    requires lo <= j <= |s|
    ensures lo <= stop <= j
    ensures forall k :: stop <= k < j ==> IsSpace(s[k])
    ensures stop == lo || !IsSpace(s[stop - 1])
    decreases j
  {
    if j > lo && IsSpace(s[j - 1]) then SpaceStart(s, lo, j - 1) else j
  }

  /** `strings.TrimSpace`: the slice between the leading and the trailing white space. */
  function TrimSpace(s: string): string {
    var start := SpaceEnd(s, 0);
    s[start..SpaceStart(s, start, |s|)]
  }

  /**
   * What `TrimSpace` keeps is a slice of `s`; everything cut off, at either
   * end, is white space, and neither end of what is kept is.
   */
  lemma TrimSpaceIsInnerSlice(s: string)
    ensures exists i, j ::
      && 0 <= i <= j <= |s| && TrimSpace(s) == s[i..j]
      && (forall k :: 0 <= k < i ==> IsSpace(s[k]))
      && (forall k :: j <= k < |s| ==> IsSpace(s[k]))
    ensures var r := TrimSpace(s); r == [] || (!IsSpace(r[0]) && !IsSpace(r[|r| - 1]))
  {
    var i := SpaceEnd(s, 0);
    var j := SpaceStart(s, i, |s|);
    var r := s[i..j];
    assert TrimSpace(s) == r;
    if r != [] {
      assert r[0] == s[i] && r[|r| - 1] == s[j - 1];
    }
  }

}
