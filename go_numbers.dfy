/** Go's 64-bit integers and the decimal text conversions of package strconv
    and of the `%d` verb, as far as the telemetry helpers use them. */
module GoNumbers {
  import opened Wrappers
  import opened GoStrings

  const MaxInt64: int := 0x7fff_ffff_ffff_ffff
  const MinInt64: int := -0x8000_0000_0000_0000
  const TwoTo63: int := 0x8000_0000_0000_0000
  const TwoTo64: int := 0x1_0000_0000_0000_0000

  /** Values of Go's `int` and `int64` on a 64-bit platform. */
  type Int64 = x: int | MinInt64 <= x <= MaxInt64

  /** Two's-complement truncation of an exact result to 64 bits:
      what Go's `int64` arithmetic silently does on overflow. */
  function Wrap64(x: int): (r: Int64)
    ensures (x - r) % 0x1_0000_0000_0000_0000 == 0
    ensures MinInt64 <= x <= MaxInt64 ==> r == x
  {
    var m := x % 0x1_0000_0000_0000_0000;
    if m > 0x7fff_ffff_ffff_ffff then m - 0x1_0000_0000_0000_0000 else m
  }

  /** Two's-complement negation: only the most negative value wraps (to itself). */
  function Neg64(x: Int64): Int64 {
    if x == MinInt64 then MinInt64 else -(x as int)
  }
  function Sub64(x: Int64, y: Int64): Int64 { Wrap64(x - y) }
  function Add64(x: Int64, y: Int64): Int64 { Wrap64(x + y) }
  function Mul64(x: Int64, y: Int64): Int64 { Wrap64(x * y) }

  predicate IsDigit(c: char) { '0' <= c <= '9' }

  predicate AllDigits(s: string) {
    forall i :: 0 <= i < |s| ==> IsDigit(s[i])
  }

  /** The value of a decimal digit (0 for any other character). */
  function DigitValue(c: char): nat
  {
    if IsDigit(c) then (c as int) - ('0' as int) else 0
  }

  function DigitChar(d: nat): (c: char)
    requires d < 10
    ensures IsDigit(c) && DigitValue(c) == d
  {
    ('0' as int + d) as char
  }

  /** Length of the run of decimal digits in `s` that starts at position `i`. */
  function DigitsFrom(s: string, i: nat): (n: nat)
    requires i <= |s|
    ensures i + n <= |s|
    decreases |s| - i
  {
    if i < |s| && IsDigit(s[i]) then 1 + DigitsFrom(s, i + 1) else 0
  }

  /** The number the digits of `s` from position `i` up to `j` denote. */
  function DecimalSpan(s: string, i: nat, j: nat): nat
    requires i <= j <= |s|
    decreases j - i
  {
    if j == i then 0 else 10 * DecimalSpan(s, i, j - 1) + DigitValue(s[j - 1])
  }

  /** The number a string of decimal digits denotes (leading zeros allowed). */
  function DecimalValue(s: string): nat
  {
    DecimalSpan(s, 0, |s|)
  }

  /** A string of digits is one digit run. */
  lemma {:induction false} AllDigitsRun(x: string, k: nat)
    requires AllDigits(x) && k <= |x|
    ensures DigitsFrom(x, k) == |x| - k
    decreases |x| - k
  {
    if k < |x| {
      AllDigitsRun(x, k + 1);
    }
  }

  /** Every character of the digit run at `i` is a digit. */
  lemma {:induction false} RunIsDigits(s: string, i: nat, k: nat)
    requires i <= |s| && k < DigitsFrom(s, i)
    ensures IsDigit(s[i + k])
    decreases k
  {
    if k > 0 {
      RunIsDigits(s, i + 1, k - 1);
    }
  }

  /** A digit run stops at the first non-digit. */
  lemma {:induction false} DigitsStop(s: string, i: nat, m: nat)
    requires i <= m < |s| && !IsDigit(s[m])
    ensures i + DigitsFrom(s, i) <= m
    decreases m - i
  {
    if i < m && IsDigit(s[i]) {
      DigitsStop(s, i + 1, m);
    }
  }

  /** The digit run in `c` is the run at its place in `s`, provided it
      stops inside `c` or `c` is followed by the end or a non-digit. */
  lemma {:induction false} DigitsOcc(s: string, p: nat, c: string, k: nat)
    requires Occupies(s, p, c) && k <= |c|
    requires DigitsFrom(c, k) < |c| - k || p + |c| == |s| || !IsDigit(s[p + |c|])
    ensures DigitsFrom(s, p + k) == DigitsFrom(c, k)
    decreases |c| - k
  {
    if k < |c| {
      assert s[p + k] == c[k];
      if IsDigit(c[k]) {
        DigitsOcc(s, p, c, k + 1);
      }
    }
  }

  /** Digits of `c` denote the same number at their place in `s`. */
  lemma {:induction false} SpanOcc(s: string, p: nat, c: string, j: nat)
    requires Occupies(s, p, c) && j <= |c|
    ensures DecimalSpan(s, p, p + j) == DecimalSpan(c, 0, j)
    decreases j
  {
    if j > 0 {
      assert s[p + j - 1] == c[j - 1];
      SpanOcc(s, p, c, j - 1);
    }
  }

  /** Decimal text of a natural number, without leading zeros. */
  function FormatNat(n: nat): (s: string)
    ensures |s| > 0
    decreases n
  {
    if n < 10 then [DigitChar(n)] else FormatNat(n / 10) + [DigitChar(n % 10)]
  }

  /** The text is made of digits and denotes the number. */
  lemma {:induction false} FormatNatValue(n: nat)
    ensures AllDigits(FormatNat(n)) && DecimalValue(FormatNat(n)) == n
    decreases n
  {
    if n >= 10 {
      var p := FormatNat(n / 10);
      FormatNatValue(n / 10);
      var s := p + [DigitChar(n % 10)];
      assert FormatNat(n) == s;
      OccupiesFront(p, [DigitChar(n % 10)]);
      SpanOcc(s, 0, p, |p|);
      assert DecimalSpan(s, 0, |s|) == 10 * DecimalSpan(s, 0, |p|) + DigitValue(s[|p|]);
      assert DecimalValue(p) == n / 10 && DigitValue(s[|p|]) == n % 10;
    } else {
      assert DecimalSpan([DigitChar(n)], 0, 1) == DigitValue(DigitChar(n));
    }
  }

  /** `fmt.Sprintf("%d", n)` and `strconv.FormatInt(n, 10)`. */
  function FormatInt(n: int): string {
    if n < 0 then "-" + FormatNat(-n as nat) else FormatNat(n)
  }

  /** The text starts with '-' exactly for a negative number, and the rest
      is decimal digits denoting the number's magnitude. */
  lemma FormatIntDigits(n: int)
    ensures var r := FormatInt(n);
      && |r| > 0 && (r[0] == '-' <==> n < 0)
      && var digits := if n < 0 then r[1..] else r;
         AllDigits(digits) && DecimalValue(digits) == if n < 0 then -n else n
  {
    var m: nat := if n < 0 then -n else n;
    FormatNatValue(m);
    assert ("-" + FormatNat(m))[1..] == FormatNat(m);
  }

  /** `strconv.ParseInt(s, 10, 64)`: an optional sign and at least one decimal
      digit (no underscores in base 10), rejected when outside int64. */
  function ParseInt64(s: string): (r: Option<Int64>)
    ensures r.Some? ==> |s| > 0 && (r.value < 0 ==> s[0] == '-')
  {
    var start := if s != [] && (s[0] == '+' || s[0] == '-') then 1 else 0;
    if |s| == start || DigitsFrom(s, start) != |s| - start then None
    else
      var v: int := DecimalSpan(s, start, |s|);
      var x := if s[0] == '-' then -v else v;
      if MinInt64 <= x <= MaxInt64 then Some(x) else None
  }

  /** `strconv.Atoi` on a digit string denoting `v`, its error discarded as
      the caller does: a value beyond int64 comes back clamped to the largest int64. */
  function AtoiClamped(v: nat): (r: Int64)
    ensures 0 <= r <= v
    ensures r == v <==> v <= MaxInt64
    ensures v > MaxInt64 ==> r == MaxInt64
  {
    if v <= MaxInt64 then v else MaxInt64
  }

  /** A digit string is read as the number it denotes, and refused when
      that number is beyond int64. */
  lemma ParseDigits(s: string)
    requires s != [] && AllDigits(s)
    ensures ParseInt64(s) == if DecimalValue(s) <= MaxInt64 then Some(DecimalValue(s)) else None
  {
    AllDigitsRun(s, 0);
    assert IsDigit(s[0]);
  }

  /** The text `%d` prints for an int64 is read back by `strconv.ParseInt`
      as the same value. */
  lemma ParseFormatRoundTrip(n: Int64)
    ensures ParseInt64(FormatInt(n)) == Some(n)
  {
    var m: nat := if n < 0 then -(n as int) else n;
    var t := FormatNat(m);
    FormatNatValue(m);
    AllDigitsRun(t, 0);
    if n < 0 {
      OccupiesBack("-", t);
      DigitsOcc("-" + t, 1, t, 0);
      SpanOcc("-" + t, 1, t, |t|);
    }
  }
}
