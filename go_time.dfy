/** `time.ParseDuration` from Go's standard library for signed sequences of
    integer components such as "2h30m". Fractional components ("1.5h") are
    refused here, where Go would accept them. */
module GoTime {
  import opened Wrappers
  import opened GoStrings
  import opened GoNumbers

  const Nanosecond: nat := 1
  const Microsecond: nat := 1000
  const Millisecond: nat := 1_000_000
  const Second: nat := 1_000_000_000
  const Minute: nat := 60_000_000_000
  const Hour: nat := 3_600_000_000_000

  /** The unit names of Go's `unitMap`. */
  datatype Unit = Nanoseconds | Microseconds | Milliseconds | Seconds | Minutes | Hours

  /** `v` of `unit` in nanoseconds. */
  function Scale(v: nat, unit: Unit): nat
  {
    match unit
      case Nanoseconds => v
      case Microseconds => v * 1000
      case Milliseconds => v * 1_000_000
      case Seconds => v * 1_000_000_000
      case Minutes => v * 60_000_000_000
      case Hours => v * 3_600_000_000_000
  }

  /** The largest count of `unit` Go accepts: `1<<63 / unit`. */
  function UnitLimit(unit: Unit): (r: nat)
    ensures r <= TwoTo63 && Scale(r, unit) <= TwoTo63 < Scale(r + 1, unit)
  {
    match unit
      case Nanoseconds => 9_223_372_036_854_775_808
      case Microseconds => 9_223_372_036_854_775
      case Milliseconds => 9_223_372_036_854
      case Seconds => 9_223_372_036
      case Minutes => 153_722_867
      case Hours => 2_562_047
  }

  /** The one-letter names of Go's `unitMap`: "s", "m" and "h". */
  function UnitLetter(c: char): Option<Unit>
  {
    if c == 's' then Some(Seconds)
    else if c == 'm' then Some(Minutes)
    else if c == 'h' then Some(Hours)
    else None
  }

  /** Go's `unitMap` looked up with the `k` characters of `s` from position
      `i`: "ns", "us", "µs" (U+00B5 or U+03BC), "ms", "s", "m" and "h". */
  function UnitAt(s: string, i: nat, k: nat): Option<Unit>
    requires i + k <= |s|
  {
    if k == 1 then UnitLetter(s[i])
    else if k == 2 && s[i + 1] == 's' then
      if s[i] == 'n' then Some(Nanoseconds)
      else if s[i] == 'u' || s[i] == '\U{00B5}' || s[i] == '\U{03BC}' then Some(Microseconds)
      else if s[i] == 'm' then Some(Milliseconds)
      else None
    else None
  }

  /** Length of the unit name at position `i`: every character up to the
      next digit or '.'. */
  function UnitRun(s: string, i: nat): (n: nat)
    requires i <= |s|
    ensures i + n <= |s|
    decreases |s| - i
  {
    if i < |s| && !IsDigit(s[i]) && s[i] != '.' then 1 + UnitRun(s, i + 1) else 0
  }

  /** One number-unit component at position `i`: its length in nanoseconds
      and the position after it, or None where Go reports an error (no
      leading digit, a number above 2^63, a missing or unknown unit, or a
      product that overflows). A fraction ("1.5h") leaves the unit empty
      here, so it is refused. */
  function ComponentAt(s: string, i: nat): (r: Option<(nat, nat)>)
    requires i <= |s|
    ensures r.Some? ==> i < r.value.1 <= |s|
  {
    var n := DigitsFrom(s, i);
    var v := DecimalSpan(s, i, i + n);
    var k := UnitRun(s, i + n);
    if n == 0 || v > TwoTo63 || k == 0 then None
    else match UnitAt(s, i + n, k)
      case None => None
      case Some(unit) =>
        if v > UnitLimit(unit) then None
        else Some((Scale(v, unit), i + n + k))
  }

  /** The component loop of `time.ParseDuration` from position `i`: `acc` is
      the unsigned running total `d`, which the loop refuses to let pass 2^63. */
  function SumFrom(s: string, i: nat, acc: nat): (r: Option<nat>)
    requires i <= |s| && acc <= TwoTo63
    ensures r.Some? ==> acc <= r.value <= TwoTo63
    decreases |s| - i
  {
    if i == |s| then Some(acc)
    else match ComponentAt(s, i)
      case None => None
      case Some((amount, next)) =>
        if acc + amount > TwoTo63 then None
        else SumFrom(s, next, acc + amount)
  }

  /** `time.ParseDuration(s)`: an optional sign, then "0" or one or more
      number-unit components whose values are summed. */
  function ParseDuration(s: string): Option<Int64>
  {
    var negative := s != [] && s[0] == '-';
    var start := if s != [] && (s[0] == '-' || s[0] == '+') then 1 else 0;
    if |s| == start + 1 && s[start] == '0' then Some(0)
    else if |s| == start then None
    else match SumFrom(s, start, 0)
      case None => None
      case Some(d) =>
        if negative then Some(Neg64(Wrap64(d)))
        else if d > MaxInt64 then None
        else Some(d)
  }

  /** The empty text and a bare sign are refused, and a duration without a
      leading '-' is never negative. */
  lemma ParseDurationBounds(s: string)
    ensures ParseDuration(s).Some? ==> |s| > 0 && s != "-" && s != "+"
    ensures ParseDuration(s).Some? && s[0] != '-' ==> 0 <= ParseDuration(s).value
  {
  }

  /** A number-unit component spans positions `p` to `q` of `s`: a digit
      run up to `q - 1` and the unit letter `u` there. */
  predicate ComponentSpan(s: string, p: nat, q: nat, u: char) {
    p + 2 <= q <= |s| && DigitsFrom(s, p) == q - p - 1 && s[q - 1] == u
  }

  /** Where a component may end: at the end of the text or before a digit. */
  predicate Boundary(s: string, q: nat) {
    q == |s| || (q < |s| && IsDigit(s[q]))
  }

  /** Digits `x` and a unit letter `u` placed at `p` form a component there. */
  lemma DigitsThenUnit(s: string, p: nat, x: string, u: char)
    requires Occupies(s, p, x + [u]) && x != [] && AllDigits(x) && !IsDigit(u)
    ensures ComponentSpan(s, p, p + |x| + 1, u) && DecimalSpan(s, p, p + |x|) == DecimalValue(x)
  {
    var c := x + [u];
    OccupiesFront(x, [u]);
    AllDigitsRun(x, 0);
    DigitsOcc(c, 0, x, 0);
    DigitsOcc(s, p, c, 0);
    SpanOcc(s, p, c, |x|);
    SpanOcc(c, 0, x, |x|);
    assert s[p + |x|] == c[|x|];
  }

  /** The component at `p` has the worth of its number in its unit. */
  lemma ComponentValue(s: string, p: nat, q: nat, u: char, unit: Unit)
    requires ComponentSpan(s, p, q, u) && UnitLetter(u) == Some(unit) && Boundary(s, q)
    requires DecimalSpan(s, p, q - 1) <= UnitLimit(unit)
    ensures ComponentAt(s, p) == Some((Scale(DecimalSpan(s, p, q - 1), unit), q))
  {
    assert UnitRun(s, q - 1) == 1;
  }

  /** The loop adds the worth of the component at `p` and moves past it. */
  lemma ComponentStep(s: string, p: nat, q: nat, u: char, unit: Unit, acc: nat, added: nat)
    requires ComponentSpan(s, p, q, u) && UnitLetter(u) == Some(unit) && Boundary(s, q)
    requires added == Scale(DecimalSpan(s, p, q - 1), unit) && acc + added <= MaxInt64
    ensures SumFrom(s, p, acc) == SumFrom(s, q, acc + added)
  {
    WithinLimit(DecimalSpan(s, p, q - 1), unit);
    ComponentValue(s, p, q, u, unit);
    SumStep(s, p, acc, added, q);
  }

  /** A component that parses adds its amount, unless the total passes 2^63. */
  lemma SumStep(s: string, i: nat, acc: nat, amount: nat, next: nat)
    requires i < |s| && acc <= TwoTo63 && ComponentAt(s, i) == Some((amount, next))
    ensures SumFrom(s, i, acc) == if acc + amount > TwoTo63 then None else SumFrom(s, next, acc + amount)
  {
  }

  /** A count whose nanoseconds fit in int64 is within Go's limit for its unit. */
  lemma WithinLimit(v: nat, unit: Unit)
    requires Scale(v, unit) <= MaxInt64
    ensures v <= UnitLimit(unit)
  {
  }

  /** Without a sign, the duration is the sum of the components. */
  lemma UnsignedSum(s: string, d: nat)
    requires s != [] && IsDigit(s[0]) && |s| >= 2
    requires SumFrom(s, 0, 0) == Some(d) && d <= MaxInt64
    ensures ParseDuration(s) == Some(d)
  {
  }

  /** With a leading '-', the duration is the negated sum of the components
      after the sign; a sum of exactly 2^63 is still accepted and becomes the
      most negative duration. */
  lemma NegatedSum(s: string, d: nat)
    requires s != [] && IsDigit(s[0]) && |s| >= 2
    requires SumFrom("-" + s, 1, 0) == Some(d)
    ensures ParseDuration("-" + s) == Some(-(d as int))
  {
    NegatedWrap(d);
  }

  /** `-Duration(d)` for an unsigned total `d` of at most 2^63 is `-d`. */
  lemma NegatedWrap(d: nat)
    requires d <= TwoTo63
    ensures Neg64(Wrap64(d)) == -(d as int)
  {
    if d == TwoTo63 {
      assert d % 0x1_0000_0000_0000_0000 == d;
    }
  }

  /** The text "<a>h<b>h". */
  function TwoHourComponents(a: nat, b: nat): string
  {
    (FormatNat(a) + "h") + (FormatNat(b) + "h")
  }

  /** Go sums repeated units instead of rejecting them: "48h5h" is 53 hours. */
  lemma RepeatedUnitsAdd(a: nat, b: nat)
    requires (a + b) * Hour <= MaxInt64
    ensures ParseDuration(TwoHourComponents(a, b)) == Some((a + b) * Hour)
  {
    FormatNatValue(a);
    FormatNatValue(b);
    HourPair(FormatNat(a), FormatNat(b), a * Hour, b * Hour);
  }

  /** Two hour components in a row parse as the sum of their hours. */
  lemma HourPair(x: string, y: string, p: nat, q: nat)
    requires x != [] && AllDigits(x) && y != [] && AllDigits(y)
    requires p == Scale(DecimalValue(x), Hours) && q == Scale(DecimalValue(y), Hours)
    requires p + q <= MaxInt64
    ensures ParseDuration((x + "h") + (y + "h")) == Some(p + q)
  {
    var s := (x + "h") + (y + "h");
    HourPairSpans(x, y);
    ComponentStep(s, 0, |x| + 1, 'h', Hours, 0, p);
    ComponentStep(s, |x| + 1, |s|, 'h', Hours, p, q);
    UnsignedSum(s, p + q);
  }

  lemma HourPairSpans(x: string, y: string)
    requires x != [] && AllDigits(x) && y != [] && AllDigits(y)
    ensures var s := (x + "h") + (y + "h");
      && ComponentSpan(s, 0, |x| + 1, 'h') && DecimalSpan(s, 0, |x|) == DecimalValue(x)
      && ComponentSpan(s, |x| + 1, |s|, 'h') && DecimalSpan(s, |x| + 1, |s| - 1) == DecimalValue(y)
      && IsDigit(s[|x| + 1]) && IsDigit(s[0])
  {
    var s := (x + "h") + (y + "h");
    OccupiesFront(x + "h", y + "h");
    OccupiesBack(x + "h", y + "h");
    DigitsThenUnit(s, 0, x, 'h');
    DigitsThenUnit(s, |x| + 1, y, 'h');
    assert s[0] == x[0] && s[|x| + 1] == y[0];
  }
}
