/** The user-facing time expressions of the Prometheus tools: "now", epoch
    milliseconds, RFC 3339 timestamps and relative expressions such as
    "now-2d5h". Instants are nanoseconds since the Unix epoch. */
module TimeExpr {
  import opened Wrappers
  import opened GoNumbers
  import opened GoStrings
  import opened GoTime

  /** Integers above this are read as milliseconds since the epoch. */
  const EpochMillisThreshold: int := 1_000_000_000_000

  datatype TimeError = EmptyTime | InvalidFormat(input: string)

  /** The four optional groups of `^now-(\d+d)?(\d+h)?(\d+m)?(\d+s)?$`; a
      group that took no part in the match is "". */
  datatype RelativeGroups = RelativeGroups(days: string, hours: string, minutes: string, seconds: string)

  /** Where the group `(\d+u)?` that starts at position `i` of `s` ends:
      after the whole digit run and the unit letter when that letter follows
      the run, and at `i` (the group is empty) otherwise, since a shorter run
      would be followed by a digit rather than the unit. */
  function GroupEnd(s: string, i: nat, u: char): (j: nat)
    requires i <= |s|
    ensures i <= j <= |s|
  {
    var n := DigitsFrom(s, i);
    if n > 0 && i + n < |s| && s[i + n] == u then i + n + 1 else i
  }

  /** `relRe.FindStringSubmatch(s)`: the groups when `s` matches. */
  function MatchRelative(s: string): Option<RelativeGroups>
  {
    if !(|s| >= 4 && s[0] == 'n' && s[1] == 'o' && s[2] == 'w' && s[3] == '-') then None
    else
      var p1 := GroupEnd(s, 4, 'd');
      var p2 := GroupEnd(s, p1, 'h');
      var p3 := GroupEnd(s, p2, 'm');
      var p4 := GroupEnd(s, p3, 's');
      if p4 == |s| then
        Some(RelativeGroups(s[4..p1], s[p1..p2], s[p2..p3], s[p3..p4]))
      else None
  }

  /** The matched groups concatenated in order, as the loop builds `durStr`. */
  function Joined(g: RelativeGroups): string {
    ((g.days + g.hours) + g.minutes) + g.seconds
  }

  /** `matches[i]` for the groups 1 to 4. */
  function Group(g: RelativeGroups, i: nat): string
    requires 1 <= i <= 4
  {
    if i == 1 then g.days else if i == 2 then g.hours else if i == 3 then g.minutes else g.seconds
  }

  /** The groups before `matches[i]`, concatenated. */
  function GroupsBefore(g: RelativeGroups, i: nat): string
    requires 1 <= i <= 5
  {
    if i == 1 then []
    else if i == 2 then g.days
    else if i == 3 then g.days + g.hours
    else if i == 4 then (g.days + g.hours) + g.minutes
    else Joined(g)
  }

  /** The loop that appends every non-empty group to `durStr`. */
  method JoinDurationGroups(g: RelativeGroups) returns (durStr: string)
    ensures durStr == Joined(g)
  {
    durStr := "";
    assert g.days == [] + g.days;
    for i := 1 to 5
      invariant durStr == GroupsBefore(g, i)
    {
      if Group(g, i) != "" {
        durStr := durStr + Group(g, i);
      } else {
        assert durStr + Group(g, i) == durStr;
      }
    }
  }

  /** The joined groups, nested to the right. */
  lemma JoinedNested(g: RelativeGroups)
    ensures Joined(g) == g.days + (g.hours + (g.minutes + g.seconds))
  {
  }

  /** The replacement `parseDurationWithDays` writes for "<n>d", where the
      digits denote `v`: `fmt.Sprintf("%dh", days*24)`, with `days` read by
      `strconv.Atoi` and the product taken in int64. */
  function DayHours(v: nat): string
  {
    FormatInt(Mul64(AtoiClamped(v), 24)) + "h"
  }

  /** `ReplaceAllStringFunc` of the pattern `(\d+)d` with the replacement
      `f`, scanning from position `i`: where the pattern matches at `i` (a
      digit run followed by 'd') the match is replaced by `f` of the number
      its digits denote; elsewhere one character is copied and the scan moves
      on, as the regexp engine does. */
  function RewriteWith(s: string, i: nat, f: nat -> string): string
    requires i <= |s|
    decreases |s| - i
  {
    if i == |s| then []
    else
      var n := DigitsFrom(s, i);
      if n > 0 && i + n < |s| && s[i + n] == 'd' then
        f(DecimalSpan(s, i, i + n)) + RewriteWith(s, i + n + 1, f)
      else [s[i]] + RewriteWith(s, i + 1, f)
  }

  /** Without a 'd' the rewrite copies the text. */
  lemma {:induction false} RewriteWithoutDays(s: string, i: nat, f: nat -> string)
    requires i <= |s| && forall k :: i <= k < |s| ==> s[k] != 'd'
    ensures RewriteWith(s, i, f) == s[i..]
    decreases |s| - i
  {
    if i < |s| {
      RewriteWithoutDays(s, i + 1, f);
      assert [s[i]] + s[i + 1..] == s[i..];
    }
  }

  /** The day rewrite of `parseDurationWithDays` on the whole text. */
  function RewriteDays(s: string): string
  {
    RewriteWith(s, 0, DayHours)
  }

  /** `parseDurationWithDays`: `time.ParseDuration` after the day rewrite. */
  function ParseDurationWithDays(s: string): Option<Int64>
  {
    ParseDuration(RewriteDays(s))
  }

  /** A text without a day component is read as `time.ParseDuration` reads it. */
  lemma ParseDurationWithoutDays(s: string)
    requires 'd' !in s
    ensures ParseDurationWithDays(s) == ParseDuration(s)
  {
    RewriteWithoutDays(s, 0, DayHours);
    assert s[0..] == s;
  }

  /** What `parseUserTime(input, now)` returns. `rfc` stands for
      `time.Parse(time.RFC3339, …)`, giving the instant or None. */
  function UserTime(input: string, now: int, rfc: string -> Option<int>): Result<int, TimeError>
  {
    TrimmedTime(TrimSpace(input), now, rfc)
  }

  /** The text "now". */
  predicate IsNow(s: string) {
    |s| == 3 && s[0] == 'n' && s[1] == 'o' && s[2] == 'w'
  }

  /** The cases of `parseUserTime` after trimming, tried in order. */
  function TrimmedTime(s: string, now: int, rfc: string -> Option<int>): Result<int, TimeError>
  {
    if s == [] then Err(EmptyTime)
    else if IsNow(s) then Ok(now)
    else if ParseInt64(s).Some? && ParseInt64(s).value > EpochMillisThreshold then
      Ok(Mul64(ParseInt64(s).value, Millisecond))
    else if rfc(s).Some? then Ok(rfc(s).value)
    else RelativeTime(s, now)
  }

  /** The relative form "now-…": the reference instant minus the duration. */
  function RelativeTime(s: string, now: int): Result<int, TimeError>
  {
    RelativeOutcome(s, MatchRelative(s), now)
  }

  /** The outcome of the relative form once the pattern has been tried. */
  function RelativeOutcome(s: string, m: Option<RelativeGroups>, now: int): Result<int, TimeError>
  {
    match m
      case None => Err(InvalidFormat(s))
      case Some(g) => DurationOutcome(s, ParseDurationWithDays(Joined(g)), now)
  }

  /** The instant the parsed duration before `now`, or the error for `s`. */
  function DurationOutcome(s: string, parsed: Option<Int64>, now: int): Result<int, TimeError>
  {
    match parsed
      case None => Err(InvalidFormat(s))
      case Some(d) => Ok(now + Neg64(d))
  }

  /** `parseUserTime`. */
  method ParseUserTime(input: string, now: int, rfc: string -> Option<int>) returns (r: Result<int, TimeError>)
    ensures r == UserTime(input, now, rfc)
  {
    var s := TrimSpace(input);
    if s == [] {
      return Err(EmptyTime);
    }
    if IsNow(s) {
      return Ok(now);
    }
    var ms := ParseInt64(s);
    if ms.Some? && ms.value > EpochMillisThreshold {
      return Ok(Mul64(ms.value, Millisecond));
    }
    var t := rfc(s);
    if t.Some? {
      return Ok(t.value);
    }
    r := ParseRelative(s, now);
  }

  /** The last case of `parseUserTime`: the groups of the relative pattern
      are joined by its loop and parsed as a duration. */
  method ParseRelative(s: string, now: int) returns (r: Result<int, TimeError>)
    ensures r == RelativeTime(s, now)
  {
    var matches := MatchRelative(s);
    if matches.None? {
      return Err(InvalidFormat(s));
    }
    var durStr := JoinDurationGroups(matches.value);
    r := ApplyDuration(s, durStr, now);
  }

  /** The joined duration taken away from `now`, or the error for `s`. */
  method ApplyDuration(s: string, durStr: string, now: int) returns (r: Result<int, TimeError>)
    ensures r == DurationOutcome(s, ParseDurationWithDays(durStr), now)
  {
    var d := ParseDurationWithDays(durStr);
    if d.None? {
      return Err(InvalidFormat(s));
    }
    return Ok(now + Neg64(d.value));
  }

  /** Surrounding white space never changes the outcome. */
  lemma UserTimeIgnoresSpace(input: string, now: int, rfc: string -> Option<int>)
    ensures UserTime(input, now, rfc) == UserTime(TrimSpace(input), now, rfc)
  {
    TrimSpaceIdempotent(input);
  }

  /** The empty-input error is reported exactly for white space only. */
  lemma EmptyTimeIff(input: string, now: int, rfc: string -> Option<int>)
    ensures UserTime(input, now, rfc) == Err(EmptyTime) <==> AllSpace(input)
  {
    TrimSpaceEmptyIff(input);
  }

  /** "now" is the reference instant. */
  lemma NowIsNow(now: int, rfc: string -> Option<int>)
    ensures UserTime("now", now, rfc) == Ok(now)
  {
    TrimSpaceNoop("now");
  }

  /** A decimal integer above 10^12 is epoch milliseconds, converted to
      nanoseconds in int64 arithmetic: exact while the product fits, and
      wrapped around beyond (from the year 2262 on). */
  lemma EpochMillis(v: Int64, now: int, rfc: string -> Option<int>)
    requires v > EpochMillisThreshold
    ensures UserTime(FormatInt(v), now, rfc) == Ok(Wrap64(v * Millisecond))
    ensures v * Millisecond <= MaxInt64 ==> UserTime(FormatInt(v), now, rfc) == Ok(v * Millisecond)
  {
    var s := FormatInt(v);
    FormatNatValue(v);
    assert IsDigit(s[0]) && IsDigit(s[|s| - 1]);
    TrimSpaceNoop(s);
    ParseFormatRoundTrip(v);
  }

  /** The largest millisecond count that fits is converted exactly; one more
      wraps to an instant before 1700. */
  lemma EpochMillisWraps(now: int, rfc: string -> Option<int>)
    ensures UserTime(FormatInt(9_223_372_036_854), now, rfc) == Ok(9_223_372_036_854_000_000)
    ensures UserTime(FormatInt(9_223_372_036_855), now, rfc) == Ok(-9_223_372_036_854_551_616)
  {
    EpochMillis(9_223_372_036_854, now, rfc);
    EpochMillis(9_223_372_036_855, now, rfc);
    WrapJustPastMax();
  }

  /** 9223372036855 ms in nanoseconds passes the largest int64 and wraps. */
  lemma WrapJustPastMax()
    ensures Wrap64(9_223_372_036_855 * Millisecond) == -9_223_372_036_854_551_616
  {
    var x := 9_223_372_036_855 * Millisecond;
    assert x == 9_223_372_036_855_000_000;
    assert x % TwoTo64 == x;
  }

  /** A non-negative integer up to 10^12 is not epoch milliseconds: it is an
      RFC 3339 time if that parser accepts it, and invalid otherwise. */
  lemma SmallIntegersAreNotEpoch(v: nat, now: int, rfc: string -> Option<int>)
    requires v <= EpochMillisThreshold
    ensures var s := FormatInt(v);
      UserTime(s, now, rfc) == if rfc(s).Some? then Ok(rfc(s).value) else Err(InvalidFormat(s))
  {
    var s := FormatInt(v);
    FormatNatValue(v);
    assert IsDigit(s[0]) && IsDigit(s[|s| - 1]);
    TrimSpaceNoop(s);
    ParseFormatRoundTrip(v);
    NotRelative(s, now);
    NotEpoch(s, v, now, rfc);
  }

  /** A text that does not start with 'n' is not of the relative form. */
  lemma NotRelative(s: string, now: int)
    requires s != [] && s[0] != 'n'
    ensures RelativeTime(s, now) == Err(InvalidFormat(s))
  {
  }

  /** A trimmed integer up to 10^12 passes on to the RFC 3339 parser. */
  lemma NotEpoch(s: string, v: Int64, now: int, rfc: string -> Option<int>)
    requires s != [] && !IsNow(s) && ParseInt64(s) == Some(v) && v <= EpochMillisThreshold
    ensures TrimmedTime(s, now, rfc) == if rfc(s).Some? then Ok(rfc(s).value) else RelativeTime(s, now)
  {
  }

  /** A trimmed, non-numeric text starting with "now-" that the RFC 3339
      parser refuses is read as the relative form. */
  lemma RelativeCase(s: string, now: int, rfc: string -> Option<int>)
    requires |s| >= 4 && s[0] == 'n' && s[1] == 'o' && s[2] == 'w' && s[3] == '-'
    requires !IsSpace(s[|s| - 1]) && rfc(s) == None
    ensures UserTime(s, now, rfc) == RelativeTime(s, now)
  {
    TrimSpaceNoop(s);
    NotAnInteger(s);
    LastCase(s, now, rfc);
  }

  lemma NotAnInteger(s: string)
    requires s != [] && s[0] == 'n'
    ensures ParseInt64(s) == None
  {
    assert !IsDigit(s[0]);
  }

  /** The relative form is the case tried last. */
  lemma LastCase(s: string, now: int, rfc: string -> Option<int>)
    requires s != [] && !IsNow(s) && ParseInt64(s) == None && rfc(s) == None
    ensures TrimmedTime(s, now, rfc) == RelativeTime(s, now)
  {
  }

  /** "now-" with no component matches the pattern, but the empty duration
      does not parse. */
  lemma BareNowMinusIsInvalid(now: int, rfc: string -> Option<int>)
    requires rfc("now-") == None
    ensures UserTime("now-", now, rfc) == Err(InvalidFormat("now-"))
  {
    RelativeCase("now-", now, rfc);
    assert MatchRelative("now-") == Some(RelativeGroups("", "", "", ""));
  }


  /** A component text of the relative pattern: empty, or a run of digits
      followed by the unit letter `u` (the regexp's `\d+` allows leading zeros). */
  predicate IsComponent(c: string, u: char) {
    c == [] || (|c| >= 2 && DigitsFrom(c, 0) == |c| - 1 && c[|c| - 1] == u)
  }

  /** The number a component text carries (0 for an absent component). */
  function Count(c: string): nat {
    if |c| < 2 then 0 else DecimalSpan(c, 0, |c| - 1)
  }

  predicate Components(cd: string, ch: string, cm: string, cs: string) {
    IsComponent(cd, 'd') && IsComponent(ch, 'h') && IsComponent(cm, 'm') && IsComponent(cs, 's')
  }

  /** "now-" followed by day, hour, minute and second components. */
  function RelativeText(cd: string, ch: string, cm: string, cs: string): string {
    "now-" + (cd + (ch + (cm + cs)))
  }

  /** D·24h + H·1h + M·1m + S·1s in nanoseconds (the unit lengths written
      out as numbers, which keeps the arithmetic linear for the verifier). */
  function RelativeNanos(cd: string, ch: string, cm: string, cs: string): nat {
    Count(cd) * 24 * 3_600_000_000_000 + Count(ch) * 3_600_000_000_000
      + Count(cm) * 60_000_000_000 + Count(cs) * 1_000_000_000
  }

  /** The decimal text of `v` followed by `u` is a component carrying `v`. */
  lemma ComponentOfNat(v: nat, u: char)
    requires !IsDigit(u)
    ensures IsComponent(FormatNat(v) + [u], u) && Count(FormatNat(v) + [u]) == v
  {
    var x := FormatNat(v);
    var c := x + [u];
    FormatNatValue(v);
    AllDigitsRun(x, 0);
    OccupiesFront(x, [u]);
    DigitsOcc(c, 0, x, 0);
    SpanOcc(c, 0, x, |x|);
  }

  /** An optional component of unit `u` spans `p` to `q` of `s`; it is
      absent when `p == q`. */
  predicate OptionalSpan(s: string, p: nat, q: nat, u: char) {
    (p == q && q <= |s|) || ComponentSpan(s, p, q, u)
  }

  /** The count an optional component spanning `p` to `q` carries. */
  function SpanCount(s: string, p: nat, q: nat): nat
    requires p <= q <= |s|
  {
    if q < p + 2 then 0 else DecimalSpan(s, p, q - 1)
  }

  /** A component text placed at `p` spans its length there and carries its count. */
  lemma Placed(s: string, p: nat, c: string, u: char)
    requires Occupies(s, p, c) && IsComponent(c, u)
    ensures OptionalSpan(s, p, p + |c|, u) && SpanCount(s, p, p + |c|) == Count(c)
  {
    if c != [] {
      DigitsOcc(s, p, c, 0);
      SpanOcc(s, p, c, |c| - 1);
      assert s[p + |c| - 1] == c[|c| - 1];
    }
  }

  /** `c1` to `c4` appear one after the other from `b` to the end of `s`. */
  predicate Layout(s: string, b: nat, c1: string, c2: string, c3: string, c4: string) {
    && Occupies(s, b, c1) && Occupies(s, b + |c1|, c2)
    && Occupies(s, b + |c1| + |c2|, c3) && Occupies(s, b + |c1| + |c2| + |c3|, c4)
    && b + |c1| + |c2| + |c3| + |c4| == |s|
  }

  lemma LayoutOf(c1: string, c2: string, c3: string, c4: string)
    ensures Layout(c1 + (c2 + (c3 + c4)), 0, c1, c2, c3, c4)
  {
    var t3 := c3 + c4;
    var t2 := c2 + t3;
    OccupiesFront(c1, t2);
    OccupiesFront(c2, t3);
    OccupiesShift(c1, t2, 0, c2);
    OccupiesFront(c3, c4);
    OccupiesShift(c2, t3, 0, c3);
    OccupiesShift(c1, t2, |c2|, c3);
    OccupiesBack(c3, c4);
    OccupiesShift(c2, t3, |c3|, c4);
    OccupiesShift(c1, t2, |c2| + |c3|, c4);
  }

  lemma LayoutShift(a: string, t: string, c1: string, c2: string, c3: string, c4: string)
    requires Layout(t, 0, c1, c2, c3, c4)
    ensures Layout(a + t, |a|, c1, c2, c3, c4)
  {
    OccupiesShift(a, t, 0, c1);
    OccupiesShift(a, t, |c1|, c2);
    OccupiesShift(a, t, |c1| + |c2|, c3);
    OccupiesShift(a, t, |c1| + |c2| + |c3|, c4);
  }

  /** Laid-out components of units `u1` to `u4` as spans of `s`. */
  lemma PlacedAll(s: string, b: nat, c1: string, c2: string, c3: string, c4: string, u1: char, u2: char, u3: char, u4: char)
    requires Layout(s, b, c1, c2, c3, c4)
    requires IsComponent(c1, u1) && IsComponent(c2, u2) && IsComponent(c3, u3) && IsComponent(c4, u4)
    ensures var q1, q2, q3 := b + |c1|, b + |c1| + |c2|, b + |c1| + |c2| + |c3|;
      && OptionalSpan(s, b, q1, u1) && OptionalSpan(s, q1, q2, u2)
      && OptionalSpan(s, q2, q3, u3) && OptionalSpan(s, q3, |s|, u4)
      && SpanCount(s, b, q1) == Count(c1) && SpanCount(s, q1, q2) == Count(c2)
      && SpanCount(s, q2, q3) == Count(c3) && SpanCount(s, q3, |s|) == Count(c4)
  {
    Placed(s, b, c1, u1);
    Placed(s, b + |c1|, c2, u2);
    Placed(s, b + |c1| + |c2|, c3, u3);
    Placed(s, b + |c1| + |c2| + |c3|, c4, u4);
  }

  /** Laid-out components of units `u1` to `u4` span their places in `s`. */
  lemma SpannedAll(s: string, b: nat, c1: string, c2: string, c3: string, c4: string, u1: char, u2: char, u3: char, u4: char)
    requires Layout(s, b, c1, c2, c3, c4)
    requires IsComponent(c1, u1) && IsComponent(c2, u2) && IsComponent(c3, u3) && IsComponent(c4, u4)
    ensures var q1, q2, q3 := b + |c1|, b + |c1| + |c2|, b + |c1| + |c2| + |c3|;
      && OptionalSpan(s, b, q1, u1) && OptionalSpan(s, q1, q2, u2)
      && OptionalSpan(s, q2, q3, u3) && OptionalSpan(s, q3, |s|, u4)
  {
    PlacedAll(s, b, c1, c2, c3, c4, u1, u2, u3, u4);
  }

  /** Laid-out components are the slices between their positions. */
  lemma SlicesAll(s: string, b: nat, c1: string, c2: string, c3: string, c4: string)
    requires Layout(s, b, c1, c2, c3, c4)
    ensures var q1, q2, q3 := b + |c1|, b + |c1| + |c2|, b + |c1| + |c2| + |c3|;
      s[b..q1] == c1 && s[q1..q2] == c2 && s[q2..q3] == c3 && s[q3..|s|] == c4
  {
    SliceOccupied(s, b, c1);
    SliceOccupied(s, b + |c1|, c2);
    SliceOccupied(s, b + |c1| + |c2|, c3);
    SliceOccupied(s, b + |c1| + |c2| + |c3|, c4);
  }

  lemma RelativeLayout(cd: string, ch: string, cm: string, cs: string)
    ensures Layout(RelativeText(cd, ch, cm, cs), 4, cd, ch, cm, cs)
  {
    LayoutOf(cd, ch, cm, cs);
    LayoutShift("now-", cd + (ch + (cm + cs)), cd, ch, cm, cs);
  }

  /** The group of a component's own unit ends after that component. */
  lemma GroupTakes(s: string, p: nat, q: nat, u: char)
    requires OptionalSpan(s, p, q, u) && (p < q || GroupEnd(s, q, u) == q)
    ensures GroupEnd(s, p, u) == q
  {
  }

  /** The group of a unit `u` is empty before a component of another unit. */
  lemma GroupPasses(s: string, p: nat, q: nat, cu: char, u: char)
    requires OptionalSpan(s, p, q, cu) && cu != u && (p < q || GroupEnd(s, q, u) == q)
    ensures GroupEnd(s, p, u) == p
  {
  }

  lemma GroupAtEnd(s: string, u: char)
    ensures GroupEnd(s, |s|, u) == |s|
  {
  }

  /** With components of days, hours, minutes and seconds after "now-", the
      pattern matches and its groups are those components. */
  lemma MatchOfSpans(s: string, q1: nat, q2: nat, q3: nat, cd: string, ch: string, cm: string, cs: string)
    requires |s| >= 4 && s[0] == 'n' && s[1] == 'o' && s[2] == 'w' && s[3] == '-'
    requires OptionalSpan(s, 4, q1, 'd') && OptionalSpan(s, q1, q2, 'h')
    requires OptionalSpan(s, q2, q3, 'm') && OptionalSpan(s, q3, |s|, 's')
    requires s[4..q1] == cd && s[q1..q2] == ch && s[q2..q3] == cm && s[q3..|s|] == cs
    ensures MatchRelative(s) == Some(RelativeGroups(cd, ch, cm, cs))
  {
    var e := |s|;
    GroupAtEnd(s, 's');
    GroupAtEnd(s, 'm');
    GroupAtEnd(s, 'h');
    GroupAtEnd(s, 'd');
    GroupTakes(s, q3, e, 's');
    GroupPasses(s, q3, e, 's', 'm');
    GroupTakes(s, q2, q3, 'm');
    GroupPasses(s, q3, e, 's', 'h');
    GroupPasses(s, q2, q3, 'm', 'h');
    GroupTakes(s, q1, q2, 'h');
    GroupPasses(s, q3, e, 's', 'd');
    GroupPasses(s, q2, q3, 'm', 'd');
    GroupPasses(s, q1, q2, 'h', 'd');
    GroupTakes(s, 4, q1, 'd');
  }

  /** The pattern splits a relative text into its components. */
  lemma RelativeGroupsOf(cd: string, ch: string, cm: string, cs: string)
    requires Components(cd, ch, cm, cs)
    ensures MatchRelative(RelativeText(cd, ch, cm, cs)) == Some(RelativeGroups(cd, ch, cm, cs))
  {
    RelativePrefix(cd + (ch + (cm + cs)));
    RelativeLayout(cd, ch, cm, cs);
    MatchOfLayout(RelativeText(cd, ch, cm, cs), cd, ch, cm, cs);
  }

  lemma RelativePrefix(t: string)
    ensures var s := "now-" + t; |s| >= 4 && s[0] == 'n' && s[1] == 'o' && s[2] == 'w' && s[3] == '-'
  {
  }

  /** Components laid out after "now-" are the pattern's groups. */
  lemma MatchOfLayout(s: string, cd: string, ch: string, cm: string, cs: string)
    requires |s| >= 4 && s[0] == 'n' && s[1] == 'o' && s[2] == 'w' && s[3] == '-'
    requires Layout(s, 4, cd, ch, cm, cs) && Components(cd, ch, cm, cs)
    ensures MatchRelative(s) == Some(RelativeGroups(cd, ch, cm, cs))
  {
    var q1, q2, q3 := 4 + |cd|, 4 + |cd| + |ch|, 4 + |cd| + |ch| + |cm|;
    LayoutGroups(s, cd, ch, cm, cs);
    MatchOfSpans(s, q1, q2, q3, cd, ch, cm, cs);
  }

  /** Components laid out after "now-" span their places and are the
      slices there. */
  lemma LayoutGroups(s: string, cd: string, ch: string, cm: string, cs: string)
    requires Layout(s, 4, cd, ch, cm, cs) && Components(cd, ch, cm, cs)
    ensures var q1, q2, q3 := 4 + |cd|, 4 + |cd| + |ch|, 4 + |cd| + |ch| + |cm|;
      && OptionalSpan(s, 4, q1, 'd') && OptionalSpan(s, q1, q2, 'h')
      && OptionalSpan(s, q2, q3, 'm') && OptionalSpan(s, q3, |s|, 's')
      && s[4..q1] == cd && s[q1..q2] == ch && s[q2..q3] == cm && s[q3..|s|] == cs
  {
    SpannedAll(s, 4, cd, ch, cm, cs, 'd', 'h', 'm', 's');
    SlicesAll(s, 4, cd, ch, cm, cs);
  }

  /** The group `(\d+u)?` that starts at `p` spans a component of unit `u`. */
  lemma GroupIsComponent(s: string, p: nat, u: char)
    requires p <= |s| && !IsDigit(u)
    ensures OptionalSpan(s, p, GroupEnd(s, p, u), u)
    ensures IsComponent(s[p..GroupEnd(s, p, u)], u)
  {
    var q := GroupEnd(s, p, u);
    var c := s[p..q];
    if p < q {
      assert c[|c| - 1] == u;
      DigitsStop(c, 0, |c| - 1);
      DigitsOcc(s, p, c, 0);
    }
  }

  /** A text is "now-" followed by the four slices between its group ends. */
  lemma Reassembled(s: string, p1: nat, p2: nat, p3: nat, p4: nat)
    requires |s| >= 4 && s[0] == 'n' && s[1] == 'o' && s[2] == 'w' && s[3] == '-'
    requires 4 <= p1 <= p2 <= p3 <= p4 == |s|
    ensures s == RelativeText(s[4..p1], s[p1..p2], s[p2..p3], s[p3..p4])
  {
    assert s[p3..p4] == s[p3..];
    SuffixSplit(s, p2, p3);
    SuffixSplit(s, p1, p2);
    SuffixSplit(s, 4, p1);
    assert s == s[..4] + s[4..];
    assert s[..4] == "now-";
  }

  /** The four groups between the group ends are components of their units. */
  lemma GroupsAreComponents(s: string, p1: nat, p2: nat, p3: nat, p4: nat)
    requires |s| >= 4
    requires p1 == GroupEnd(s, 4, 'd') && p2 == GroupEnd(s, p1, 'h')
    requires p3 == GroupEnd(s, p2, 'm') && p4 == GroupEnd(s, p3, 's')
    ensures Components(s[4..p1], s[p1..p2], s[p2..p3], s[p3..p4])
  {
    GroupIsComponent(s, 4, 'd');
    GroupIsComponent(s, p1, 'h');
    GroupIsComponent(s, p2, 'm');
    GroupIsComponent(s, p3, 's');
  }

  /** The converse of `RelativeGroupsOf`: when the pattern matches, its
      groups are components of days, hours, minutes and seconds, and the
      text is "now-" followed by them. */
  lemma MatchRelativeInverse(s: string)
    ensures MatchRelative(s).Some? ==>
      var g := MatchRelative(s).value;
      Components(g.days, g.hours, g.minutes, g.seconds)
      && s == RelativeText(g.days, g.hours, g.minutes, g.seconds)
  {
    if MatchRelative(s).Some? {
      var p1 := GroupEnd(s, 4, 'd');
      var p2 := GroupEnd(s, p1, 'h');
      var p3 := GroupEnd(s, p2, 'm');
      var p4 := GroupEnd(s, p3, 's');
      assert MatchRelative(s) == Some(RelativeGroups(s[4..p1], s[p1..p2], s[p2..p3], s[p3..p4]));
      GroupsAreComponents(s, p1, p2, p3, p4);
      Reassembled(s, p1, p2, p3, p4);
    }
  }

  /** `s` is "now-" followed by components of which at least one is present. */
  predicate IsRelativeForm(s: string, cd: string, ch: string, cm: string, cs: string) {
    && Components(cd, ch, cm, cs)
    && (cd != [] || ch != [] || cm != [] || cs != [])
    && s == RelativeText(cd, ch, cm, cs)
  }

  /** The empty duration does not parse. */
  lemma EmptyDurationFails()
    ensures ParseDurationWithDays([]) == None
  {
    assert RewriteDays([]) == [];
  }

  /** A relative text that gives an instant has at least one component. */
  lemma RelativeTimeForm(s: string, now: int)
    ensures RelativeTime(s, now).Ok? ==>
      var g := MatchRelative(s).value;
      IsRelativeForm(s, g.days, g.hours, g.minutes, g.seconds)
  {
    if RelativeTime(s, now).Ok? {
      var g := MatchRelative(s).value;
      MatchRelativeInverse(s);
      EmptyDurationFails();
      assert Joined(g) != [];
    }
  }

  /** Every text `parseUserTime` accepts is, once trimmed, "now", an epoch
      millisecond count above 10^12, an RFC 3339 timestamp, or a relative
      text with at least one component. */
  lemma UserTimeOkForms(input: string, now: int, rfc: string -> Option<int>)
    ensures var s := TrimSpace(input);
      UserTime(input, now, rfc).Ok? ==>
        || IsNow(s)
        || (ParseInt64(s).Some? && ParseInt64(s).value > EpochMillisThreshold)
        || rfc(s).Some?
        || exists cd, ch, cm, cs :: IsRelativeForm(s, cd, ch, cm, cs)
  {
    var s := TrimSpace(input);
    RelativeTimeForm(s, now);
    if UserTime(input, now, rfc).Ok? && RelativeTime(s, now).Ok? {
      var g := MatchRelative(s).value;
      assert IsRelativeForm(s, g.days, g.hours, g.minutes, g.seconds);
    }
  }

  /** Components must come in the order days, hours, minutes, seconds: a
      minutes component before an hours component does not match. */
  lemma ComponentsOutOfOrderAreInvalid(x: string, y: string, now: int, rfc: string -> Option<int>)
    requires x != [] && AllDigits(x) && y != [] && AllDigits(y)
    requires rfc("now-" + ((x + "m") + (y + "h"))) == None
    ensures var s := "now-" + ((x + "m") + (y + "h"));
      UserTime(s, now, rfc) == Err(InvalidFormat(s))
  {
    var s := "now-" + ((x + "m") + (y + "h"));
    RelativeCase(s, now, rfc);
    MinutesBeforeHours(x, y);
  }

  lemma MinutesBeforeHours(x: string, y: string)
    requires x != [] && AllDigits(x) && y != [] && AllDigits(y)
    ensures MatchRelative("now-" + ((x + "m") + (y + "h"))) == None
  {
    var s := "now-" + ((x + "m") + (y + "h"));
    MinutesHoursSpans(x, y);
    var q := 5 + |x|;
    GroupAtEnd(s, 'd');
    GroupAtEnd(s, 'm');
    GroupAtEnd(s, 's');
    GroupPasses(s, q, |s|, 'h', 'd');
    GroupPasses(s, 4, q, 'm', 'd');
    GroupPasses(s, 4, q, 'm', 'h');
    GroupPasses(s, q, |s|, 'h', 'm');
    GroupTakes(s, 4, q, 'm');
    GroupPasses(s, q, |s|, 'h', 's');
  }

  lemma MinutesHoursSpans(x: string, y: string)
    requires x != [] && AllDigits(x) && y != [] && AllDigits(y)
    ensures var s := "now-" + ((x + "m") + (y + "h"));
      ComponentSpan(s, 4, 5 + |x|, 'm') && ComponentSpan(s, 5 + |x|, |s|, 'h')
  {
    var t := (x + "m") + (y + "h");
    MinutesHoursPlaced(x, y);
    DigitsThenUnit("now-" + t, 4, x, 'm');
    DigitsThenUnit("now-" + t, 5 + |x|, y, 'h');
  }

  lemma MinutesHoursPlaced(x: string, y: string)
    ensures var s := "now-" + ((x + "m") + (y + "h"));
      Occupies(s, 4, x + "m") && Occupies(s, 5 + |x|, y + "h")
  {
    var t := (x + "m") + (y + "h");
    OccupiesFront(x + "m", y + "h");
    OccupiesShift("now-", t, 0, x + "m");
    OccupiesBack(x + "m", y + "h");
    OccupiesShift("now-", t, |x| + 1, y + "h");
  }

  /** Digits followed by a unit other than 'd' are copied one character at a time. */
  lemma {:induction false} KeepDigits(s: string, i: nat, q: nat, f: nat -> string)
    requires i < q <= |s| && DigitsFrom(s, i) == q - 1 - i && !IsDigit(s[q - 1]) && s[q - 1] != 'd'
    ensures RewriteWith(s, i, f) == s[i..q] + RewriteWith(s, q, f)
    decreases q - i
  {
    CopyOne(s, i, f);
    if i + 1 < q {
      KeepDigits(s, i + 1, q, f);
      assert s[i..q] == [s[i]] + s[i + 1..q];
      ConcatAssociative([s[i]], s[i + 1..q], RewriteWith(s, q, f));
    } else {
      assert s[i..q] == [s[i]];
    }
  }

  /** Where no day component starts, the rewrite copies one character. */
  lemma CopyOne(s: string, i: nat, f: nat -> string)
    requires i < |s|
    requires var n := DigitsFrom(s, i); !(n > 0 && i + n < |s| && s[i + n] == 'd')
    ensures RewriteWith(s, i, f) == [s[i]] + RewriteWith(s, i + 1, f)
  {
  }

  /** A component of a unit other than days is kept as it is. */
  lemma KeepSpan(s: string, p: nat, q: nat, u: char, f: nat -> string)
    requires OptionalSpan(s, p, q, u) && !IsDigit(u) && u != 'd'
    ensures RewriteWith(s, p, f) == s[p..q] + RewriteWith(s, q, f)
  {
    if p < q {
      KeepDigits(s, p, q, f);
    } else {
      assert s[p..q] + RewriteWith(s, q, f) == RewriteWith(s, q, f);
    }
  }

  /** A day component is replaced by `f` of its count. */
  lemma DaySpan(s: string, p: nat, q: nat, f: nat -> string)
    requires ComponentSpan(s, p, q, 'd')
    ensures RewriteWith(s, p, f) == f(DecimalSpan(s, p, q - 1)) + RewriteWith(s, q, f)
  {
  }

  /** What the rewrite makes of a day component with the replacement `f`. */
  function DayText(cd: string, f: nat -> string): string {
    if cd == [] then [] else f(Count(cd))
  }

  /** The rewrite of joined components: the days are replaced, the other
      components are kept. */
  lemma RewriteOfSpans(t: string, q1: nat, q2: nat, q3: nat, cd: string, ch: string, cm: string, cs: string, f: nat -> string)
    requires OptionalSpan(t, 0, q1, 'd') && OptionalSpan(t, q1, q2, 'h')
    requires OptionalSpan(t, q2, q3, 'm') && OptionalSpan(t, q3, |t|, 's')
    requires SpanCount(t, 0, q1) == Count(cd) && (q1 == 0 <==> cd == [])
    requires t[q1..q2] == ch && t[q2..q3] == cm && t[q3..|t|] == cs
    ensures RewriteWith(t, 0, f) == DayText(cd, f) + (ch + (cm + cs))
  {
    KeepSpan(t, q3, |t|, 's', f);
    assert RewriteWith(t, q3, f) == cs;
    KeepSpan(t, q2, q3, 'm', f);
    KeepSpan(t, q1, q2, 'h', f);
    if q1 > 0 {
      DaySpan(t, 0, q1, f);
    } else {
      assert DayText(cd, f) + (ch + (cm + cs)) == ch + (cm + cs);
    }
  }

  /** The rewrite of a relative text's joined groups. */
  lemma RewriteRelative(cd: string, ch: string, cm: string, cs: string, f: nat -> string)
    requires Components(cd, ch, cm, cs)
    ensures RewriteWith(cd + (ch + (cm + cs)), 0, f) == DayText(cd, f) + (ch + (cm + cs))
  {
    LayoutOf(cd, ch, cm, cs);
    RewriteOfLayout(cd + (ch + (cm + cs)), cd, ch, cm, cs, f);
  }

  lemma RewriteOfLayout(t: string, cd: string, ch: string, cm: string, cs: string, f: nat -> string)
    requires Layout(t, 0, cd, ch, cm, cs) && Components(cd, ch, cm, cs)
    ensures RewriteWith(t, 0, f) == DayText(cd, f) + (ch + (cm + cs))
  {
    LayoutSpans(t, cd, ch, cm, cs);
    LayoutSlices(t, cd, ch, cm, cs);
    RewriteOfSpans(t, |cd|, |cd| + |ch|, |cd| + |ch| + |cm|, cd, ch, cm, cs, f);
  }

  /** Laid-out components as the spans the rewrite works on. */
  lemma LayoutSpans(t: string, cd: string, ch: string, cm: string, cs: string)
    requires Layout(t, 0, cd, ch, cm, cs) && Components(cd, ch, cm, cs)
    ensures var q1, q2, q3 := |cd|, |cd| + |ch|, |cd| + |ch| + |cm|;
      && OptionalSpan(t, 0, q1, 'd') && OptionalSpan(t, q1, q2, 'h')
      && OptionalSpan(t, q2, q3, 'm') && OptionalSpan(t, q3, |t|, 's')
      && SpanCount(t, 0, q1) == Count(cd) && (q1 == 0 <==> cd == [])
  {
    PlacedAll(t, 0, cd, ch, cm, cs, 'd', 'h', 'm', 's');
  }

  lemma LayoutSlices(t: string, cd: string, ch: string, cm: string, cs: string)
    requires Layout(t, 0, cd, ch, cm, cs)
    ensures var q1, q2, q3 := |cd|, |cd| + |ch|, |cd| + |ch| + |cm|;
      t[q1..q2] == ch && t[q2..q3] == cm && t[q3..|t|] == cs
  {
    SlicesAll(t, 0, cd, ch, cm, cs);
  }

  /** A day count whose hours fit in int64 is rewritten exactly. */
  lemma DayHoursExact(v: nat)
    requires v * 24 <= MaxInt64
    ensures DayHours(v) == FormatNat(v * 24) + ['h']
  {
  }

  /** Where a component may end, one may start. */
  lemma BoundaryBefore(s: string, p: nat, q: nat, u: char)
    requires OptionalSpan(s, p, q, u) && Boundary(s, q)
    ensures Boundary(s, p)
  {
  }

  /** An optional component adds its worth to the running total. */
  lemma OptionalStep(s: string, p: nat, q: nat, u: char, unit: Unit, acc: nat, added: nat)
    requires OptionalSpan(s, p, q, u) && UnitLetter(u) == Some(unit) && Boundary(s, q)
    requires added == Scale(SpanCount(s, p, q), unit) && acc + added <= MaxInt64
    ensures SumFrom(s, p, acc) == SumFrom(s, q, acc + added)
  {
    if p < q {
      ComponentStep(s, p, q, u, unit, acc, added);
    }
  }

  /** The loop over the seconds component, the last one. */
  lemma SecondsTail(r: string, q3: nat, acc: nat, w4: nat)
    requires OptionalSpan(r, q3, |r|, 's')
    requires w4 == Scale(SpanCount(r, q3, |r|), Seconds) && acc + w4 <= MaxInt64
    ensures SumFrom(r, q3, acc) == Some(acc + w4) && Boundary(r, q3)
  {
    BoundaryBefore(r, q3, |r|, 's');
    OptionalStep(r, q3, |r|, 's', Seconds, acc, w4);
  }

  /** The loop over the minutes and seconds components. */
  lemma MinutesTail(r: string, q2: nat, q3: nat, acc: nat, w3: nat, w4: nat)
    requires OptionalSpan(r, q2, q3, 'm') && OptionalSpan(r, q3, |r|, 's')
    requires w3 == Scale(SpanCount(r, q2, q3), Minutes) && w4 == Scale(SpanCount(r, q3, |r|), Seconds)
    requires acc + w3 + w4 <= MaxInt64
    ensures SumFrom(r, q2, acc) == Some(acc + w3 + w4) && Boundary(r, q2)
  {
    SecondsTail(r, q3, acc + w3, w4);
    BoundaryBefore(r, q2, q3, 'm');
    OptionalStep(r, q2, q3, 'm', Minutes, acc, w3);
  }

  /** The loop over an hours component and the components after it. */
  lemma HoursTail(r: string, q1: nat, q2: nat, acc: nat, w2: nat, rest: nat)
    requires OptionalSpan(r, q1, q2, 'h') && w2 == Scale(SpanCount(r, q1, q2), Hours)
    requires acc + w2 + rest <= MaxInt64
    requires SumFrom(r, q2, acc + w2) == Some(acc + w2 + rest) && Boundary(r, q2)
    ensures SumFrom(r, q1, acc) == Some(acc + w2 + rest) && Boundary(r, q1)
  {
    BoundaryBefore(r, q1, q2, 'h');
    OptionalStep(r, q1, q2, 'h', Hours, acc, w2);
  }

  /** The loop over hours, hours, minutes and seconds components. */
  lemma SumOfSpans(r: string, q1: nat, q2: nat, q3: nat, w1: nat, w2: nat, w3: nat, w4: nat)
    requires OptionalSpan(r, 0, q1, 'h') && OptionalSpan(r, q1, q2, 'h')
    requires OptionalSpan(r, q2, q3, 'm') && OptionalSpan(r, q3, |r|, 's')
    requires w1 == Scale(SpanCount(r, 0, q1), Hours) && w2 == Scale(SpanCount(r, q1, q2), Hours)
    requires w3 == Scale(SpanCount(r, q2, q3), Minutes) && w4 == Scale(SpanCount(r, q3, |r|), Seconds)
    requires w1 + w2 + w3 + w4 <= MaxInt64
    ensures SumFrom(r, 0, 0) == Some(w1 + w2 + w3 + w4) && Boundary(r, 0)
  {
    MinutesTail(r, q2, q3, w1 + w2, w3, w4);
    HoursTail(r, q1, q2, w1, w2, w3 + w4);
    HoursTail(r, 0, q1, 0, w1, w2 + w3 + w4);
  }

  /** The nanoseconds of a component. */
  function Worth(c: string, unit: Unit): nat {
    Scale(Count(c), unit)
  }

  /** Rewritten components, at least one of them present, denote their total. */
  lemma RewrittenDuration(c1: string, c2: string, c3: string, c4: string, d: nat)
    requires IsComponent(c1, 'h') && IsComponent(c2, 'h') && IsComponent(c3, 'm') && IsComponent(c4, 's')
    requires c1 != [] || c2 != [] || c3 != [] || c4 != []
    requires d == Worth(c1, Hours) + Worth(c2, Hours) + Worth(c3, Minutes) + Worth(c4, Seconds) <= MaxInt64
    ensures ParseDuration(c1 + (c2 + (c3 + c4))) == Some(d)
  {
    LayoutOf(c1, c2, c3, c4);
    DurationOfLayout(c1 + (c2 + (c3 + c4)), c1, c2, c3, c4, d);
  }

  lemma DurationOfLayout(r: string, c1: string, c2: string, c3: string, c4: string, d: nat)
    requires Layout(r, 0, c1, c2, c3, c4)
    requires IsComponent(c1, 'h') && IsComponent(c2, 'h') && IsComponent(c3, 'm') && IsComponent(c4, 's')
    requires c1 != [] || c2 != [] || c3 != [] || c4 != []
    requires d == Worth(c1, Hours) + Worth(c2, Hours) + Worth(c3, Minutes) + Worth(c4, Seconds) <= MaxInt64
    ensures ParseDuration(r) == Some(d)
  {
    PlacedAll(r, 0, c1, c2, c3, c4, 'h', 'h', 'm', 's');
    var q1 := |c1|;
    SumOfSpans(r, q1, q1 + |c2|, q1 + |c2| + |c3|, Worth(c1, Hours), Worth(c2, Hours), Worth(c3, Minutes), Worth(c4, Seconds));
    UnsignedSum(r, d);
  }

  /** The total of a relative text, counted over its rewritten components. */
  lemma NanosAsWorth(cd: string, ch: string, cm: string, cs: string, dh: string)
    requires Count(dh) == Count(cd) * 24
    ensures RelativeNanos(cd, ch, cm, cs) == Worth(dh, Hours) + Worth(ch, Hours) + Worth(cm, Minutes) + Worth(cs, Seconds)
  {
  }

  /** The duration of a relative text with at least one component is the
      sum of its components, days counting 24 hours. */
  lemma DurationOfRelative(cd: string, ch: string, cm: string, cs: string)
    requires Components(cd, ch, cm, cs) && (cd != [] || ch != [] || cm != [] || cs != [])
    requires RelativeNanos(cd, ch, cm, cs) <= MaxInt64
    ensures ParseDurationWithDays(Joined(RelativeGroups(cd, ch, cm, cs))) == Some(RelativeNanos(cd, ch, cm, cs))
  {
    JoinedNested(RelativeGroups(cd, ch, cm, cs));
    RewriteRelative(cd, ch, cm, cs, DayHours);
    var dh := DayText(cd, DayHours);
    if cd != [] {
      assert Count(cd) * 24 * 3_600_000_000_000 <= MaxInt64;
      DayHoursExact(Count(cd));
      ComponentOfNat(Count(cd) * 24, 'h');
    }
    NanosAsWorth(cd, ch, cm, cs, dh);
    RewrittenDuration(dh, ch, cm, cs, RelativeNanos(cd, ch, cm, cs));
  }

  predicate NoSpace(s: string) {
    forall i :: 0 <= i < |s| ==> !IsSpace(s[i])
  }

  /** A component holds digits and its unit letter only. */
  lemma ComponentChars(c: string, u: char, i: nat)
    requires IsComponent(c, u) && i < |c|
    ensures IsDigit(c[i]) || c[i] == u
  {
    if i < |c| - 1 {
      RunIsDigits(c, 0, i);
    }
  }

  lemma ComponentNoSpace(c: string, u: char, rest: string)
    requires IsComponent(c, u) && !IsSpace(u) && NoSpace(rest)
    ensures NoSpace(c + rest)
  {
    forall i | 0 <= i < |c + rest|
      ensures !IsSpace((c + rest)[i])
    {
      if i < |c| {
        ComponentChars(c, u, i);
      } else {
        assert (c + rest)[i] == rest[i - |c|];
      }
    }
  }

  lemma RelativeTextNoSpace(cd: string, ch: string, cm: string, cs: string)
    requires Components(cd, ch, cm, cs)
    ensures NoSpace(RelativeText(cd, ch, cm, cs))
  {
    assert cs + [] == cs;
    ComponentNoSpace(cs, 's', []);
    ComponentNoSpace(cm, 'm', cs);
    ComponentNoSpace(ch, 'h', cm + cs);
    ComponentNoSpace(cd, 'd', ch + (cm + cs));
    NoSpaceJoin("now-", cd + (ch + (cm + cs)));
  }

  lemma NoSpaceJoin(a: string, b: string)
    requires NoSpace(a) && NoSpace(b)
    ensures NoSpace(a + b)
  {
    forall i | 0 <= i < |a + b|
      ensures !IsSpace((a + b)[i])
    {
      if i >= |a| {
        assert (a + b)[i] == b[i - |a|];
      }
    }
  }

  /** `now-[Dd][Hh][Mm][Ss]` with at least one component is `now` minus
      D·24h + H·1h + M·1m + S·1s, while that total fits in a duration. */
  lemma RelativeExact(cd: string, ch: string, cm: string, cs: string, now: int, rfc: string -> Option<int>)
    requires Components(cd, ch, cm, cs) && (cd != [] || ch != [] || cm != [] || cs != [])
    requires RelativeNanos(cd, ch, cm, cs) <= MaxInt64
    requires rfc(RelativeText(cd, ch, cm, cs)) == None
    ensures UserTime(RelativeText(cd, ch, cm, cs), now, rfc) == Ok(now - RelativeNanos(cd, ch, cm, cs))
  {
    var text := RelativeText(cd, ch, cm, cs);
    RelativeTextNoSpace(cd, ch, cm, cs);
    RelativeCase(text, now, rfc);
    RelativeTextTime(cd, ch, cm, cs, now);
  }

  /** The relative form alone, before trimming and the earlier tries. */
  lemma RelativeTextTime(cd: string, ch: string, cm: string, cs: string, now: int)
    requires Components(cd, ch, cm, cs) && (cd != [] || ch != [] || cm != [] || cs != [])
    requires RelativeNanos(cd, ch, cm, cs) <= MaxInt64
    ensures RelativeTime(RelativeText(cd, ch, cm, cs), now) == Ok(now - RelativeNanos(cd, ch, cm, cs))
  {
    var d := RelativeNanos(cd, ch, cm, cs);
    DurationOfRelative(cd, ch, cm, cs);
    RelativeTextBack(cd, ch, cm, cs, d, now);
  }

  /** A relative text whose joined groups denote a non-negative `d` is `d` before `now`. */
  lemma RelativeTextBack(cd: string, ch: string, cm: string, cs: string, d: nat, now: int)
    requires Components(cd, ch, cm, cs) && d <= MaxInt64
    requires ParseDurationWithDays(Joined(RelativeGroups(cd, ch, cm, cs))) == Some(d)
    ensures RelativeTime(RelativeText(cd, ch, cm, cs), now) == Ok(now - d)
  {
    RelativeGroupsOf(cd, ch, cm, cs);
    RelativeTimeBack(RelativeText(cd, ch, cm, cs), RelativeGroups(cd, ch, cm, cs), d, now);
  }

  /** A matching relative text whose duration parses is `now` minus that duration. */
  lemma RelativeTimeOf(s: string, g: RelativeGroups, d: Int64, now: int)
    requires MatchRelative(s) == Some(g) && ParseDurationWithDays(Joined(g)) == Some(d)
    ensures RelativeTime(s, now) == Ok(now + Neg64(d))
  {
    MatchedOutcome(s, g, now);
    ParsedOutcome(s, ParseDurationWithDays(Joined(g)), d, now);
  }

  /** A parsed duration `d` gives the instant `d` before `now`. */
  lemma ParsedOutcome(s: string, parsed: Option<Int64>, d: Int64, now: int)
    requires parsed == Some(d)
    ensures DurationOutcome(s, parsed, now) == Ok(now + Neg64(d))
  {
  }

  /** A matching relative text whose duration is a non-negative `d` is `d` before `now`. */
  lemma RelativeTimeBack(s: string, g: RelativeGroups, d: nat, now: int)
    requires d <= MaxInt64 && MatchRelative(s) == Some(g) && ParseDurationWithDays(Joined(g)) == Some(d)
    ensures RelativeTime(s, now) == Ok(now - d)
  {
    var parsed := ParseDurationWithDays(Joined(g));
    MatchedOutcome(s, g, now);
    ParsedBack(s, parsed, d, now);
  }

  /** A parsed non-negative duration `d` gives the instant `now - d`. */
  lemma ParsedBack(s: string, parsed: Option<Int64>, d: nat, now: int)
    requires d <= MaxInt64 && parsed == Some(d)
    ensures DurationOutcome(s, parsed, now) == Ok(now - d)
  {
  }

  lemma MatchedOutcome(s: string, g: RelativeGroups, now: int)
    requires MatchRelative(s) == Some(g)
    ensures RelativeTime(s, now) == DurationOutcome(s, ParseDurationWithDays(Joined(g)), now)
  {
  }

  /** `strconv.Atoi` clamps a day count beyond int64 to the largest int64,
      and `days*24` then wraps around to -24: the rewrite produces "-24h". */
  lemma DayHoursClamped(v: nat)
    requires v >= MaxInt64
    ensures DayHours(v) == "-24h"
  {
    assert Mul64(MaxInt64, 24) == -24;
    assert FormatNat(24) == "24";
  }

  /** "-24h" is minus one day. */
  lemma MinusOneDay()
    ensures ParseDuration("-24h") == Some(-24 * Hour)
  {
    var s := "-24h";
    assert DigitsFrom(s, 1) == 2 && DecimalSpan(s, 1, 3) == 24;
    ComponentStep(s, 1, 4, 'h', Hours, 0, 24 * Hour);
    assert "-" + "24h" == s;
    NegatedSum("24h", 24 * Hour);
  }

  /** So a day component whose count is at least 2^63-1 has the duration of minus one day. */
  lemma ClampedDayDuration(cd: string)
    requires IsComponent(cd, 'd') && cd != [] && Count(cd) >= MaxInt64
    ensures ParseDurationWithDays(Joined(RelativeGroups(cd, [], [], []))) == Some(-24 * Hour)
  {
    JoinedNested(RelativeGroups(cd, [], [], []));
    RewriteRelative(cd, [], [], [], DayHours);
    DayHoursClamped(Count(cd));
    assert "-24h" + ([] + ([] + [])) == "-24h";
    MinusOneDay();
  }

  /** "now-<x>d" with a day count of at least 2^63-1 lands one day in the
      future instead of being refused: the clamped count times 24 wraps to
      -24, and `now.Add(-(-24h))` moves forward. */
  lemma HugeDayCountMovesForward(cd: string, now: int, rfc: string -> Option<int>)
    requires IsComponent(cd, 'd') && cd != [] && Count(cd) >= MaxInt64
    requires rfc(RelativeText(cd, [], [], [])) == None
    ensures UserTime(RelativeText(cd, [], [], []), now, rfc) == Ok(now + 24 * Hour)
  {
    var text := RelativeText(cd, [], [], []);
    RelativeTextNoSpace(cd, [], [], []);
    RelativeCase(text, now, rfc);
    RelativeGroupsOf(cd, [], [], []);
    ClampedDayDuration(cd);
    RelativeTimeOf(text, RelativeGroups(cd, [], [], []), -24 * Hour, now);
  }
}
