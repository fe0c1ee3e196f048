/** The functions of Go's package strings that the Prometheus tools call. */
module GoStrings {

  /** `unicode.IsSpace`: the Latin-1 spaces and the other Unicode White_Space runes. */
  predicate IsSpace(c: char) {
    || c == '\t' || c == '\n' || c == '\U{000B}' || c == '\U{000C}' || c == '\r' || c == ' '
    || c == '\U{0085}' || c == '\U{00A0}' || c == '\U{1680}'
    || ('\U{2000}' <= c <= '\U{200A}')
    || c == '\U{2028}' || c == '\U{2029}' || c == '\U{202F}' || c == '\U{205F}' || c == '\U{3000}'
  }

  predicate AllSpace(s: string) {
    forall i :: 0 <= i < |s| ==> IsSpace(s[i])
  }

  /** `strings.TrimLeftFunc(s, unicode.IsSpace)`: a suffix of `s` that does
      not start with white space. */
  function TrimLeft(s: string): (r: string)
    ensures |r| <= |s|
    ensures r == [] || !IsSpace(r[0])
    decreases |s|
  {
    if s != [] && IsSpace(s[0]) then TrimLeft(s[1..]) else s
  }

  /** `TrimLeft` removes a white-space prefix. */
  lemma {:induction false} TrimLeftRemovesSpace(s: string)
    ensures TrimLeft(s) == s[|s| - |TrimLeft(s)|..]
    ensures AllSpace(s[..|s| - |TrimLeft(s)|])
    decreases |s|
  {
    if s != [] && IsSpace(s[0]) {
      var rest := s[1..];
      var k := |rest| - |TrimLeft(rest)|;
      TrimLeftRemovesSpace(rest);
      assert TrimLeft(s) == TrimLeft(rest);
      assert rest[k..] == s[k + 1..];
      assert s[..k + 1] == [s[0]] + rest[..k];
    }
  }

  /** `strings.TrimRightFunc(s, unicode.IsSpace)`: a prefix of `s` that does
      not end with white space. */
  function TrimRight(s: string): (r: string)
    ensures |r| <= |s|
    ensures r != [] ==> r[0] == s[0]
    ensures r == [] || !IsSpace(r[|r| - 1])
    decreases |s|
  {
    if s != [] && IsSpace(s[|s| - 1]) then TrimRight(s[..|s| - 1]) else s
  }

  /** `TrimRight` removes a white-space suffix. */
  lemma {:induction false} TrimRightRemovesSpace(s: string)
    ensures TrimRight(s) == s[..|TrimRight(s)|]
    ensures AllSpace(s[|TrimRight(s)|..])
    decreases |s|
  {
    if s != [] && IsSpace(s[|s| - 1]) {
      var init := s[..|s| - 1];
      TrimRightRemovesSpace(init);
      assert init[..|TrimRight(init)|] == s[..|TrimRight(s)|];
      assert s[|TrimRight(s)|..] == init[|TrimRight(init)|..] + [s[|s| - 1]];
    }
  }

  /** `strings.TrimSpace`: `s` without its leading and trailing white space. */
  function TrimSpace(s: string): (r: string)
    ensures |r| <= |s|
    ensures r == [] || (!IsSpace(r[0]) && !IsSpace(r[|r| - 1]))
  {
    TrimRight(TrimLeft(s))
  }

  /** The trim is the slice of `s` between a white-space prefix and a
      white-space suffix. */
  lemma TrimSpaceIsSlice(s: string)
    ensures exists i, j :: 0 <= i <= j <= |s| && TrimSpace(s) == s[i..j] && AllSpace(s[..i]) && AllSpace(s[j..])
  {
    var l := TrimLeft(s);
    var r := TrimRight(l);
    TrimLeftRemovesSpace(s);
    TrimRightRemovesSpace(l);
    var i := |s| - |l|;
    var j := i + |r|;
    assert r == s[i..j];
    assert s[j..] == l[|r|..];
  }

  /** A string that neither starts nor ends with white space is its own trim. */
  lemma TrimSpaceNoop(s: string)
    requires s == [] || (!IsSpace(s[0]) && !IsSpace(s[|s| - 1]))
    ensures TrimSpace(s) == s
  {
    assert TrimLeft(s) == s;
    assert TrimRight(s) == s;
  }

  lemma TrimSpaceIdempotent(s: string)
    ensures TrimSpace(TrimSpace(s)) == TrimSpace(s)
  {
    TrimSpaceNoop(TrimSpace(s));
  }

  /** Trimming leaves nothing exactly when the string is white space only. */
  lemma TrimSpaceEmptyIff(s: string)
    ensures TrimSpace(s) == [] <==> AllSpace(s)
  {
    TrimSpaceIsSlice(s);
    var i, j :| 0 <= i <= j <= |s| && TrimSpace(s) == s[i..j] && AllSpace(s[..i]) && AllSpace(s[j..]);
    if TrimSpace(s) == [] {
      forall k | 0 <= k < |s| ensures IsSpace(s[k]) {
        if k < i { assert s[..i][k] == s[k]; } else { assert s[j..][k - j] == s[k]; }
      }
    }
  }

  /** `c` appears in `s` from position `p` on. */
  predicate Occupies(s: string, p: nat, c: string) {
    p + |c| <= |s| && forall k :: 0 <= k < |c| ==> s[p + k] == c[k]
  }

  lemma OccupiesFront(c: string, r: string)
    ensures Occupies(c + r, 0, c)
  {
  }

  lemma OccupiesBack(a: string, c: string)
    ensures Occupies(a + c, |a|, c)
  {
  }

  /** What appears in `b` appears, shifted, after a prefix. */
  lemma OccupiesShift(a: string, b: string, i: nat, c: string)
    requires Occupies(b, i, c)
    ensures Occupies(a + b, |a| + i, c)
  {
    forall k | 0 <= k < |c|
      ensures (a + b)[|a| + i + k] == c[k]
    {
      assert (a + b)[|a| + i + k] == b[i + k];
    }
  }

  /** What appears in `t` still appears when text follows. */
  lemma OccupiesExtend(t: string, r: string, p: nat, c: string)
    requires Occupies(t, p, c)
    ensures Occupies(t + r, p, c)
  {
    forall k | 0 <= k < |c|
      ensures (t + r)[p + k] == c[k]
    {
      assert (t + r)[p + k] == t[p + k];
    }
  }

  lemma SliceOccupied(s: string, p: nat, c: string)
    requires Occupies(s, p, c)
    ensures s[p..p + |c|] == c
  {
  }

  lemma ConcatAssociative(a: string, b: string, c: string)
    ensures a + (b + c) == (a + b) + c
  {
  }

  /** A suffix is cut in two at any later position. */
  lemma SuffixSplit(s: string, i: nat, j: nat)
    requires i <= j <= |s|
    ensures s[i..] == s[i..j] + s[j..]
  {
  }

  predicate StartsWith(s: string, p: string) {
    |p| <= |s| && s[..|p|] == p
  }

  predicate Contains(s: string, p: string) {
    exists i :: 0 <= i <= |s| && StartsWith(s[i..], p)
  }

  /** `strings.ReplaceAll(s, pattern, replacement)` for a non-empty `pattern`: every
      occurrence, found left to right without overlap, becomes `replacement`. */
  function ReplaceAll(s: string, pattern: string, replacement: string): (r: string)
    requires pattern != []
    ensures |replacement| == |pattern| ==> |r| == |s|
    decreases |s|
  {
    if |s| < |pattern| then s
    else if s[..|pattern|] == pattern then replacement + ReplaceAll(s[|pattern|..], pattern, replacement)
    else [s[0]] + ReplaceAll(s[1..], pattern, replacement)
  }

  /** A string with no occurrence of `pattern` comes back unchanged. */
  lemma {:induction false} ReplaceAllAbsent(s: string, pattern: string, replacement: string)
    requires pattern != [] && !Contains(s, pattern)
    ensures ReplaceAll(s, pattern, replacement) == s
    decreases |s|
  {
    if |s| >= |pattern| {
      assert s[0..] == s;
      assert !Contains(s[1..], pattern);
      ReplaceAllAbsent(s[1..], pattern, replacement);
    }
  }

  /** Replacing a pattern by itself changes nothing. */
  lemma {:induction false} ReplaceAllSelf(s: string, pattern: string)
    requires pattern != []
    ensures ReplaceAll(s, pattern, pattern) == s
    decreases |s|
  {
    if |s| >= |pattern| {
      if s[..|pattern|] == pattern {
        ReplaceAllSelf(s[|pattern|..], pattern);
        assert pattern + s[|pattern|..] == s;
      } else {
        ReplaceAllSelf(s[1..], pattern);
        assert [s[0]] + s[1..] == s;
      }
    }
  }
}
