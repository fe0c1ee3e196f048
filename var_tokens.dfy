/** Template variables in query text: the matches of the regular expression
    `\$\w+` and the de-duplicated variable names drawn from them. */
module VarTokens {

  /** `\w` in Go's regular-expression syntax: an ASCII letter, digit or '_'. */
  predicate IsWordChar(c: char) {
    'a' <= c <= 'z' || 'A' <= c <= 'Z' || '0' <= c <= '9' || c == '_'
  }

  /** Length of the run of word characters at the front of `s`. */
  function WordRun(s: string): (n: nat)
    ensures n <= |s|
    ensures forall i :: 0 <= i < n ==> IsWordChar(s[i])
    ensures n < |s| ==> !IsWordChar(s[n])
    decreases |s|
  {
    if s != [] && IsWordChar(s[0]) then 1 + WordRun(s[1..]) else 0
  }

  /** A match of `\$\w+`: a '$' followed by one or more word characters. */
  predicate IsToken(t: string) {
    |t| >= 2 && t[0] == '$' && forall i :: 1 <= i < |t| ==> IsWordChar(t[i])
  }

  /** Somewhere in `s` a '$' is directly followed by a word character. */
  predicate HasTokenStart(s: string) {
    exists i :: 0 <= i < |s| - 1 && s[i] == '$' && IsWordChar(s[i + 1])
  }

  /** `FindAllString(s, -1)` for `\$\w+`: the leftmost non-overlapping
      matches, each as long as possible, in order. */
  function Tokens(s: string): (r: seq<string>)
    ensures forall i :: 0 <= i < |r| ==> IsToken(r[i])
    decreases |s|
  {
    if |s| < 2 then []
    else if s[0] == '$' && IsWordChar(s[1]) then
      var n := 1 + WordRun(s[1..]);
      [s[..n]] + Tokens(s[n..])
    else Tokens(s[1..])
  }

  /** There is no match exactly when no '$' is followed by a word character. */
  lemma {:induction false} TokensEmptyIff(s: string)
    ensures Tokens(s) == [] <==> !HasTokenStart(s)
    decreases |s|
  {
    if |s| < 2 {
    } else if s[0] == '$' && IsWordChar(s[1]) {
      assert 0 < |s| - 1 && s[0] == '$' && IsWordChar(s[0 + 1]);
    } else {
      TokensEmptyIff(s[1..]);
      if HasTokenStart(s) {
        var i :| 0 <= i < |s| - 1 && s[i] == '$' && IsWordChar(s[i + 1]);
        assert i != 0;
        assert s[1..][i - 1] == '$' && IsWordChar(s[1..][i - 1 + 1]);
      }
      if HasTokenStart(s[1..]) {
        var i :| 0 <= i < |s[1..]| - 1 && s[1..][i] == '$' && IsWordChar(s[1..][i + 1]);
        assert s[i + 1] == '$' && IsWordChar(s[i + 1 + 1]);
      }
    }
  }

  /** Position `i` of `s` is where a match begins: a '$' directly followed
      by a word character. No such position lies inside another match,
      since '$' is not a word character. */
  predicate StartsAt(s: string, i: int) {
    0 <= i < |s| - 1 && s[i] == '$' && IsWordChar(s[i + 1])
  }

  /** The match beginning at `i`: the '$' and the whole run of word
      characters after it. */
  function MatchAt(s: string, i: int): string
    requires StartsAt(s, i)
  {
    s[i .. i + 1 + WordRun(s[i + 1..])]
  }

  /** Reference reading of `\$\w+` over `s[j..]`: the match at every
      position where one begins, scanning positions left to right. */
  function MatchesFrom(s: string, j: nat): seq<string>
    requires j <= |s|
    decreases |s| - j
  {
    if j == |s| then []
    else if StartsAt(s, j) then [MatchAt(s, j)] + MatchesFrom(s, j + 1)
    else MatchesFrom(s, j + 1)
  }

  /** Inside the match that begins at `j` no other match begins. */
  lemma {:induction false} NoStartInsideMatch(s: string, j: nat, k: nat)
    requires StartsAt(s, j) && j < k <= j + 1 + WordRun(s[j + 1..])
    ensures MatchesFrom(s, k) == MatchesFrom(s, j + 1 + WordRun(s[j + 1..]))
    decreases j + 1 + WordRun(s[j + 1..]) - k
  {
    var e := j + 1 + WordRun(s[j + 1..]);
    if k < e {
      assert IsWordChar(s[j + 1..][k - j - 1]);
      assert !StartsAt(s, k);
      NoStartInsideMatch(s, j, k + 1);
    }
  }

  /** `Tokens` of a suffix is the reference reading from that position on. */
  lemma {:induction false} TokensFrom(s: string, j: nat)
    requires j <= |s|
    ensures Tokens(s[j..]) == MatchesFrom(s, j)
    decreases |s| - j
  {
    var t := s[j..];
    if |t| < 2 {
      assert !StartsAt(s, j);
      if j < |s| {
        assert MatchesFrom(s, j) == MatchesFrom(s, j + 1);
      }
    } else {
      assert t[1..] == s[j + 1..];
      if t[0] == '$' && IsWordChar(t[1]) {
        var n := 1 + WordRun(t[1..]);
        assert t[..n] == MatchAt(s, j);
        assert t[n..] == s[j + n..];
        assert Tokens(t) == [t[..n]] + Tokens(t[n..]);
        TokensFrom(s, j + n);
        NoStartInsideMatch(s, j, j + 1);
        assert MatchesFrom(s, j) == [MatchAt(s, j)] + MatchesFrom(s, j + 1);
      } else {
        assert !StartsAt(s, j);
        assert Tokens(t) == Tokens(s[j + 1..]);
        TokensFrom(s, j + 1);
        assert MatchesFrom(s, j) == MatchesFrom(s, j + 1);
      }
    }
  }

  /** `Tokens(s)` lists the match at every position where one begins, in
      increasing order of position, each taking the whole word run:
      exactly the matches `FindAllString` reports. */
  lemma TokensAreMatches(s: string)
    ensures Tokens(s) == MatchesFrom(s, 0)
  {
    TokensFrom(s, 0);
    assert s[0..] == s;
  }

  /** The match of every beginning position from `j` on is listed. */
  lemma {:induction false} MatchListed(s: string, j: nat, i: nat)
    requires j <= i && StartsAt(s, i)
    ensures MatchAt(s, i) in MatchesFrom(s, j)
    decreases i - j
  {
    if j < i {
      MatchListed(s, j + 1, i);
    }
  }

  /** Everything listed from `j` on is the match of a beginning position. */
  lemma {:induction false} ListedIsMatch(s: string, j: nat, t: string) returns (i: nat)
    requires j <= |s| && t in MatchesFrom(s, j)
    ensures j <= i && StartsAt(s, i) && t == MatchAt(s, i)
    decreases |s| - j
  {
    if StartsAt(s, j) && t == MatchAt(s, j) {
      i := j;
    } else {
      assert t in MatchesFrom(s, j + 1);
      i := ListedIsMatch(s, j + 1, t);
    }
  }

  /** A text is a match of `\$\w+` in `s` exactly when some position of `s`
      begins a match that is that text. */
  lemma TokensMembers(s: string, t: string)
    ensures t in Tokens(s) <==> exists i :: StartsAt(s, i) && t == MatchAt(s, i)
  {
    TokensAreMatches(s);
    if t in Tokens(s) {
      var i := ListedIsMatch(s, 0, t);
    }
    if exists i :: StartsAt(s, i) && t == MatchAt(s, i) {
      var i :| StartsAt(s, i) && t == MatchAt(s, i);
      MatchListed(s, 0, i);
    }
  }

  /** A text without '$' has no matches. */
  lemma NoDollarNoTokens(s: string)
    requires '$' !in s
    ensures Tokens(s) == []
  {
    TokensEmptyIff(s);
  }

  /** Each match with its leading '$' removed (`v[1:]`). */
  function Stripped(ts: seq<string>): (r: seq<string>)
    requires forall i :: 0 <= i < |ts| ==> IsToken(ts[i])
    ensures |r| == |ts|
    ensures forall i :: 0 <= i < |ts| ==> "$" + r[i] == ts[i]
  {
    if ts == [] then []
    else
      var t := ts[|ts| - 1];
      assert IsToken(t);
      assert t == "$" + t[1..];
      Stripped(ts[..|ts| - 1]) + [t[1..]]
  }

  /** No element occurs twice. */
  predicate NoDuplicates(xs: seq<string>) {
    forall i, j :: 0 <= i < j < |xs| ==> xs[i] != xs[j]
  }

  /** `xs` keeping only the first occurrence of each element. */
  function Distinct(xs: seq<string>): seq<string>
    decreases |xs|
  {
    if xs == [] then []
    else
      var prefix := Distinct(xs[..|xs| - 1]);
      var last := xs[|xs| - 1];
      if last in prefix then prefix else prefix + [last]
  }

  /** No element is kept twice, and exactly the elements of `xs` are kept. */
  lemma {:induction false} DistinctMembers(xs: seq<string>)
    ensures NoDuplicates(Distinct(xs))
    ensures forall x :: x in Distinct(xs) <==> x in xs
    decreases |xs|
  {
    if xs != [] {
      var init := xs[..|xs| - 1];
      var last := xs[|xs| - 1];
      DistinctMembers(init);
      assert xs == init + [last];
    }
  }

  /** Index of the first occurrence of `x` in `xs`. */
  function FirstIndex(xs: seq<string>, x: string): (k: nat)
    requires x in xs
    ensures k < |xs| && xs[k] == x && x !in xs[..k]
  {
    if xs[0] == x then 0
    else
      var k := 1 + FirstIndex(xs[1..], x);
      assert xs[1..][..k - 1] == xs[1..k];
      k
  }

  lemma FirstIndexPrefix(xs: seq<string>, n: nat, x: string)
    requires n <= |xs| && x in xs[..n]
    ensures x in xs && FirstIndex(xs, x) == FirstIndex(xs[..n], x)
  {
    var k := FirstIndex(xs[..n], x);
    var m := FirstIndex(xs, x);
    assert xs[..n][..k] == xs[..k];
  }

  /** The names keep the order in which each first appears. */
  lemma {:induction false} DistinctFirstSeenOrder(xs: seq<string>)
    ensures forall x :: x in Distinct(xs) ==> x in xs
    ensures forall i, j :: 0 <= i < j < |Distinct(xs)| ==>
      FirstIndex(xs, Distinct(xs)[i]) < FirstIndex(xs, Distinct(xs)[j])
    decreases |xs|
  {
    DistinctMembers(xs);
    if xs != [] {
      var n := |xs| - 1;
      var init := xs[..n];
      var last := xs[n];
      DistinctFirstSeenOrder(init);
      var p := Distinct(init);
      DistinctMembers(init);
      forall y | y in p
        ensures FirstIndex(xs, y) == FirstIndex(init, y) && FirstIndex(init, y) < n
      {
        FirstIndexPrefix(xs, n, y);
      }
      if last !in p {
        assert last !in init;
        assert FirstIndex(xs, last) == n;
      }
    }
  }

  /** The variable names of a query: each `$name` once, in order of first
      appearance, without the '$'. */
  function VariableNames(expr: string): seq<string> {
    Distinct(Stripped(Tokens(expr)))
  }

  /** A name is listed exactly when `$name` is a match in the query, and no
      name is listed twice. */
  lemma VariableNamesAreTokens(expr: string, name: string)
    ensures NoDuplicates(VariableNames(expr))
    ensures name in VariableNames(expr) <==> "$" + name in Tokens(expr)
  {
    var ts := Tokens(expr);
    var names := Stripped(ts);
    DistinctMembers(names);
    if "$" + name in ts {
      var i :| 0 <= i < |ts| && ts[i] == "$" + name;
      assert ("$" + names[i])[1..] == ("$" + name)[1..];
      assert names[i] == name;
    }
  }

  lemma StrippedStep(ts: seq<string>, k: nat)
    requires k < |ts| && forall i :: 0 <= i < |ts| ==> IsToken(ts[i])
    ensures Stripped(ts[..k + 1]) == Stripped(ts[..k]) + [ts[k][1..]]
  {
    assert ts[..k + 1][..k] == ts[..k];
  }

  /** One more element is kept exactly when it has not been seen. */
  lemma DistinctStep(xs: seq<string>, x: string)
    ensures Distinct(xs + [x]) == if x in Distinct(xs) then Distinct(xs) else Distinct(xs) + [x]
  {
    assert (xs + [x])[..|xs|] == xs;
  }

  /** The loop over the raw matches with a `seen` set. */
  method UniqueVariableNames(expr: string) returns (names: seq<string>)
    ensures names == VariableNames(expr)
  {
    var rawVars := Tokens(expr);
    names := [];
    var seen: set<string> := {};
    for k := 0 to |rawVars|
      invariant names == Distinct(Stripped(rawVars[..k]))
      invariant forall x :: x in seen <==> x in names
    {
      var name := rawVars[k][1..];
      StrippedStep(rawVars, k);
      DistinctStep(Stripped(rawVars[..k]), name);
      if name !in seen {
        seen := seen + {name};
        names := names + [name];
      }
    }
    assert rawVars[..|rawVars|] == rawVars;
  }
}
