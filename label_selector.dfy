/** Label selectors of the metrics tools: the operator table `matchTypeMap`,
    the text form `Selector.String` sent to the backend, and the local
    evaluation `Selector.Matches` against a label set. */
module LabelSelector {
  import opened Wrappers

  /** `labels.MatchType`. */
  datatype MatchType = MatchEqual | MatchNotEqual | MatchRegexp | MatchNotRegexp

  /** `matchTypeMap`: the operator texts a filter may carry. */
  const MatchTypes: map<string, MatchType> :=
    map["" := MatchEqual, "=" := MatchEqual, "!=" := MatchNotEqual, "=~" := MatchRegexp, "!~" := MatchNotRegexp]

  /** The table knows exactly five operator texts; the empty one means equality. */
  lemma MatchTypeTable(t: string)
    ensures t in MatchTypes <==> t == "" || t == "=" || t == "!=" || t == "=~" || t == "!~"
    ensures t == "" || t == "=" ==> t in MatchTypes && MatchTypes[t] == MatchEqual
    ensures t == "!=" ==> t in MatchTypes && MatchTypes[t] == MatchNotEqual
    ensures t == "=~" ==> t in MatchTypes && MatchTypes[t] == MatchRegexp
    ensures t == "!~" ==> t in MatchTypes && MatchTypes[t] == MatchNotRegexp
  {
  }

  /** `LabelMatcher`: one filter as the caller wrote it. */
  datatype LabelMatcher = LabelMatcher(name: string, value: string, matchType: string)

  /** `Selector`: filters that must all hold. */
  datatype Selector = Selector(filters: seq<LabelMatcher>)

  // ---------------------------------------------------------------------
  // Selector.String

  /** The operator as written: an empty type is shown as "=". */
  function TypeText(t: string): string {
    if t == "" then "=" else t
  }

  /** `fmt.Sprintf("%s%s'%s'", f.Name, f.Type, f.Value)` with the type defaulted. */
  function FilterText(f: LabelMatcher): string {
    f.name + TypeText(f.matchType) + "'" + f.value + "'"
  }

  /** The separator the loop writes after filter `i`. */
  function Separator(fs: seq<LabelMatcher>, i: nat): string {
    if i < |fs| - 1 then ", " else ""
  }

  /** What the builder holds after the opening brace once the first `i`
      filters have been written. */
  function Written(fs: seq<LabelMatcher>, i: nat): string
    requires i <= |fs|
  {
    if i == 0 then "" else Written(fs, i - 1) + FilterText(fs[i - 1]) + Separator(fs, i - 1)
  }

  /** The text `Selector.String` returns. */
  function Render(s: Selector): string {
    "{" + Written(s.filters, |s.filters|) + "}"
  }

  /** `Selector.String`: a builder filled by a loop over the filters. */
  method SelectorString(s: Selector) returns (r: string)
    ensures r == Render(s)
  {
    var fs := s.filters;
    var b := "{";
    for i := 0 to |fs|
      invariant b == "{" + Written(fs, i)
    {
      var f := fs[i];
      var t := f.matchType;
      if t == "" {
        t := "=";
      }
      var piece := f.name + t + "'" + f.value + "'";
      ghost var before := b;
      b := b + piece;
      if i < |fs| - 1 {
        b := b + ", ";
      }
      assert b == (before + piece) + Separator(fs, i);
      Regroup("{", Written(fs, i), piece, Separator(fs, i));
    }
    r := b + "}";
  }

  lemma Regroup(a: string, b: string, c: string, d: string)
    ensures ((a + b) + c) + d == a + ((b + c) + d)
  {
  }

  /** `strings.Join(items, sep)`. */
  function Join(items: seq<string>, sep: string): string
  {
    if items == [] then ""
    else if |items| == 1 then items[0]
    else Join(items[..|items| - 1], sep) + sep + items[|items| - 1]
  }

  /** The text of each filter, in order. */
  function Texts(fs: seq<LabelMatcher>): seq<string>
  {
    seq(|fs|, i requires 0 <= i < |fs| => FilterText(fs[i]))
  }

  /** After `i > 0` filters the builder holds their texts joined by ", ",
      followed by a separator unless the last filter has been written. */
  lemma {:induction false} WrittenIsJoin(fs: seq<LabelMatcher>, i: nat)
    requires 0 < i <= |fs|
    ensures Written(fs, i) == Join(Texts(fs)[..i], ", ") + Separator(fs, i - 1)
    decreases i
  {
    var ts := Texts(fs);
    if i == 1 {
      assert ts[..1] == [FilterText(fs[0])];
    } else {
      WrittenIsJoin(fs, i - 1);
      assert ts[..i][..i - 1] == ts[..i - 1];
      assert Separator(fs, i - 2) == ", ";
      assert ts[..i][i - 1] == FilterText(fs[i - 1]);
      JoinStep(ts[..i], ", ");
    }
  }

  /** Joining two or more items is joining all but the last, then the
      separator and the last. */
  lemma JoinStep(items: seq<string>, sep: string)
    requires |items| >= 2
    ensures Join(items, sep) == Join(items[..|items| - 1], sep) + sep + items[|items| - 1]
  {
  }

  /** `Selector.String` is "{", the filters `name op 'value'` joined by ", ", then "}". */
  lemma RenderIsJoin(s: Selector)
    ensures Render(s) == "{" + Join(Texts(s.filters), ", ") + "}"
  {
    var fs := s.filters;
    if fs != [] {
      WrittenIsJoin(fs, |fs|);
      assert Texts(fs)[..|fs|] == Texts(fs);
    }
  }

  /** A selector without filters is "{}". */
  lemma RenderEmpty()
    ensures Render(Selector([])) == "{}"
  {
  }

  /** Every filter with its empty type replaced by "=". */
  function Normalized(fs: seq<LabelMatcher>): seq<LabelMatcher>
  {
    seq(|fs|, i requires 0 <= i < |fs| => fs[i].(matchType := TypeText(fs[i].matchType)))
  }

  /** An empty type renders exactly as "=". */
  lemma EmptyTypeRendersAsEqual(s: Selector)
    ensures Render(s) == Render(Selector(Normalized(s.filters)))
  {
    var fs := s.filters;
    var ns := Normalized(fs);
    assert Texts(fs) == Texts(ns);
    RenderIsJoin(s);
    RenderIsJoin(Selector(ns));
  }

  // ---------------------------------------------------------------------
  // Selector.Matches

  /** A label set: name-value pairs as `labels.Labels` holds them. */
  type Labels = seq<(string, string)>

  /** `Labels.Get`: the value of the first label called `name`, or "". */
  function Get(lbls: Labels, name: string): string
  {
    if lbls == [] then ""
    else if lbls[0].0 == name then lbls[0].1
    else Get(lbls[1..], name)
  }

  /** The regular-expression library as the label matchers use it:
      whether a pattern compiles, and whether a compiled pattern matches a
      whole value. Its algorithm is not part of this model. */
  datatype RegexOracle = RegexOracle(compiles: string -> bool, matches: (string, string) -> bool)

  /** `labels.Matcher`. */
  datatype Matcher = Matcher(matchType: MatchType, name: string, value: string)

  datatype SelectorError =
    | InvalidMatcherType(matchType: string)
    | MatcherCreation(name: string, value: string)

  /** `labels.NewMatcher`: fails only for a regular expression that does not compile. */
  function NewMatcher(t: MatchType, name: string, value: string, re: RegexOracle): (r: Result<Matcher, SelectorError>)
    ensures r.Err? <==> (t == MatchRegexp || t == MatchNotRegexp) && !re.compiles(value)
    ensures r.Ok? ==> r.value == Matcher(t, name, value)
  {
    if (t == MatchRegexp || t == MatchNotRegexp) && !re.compiles(value) then Err(MatcherCreation(name, value))
    else Ok(Matcher(t, name, value))
  }

  /** `Matcher.Matches(v)`. */
  function MatcherMatches(m: Matcher, v: string, re: RegexOracle): bool
  {
    match m.matchType
      case MatchEqual => v == m.value
      case MatchNotEqual => v != m.value
      case MatchRegexp => re.matches(m.value, v)
      case MatchNotRegexp => !re.matches(m.value, v)
  }

  /** The matcher for one filter, or the error `Selector.Matches` reports for it. */
  function FilterMatcher(f: LabelMatcher, re: RegexOracle): Result<Matcher, SelectorError>
  {
    if f.matchType !in MatchTypes then Err(InvalidMatcherType(f.matchType))
    else NewMatcher(MatchTypes[f.matchType], f.name, f.value, re)
  }

  /** The matchers of the first `n` filters, or the error of the first filter that has none. */
  function BuildMatchers(fs: seq<LabelMatcher>, n: nat, re: RegexOracle): (r: Result<seq<Matcher>, SelectorError>)
    requires n <= |fs|
    ensures r.Ok? ==> |r.value| == n
  {
    if n == 0 then Ok([])
    else match BuildMatchers(fs, n - 1, re)
      case Err(e) => Err(e)
      case Ok(ms) =>
        match FilterMatcher(fs[n - 1], re)
          case Err(e) => Err(e)
          case Ok(m) => Ok(ms + [m])
  }

  /** `labels.Selector.Matches`: every matcher holds for the label's value. */
  function AllMatch(ms: seq<Matcher>, lbls: Labels, re: RegexOracle): bool
  {
    if ms == [] then true
    else MatcherMatches(ms[0], Get(lbls, ms[0].name), re) && AllMatch(ms[1..], lbls, re)
  }

  /** What `Selector.Matches(lbls)` returns. */
  function SelectorMatches(s: Selector, lbls: Labels, re: RegexOracle): Result<bool, SelectorError>
  {
    match BuildMatchers(s.filters, |s.filters|, re)
      case Err(e) => Err(e)
      case Ok(ms) => Ok(AllMatch(ms, lbls, re))
  }

  /** `Selector.Matches`: all matchers are built first, then evaluated together. */
  method Matches(s: Selector, lbls: Labels, re: RegexOracle) returns (r: Result<bool, SelectorError>)
    ensures r == SelectorMatches(s, lbls, re)
  {
    var fs := s.filters;
    var matchers: seq<Matcher> := [];
    for i := 0 to |fs|
      invariant BuildMatchers(fs, i, re) == Ok(matchers)
    {
      var filter := fs[i];
      if filter.matchType !in MatchTypes {
        ErrorPersists(fs, i + 1, |fs|, re);
        return Err(InvalidMatcherType(filter.matchType));
      }
      var matcher := NewMatcher(MatchTypes[filter.matchType], filter.name, filter.value, re);
      if matcher.Err? {
        ErrorPersists(fs, i + 1, |fs|, re);
        return Err(matcher.error);
      }
      matchers := matchers + [matcher.value];
    }
    return Ok(AllMatch(matchers, lbls, re));
  }

  /** A filter `Selector.Matches` can turn into a matcher. */
  predicate Buildable(f: LabelMatcher, re: RegexOracle) {
    f.matchType in MatchTypes
    && !((MatchTypes[f.matchType] == MatchRegexp || MatchTypes[f.matchType] == MatchNotRegexp) && !re.compiles(f.value))
  }

  /** The filter holds for the label set. */
  predicate Holds(f: LabelMatcher, lbls: Labels, re: RegexOracle) {
    f.matchType in MatchTypes && MatcherMatches(Matcher(MatchTypes[f.matchType], f.name, f.value), Get(lbls, f.name), re)
  }

  /** Matchers can be built exactly when every filter is buildable, and
      then the `i`th matcher is that of the `i`th filter. */
  lemma {:induction false} BuildMatchersOk(fs: seq<LabelMatcher>, n: nat, re: RegexOracle)
    requires n <= |fs|
    ensures BuildMatchers(fs, n, re).Ok? <==> forall i :: 0 <= i < n ==> Buildable(fs[i], re)
    ensures BuildMatchers(fs, n, re).Ok? ==> forall i :: 0 <= i < n ==>
      BuildMatchers(fs, n, re).value[i] == Matcher(MatchTypes[fs[i].matchType], fs[i].name, fs[i].value)
    decreases n
  {
    if n > 0 {
      BuildMatchersOk(fs, n - 1, re);
    }
  }

  /** The conjunction holds exactly when every matcher holds. */
  lemma {:induction false} AllMatchIff(ms: seq<Matcher>, lbls: Labels, re: RegexOracle)
    ensures AllMatch(ms, lbls, re) <==> forall i :: 0 <= i < |ms| ==> MatcherMatches(ms[i], Get(lbls, ms[i].name), re)
    decreases |ms|
  {
    if ms != [] {
      AllMatchIff(ms[1..], lbls, re);
      assert forall i :: 1 <= i < |ms| ==> ms[i] == ms[1..][i - 1];
    }
  }

  /** `Selector.Matches` fails, whatever the labels, exactly when some
      filter has an unknown type or a regular expression that does not compile. */
  lemma MatchesFailsIff(s: Selector, lbls: Labels, re: RegexOracle)
    ensures SelectorMatches(s, lbls, re).Err? <==> exists i :: 0 <= i < |s.filters| && !Buildable(s.filters[i], re)
  {
    BuildMatchersOk(s.filters, |s.filters|, re);
  }

  /** Otherwise it answers whether every filter holds. */
  lemma MatchesIsConjunction(s: Selector, lbls: Labels, re: RegexOracle)
    requires forall i :: 0 <= i < |s.filters| ==> Buildable(s.filters[i], re)
    ensures SelectorMatches(s, lbls, re) == Ok(forall i :: 0 <= i < |s.filters| ==> Holds(s.filters[i], lbls, re))
  {
    var fs := s.filters;
    BuildMatchersOk(fs, |fs|, re);
    var ms := BuildMatchers(fs, |fs|, re).value;
    AllMatchIff(ms, lbls, re);
    forall i | 0 <= i < |fs|
      ensures MatcherMatches(ms[i], Get(lbls, ms[i].name), re) <==> Holds(fs[i], lbls, re)
    {
      assert Buildable(fs[i], re);
    }
  }

  /** An empty selector matches every label set. */
  lemma EmptySelectorMatchesAll(lbls: Labels, re: RegexOracle)
    ensures SelectorMatches(Selector([]), lbls, re) == Ok(true)
  {
  }

  /** The first unknown operator is the error reported, even when the
      filters before it would not match. */
  lemma FirstUnknownTypeReported(s: Selector, k: nat, lbls: Labels, re: RegexOracle)
    requires k < |s.filters| && s.filters[k].matchType !in MatchTypes
    requires forall i :: 0 <= i < k ==> Buildable(s.filters[i], re)
    ensures SelectorMatches(s, lbls, re) == Err(InvalidMatcherType(s.filters[k].matchType))
  {
    FirstErrorPersists(s.filters, k, |s.filters|, re);
  }

  /** An unknown operator at `k` after buildable filters is the error of every longer prefix. */
  lemma FirstErrorPersists(fs: seq<LabelMatcher>, k: nat, n: nat, re: RegexOracle)
    requires k < n <= |fs| && fs[k].matchType !in MatchTypes
    requires forall i :: 0 <= i < k ==> Buildable(fs[i], re)
    ensures BuildMatchers(fs, n, re) == Err(InvalidMatcherType(fs[k].matchType))
  {
    BuildMatchersOk(fs, k, re);
    ErrorPersists(fs, k + 1, n, re);
  }

  /** A failure stays the result as further filters are considered. */
  lemma {:induction false} ErrorPersists(fs: seq<LabelMatcher>, k: nat, n: nat, re: RegexOracle)
    requires k <= n <= |fs| && BuildMatchers(fs, k, re).Err?
    ensures BuildMatchers(fs, n, re) == BuildMatchers(fs, k, re)
    decreases n
  {
    if n > k {
      ErrorPersists(fs, k, n - 1, re);
    }
  }
}
