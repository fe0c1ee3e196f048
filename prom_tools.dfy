/** The Prometheus tools: `queryPrometheus` up to the range query it sends,
    and the local filtering, pagination and truncation of
    `listPrometheusMetricNames`, `listPrometheusLabelNames` and
    `listPrometheusLabelValues`. Whether a client could be obtained, the
    backend's answers, the clock and the RFC 3339 parser are parameters. */
module PromTools {
  import opened Wrappers
  import opened GoNumbers
  import opened GoStrings
  import opened TimeExpr
  import opened VarTokens
  import opened LabelSelector

  // ---------------------------------------------------------------------
  // queryPrometheus

  /** `QueryPrometheusParams`; the `Variables` map as the pairs in the
      order one iteration over it visits them. */
  datatype QueryArgs = QueryArgs(
    datasourceUid: string, expr: string, from: string, to: string,
    stepSeconds: Int64, queryType: string, variables: seq<(string, string)>)

  /** The expression and the `promv1.Range` sent to `QueryRange`: instants
      and the step in nanoseconds. */
  datatype RangeQuery = RangeQuery(expr: string, start: int, end: int, step: int)

  datatype QueryError =
    | QueryNoClient
      /** `UnresolvedVariablesError`: every match of `\$\w+`, repeats included. */
    | Unresolved(missing: seq<string>)
    | BadFrom(fromError: TimeError)
    | BadTo(toError: TimeError)
    | QueryFailed

  /** The step of every query, whatever the caller asked for: 30 seconds. */
  const QueryStep: int := 30_000_000_000

  /** The expression once each `$name` of the variables, in iteration
      order, has been replaced everywhere by its value. */
  function Substituted(expr: string, vars: seq<(string, string)>): string
    decreases |vars|
  {
    if vars == [] then expr
    else Substituted(ReplaceAll(expr, "$" + vars[0].0, vars[0].1), vars[1..])
  }

  /** The substitution loop of `queryPrometheus`. */
  method SubstituteVariables(expr: string, vars: seq<(string, string)>) returns (e: string)
    ensures e == Substituted(expr, vars)
  {
    e := expr;
    for i := 0 to |vars|
      invariant Substituted(e, vars[i..]) == Substituted(expr, vars)
    {
      var (name, value) := vars[i];
      assert vars[i..][1..] == vars[i + 1..];
      e := ReplaceAll(e, "$" + name, value);
    }
  }

  /** Substituting two lists of variables in turn is substituting their concatenation. */
  lemma {:induction false} SubstitutedConcat(expr: string, a: seq<(string, string)>, b: seq<(string, string)>)
    ensures Substituted(expr, a + b) == Substituted(Substituted(expr, a), b)
    decreases |a|
  {
    if a != [] {
      assert (a + b)[0] == a[0] && (a + b)[1..] == a[1..] + b;
      SubstitutedConcat(ReplaceAll(expr, "$" + a[0].0, a[0].1), a[1..], b);
    } else {
      assert a + b == b;
    }
  }

  /** An expression without '$' is left as it is. */
  lemma {:induction false} NoDollarUnchanged(expr: string, vars: seq<(string, string)>)
    requires '$' !in expr
    ensures Substituted(expr, vars) == expr
    decreases |vars|
  {
    if vars != [] {
      var pattern := "$" + vars[0].0;
      forall i | 0 <= i <= |expr|
        ensures !StartsWith(expr[i..], pattern)
      {
        if i < |expr| && |pattern| <= |expr[i..]| {
          assert expr[i..][..|pattern|][0] == expr[i] != pattern[0];
        }
      }
      ReplaceAllAbsent(expr, pattern, vars[0].1);
      NoDollarUnchanged(expr, vars[1..]);
    }
  }

  /** The iteration order over the variables decides the outcome: with
      a = "$b" and b = "1", the query "$a" becomes "1" in one order and keeps
      the unresolved "$b" in the other. */
  lemma SubstitutionOrderMatters()
    ensures Substituted("$a", [("a", "$b"), ("b", "1")]) == "1"
    ensures Substituted("$a", [("b", "1"), ("a", "$b")]) == "$b"
    ensures Tokens("1") == [] && Tokens("$b") == ["$b"]
  {
    assert ReplaceAll("", "$a", "$b") == "";
    assert ReplaceAll("$a", "$a", "$b") == "$b";
    assert ReplaceAll("", "$b", "1") == "";
    assert ReplaceAll("$b", "$b", "1") == "1";
    assert ReplaceAll("a", "$b", "1") == "a";
    assert ReplaceAll("$a", "$b", "1") == "$a";
    assert WordRun("b") == 1;
  }

  /** A variable whose name starts another one's also replaces the front of
      it: with job = "x", "$job_name" becomes "x_name". */
  lemma PrefixNamesCollide()
    ensures Substituted("$job_name", [("job", "x")]) == "x_name"
  {
    var s := "$job_name";
    assert s[..4] == "$job";
    assert s[4..] == "_name";
    assert ReplaceAll("_name", "$job", "x") == "_name" by {
      NoDollarUnchanged("_name", [("job", "x")]);
    }
  }

  /** The range query `queryPrometheus` sends, or the error it reports
      before sending one. The query type and the step of the arguments are
      not consulted: the type is always forced to "range" and the step is
      always 30 seconds. */
  function RangeRequest(args: QueryArgs, now: int, rfc: string -> Option<int>): (r: Result<RangeQuery, QueryError>)
    ensures r.Ok? ==> r.value.step == QueryStep && r.value.expr == Substituted(args.expr, args.variables)
                      && !HasTokenStart(r.value.expr)
  {
    var expr := Substituted(args.expr, args.variables);
    var unresolved := Tokens(expr);
    TokensEmptyIff(expr);
    if unresolved != [] then Err(Unresolved(unresolved))
    else match UserTime(args.from, now, rfc)
      case Err(e) => Err(BadFrom(e))
      case Ok(start) =>
        match UserTime(args.to, now, rfc)
          case Err(e) => Err(BadTo(e))
          case Ok(end) => Ok(RangeQuery(expr, start, end, QueryStep))
  }

  /** What `queryPrometheus` returns: `client` says whether a client for the
      data source could be obtained, `queryRange` is the backend. */
  function QueryOutcome<V>(args: QueryArgs, client: bool, now: int, rfc: string -> Option<int>,
                           queryRange: RangeQuery -> Reply<V>): Result<V, QueryError>
  {
    if !client then Err(QueryNoClient)
    else match RangeRequest(args, now, rfc)
      case Err(e) => Err(e)
      case Ok(q) =>
        match queryRange(q)
          case Failed => Err(QueryFailed)
          case Answered(v) => Ok(v)
  }

  /** `queryPrometheus`. */
  method QueryPrometheus<V>(args: QueryArgs, client: bool, now: int, rfc: string -> Option<int>,
                            queryRange: RangeQuery -> Reply<V>) returns (r: Result<V, QueryError>)
    ensures r == QueryOutcome(args, client, now, rfc, queryRange)
  {
    if !client {
      return Err(QueryNoClient);
    }
    var expr := SubstituteVariables(args.expr, args.variables);
    var unresolved := Tokens(expr);
    if |unresolved| > 0 {
      return Err(Unresolved(unresolved));
    }
    var fromTime := ParseUserTime(args.from, now, rfc);
    if fromTime.Err? {
      return Err(BadFrom(fromTime.error));
    }
    var toTime := ParseUserTime(args.to, now, rfc);
    if toTime.Err? {
      return Err(BadTo(toTime.error));
    }
    var result := queryRange(RangeQuery(expr, fromTime.value, toTime.value, QueryStep));
    if result.Failed? {
      return Err(QueryFailed);
    }
    return Ok(result.value);
  }

  /** The unresolved-variables error is reported exactly when a `$` followed
      by a word character survives substitution, and it lists the matches
      `Tokens` gives (every match of `\$\w+`, left to right, by
      `TokensAreMatches`); it comes before either time is looked at. */
  lemma UnresolvedIff(args: QueryArgs, now: int, rfc: string -> Option<int>)
    ensures var expr := Substituted(args.expr, args.variables);
      && (RangeRequest(args, now, rfc).Err? && RangeRequest(args, now, rfc).error.Unresolved?
          <==> HasTokenStart(expr))
      && (HasTokenStart(expr) ==> RangeRequest(args, now, rfc) == Err(Unresolved(Tokens(expr))))
  {
    TokensEmptyIff(Substituted(args.expr, args.variables));
  }

  /** Repeated unresolved variables are all listed: "$a+$a" reports "$a" twice. */
  lemma RepeatsAreReported(now: int, rfc: string -> Option<int>)
    ensures RangeRequest(QueryArgs("uid", "$a+$a", "now", "now", 0, "", []), now, rfc)
         == Err(Unresolved(["$a", "$a"]))
  {
    var args := QueryArgs("uid", "$a+$a", "now", "now", 0, "", []);
    assert Substituted(args.expr, args.variables) == "$a+$a";
    RepeatedToken();
  }

  lemma RepeatedToken()
    ensures Tokens("$a+$a") == ["$a", "$a"]
  {
    var s := "$a+$a";
    assert "$a"[1..] == "a" && "a"[1..] == [];
    assert WordRun("a") == 1;
    assert "$a"[..2] == "$a" && "$a"[2..] == [];
    assert Tokens("$a") == ["$a"];
    assert "+$a"[1..] == "$a";
    assert Tokens("+$a") == ["$a"];
    assert s[1..] == "a+$a" && "a+$a"[1..] == "+$a";
    assert WordRun("+$a") == 0;
    assert WordRun(s[1..]) == 1;
    assert s[..2] == "$a" && s[2..] == "+$a";
  }

  /** A query is sent exactly when no variable is left and both times parse;
      it spans from the `from` instant to the `to` instant. */
  lemma RangeRequestOkIff(args: QueryArgs, now: int, rfc: string -> Option<int>)
    ensures var expr := Substituted(args.expr, args.variables);
      RangeRequest(args, now, rfc).Ok? <==>
        !HasTokenStart(expr) && UserTime(args.from, now, rfc).Ok? && UserTime(args.to, now, rfc).Ok?
    ensures RangeRequest(args, now, rfc).Ok? ==>
      RangeRequest(args, now, rfc).value
        == RangeQuery(Substituted(args.expr, args.variables), UserTime(args.from, now, rfc).value,
                      UserTime(args.to, now, rfc).value, QueryStep)
  {
    TokensEmptyIff(Substituted(args.expr, args.variables));
  }

  /** A bad `from` is reported even when `to` is bad too. */
  lemma FromCheckedFirst(args: QueryArgs, now: int, rfc: string -> Option<int>)
    requires !HasTokenStart(Substituted(args.expr, args.variables))
    requires UserTime(args.from, now, rfc).Err?
    ensures RangeRequest(args, now, rfc) == Err(BadFrom(UserTime(args.from, now, rfc).error))
  {
    TokensEmptyIff(Substituted(args.expr, args.variables));
  }

  /** Without `$`, a query from "now" to "now" is a 30-second-step range
      query of the expression itself over the single instant `now`. */
  lemma InstantWindow(args: QueryArgs, now: int, rfc: string -> Option<int>)
    requires '$' !in args.expr && args.from == "now" && args.to == "now"
    ensures RangeRequest(args, now, rfc) == Ok(RangeQuery(args.expr, now, now, QueryStep))
  {
    NoDollarUnchanged(args.expr, args.variables);
    NoDollarNoTokens(args.expr);
    NowIsNow(now, rfc);
  }

  /** The backend is called with the request and its answer passed on. */
  lemma QueryOutcomeOfRequest<V>(args: QueryArgs, now: int, rfc: string -> Option<int>, queryRange: RangeQuery -> Reply<V>)
    ensures QueryOutcome(args, false, now, rfc, queryRange) == Err(QueryNoClient)
    ensures RangeRequest(args, now, rfc).Err? ==>
      QueryOutcome(args, true, now, rfc, queryRange) == Err(RangeRequest(args, now, rfc).error)
    ensures RangeRequest(args, now, rfc).Ok? ==>
      var q := RangeRequest(args, now, rfc).value;
      QueryOutcome(args, true, now, rfc, queryRange)
        == if queryRange(q).Answered? then Ok(queryRange(q).value) else Err(QueryFailed)
  {
  }

  // ---------------------------------------------------------------------
  // Listing

  datatype ListError =
    | ListNoClient
    | ListFailed
    | BadRegex(regex: string)
    | BadStart(startText: string)
    | BadEnd(endText: string)
      /** A slice expression Go would panic on (negative bounds). */
    | SliceOutOfRange

  /** A label lookup as sent to the backend: the selectors as text and the
      optional bounds (None is Go's zero `time.Time`, meaning no bound). */
  datatype SeriesRequest = SeriesRequest(matchers: seq<string>, start: Option<int>, end: Option<int>)

  /** The backend's `LabelValues(label, request)` and `LabelNames(request)`. */
  type ValuesBackend = (string, SeriesRequest) -> Reply<seq<string>>
  type NamesBackend = SeriesRequest -> Reply<seq<string>>

  // ---------------------------------------------------------------------
  // listPrometheusMetricNames

  datatype MetricNamesArgs = MetricNamesArgs(datasourceUid: string, regex: string, limit: Int64, page: Int64)

  /** Go's `regexp` as the metric-name filter uses it: whether a pattern
      compiles, and whether it matches somewhere in a value (`MatchString`
      is not anchored). Its algorithm is not part of this model. */
  datatype Search = Search(compiles: string -> bool, finds: (string, string) -> bool)

  /** The label whose values are the metric names. */
  const MetricNameLabel: string := "__name__"

  /** The values in which `regex` finds a match, in their order. */
  function Filtered(values: seq<string>, regex: string, re: Search): (r: seq<string>)
    ensures |r| <= |values|
  {
    if values == [] then []
    else
      var last := values[|values| - 1];
      Filtered(values[..|values| - 1], regex, re) + (if re.finds(regex, last) then [last] else [])
  }

  /** The names kept before pagination: all of them without a regex. */
  function Matching(values: seq<string>, regex: string, re: Search): seq<string> {
    if regex == "" then values else Filtered(values, regex, re)
  }

  /** Filtering distributes over concatenation, so the kept values keep their order. */
  lemma {:induction false} FilteredConcat(a: seq<string>, b: seq<string>, regex: string, re: Search)
    ensures Filtered(a + b, regex, re) == Filtered(a, regex, re) + Filtered(b, regex, re)
    decreases |b|
  {
    if b != [] {
      var n := |b| - 1;
      assert (a + b)[..|a + b| - 1] == a + b[..n];
      assert (a + b)[|a + b| - 1] == b[n];
      FilteredConcat(a, b[..n], regex, re);
    } else {
      assert a + b == a;
    }
  }

  /** A value is kept exactly when it is among the values and accepted. */
  lemma {:induction false} FilteredMembers(values: seq<string>, regex: string, re: Search, x: string)
    ensures x in Filtered(values, regex, re) <==> x in values && re.finds(regex, x)
    decreases |values|
  {
    if values != [] {
      var n := |values| - 1;
      FilteredMembers(values[..n], regex, re, x);
      assert values == values[..n] + [values[n]];
    }
  }

  /** A filter that accepts everything keeps everything. */
  lemma {:induction false} FilteredKeepsAll(values: seq<string>, regex: string, re: Search)
    requires forall v :: re.finds(regex, v)
    ensures Filtered(values, regex, re) == values
    decreases |values|
  {
    if values != [] {
      FilteredKeepsAll(values[..|values| - 1], regex, re);
      assert values[..|values| - 1] + [values[|values| - 1]] == values;
    }
  }

  /** `matches[start:end]`, cut short at the end of the list and empty
      past it; a slice Go would panic on is an error. */
  function Window(matches: seq<string>, start: Int64, end: Int64): Result<seq<string>, ListError>
  {
    if start >= |matches| then Ok([])
    else if end > |matches| then
      if start < 0 then Err(SliceOutOfRange) else Ok(matches[start..])
    else if start < 0 || end < start then Err(SliceOutOfRange)
    else Ok(matches[start..end])
  }

  /** The pagination of `listPrometheusMetricNames`: `start := (page - 1) *
      limit` and `end := start + limit` in wrapping int arithmetic. */
  function Page(matches: seq<string>, limit: Int64, page: Int64): Result<seq<string>, ListError>
  {
    var start := Mul64(Sub64(page, 1), limit);
    Window(matches, start, Add64(start, limit))
  }

  function Min(a: int, b: int): int { if a <= b then a else b }

  /** `r` is the run of `matches` that starts at position `i`. */
  predicate RunAt(r: seq<string>, matches: seq<string>, i: int) {
    0 <= i <= |matches| - |r| && r == matches[i..i + |r|]
  }

  lemma MulSuccessor(q: int, l: int)
    ensures (q + 1) * l == q * l + l
  {
  }

  lemma MulNonnegative(q: nat, l: nat)
    ensures 0 <= q * l
  {
  }

  lemma MulNegative(q: int, l: int)
    requires q < 0 && 0 <= l
    ensures q * l <= -l
  {
    MulNonnegative(-q - 1, l);
    MulSuccessor(-q - 1, l);
    assert (-q) * l == -(q * l);
  }

  /** Without overflow the bounds are the exact products. */
  lemma PageBounds(limit: Int64, page: Int64)
    requires 0 < limit && 0 < page && page * limit <= MaxInt64
    ensures 0 <= (page - 1) * limit && (page - 1) * limit + limit == page * limit
    ensures Mul64(Sub64(page, 1), limit) == (page - 1) * limit
    ensures Add64((page - 1) * limit, limit) == page * limit
  {
    MulNonnegative(page - 1, limit);
    MulSuccessor(page - 1, limit);
  }

  /** Between ordered bounds, the window is the slice cut to the list. */
  lemma WindowCut(matches: seq<string>, start: Int64, end: Int64)
    requires 0 <= start <= end
    ensures Window(matches, start, end) == Ok(matches[Min(start, |matches|)..Min(end, |matches|)])
  {
    if start >= |matches| {
      assert matches[|matches|..|matches|] == [];
    } else if end > |matches| {
      assert matches[start..] == matches[start..|matches|];
    }
  }

  /** Without overflow, page `page` of size `limit` is the window from
      `(page - 1) * limit` to `page * limit`, cut to the list. */
  lemma PageWindow(matches: seq<string>, limit: Int64, page: Int64)
    requires 0 < limit && 0 < page && page * limit <= MaxInt64
    ensures var start := (page - 1) * limit;
      0 <= start && Page(matches, limit, page)
        == Ok(matches[Min(start, |matches|)..Min(start + limit, |matches|)])
  {
    PageBounds(limit, page);
    WindowCut(matches, (page - 1) * limit, page * limit);
  }

  /** A wrapping addition of a non-negative number never ends above the exact sum. */
  lemma AddNotAbove(x: Int64, y: Int64)
    requires 0 <= y
    ensures Add64(x, y) <= x + y
  {
  }

  /** A window that comes back is a run of the list no longer than its bounds allow. */
  lemma WindowIsRun(matches: seq<string>, start: Int64, end: Int64)
    requires Window(matches, start, end).Ok?
    ensures var r := Window(matches, start, end).value;
      (r == [] || |r| <= end - start) && RunAt(r, matches, if r == [] then 0 else start)
  {
  }

  /** A page that comes back is a run of consecutive matches no longer than
      the limit. */
  lemma PageIsRun(matches: seq<string>, limit: Int64, page: Int64)
    requires 0 <= limit && Page(matches, limit, page).Ok?
    ensures var r := Page(matches, limit, page).value;
      |r| <= limit && exists i :: RunAt(r, matches, i)
  {
    var start := Mul64(Sub64(page, 1), limit);
    AddNotAbove(start, limit);
    WindowIsRun(matches, start, Add64(start, limit));
  }

  /** Whatever a page holds is a match, and a page holds at most the limit. */
  lemma PageMembers(matches: seq<string>, limit: Int64, page: Int64, x: string)
    requires 0 <= limit && Page(matches, limit, page).Ok? && x in Page(matches, limit, page).value
    ensures x in matches && |Page(matches, limit, page).value| <= limit
  {
    PageIsRun(matches, limit, page);
    var r := Page(matches, limit, page).value;
    var i :| RunAt(r, matches, i);
    var k :| 0 <= k < |r| && r[k] == x;
    assert matches[i + k] == x;
  }

  /** No match is lost: the one at position `i = q * limit + k` is entry
      `k` of page `q + 1`. */
  lemma EveryMatchOnItsPage(matches: seq<string>, limit: Int64, q: nat, k: nat, i: nat)
    requires 0 <= k < limit && i == q * limit + k && i < |matches| && (q + 1) * limit <= MaxInt64
    ensures var r := Page(matches, limit, q + 1);
      r.Ok? && k < |r.value| && r.value[k] == matches[i]
  {
    assert (q + 1 - 1) * limit == q * limit;
    MulSuccessor(q, limit);
    PageWindow(matches, limit, q + 1);
  }

  /** With a negative page the first bound is negative, and Go panics. */
  lemma NegativePagePanics(matches: seq<string>, limit: Int64, page: Int64)
    requires 0 < limit && page < 0 && MinInt64 <= (page - 1) * limit
    ensures Page(matches, limit, page) == Err(SliceOutOfRange)
  {
    var q := page - 1;
    MulSuccessor(q, limit);
    MulNegative(q, limit);
    assert Mul64(Sub64(page, 1), limit) == q * limit;
    assert Add64(q * limit, limit) == q * limit + limit;
  }

  /** What `listPrometheusMetricNames` returns: the values of `__name__`
      without selectors or bounds, filtered by the regex when there is one,
      then one page of them. A zero limit means 10 and a zero page means 1. */
  function MetricNames(args: MetricNamesArgs, client: bool, backend: ValuesBackend, re: Search): Result<seq<string>, ListError>
  {
    if !client then Err(ListNoClient)
    else
      var limit := if args.limit == 0 then 10 else args.limit;
      var page := if args.page == 0 then 1 else args.page;
      match backend(MetricNameLabel, SeriesRequest([], None, None))
        case Failed => Err(ListFailed)
        case Answered(values) =>
          if args.regex != "" && !re.compiles(args.regex) then Err(BadRegex(args.regex))
          else Page(Matching(values, args.regex, re), limit, page)
  }

  /** `listPrometheusMetricNames`. */
  method ListMetricNames(args: MetricNamesArgs, client: bool, backend: ValuesBackend, re: Search)
    returns (r: Result<seq<string>, ListError>)
    ensures r == MetricNames(args, client, backend, re)
  {
    if !client {
      return Err(ListNoClient);
    }
    var limit := args.limit;
    if limit == 0 {
      limit := 10;
    }
    var page := args.page;
    if page == 0 {
      page := 1;
    }
    var reply := backend(MetricNameLabel, SeriesRequest([], None, None));
    if reply.Failed? {
      return Err(ListFailed);
    }
    var labelValues := reply.value;
    if args.regex != "" && !re.compiles(args.regex) {
      return Err(BadRegex(args.regex));
    }
    var matches := CollectMatches(labelValues, args.regex, re);
    r := Paginate(matches, limit, page);
  }

  /** The two copying loops of `listPrometheusMetricNames`: through the
      compiled regex when one is given, unchanged otherwise. */
  method CollectMatches(labelValues: seq<string>, regex: string, re: Search) returns (matches: seq<string>)
    ensures matches == Matching(labelValues, regex, re)
  {
    matches := [];
    if regex != "" {
      for i := 0 to |labelValues|
        invariant matches == Filtered(labelValues[..i], regex, re)
      {
        var v := labelValues[i];
        assert labelValues[..i + 1][..i] == labelValues[..i];
        if re.finds(regex, v) {
          matches := matches + [v];
        }
      }
    } else {
      for i := 0 to |labelValues|
        invariant matches == labelValues[..i]
      {
        assert labelValues[..i + 1] == labelValues[..i] + [labelValues[i]];
        matches := matches + [labelValues[i]];
      }
    }
    assert labelValues[..|labelValues|] == labelValues;
  }

  /** The pagination statements of `listPrometheusMetricNames`. */
  method Paginate(matches: seq<string>, limit: Int64, page: Int64) returns (r: Result<seq<string>, ListError>)
    ensures r == Page(matches, limit, page)
  {
    var start := Mul64(Sub64(page, 1), limit);
    var end := Add64(start, limit);
    if start >= |matches| {
      return Ok([]);
    } else if end > |matches| {
      if start < 0 {
        return Err(SliceOutOfRange);
      }
      return Ok(matches[start..]);
    } else {
      if start < 0 || end < start {
        return Err(SliceOutOfRange);
      }
      return Ok(matches[start..end]);
    }
  }

  /** Every name returned is a metric name the backend listed that the
      regex, when given, finds; at most the limit are returned. */
  lemma MetricNamesSound(args: MetricNamesArgs, backend: ValuesBackend, re: Search, x: string)
    requires MetricNames(args, true, backend, re).Ok? && 0 <= args.limit
    requires x in MetricNames(args, true, backend, re).value
    ensures backend(MetricNameLabel, SeriesRequest([], None, None)).Answered?
    ensures x in backend(MetricNameLabel, SeriesRequest([], None, None)).value
    ensures args.regex != "" ==> re.compiles(args.regex) && re.finds(args.regex, x)
    ensures |MetricNames(args, true, backend, re).value| <= if args.limit == 0 then 10 else args.limit
  {
    var values := backend(MetricNameLabel, SeriesRequest([], None, None)).value;
    var limit := if args.limit == 0 then 10 else args.limit;
    var page := if args.page == 0 then 1 else args.page;
    var m := Matching(values, args.regex, re);
    assert MetricNames(args, true, backend, re) == Page(m, limit, page);
    PageMembers(m, limit, page, x);
    if args.regex != "" {
      FilteredMembers(values, args.regex, re, x);
    }
  }

  /** With neither limit nor page, the first ten matches are returned. */
  lemma MetricNamesFirstPage(args: MetricNamesArgs, backend: ValuesBackend, re: Search)
    requires args.limit == 0 && args.page == 0
    requires backend(MetricNameLabel, SeriesRequest([], None, None)).Answered?
    requires args.regex == "" || re.compiles(args.regex)
    ensures var m := Matching(backend(MetricNameLabel, SeriesRequest([], None, None)).value, args.regex, re);
      MetricNames(args, true, backend, re) == Ok(m[..Min(10, |m|)])
  {
    var m := Matching(backend(MetricNameLabel, SeriesRequest([], None, None)).value, args.regex, re);
    PageWindow(m, 10, 1);
  }

  /** A regex that does not compile is reported only once the backend has
      answered, and only when a regex was given. */
  lemma BadRegexIff(args: MetricNamesArgs, backend: ValuesBackend, re: Search)
    ensures MetricNames(args, true, backend, re) == Err(BadRegex(args.regex)) <==>
      backend(MetricNameLabel, SeriesRequest([], None, None)).Answered? && args.regex != "" && !re.compiles(args.regex)
  {
  }

  // ---------------------------------------------------------------------
  // listPrometheusLabelNames and listPrometheusLabelValues

  datatype LabelNamesArgs = LabelNamesArgs(
    datasourceUid: string, matches: seq<Selector>, startRfc3339: string, endRfc3339: string, limit: Int64)

  datatype LabelValuesArgs = LabelValuesArgs(
    datasourceUid: string, labelName: string, matches: seq<Selector>,
    startRfc3339: string, endRfc3339: string, limit: Int64)

  /** The text of each selector, in order. */
  function Rendered(ms: seq<Selector>): (r: seq<string>)
    ensures |r| == |ms| && forall i :: 0 <= i < |ms| ==> r[i] == Render(ms[i])
  {
    if ms == [] then [] else Rendered(ms[..|ms| - 1]) + [Render(ms[|ms| - 1])]
  }

  /** The loop that collects `m.String()` for every selector. */
  method MatcherStrings(ms: seq<Selector>) returns (r: seq<string>)
    ensures r == Rendered(ms)
  {
    r := [];
    for i := 0 to |ms|
      invariant r == Rendered(ms[..i])
    {
      var text := SelectorString(ms[i]);
      assert ms[..i + 1][..i] == ms[..i];
      r := r + [text];
    }
    assert ms[..|ms|] == ms;
  }

  /** The request sent to the backend, or the error of the first bound that
      is given and is not RFC 3339 (`rfc` is `time.Parse(time.RFC3339, ·)`). */
  function LabelRequest(ms: seq<Selector>, startText: string, endText: string, rfc: string -> Option<int>)
    : Result<SeriesRequest, ListError>
  {
    if startText != "" && rfc(startText).None? then Err(BadStart(startText))
    else if endText != "" && rfc(endText).None? then Err(BadEnd(endText))
    else Ok(SeriesRequest(Rendered(ms), if startText == "" then None else rfc(startText),
                          if endText == "" then None else rfc(endText)))
  }

  /** `labelNames[:limit]` when the list is longer than the limit; a
      negative limit makes Go panic. */
  function Truncated(names: seq<string>, limit: Int64): Result<seq<string>, ListError>
  {
    if |names| > limit then
      if limit < 0 then Err(SliceOutOfRange) else Ok(names[..limit])
    else Ok(names)
  }

  /** The backend's answer to a request, truncated. */
  function Listing(request: Result<SeriesRequest, ListError>, answer: NamesBackend, limit: Int64): Result<seq<string>, ListError>
  {
    match request
      case Err(e) => Err(e)
      case Ok(req) =>
        match answer(req)
          case Failed => Err(ListFailed)
          case Answered(names) => Truncated(names, limit)
  }

  /** The limit of the label listings: 100 when none is given. */
  function LabelLimit(limit: Int64): Int64 {
    if limit == 0 then 100 else limit
  }

  /** What `listPrometheusLabelNames` returns. */
  function LabelNames(args: LabelNamesArgs, client: bool, rfc: string -> Option<int>, backend: NamesBackend)
    : Result<seq<string>, ListError>
  {
    if !client then Err(ListNoClient)
    else Listing(LabelRequest(args.matches, args.startRfc3339, args.endRfc3339, rfc), backend, LabelLimit(args.limit))
  }

  /** What `listPrometheusLabelValues` returns. */
  function LabelValues(args: LabelValuesArgs, client: bool, rfc: string -> Option<int>, backend: ValuesBackend)
    : Result<seq<string>, ListError>
  {
    if !client then Err(ListNoClient)
    else Listing(LabelRequest(args.matches, args.startRfc3339, args.endRfc3339, rfc),
                 req => backend(args.labelName, req), LabelLimit(args.limit))
  }

  /** The steps the two label listings share once a client exists. */
  method ListLabels(ms: seq<Selector>, startText: string, endText: string, limitArg: Int64,
                    rfc: string -> Option<int>, answer: NamesBackend) returns (r: Result<seq<string>, ListError>)
    ensures r == Listing(LabelRequest(ms, startText, endText, rfc), answer, LabelLimit(limitArg))
  {
    var limit := limitArg;
    if limit == 0 {
      limit := 100;
    }
    var startTime: Option<int> := None;
    var endTime: Option<int> := None;
    if startText != "" {
      startTime := rfc(startText);
      if startTime.None? {
        return Err(BadStart(startText));
      }
    }
    if endText != "" {
      endTime := rfc(endText);
      if endTime.None? {
        return Err(BadEnd(endText));
      }
    }
    var matchers := MatcherStrings(ms);
    var reply := answer(SeriesRequest(matchers, startTime, endTime));
    if reply.Failed? {
      return Err(ListFailed);
    }
    var names := reply.value;
    if |names| > limit {
      if limit < 0 {
        return Err(SliceOutOfRange);
      }
      names := names[..limit];
    }
    return Ok(names);
  }

  /** `listPrometheusLabelNames`. */
  method ListLabelNames(args: LabelNamesArgs, client: bool, rfc: string -> Option<int>, backend: NamesBackend)
    returns (r: Result<seq<string>, ListError>)
    ensures r == LabelNames(args, client, rfc, backend)
  {
    if !client {
      return Err(ListNoClient);
    }
    r := ListLabels(args.matches, args.startRfc3339, args.endRfc3339, args.limit, rfc, backend);
  }

  /** `listPrometheusLabelValues`. */
  method ListLabelValues(args: LabelValuesArgs, client: bool, rfc: string -> Option<int>, backend: ValuesBackend)
    returns (r: Result<seq<string>, ListError>)
    ensures r == LabelValues(args, client, rfc, backend)
  {
    if !client {
      return Err(ListNoClient);
    }
    r := ListLabels(args.matches, args.startRfc3339, args.endRfc3339, args.limit, rfc, req => backend(args.labelName, req));
  }

  /** A non-negative limit keeps the first `limit` names, in order. */
  lemma TruncatedIsPrefix(names: seq<string>, limit: Int64)
    requires 0 <= limit
    ensures Truncated(names, limit) == Ok(names[..Min(|names|, limit)])
    ensures |Truncated(names, limit).value| <= limit
    ensures |names| <= limit ==> Truncated(names, limit) == Ok(names)
  {
    assert names[..|names|] == names;
  }

  /** A negative limit always panics, even on an empty answer, since its
      length (at least 0) exceeds the limit. */
  lemma NegativeLimitPanics(names: seq<string>, limit: Int64)
    requires limit < 0
    ensures Truncated(names, limit) == Err(SliceOutOfRange)
  {
  }

  /** The request succeeds exactly when each bound is absent or parses; a bad
      start is reported before a bad end. */
  lemma LabelRequestIff(ms: seq<Selector>, startText: string, endText: string, rfc: string -> Option<int>)
    ensures LabelRequest(ms, startText, endText, rfc).Ok? <==>
      (startText == "" || rfc(startText).Some?) && (endText == "" || rfc(endText).Some?)
    ensures startText != "" && rfc(startText).None? ==> LabelRequest(ms, startText, endText, rfc) == Err(BadStart(startText))
  {
  }

  /** The selectors reach the backend as the brace-enclosed, comma-separated
      texts of their filters, one per selector and in order. */
  lemma SelectorsSent(ms: seq<Selector>, startText: string, endText: string, rfc: string -> Option<int>)
    requires LabelRequest(ms, startText, endText, rfc).Ok?
    ensures var req := LabelRequest(ms, startText, endText, rfc).value;
      |req.matchers| == |ms| &&
      forall i :: 0 <= i < |ms| ==> req.matchers[i] == "{" + Join(Texts(ms[i].filters), ", ") + "}"
  {
    forall i | 0 <= i < |ms|
      ensures Rendered(ms)[i] == "{" + Join(Texts(ms[i].filters), ", ") + "}"
    {
      RenderIsJoin(ms[i]);
    }
  }

  /** The label values come from the named label with the same request and
      the same truncation as the label names. */
  lemma ValuesLikeNames(args: LabelValuesArgs, client: bool, rfc: string -> Option<int>, backend: ValuesBackend)
    ensures LabelValues(args, client, rfc, backend)
      == LabelNames(LabelNamesArgs(args.datasourceUid, args.matches, args.startRfc3339, args.endRfc3339, args.limit),
                    client, rfc, req => backend(args.labelName, req))
  {
  }

  /** Without a limit, at most the first 100 names are returned, in order. */
  lemma LabelNamesDefaultLimit(args: LabelNamesArgs, rfc: string -> Option<int>, backend: NamesBackend)
    requires args.limit == 0 && LabelNames(args, true, rfc, backend).Ok?
    ensures var names := backend(LabelRequest(args.matches, args.startRfc3339, args.endRfc3339, rfc).value).value;
      LabelNames(args, true, rfc, backend) == Ok(names[..Min(|names|, 100)])
  {
    var names := backend(LabelRequest(args.matches, args.startRfc3339, args.endRfc3339, rfc).value).value;
    TruncatedIsPrefix(names, 100);
  }
}
