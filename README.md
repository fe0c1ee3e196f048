# Prometheus and dashboard-query tools of mcp-grafana, modelled in Dafny

mcp-grafana is a Model Context Protocol server through which an assistant
talks to Grafana. This project models the request logic of two groups of its
tools and proves what they promise:

- **`query_prometheus`.** The user's variables are substituted into the
  PromQL expression. Any `$name` left over is refused with the list of
  unresolved variables. The `from` and `to` times are then read in the
  user-facing formats: `now`, epoch milliseconds, RFC 3339, or
  `now-2d5h30m10s`. Finally a 30-second-step range query is built.
- **The listing tools.**
  - Metric names are filtered by a regex, then paginated.
  - Label names and label values take selectors and optional RFC 3339
    bounds, and are truncated to a limit.
  - Along with them go the series selectors: their text form (`Selector.String`)
    and their evaluation against a label set (`Selector.Matches`).
- **`get_dashboard_panel_queries`.** The dashboard JSON is walked depth
  first: `collapsed` rows, then nested `panels`, then each panel's own
  `targets`. One record is produced per non-empty `expr`. Each record holds
  the panel title, the panel datasource, and the distinct `$variables`
  of the query.

The modules follow the program:

- `TimeExpr`: `parseUserTime` and `parseDurationWithDays`.
- `VarTokens`: the `\$\w+` scan shared by the query tool and the
  extractor, and the de-duplicating loop.
- `LabelSelector`: `matchTypeMap`, `Selector.String`, `Selector.Matches`.
- `PromTools`: `queryPrometheus` and the three listing tools.
- `PanelQueries`: the JSON values, `extractQueries` and the top-level checks.

Beneath them, three modules model the parts of Go's standard library these
functions depend on:

- `GoNumbers`: int64 arithmetic, `strconv.ParseInt`/`Atoi`, `%d`.
- `GoStrings`: `strings.TrimSpace`, `strings.ReplaceAll`.
- `GoTime`: `time.ParseDuration`.

`Wrappers` holds `Option`, `Result`, and `Reply`, which is the answer of an
external call.

Where the Go code loops, the model is a method with loop invariants that is
proved equal to a specification function. Where it only computes, the model
is a function. The properties are lemmas about those functions.

Instants and durations are integers of nanoseconds. Go's int64 wrap-around is
written out where the code can overflow:

- `ms*int64(time.Millisecond)`;
- `days*24`;
- `(page-1)*limit` and `start+limit`.

Go's slice panics on negative bounds appear as the error `SliceOutOfRange`.

Besides confirming the named behaviour, the proofs bring out edge cases of
the code as written:

- `now-<x>d` with a day count of at least 2^63-1 lands one day *after*
  `now`. `strconv.Atoi` clamps the count, and `days*24` wraps to -24
  (`HugeDayCountMovesForward`).
- Epoch milliseconds beyond the year 2262 wrap around to before 1700
  (`EpochMillisWraps`).
- Substitution is by plain text replacement. So the order of the variables
  matters, and `$job` also rewrites the front of `$job_name`
  (`SubstitutionOrderMatters`, `PrefixNamesCollide`).
- `time.ParseDuration` sums repeated units (`RepeatedUnitsAdd`).
- Components out of order, such as `now-5m2h`, are refused
  (`ComponentsOutOfOrderAreInvalid`).

## Model

| member | source | states |
|---|---|---|
| GoNumbers.Wrap64 | tools/prometheus.go:130 | the int64 result differs from the exact one by a multiple of 2^64 and equals it when it fits |
| GoNumbers.ParseFormatRoundTrip | tools/prometheus.go:129 | the decimal text `%d` writes for any int64 is read back by `strconv.ParseInt(…, 10, 64)` as the same value |
| GoNumbers.FormatIntDigits | tools/prometheus.go:158 | the `%d` text starts with '-' exactly for a negative number, and the rest is decimal digits denoting the number's magnitude |
| GoNumbers.ParseInt64 | tools/prometheus.go:129 | `strconv.ParseInt` reads a value only from non-empty text, and a negative value only after a '-' |
| GoNumbers.ParseDigits | tools/prometheus.go:129 | a digit string is read as the number it denotes, and refused when that number is beyond int64 |
| GoNumbers.AtoiClamped | tools/prometheus.go:157 | the day count `strconv.Atoi` gives is the digits' value exactly when that fits in int64, and the largest int64 otherwise |
| GoStrings.TrimSpace | tools/prometheus.go:121 | the trimmed text is no longer than the input and neither starts nor ends with white space |
| GoStrings.TrimSpaceIsSlice | tools/prometheus.go:121 | the trimmed text is the input with a white-space prefix and a white-space suffix cut off |
| GoStrings.TrimSpaceIdempotent | tools/prometheus.go:121 | trimming twice is trimming once |
| GoStrings.TrimSpaceEmptyIff | tools/prometheus.go:121-124 | trimming leaves nothing exactly when the input is white space only |
| GoStrings.ReplaceAllAbsent | tools/prometheus.go:188 | replacing a pattern that does not occur leaves the text unchanged |
| GoStrings.ReplaceAllSelf | tools/prometheus.go:188 | replacing a pattern by itself leaves the text unchanged |
| GoStrings.ReplaceAll | tools/prometheus.go:188 | a replacement as long as the pattern keeps the length of the text |
| GoTime.SumFrom | tools/prometheus.go:160 | the running total of duration components only grows and never passes 2^63 |
| GoTime.UnsignedSum | tools/prometheus.go:160 | an unsigned duration text is the sum of its number-unit components |
| GoTime.NegatedSum | tools/prometheus.go:160 | a duration with a leading '-' is the negated sum of its components |
| GoTime.RepeatedUnitsAdd | tools/prometheus.go:160 | "<a>h<b>h" parses as a+b hours: a repeated unit is added, not refused |
| GoTime.ParseDurationBounds | tools/prometheus.go:160 | `time.ParseDuration` refuses the empty text and a bare sign, and a duration without a leading '-' is never negative |
| TimeExpr.ParseUserTime | tools/prometheus.go:120-150 | the method returns what `UserTime` defines: empty, now, epoch ms, RFC 3339, relative, tried in this order |
| TimeExpr.ParseRelative | tools/prometheus.go:137-149 | the relative case: the pattern's groups joined and parsed with days, or the invalid-format error |
| TimeExpr.JoinDurationGroups | tools/prometheus.go:139-144 | the loop over groups 1 to 4 yields the four groups concatenated in order |
| TimeExpr.ApplyDuration | tools/prometheus.go:145-149 | a parsed duration gives `now` minus that duration (int64 negation), an unparsable one the invalid-format error |
| TimeExpr.UserTimeIgnoresSpace | tools/prometheus.go:121 | surrounding white space never changes the outcome |
| TimeExpr.EmptyTimeIff | tools/prometheus.go:121-124 | the empty-time error is returned exactly for white-space-only input |
| TimeExpr.NowIsNow | tools/prometheus.go:125-127 | "now" is exactly the reference instant |
| TimeExpr.EpochMillis | tools/prometheus.go:129-131 | an integer above 10^12 is that many milliseconds after the epoch, wrapped to int64 nanoseconds, and exact when the product fits |
| TimeExpr.EpochMillisWraps | tools/prometheus.go:130 | 9223372036854 ms converts exactly; one millisecond more wraps to a large negative instant |
| TimeExpr.SmallIntegersAreNotEpoch | tools/prometheus.go:129-149 | a non-negative integer up to 10^12 is not epoch time: it is the RFC 3339 reading when there is one and invalid otherwise |
| TimeExpr.NotRelative | tools/prometheus.go:137-149 | a text not starting with 'n' is not of the relative form and is refused |
| TimeExpr.NotEpoch | tools/prometheus.go:129-135 | an integer up to 10^12 falls through to the RFC 3339 and relative forms |
| TimeExpr.RelativeCase | tools/prometheus.go:120-149 | a trimmed "now-…" text that RFC 3339 refuses is decided by the relative form |
| TimeExpr.LastCase | tools/prometheus.go:133-149 | with no integer and no RFC 3339 reading, the relative form decides |
| TimeExpr.BareNowMinusIsInvalid | tools/prometheus.go:137-160 | "now-" matches the pattern with four empty groups, but the empty duration fails, so it is an invalid format |
| TimeExpr.RelativeGroupsOf | tools/prometheus.go:137-138 | "now-" followed by optional day, hour, minute and second components matches, and its groups are exactly those components |
| TimeExpr.GroupIsComponent | tools/prometheus.go:137 | each optional group `(\d+u)?` spans either nothing or a digit run followed by its unit letter |
| TimeExpr.GroupsAreComponents | tools/prometheus.go:137 | the four groups between the group ends are components of days, hours, minutes and seconds |
| TimeExpr.MatchRelativeInverse | tools/prometheus.go:137-138 | when the pattern matches, its groups are day, hour, minute and second components and the text is "now-" followed by them |
| TimeExpr.RelativeTimeForm | tools/prometheus.go:137-149 | a relative text that yields an instant has at least one component |
| TimeExpr.UserTimeOkForms | tools/prometheus.go:120-150 | every text accepted is, once trimmed, "now", an integer above 10^12, an RFC 3339 timestamp, or "now-" followed by at least one component |
| TimeExpr.MinutesBeforeHours | tools/prometheus.go:137-138 | "now-<x>m<y>h" does not match the pattern |
| TimeExpr.ComponentsOutOfOrderAreInvalid | tools/prometheus.go:137-149 | a minutes component before an hours component is an invalid format |
| TimeExpr.RewriteRelative | tools/prometheus.go:155-159 | the day rewrite replaces the day component only and keeps hours, minutes and seconds verbatim |
| TimeExpr.RewriteWithoutDays | tools/prometheus.go:156-159 | the day rewrite copies a text without 'd' unchanged |
| TimeExpr.ParseDurationWithoutDays | tools/prometheus.go:153-161 | a text without a day component is read exactly as `time.ParseDuration` reads it |
| TimeExpr.EmptyDurationFails | tools/prometheus.go:160 | the empty duration text does not parse |
| TimeExpr.DayHoursExact | tools/prometheus.go:157-158 | a day count whose hours fit in int64 becomes "<24·n>h" |
| TimeExpr.DurationOfRelative | tools/prometheus.go:153-161 | the joined components, at least one present, denote D·24h + H·1h + M·1m + S·1s while that fits in int64 |
| TimeExpr.RelativeTextTime | tools/prometheus.go:137-161 | the relative form alone gives now − (D·24h + H·1h + M·1m + S·1s) |
| TimeExpr.RelativeExact | tools/prometheus.go:120-161 | `now-[Dd][Hh][Mm][Ss]`, with at least one part, is now − (D·24h + H·1h + M·1m + S·1s) when RFC 3339 refuses the text |
| TimeExpr.RelativeTimeOf | tools/prometheus.go:138-147 | a matching text whose joined groups parse to a duration d is the instant now + (−d) in int64 |
| TimeExpr.DayHoursClamped | tools/prometheus.go:157-158 | a day count of at least 2^63-1 is rewritten as "-24h" |
| TimeExpr.HugeDayCountMovesForward | tools/prometheus.go:137-161 | such a day count puts the instant one day after `now` instead of being refused |
| VarTokens.WordRun | tools/prometheus.go:173 | the length of the leading run of `\w` characters: all word characters, and the next is not one |
| VarTokens.Tokens | tools/prometheus.go:191 | every match of `\$\w+` is a '$' followed by one or more word characters |
| VarTokens.TokensAreMatches | tools/prometheus.go:191 | the matches are the text at every position where a '$' is followed by a word character, taken with the whole word run after it, in increasing order of position |
| VarTokens.TokensFrom | tools/prometheus.go:191 | the matches of any suffix are the matches beginning at or after its first position |
| VarTokens.NoStartInsideMatch | tools/prometheus.go:191 | no match begins inside another, because '$' is not a word character |
| VarTokens.MatchListed | tools/prometheus.go:191 | the match beginning at any position is listed |
| VarTokens.ListedIsMatch | tools/prometheus.go:191 | everything listed is the match beginning at some position |
| VarTokens.TokensMembers | tools/prometheus.go:191 | a text is a match exactly when it is the '$' and whole word run at some position where a '$' is followed by a word character |
| VarTokens.TokensEmptyIff | tools/prometheus.go:191-192 | there is no match exactly when no '$' is directly followed by a word character |
| VarTokens.NoDollarNoTokens | tools/prometheus.go:191 | a text without '$' has no matches |
| VarTokens.Stripped | tools/dashboard.go:145 | one name per match, each the match without its leading '$' |
| VarTokens.DistinctMembers | tools/dashboard.go:142-150 | the de-duplicated list has no element twice and holds exactly the elements of the input |
| VarTokens.DistinctFirstSeenOrder | tools/dashboard.go:142-150 | the kept names are in order of first appearance |
| VarTokens.VariableNamesAreTokens | tools/dashboard.go:141-150 | the variable list has no duplicates and holds `name` exactly when `$name` is a match |
| VarTokens.UniqueVariableNames | tools/dashboard.go:141-150 | the loop with its `seen` set produces the distinct stripped names in first-seen order |
| LabelSelector.MatchTypeTable | tools/prometheus.go:22-30 | exactly "", "=", "!=", "=~" and "!~" are known, "" and "=" both meaning equality |
| LabelSelector.SelectorString | tools/prometheus.go:323-337 | the builder loop produces the text `Render` defines |
| LabelSelector.RenderIsJoin | tools/prometheus.go:323-337 | the text is "{", the filter texts joined by ", ", then "}" |
| LabelSelector.WrittenIsJoin | tools/prometheus.go:326-334 | after i filters, the loop has written the first i filter texts joined by ", ", plus a separator unless it was the last |
| LabelSelector.RenderEmpty | tools/prometheus.go:323-337 | the empty selector renders as "{}" |
| LabelSelector.EmptyTypeRendersAsEqual | tools/prometheus.go:327-329 | a selector renders the same as its copy with "" types written as "=" |
| LabelSelector.NewMatcher | tools/prometheus.go:349-352 | construction fails exactly for a regex type whose value does not compile |
| LabelSelector.BuildMatchers | tools/prometheus.go:341-355 | when no filter fails, there is one matcher per filter |
| LabelSelector.Matches | tools/prometheus.go:340-358 | the method returns what `SelectorMatches` defines |
| LabelSelector.BuildMatchersOk | tools/prometheus.go:343-355 | every matcher is built exactly when every filter has a known type and a constructible matcher, and matcher i comes from filter i |
| LabelSelector.AllMatchIff | tools/prometheus.go:357 | the matchers accept a label set exactly when each accepts its label's value |
| LabelSelector.MatchesFailsIff | tools/prometheus.go:343-352 | the result is an error exactly when some filter cannot be built, whatever the labels |
| LabelSelector.MatchesIsConjunction | tools/prometheus.go:357 | when every filter builds, the result is the conjunction of all the filters |
| LabelSelector.EmptySelectorMatchesAll | tools/prometheus.go:340-358 | the empty selector matches every label set |
| LabelSelector.FirstUnknownTypeReported | tools/prometheus.go:344-347 | the first filter with an unknown type is the one reported when all filters before it build |
| LabelSelector.ErrorPersists | tools/prometheus.go:343-355 | once a filter fails, the later filters no longer matter |
| PromTools.SubstituteVariables | tools/prometheus.go:186-189 | the loop applies `ReplaceAll(expr, "$"+name, value)` for each pair in turn |
| PromTools.SubstitutedConcat | tools/prometheus.go:187-189 | substituting a + b is substituting a, then b |
| PromTools.NoDollarUnchanged | tools/prometheus.go:186-189 | an expression without '$' is left unchanged by any variables |
| PromTools.SubstitutionOrderMatters | tools/prometheus.go:187-189 | "$a" with a:="$b" and b:="1" gives "1" in one order and the unresolved "$b" in the other |
| PromTools.PrefixNamesCollide | tools/prometheus.go:188 | "$job_name" with job:="x" becomes "x_name" |
| PromTools.RangeRequest | tools/prometheus.go:179-213 | a built request has the 30-second step, the substituted expression, and no variable left in it |
| PromTools.UnresolvedIff | tools/prometheus.go:186-200 | the unresolved error comes exactly when a `$\w` survives substitution, it lists the matches of `\$\w+` in the substituted text, and it comes before the times |
| PromTools.RepeatsAreReported | tools/prometheus.go:191-194 | "$a+$a" with no variables reports "$a" twice |
| PromTools.RangeRequestOkIff | tools/prometheus.go:179-218 | a query is sent exactly when nothing is unresolved and both times parse; it spans `from` to `to` with a 30-second step |
| PromTools.FromCheckedFirst | tools/prometheus.go:200-209 | a bad `from` is reported even when `to` is bad too |
| PromTools.InstantWindow | tools/prometheus.go:179-218 | an expression without '$' from "now" to "now" is a range query over the single instant `now`, whatever the query type |
| PromTools.QueryPrometheus | tools/prometheus.go:172-232 | the method returns what `QueryOutcome` defines |
| PromTools.QueryOutcomeOfRequest | tools/prometheus.go:174-222 | no client is an error; otherwise a request error is returned as it is, and a built request is sent with the backend's answer or failure passed on |
| PromTools.Filtered | tools/prometheus.go:273-288 | the filtered list is no longer than the input |
| PromTools.FilteredConcat | tools/prometheus.go:279-283 | filtering keeps the order: filtering a list in two parts is filtering each part |
| PromTools.FilteredMembers | tools/prometheus.go:279-283 | a value is kept exactly when it is in the input and the regex finds a match in it |
| PromTools.FilteredKeepsAll | tools/prometheus.go:284-287 | a regex that matches everything keeps the whole list, like the branch without a regex |
| PromTools.CollectMatches | tools/prometheus.go:273-288 | the two loops collect what `Matching` defines |
| PromTools.Paginate | tools/prometheus.go:290-299 | the pagination branches give what `Page` defines |
| PromTools.WindowCut | tools/prometheus.go:293-299 | for non-negative, ordered bounds, the window is the slice between the bounds cut to the list |
| PromTools.PageWindow | tools/prometheus.go:290-299 | without overflow, page p of size l is `matches[(p-1)·l .. min(p·l, len)]`, empty when the offset passes the end |
| PromTools.PageIsRun | tools/prometheus.go:290-299 | a page that comes back is a run of consecutive matches no longer than the limit |
| PromTools.PageMembers | tools/prometheus.go:290-299 | everything a page holds is a match |
| PromTools.EveryMatchOnItsPage | tools/prometheus.go:290-299 | the match at q·l+k is entry k of page q+1: paging loses nothing |
| PromTools.NegativePagePanics | tools/prometheus.go:291-299 | a negative page makes the slice start negative, and Go panics |
| PromTools.ListMetricNames | tools/prometheus.go:250-302 | the method returns what `MetricNames` defines |
| PromTools.MetricNamesSound | tools/prometheus.go:256-299 | every name returned is a `__name__` value from the backend that the regex (when given) matches, and at most `limit` (default 10) come back |
| PromTools.MetricNamesFirstPage | tools/prometheus.go:256-299 | with no limit and no page, the first ten matches are returned |
| PromTools.BadRegexIff | tools/prometheus.go:267-278 | the regex error comes exactly when the backend answered and a given regex does not compile |
| PromTools.Rendered | tools/prometheus.go:391-394 | one selector text per selector, in order |
| PromTools.MatcherStrings | tools/prometheus.go:391-394 | the loop produces what `Rendered` defines |
| PromTools.LabelRequestIff | tools/prometheus.go:379-389 | the request is built exactly when each bound is empty or parses as RFC 3339, and a bad start comes first |
| PromTools.SelectorsSent | tools/prometheus.go:391-396 | the backend gets one "{…}" text per selector, with the filter texts joined by ", " |
| PromTools.TruncatedIsPrefix | tools/prometheus.go:401-404 | truncation gives the prefix of length min(len, limit) |
| PromTools.NegativeLimitPanics | tools/prometheus.go:401-404 | a negative limit makes the slice bound negative, and Go panics |
| PromTools.ListLabels | tools/prometheus.go:374-404 | the shared steps return what `Listing` defines for the request and the default limit of 100 |
| PromTools.ListLabelNames | tools/prometheus.go:368-407 | the method returns what `LabelNames` defines |
| PromTools.ListLabelValues | tools/prometheus.go:427-466 | the method returns what `LabelValues` defines |
| PromTools.ValuesLikeNames | tools/prometheus.go:427-466 | label values follow the same request, checks and truncation as label names, with the backend asked for the named label |
| PromTools.LabelNamesDefaultLimit | tools/prometheus.go:374-404 | with no limit, the first min(len, 100) names from the backend are returned, in order |
| PanelQueries.StringField | tools/dashboard.go:114-139 | a field is read as its string when it is one, and as "" otherwise |
| PanelQueries.DatasourceOf | tools/dashboard.go:117-127 | uid and type are copied only from a datasource object, and only where they are strings; otherwise both stay "" |
| PanelQueries.ExtractQueries | tools/dashboard.go:94-163 | the panel loop returns what `PanelsQueries` defines |
| PanelQueries.ExtractPanel | tools/dashboard.go:99-159 | one panel appends its nested records, then its own records |
| PanelQueries.AppendNested | tools/dashboard.go:104-112 | the records of `collapsed` come first, then those of `panels` |
| PanelQueries.PanelDatasource | tools/dashboard.go:116-127 | the datasource steps compute what `DatasourceOf` defines |
| PanelQueries.AppendTargets | tools/dashboard.go:130-159 | the target loop appends one record per target with a non-empty `expr` |
| PanelQueries.PanelsConcat | tools/dashboard.go:98-160 | the records of two panel lists in a row are the records of each, in document order |
| PanelQueries.NonObjectPanelSkipped | tools/dashboard.go:99-102 | an entry that is not an object contributes nothing |
| PanelQueries.SinglePanel | tools/dashboard.go:104-159 | a panel's records are its nested records followed by its own |
| PanelQueries.NoTargetsOnlyNested | tools/dashboard.go:130-133 | a panel whose `targets` is missing or not an array contributes only its nested records |
| PanelQueries.TargetQueriesAreExprs | tools/dashboard.go:134-159 | one record per non-empty `expr`, in order: that expression verbatim, the panel title and datasource, and its variable names |
| PanelQueries.ExprsNonEmpty | tools/dashboard.go:139-140 | every kept expression is non-empty |
| PanelQueries.PanelsWellFormed | tools/dashboard.go:94-163 | every record anywhere in the tree has a non-empty query and exactly its distinct variable names |
| PanelQueries.RecordVariables | tools/dashboard.go:141-150 | no record lists a variable twice, and a record lists `name` exactly when `$name` is a match of `\$\w+` in its query: some '$' of the query is followed by exactly the word run `name` |
| PanelQueries.GetDashboardPanelQueries | tools/dashboard.go:166-182 | the method returns what `DashboardPanelQueries` defines |
| PanelQueries.DashboardOkIff | tools/dashboard.go:166-182 | the tool fails exactly when the fetch fails, the dashboard is not an object, or `panels` is not an array; an empty `panels` gives no records |
| PanelQueries.DashboardRecordsWellFormed | tools/dashboard.go:166-182 | every record the tool returns is well formed |

## Left out

- RFC 3339 parsing (`time.Parse`) is the parameter `rfc: string -> Option<int>`. It is an arbitrary function, so every property holds for any parser.
- The user-supplied regular expressions are oracles:
  - `regexp.Compile`/`MatchString` in the metric-name listing is `Search`, an unanchored compile-and-find pair.
  - `labels.NewMatcher` and its matching is `RegexOracle`.
  - The match semantics themselves are not modelled.
- Regexes that can be modelled fully are modelled: the fixed patterns `\$\w+`, `^now-(\d+d)?(\d+h)?(\d+m)?(\d+s)?$` and `(\d+)d`.
- `promClientFromContext` and client construction are the flag `client: bool`.
- The Prometheus calls (`QueryRange`, `LabelValues`, `LabelNames`) are functions from the request to a `Reply`.
- The dashboard fetch `getDashboardByUID` is a `Reply<Json>` argument.
- `time.Now()` is the parameter `now`.
- GoTime.ParseDuration: fractional components such as "1.5h" are refused, where Go accepts them. The texts `parseUserTime` builds never contain a '.', so only direct calls differ.
- Instants are unbounded integers of nanoseconds. `time.Time`'s own range and `now.Add` saturation are not modelled. Only the int64 duration arithmetic wraps.
- Go map iteration order in the substitution loop is nondeterministic. The variables are therefore an explicit sequence of pairs, and `SubstitutionOrderMatters` shows that order changes the result.
- Error-message text is not modelled, including the surplus `Sprintf` argument in `UnresolvedVariablesError.Error`. Errors are datatype values that carry the data the message would show.
- The instant-query and invalid-type branches of `queryPrometheus` are not modelled. The query type is forced to "range", so they cannot be reached.
- `QueryType` and `StepSeconds` are accepted but ignored, as in the code.
- JSON numbers are carried as integers and never inspected.
- Go's distinction between a nil and an empty slice in the JSON output is not modelled. Both are the empty sequence.
- Metric metadata listing, the other tools, tool registration, the server entry point, file tools and prompts are not part of this model.
