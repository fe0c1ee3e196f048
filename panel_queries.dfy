/** The dashboard panel-query extractor: a walk over the loosely typed JSON
    of a dashboard that collects, for every target with a query expression,
    the panel's title, the expression, the panel's data source and the
    template variables the expression uses. */
module PanelQueries {
  import opened Wrappers
  import opened VarTokens

  /** A decoded JSON value (`any` holding `map[string]any`, `[]any`,
      `string`, `float64`, `bool` or nil). Numbers are never inspected. */
  datatype Json =
    | JNull
    | JBool(b: bool)
    | JNumber(n: int)
    | JString(str: string)
    | JArray(items: seq<Json>)
    | JObject(fields: map<string, Json>)

  /** `v, _ := m[key].(string)`: the string under `key`, or "" when the key
      is missing or holds anything else. */
  function StringField(m: map<string, Json>, key: string): (r: string)
    ensures r != "" ==> key in m && m[key] == JString(r)
    ensures key in m && m[key].JString? ==> r == m[key].str
  {
    if key in m && m[key].JString? then m[key].str else ""
  }

  /** `m[key].([]any)` succeeds. */
  predicate HasArray(m: map<string, Json>, key: string) {
    key in m && m[key].JArray?
  }

  /** `datasourceInfo`. */
  datatype DatasourceInfo = DatasourceInfo(uid: string, dsType: string)

  /** `panelQuery`. */
  datatype PanelQuery = PanelQuery(title: string, query: string, datasource: DatasourceInfo, variables: seq<string>)

  /** The data source of a panel: its `uid` and `type` strings when
      `datasource` is an object, each "" when missing or not a string. */
  function DatasourceOf(panel: map<string, Json>): (d: DatasourceInfo)
    ensures !("datasource" in panel && panel["datasource"].JObject?) ==> d == DatasourceInfo("", "")
    ensures "datasource" in panel && panel["datasource"].JObject? ==>
      d == DatasourceInfo(StringField(panel["datasource"].fields, "uid"), StringField(panel["datasource"].fields, "type"))
  {
    if "datasource" in panel && panel["datasource"].JObject? then
      var ds := panel["datasource"].fields;
      DatasourceInfo(StringField(ds, "uid"), StringField(ds, "type"))
    else DatasourceInfo("", "")
  }

  /** The `expr` of a target: "" for a target that is not an object. */
  function ExprOf(t: Json): string {
    if t.JObject? then StringField(t.fields, "expr") else ""
  }

  /** The record a target contributes: one when its `expr` is not empty. */
  function TargetRecord(t: Json, title: string, ds: DatasourceInfo): seq<PanelQuery> {
    var expr := ExprOf(t);
    if expr != "" then [PanelQuery(title, expr, ds, VariableNames(expr))] else []
  }

  /** What the loop over `targets` appends, for the first targets up to the last. */
  function TargetQueries(ts: seq<Json>, title: string, ds: DatasourceInfo): seq<PanelQuery> {
    if ts == [] then []
    else TargetQueries(ts[..|ts| - 1], title, ds) + TargetRecord(ts[|ts| - 1], title, ds)
  }

  /** The records of a list of panels, in document order. */
  function PanelsQueries(panels: seq<Json>): seq<PanelQuery>
    decreases panels
  {
    if panels == [] then []
    else PanelsQueries(panels[..|panels| - 1]) + PanelRecords(panels[|panels| - 1])
  }

  /** The records of one panel: those of its `collapsed` array, then those
      of its `panels` array, then those of its own targets; nothing when it
      is not an object. */
  function PanelRecords(p: Json): seq<PanelQuery>
    decreases p
  {
    match p
      case JObject(panel) => NestedRecords(panel) + OwnRecords(panel)
      case _ => []
  }

  /** The records of the arrays nested in a panel. */
  function NestedRecords(panel: map<string, Json>): seq<PanelQuery>
    decreases JObject(panel), 0
  {
    (if HasArray(panel, "collapsed") then PanelsQueries(panel["collapsed"].items) else [])
    + (if HasArray(panel, "panels") then PanelsQueries(panel["panels"].items) else [])
  }

  /** The records of a panel's own targets. */
  function OwnRecords(panel: map<string, Json>): seq<PanelQuery> {
    if HasArray(panel, "targets") then
      TargetQueries(panel["targets"].items, StringField(panel, "title"), DatasourceOf(panel))
    else []
  }

  /** `extractQueries`: the loop over the panels, appending to `result`. */
  method ExtractQueries(panels: seq<Json>) returns (result: seq<PanelQuery>)
    ensures result == PanelsQueries(panels)
    decreases panels
  {
    result := [];
    for i := 0 to |panels|
      invariant result == PanelsQueries(panels[..i])
    {
      assert panels[..i + 1][..i] == panels[..i];
      result := ExtractPanel(result, panels[i]);
    }
    assert panels[..|panels|] == panels;
  }

  /** The body of the panel loop of `extractQueries` for one entry `p`. */
  method ExtractPanel(result: seq<PanelQuery>, p: Json) returns (out: seq<PanelQuery>)
    ensures out == result + PanelRecords(p)
    decreases p, 1
  {
    out := result;
    if !p.JObject? {
      return;
    }
    var panel := p.fields;
    ghost var nested := NestedRecords(panel);
    ghost var own := OwnRecords(panel);
    assert PanelRecords(p) == nested + own;
    out := AppendNested(out, panel);
    var title := StringField(panel, "title");
    var dsInfo := PanelDatasource(panel);
    if !HasArray(panel, "targets") {
      assert own == [];
      assert nested + own == nested;
      return;
    }
    out := AppendTargets(out, panel["targets"].items, title, dsInfo);
    assert own == TargetQueries(panel["targets"].items, title, dsInfo);
    AppendAssociative(result, nested, own);
  }

  lemma AppendAssociative(a: seq<PanelQuery>, b: seq<PanelQuery>, c: seq<PanelQuery>)
    ensures (a + b) + c == a + (b + c)
  {
  }

  /** The recursive calls of `extractQueries` on a panel's `collapsed`
      and `panels` arrays, appending to `result`. */
  method AppendNested(result: seq<PanelQuery>, panel: map<string, Json>) returns (out: seq<PanelQuery>)
    ensures out == result + NestedRecords(panel)
    decreases JObject(panel), 0
  {
    out := result;
    if HasArray(panel, "collapsed") {
      var inner := ExtractQueries(panel["collapsed"].items);
      out := out + inner;
    }
    if HasArray(panel, "panels") {
      var inner := ExtractQueries(panel["panels"].items);
      out := out + inner;
    }
  }

  /** The handling of `datasource` in `extractQueries`. */
  method PanelDatasource(panel: map<string, Json>) returns (dsInfo: DatasourceInfo)
    ensures dsInfo == DatasourceOf(panel)
  {
    dsInfo := DatasourceInfo("", "");
    if "datasource" in panel && panel["datasource"] != JNull {
      var dsField := panel["datasource"];
      if dsField.JObject? {
        var dsMap := dsField.fields;
        if "uid" in dsMap && dsMap["uid"].JString? {
          dsInfo := dsInfo.(uid := dsMap["uid"].str);
        }
        if "type" in dsMap && dsMap["type"].JString? {
          dsInfo := dsInfo.(dsType := dsMap["type"].str);
        }
      }
    }
  }

  /** The loop over `targets` in `extractQueries`, appending to `result`. */
  method AppendTargets(result: seq<PanelQuery>, targets: seq<Json>, title: string, dsInfo: DatasourceInfo)
    returns (out: seq<PanelQuery>)
    ensures out == result + TargetQueries(targets, title, dsInfo)
  {
    out := result;
    for j := 0 to |targets|
      invariant out == result + TargetQueries(targets[..j], title, dsInfo)
    {
      assert targets[..j + 1][..j] == targets[..j];
      var t := targets[j];
      if !t.JObject? {
        continue;
      }
      var expr := StringField(t.fields, "expr");
      if expr != "" {
        var uniqueVars := UniqueVariableNames(expr);
        out := out + [PanelQuery(title, expr, dsInfo, uniqueVars)];
      }
    }
    assert targets[..|targets|] == targets;
  }

  // ---------------------------------------------------------------------
  // Properties of the walk

  /** The records of consecutive panels are the records of each in turn. */
  lemma {:induction false} PanelsConcat(a: seq<Json>, b: seq<Json>)
    ensures PanelsQueries(a + b) == PanelsQueries(a) + PanelsQueries(b)
    decreases |b|
  {
    if b == [] {
      assert a + b == a;
    } else {
      var n := |b| - 1;
      var init := a + b[..n];
      assert a + b == init + [b[n]];
      calc {
        PanelsQueries(a + b);
        == { PanelsSnoc(init, b[n]); }
        PanelsQueries(init) + PanelRecords(b[n]);
        == { PanelsConcat(a, b[..n]); }
        PanelsQueries(a) + PanelsQueries(b[..n]) + PanelRecords(b[n]);
        == { AppendAssociative(PanelsQueries(a), PanelsQueries(b[..n]), PanelRecords(b[n]));
             PanelsSnoc(b[..n], b[n]); assert b[..n] + [b[n]] == b; }
        PanelsQueries(a) + PanelsQueries(b);
      }
    }
  }

  /** One more panel adds its records at the end. */
  lemma PanelsSnoc(s: seq<Json>, p: Json)
    ensures PanelsQueries(s + [p]) == PanelsQueries(s) + PanelRecords(p)
  {
    assert (s + [p])[..|s|] == s;
  }

  /** A panel entry that is not an object is skipped. */
  lemma NonObjectPanelSkipped(a: seq<Json>, x: Json, b: seq<Json>)
    requires !x.JObject?
    ensures PanelsQueries(a + [x] + b) == PanelsQueries(a + b)
  {
    PanelsConcat(a + [x], b);
    PanelsConcat(a, [x]);
    PanelsConcat(a, b);
    assert PanelsQueries([x]) == PanelsQueries([]) + PanelRecords(x);
  }

  /** A single panel's records: its nested records first, then its own. */
  lemma SinglePanel(p: Json)
    ensures PanelsQueries([p]) == PanelRecords(p)
    ensures p.JObject? ==> PanelsQueries([p]) == NestedRecords(p.fields) + OwnRecords(p.fields)
  {
    assert [p][..0] == [];
  }

  /** A panel whose `targets` is missing or not an array contributes only
      its nested records. */
  lemma NoTargetsOnlyNested(panel: map<string, Json>)
    requires !HasArray(panel, "targets")
    ensures PanelRecords(JObject(panel)) == NestedRecords(panel)
  {
    assert NestedRecords(panel) + [] == NestedRecords(panel);
  }

  /** The non-empty query expressions of the targets, in order. */
  function Exprs(ts: seq<Json>): seq<string> {
    if ts == [] then []
    else (if ExprOf(ts[0]) != "" then [ExprOf(ts[0])] else []) + Exprs(ts[1..])
  }

  lemma {:induction false} ExprsSnoc(ts: seq<Json>, t: Json)
    ensures Exprs(ts + [t]) == Exprs(ts) + (if ExprOf(t) != "" then [ExprOf(t)] else [])
    decreases |ts|
  {
    if ts == [] {
      assert [t][1..] == [];
    } else {
      assert (ts + [t])[0] == ts[0] && (ts + [t])[1..] == ts[1..] + [t];
      ExprsSnoc(ts[1..], t);
    }
  }

  /** One record per target whose `expr` is a non-empty string, in order:
      its query is that `expr` verbatim, and it carries the panel's title,
      the panel's data source and the variables of the expression. */
  lemma {:induction false} TargetQueriesAreExprs(ts: seq<Json>, title: string, ds: DatasourceInfo)
    ensures RecordsOf(TargetQueries(ts, title, ds), Exprs(ts), title, ds)
    decreases |ts|
  {
    if ts != [] {
      var n := |ts| - 1;
      var init := ts[..n];
      var t := ts[n];
      TargetQueriesAreExprs(init, title, ds);
      assert init + [t] == ts;
      ExprsSnoc(init, t);
      RecordsOfSnoc(TargetQueries(init, title, ds), Exprs(init), t, title, ds);
    }
  }

  /** `rs` holds one record per expression of `es`, in order. */
  predicate RecordsOf(rs: seq<PanelQuery>, es: seq<string>, title: string, ds: DatasourceInfo) {
    |rs| == |es| && forall k :: 0 <= k < |rs| ==> rs[k] == PanelQuery(title, es[k], ds, VariableNames(es[k]))
  }

  lemma RecordsOfSnoc(rs: seq<PanelQuery>, es: seq<string>, t: Json, title: string, ds: DatasourceInfo)
    requires RecordsOf(rs, es, title, ds)
    ensures RecordsOf(rs + TargetRecord(t, title, ds), es + (if ExprOf(t) != "" then [ExprOf(t)] else []), title, ds)
  {
  }

  /** A record as the extractor builds it: a non-empty query and the
      distinct variable names it uses, in first-seen order, without '$'. */
  predicate WellFormed(r: PanelQuery) {
    r.query != "" && r.variables == VariableNames(r.query)
  }

  predicate AllWellFormed(rs: seq<PanelQuery>) {
    forall k :: 0 <= k < |rs| ==> WellFormed(rs[k])
  }

  lemma AllWellFormedConcat(a: seq<PanelQuery>, b: seq<PanelQuery>)
    requires AllWellFormed(a) && AllWellFormed(b)
    ensures AllWellFormed(a + b)
  {
    forall k | 0 <= k < |a + b|
      ensures WellFormed((a + b)[k])
    {
      if k >= |a| {
        assert (a + b)[k] == b[k - |a|];
      }
    }
  }

  lemma {:induction false} TargetRecordsWellFormed(ts: seq<Json>, title: string, ds: DatasourceInfo)
    ensures AllWellFormed(TargetQueries(ts, title, ds))
  {
    TargetQueriesAreExprs(ts, title, ds);
    forall k | 0 <= k < |Exprs(ts)|
      ensures Exprs(ts)[k] != ""
    {
      ExprsNonEmpty(ts, k);
    }
  }

  lemma {:induction false} ExprsNonEmpty(ts: seq<Json>, k: nat)
    requires k < |Exprs(ts)|
    ensures Exprs(ts)[k] != ""
    decreases |ts|
  {
    if ExprOf(ts[0]) == "" {
      ExprsNonEmpty(ts[1..], k);
    } else if k > 0 {
      ExprsNonEmpty(ts[1..], k - 1);
    }
  }

  /** Every record anywhere in the tree is well formed. */
  lemma {:induction false} PanelsWellFormed(panels: seq<Json>)
    ensures AllWellFormed(PanelsQueries(panels))
    decreases panels
  {
    if panels != [] {
      var n := |panels| - 1;
      PanelsWellFormed(panels[..n]);
      PanelWellFormed(panels[n]);
      AllWellFormedConcat(PanelsQueries(panels[..n]), PanelRecords(panels[n]));
    }
  }

  lemma {:induction false} PanelWellFormed(p: Json)
    ensures AllWellFormed(PanelRecords(p))
    decreases p
  {
    if p.JObject? {
      var panel := p.fields;
      var collapsed := if HasArray(panel, "collapsed") then PanelsQueries(panel["collapsed"].items) else [];
      var inner := if HasArray(panel, "panels") then PanelsQueries(panel["panels"].items) else [];
      if HasArray(panel, "collapsed") {
        PanelsWellFormed(panel["collapsed"].items);
      }
      if HasArray(panel, "panels") {
        PanelsWellFormed(panel["panels"].items);
      }
      if HasArray(panel, "targets") {
        TargetRecordsWellFormed(panel["targets"].items, StringField(panel, "title"), DatasourceOf(panel));
      }
      AllWellFormedConcat(collapsed, inner);
      AllWellFormedConcat(NestedRecords(panel), OwnRecords(panel));
    }
  }

  /** No record lists a variable twice, and a name is listed exactly when
      `$name` is a match of `\$\w+` in its query: some '$' of the query is
      followed by exactly the word run `name`. */
  lemma RecordVariables(panels: seq<Json>, k: nat, name: string)
    requires k < |PanelsQueries(panels)|
    ensures var r := PanelsQueries(panels)[k];
      && NoDuplicates(r.variables)
      && (name in r.variables <==> "$" + name in Tokens(r.query))
      && (name in r.variables <==> exists i :: StartsAt(r.query, i) && "$" + name == MatchAt(r.query, i))
  {
    var q := PanelsQueries(panels)[k].query;
    PanelsWellFormed(panels);
    VariableNamesAreTokens(q, name);
    TokensMembers(q, "$" + name);
  }

  // ---------------------------------------------------------------------
  // GetDashboardPanelQueriesTool

  datatype DashboardError = FetchFailed | NotAnObject | PanelsNotArray

  /** What `GetDashboardPanelQueriesTool` returns for the dashboard JSON
      the store answered with. */
  function DashboardPanelQueries(fetched: Reply<Json>): Result<seq<PanelQuery>, DashboardError>
  {
    match fetched
      case Failed => Err(FetchFailed)
      case Answered(dashboard) =>
        if !dashboard.JObject? then Err(NotAnObject)
        else if !HasArray(dashboard.fields, "panels") then Err(PanelsNotArray)
        else Ok(PanelsQueries(dashboard.fields["panels"].items))
  }

  /** `GetDashboardPanelQueriesTool`. */
  method GetDashboardPanelQueries(fetched: Reply<Json>) returns (r: Result<seq<PanelQuery>, DashboardError>)
    ensures r == DashboardPanelQueries(fetched)
  {
    if fetched.Failed? {
      return Err(FetchFailed);
    }
    var db := fetched.value;
    if !db.JObject? {
      return Err(NotAnObject);
    }
    if !HasArray(db.fields, "panels") {
      return Err(PanelsNotArray);
    }
    var queries := ExtractQueries(db.fields["panels"].items);
    return Ok(queries);
  }

  /** The tool fails exactly when the store fails, the dashboard is not an
      object or its `panels` is not an array; an empty `panels` array gives
      no records. */
  lemma DashboardOkIff(fetched: Reply<Json>)
    ensures DashboardPanelQueries(fetched).Ok? <==>
      fetched.Answered? && fetched.value.JObject? && HasArray(fetched.value.fields, "panels")
    ensures (fetched.Answered? && fetched.value.JObject? && "panels" in fetched.value.fields
             && fetched.value.fields["panels"] == JArray([])) ==> DashboardPanelQueries(fetched) == Ok([])
  {
  }

  /** Every record the tool returns is well formed. */
  lemma DashboardRecordsWellFormed(fetched: Reply<Json>)
    requires DashboardPanelQueries(fetched).Ok?
    ensures AllWellFormed(DashboardPanelQueries(fetched).value)
  {
    PanelsWellFormed(fetched.value.fields["panels"].items);
  }
}
