/** What the two renderings of the dashboard (the script app.py and the helpers
    in io_utils/display.py) compute before they hand data to the chart and map
    widgets: one aggregated row per scenario for a resource metric, and one
    styled trace per selected map layer that has points.

    The two files differ in two details, each an explicit parameter here:
    app.py squares `(e or 0.0)`, so a falsy error counts as 0, where display.py
    squares the error as it is; and app.py reads a missing default style field
    as `None` (`defaults.get(f)`) where display.py raises (`defaults[f]`). */
module DashboardViews {
  import opened PyValues

  // ---------------------------------------------------------------------------
  // Bar charts

  /** A chart row. The error bar is the square root of `errorSquared`. */
  datatype Row = Row(scenario: string, value: real, errorSquared: real)

  /** How an entry's error term is squared. */
  datatype ErrorRule =
    | FalsyErrorIsZero  // app.py: `(e or 0.0) ** 2`
    | ErrorAsIs         // display.py: `e ** 2`

  /** One step of `[e for e in entries if e.get("scale") == selected_scale]`: the
      entry is kept when its scale equals the selected one under Python's `==`
      (a scale `True` equals `1`). An entry that is not a dict has no `get`, and
      an entry without a scale matches only `None`. */
  function MatchEntry(scale: Value): Value -> Result<Option<Dict>> {
    (e: Value) => if !e.Obj? then Raised
         else Ok(if PyEq(GetOr(e.fields, "scale", Null), scale) then Some(e.fields) else None)
  }

  /** The entries at the selected scale. */
  function Matching(entries: seq<Value>, scale: Value): (r: Result<seq<Dict>>)
    ensures r.Ok? <==> forall i :: 0 <= i < |entries| ==> entries[i].Obj?
  {
    MapResultsOk(MatchEntry(scale), entries);
    Collect(MatchEntry(scale), entries)
  }

  /** The filter keeps exactly the entries at the selected scale, in their order:
      the k-th kept entry is the entry at position `idx[k]`, which has that scale,
      the positions increase, and every entry at that scale has its position in
      `idx`. */
  lemma MatchingKeepsScale(entries: seq<Value>, scale: Value) returns (idx: seq<nat>)
    requires Matching(entries, scale).Ok?
    ensures var kept := Matching(entries, scale).value;
      && |idx| == |kept|
      && (forall k :: 0 <= k < |idx| ==>
            idx[k] < |entries| && entries[idx[k]] == Obj(kept[k]) && PyEq(GetOr(kept[k], "scale", Null), scale))
      && (forall k, l :: 0 <= k < l < |idx| ==> idx[k] < idx[l])
      && (forall i :: 0 <= i < |entries| && PyEq(GetOr(entries[i].fields, "scale", Null), scale) ==> i in idx)
  {
    var f := MatchEntry(scale);
    MapResultsOk(f, entries);
    var ys := MapResults(f, entries).value;
    idx := SomesIndexed(ys);
    var kept := Somes(ys);
    forall k | 0 <= k < |idx|
      ensures entries[idx[k]] == Obj(kept[k]) && PyEq(GetOr(kept[k], "scale", Null), scale)
    {
      assert f(entries[idx[k]]) == Ok(Some(kept[k]));
    }
    forall i | 0 <= i < |entries| && PyEq(GetOr(entries[i].fields, "scale", Null), scale) ensures i in idx {
      assert f(entries[i]) == Ok(ys[i]) && ys[i].Some?;
    }
  }

  /** `e.get(resource, 0)` as a number: a missing value counts 0, a value that
      is not a number makes `sum` raise. */
  function ValueOfEntry(resource: string): Dict -> Result<real> {
    e => AsNumber(GetOr(e, resource, Num(0.0)))
  }

  /** The square of one entry's error `e.get(resource + "Err", 0)`. */
  function ErrorTerm(rule: ErrorRule, err: Value): (r: Result<real>)
    ensures r.Ok? ==> r.value >= 0.0
    ensures rule == FalsyErrorIsZero && !Truthy(err) ==> r == Ok(0.0)
    ensures err.Num? ==> r == Ok(err.n * err.n)
    ensures err.Bool? ==> r == Ok(if err.b then 1.0 else 0.0)
    ensures !IsNumeric(err) && (rule == ErrorAsIs || Truthy(err)) ==> r.Raised?
  {
    if rule == FalsyErrorIsZero && !Truthy(err) then
      assert err.Num? ==> err == Num(0.0);
      Ok(0.0)
    else if err.Num? then Ok(err.n * err.n)
    else if err.Bool? then Ok(if err.b then 1.0 else 0.0)  // `True ** 2 == 1`
    else Raised
  }

  function ErrorOfEntry(rule: ErrorRule, resource: string): Dict -> Result<real> {
    e => ErrorTerm(rule, GetOr(e, resource + "Err", Num(0.0)))
  }

  /** The value total of the matched entries. */
  function ValueTotal(matched: seq<Dict>, resource: string): Result<real> {
    var xs :- MapResults(ValueOfEntry(resource), matched);
    Ok(Sum(xs))
  }

  /** The sum of the squared errors of the matched entries. */
  function ErrorSquareTotal(rule: ErrorRule, matched: seq<Dict>, resource: string): Result<real> {
    var xs :- MapResults(ErrorOfEntry(rule, resource), matched);
    Ok(Sum(xs))
  }

  /** The combined error is never negative, so its square root exists. */
  lemma ErrorSquareTotalNonNegative(rule: ErrorRule, matched: seq<Dict>, resource: string)
    requires ErrorSquareTotal(rule, matched, resource).Ok?
    ensures ErrorSquareTotal(rule, matched, resource).value >= 0.0
  {
    var g := ErrorOfEntry(rule, resource);
    MapResultsOk(g, matched);
    var xs := MapResults(g, matched).value;
    assert forall i :: 0 <= i < |xs| ==> g(matched[i]) == Ok(xs[i]);
    SumNonNegative(xs);
  }

  /** The row one iteration of the scenario loop appends: `chart_data.get(scenario, [])`
      filtered by the selected scale, its values summed and its errors combined in
      quadrature. */
  function ScenarioRow(rule: ErrorRule, chartData: Value, scenario: string, resource: string, scale: Value): Result<Row> {
    var entries :- Get(chartData, scenario, Arr([]));
    var items :- Iter(entries);
    var matched :- Matching(items, scale);
    var value :- ValueTotal(matched, resource);
    var errorSquared :- ErrorSquareTotal(rule, matched, resource);
    Ok(Row(scenario, value, errorSquared))
  }

  function RowOfScenario(rule: ErrorRule, chartData: Value, resource: string, scale: Value): string -> Result<Row> {
    scenario => ScenarioRow(rule, chartData, scenario, resource, scale)
  }

  /** The rows of one resource chart: exactly one per scenario, in the given
      order, each computed from its own scenario alone; any row that raises
      makes the chart raise. */
  function RowsFor(rule: ErrorRule, chartData: Value, scenarios: seq<string>, resource: string, scale: Value): Result<seq<Row>> {
    MapResults(RowOfScenario(rule, chartData, resource, scale), scenarios)
  }

  lemma RowsForShape(rule: ErrorRule, chartData: Value, scenarios: seq<string>, resource: string, scale: Value)
    ensures var r := RowsFor(rule, chartData, scenarios, resource, scale);
      && (r.Ok? <==> forall i :: 0 <= i < |scenarios| ==> ScenarioRow(rule, chartData, scenarios[i], resource, scale).Ok?)
      && (r.Ok? ==> |r.value| == |scenarios|)
      && (r.Ok? ==> forall i :: 0 <= i < |scenarios| ==> ScenarioRow(rule, chartData, scenarios[i], resource, scale) == Ok(r.value[i]))
  {
    MapResultsOk(RowOfScenario(rule, chartData, resource, scale), scenarios);
  }

  /** One drawn resource chart: `label`, `unit` and the rows of `df_chart`. */
  datatype Chart = Chart(resource: string, caption: Value, unit: Value, rows: seq<Row>)

  /** One iteration of the resource loop: `labels.get(resource, resource)`,
      `units.get(resource, "")` and the scenario rows; with no rows the data frame
      is empty and no chart is drawn. */
  function ChartOf(rule: ErrorRule, chartData: Value, scenarios: seq<string>, scale: Value,
                   labels: Value, units: Value, resource: string): Result<Option<Chart>> {
    var caption :- Get(labels, resource, Str(resource));
    var unit :- Get(units, resource, Str(""));
    var rows :- RowsFor(rule, chartData, scenarios, resource, scale);
    Ok(if rows == [] then None else Some(Chart(resource, caption, unit, rows)))
  }

  function ChartOfResource(rule: ErrorRule, chartData: Value, scenarios: seq<string>, scale: Value,
                           labels: Value, units: Value): string -> Result<Option<Chart>> {
    resource => ChartOf(rule, chartData, scenarios, scale, labels, units, resource)
  }

  /** The charts the resource loop draws, in resource order. */
  function ChartsFor(rule: ErrorRule, resources: seq<string>, scenarios: seq<string>, chartData: Value,
                     scale: Value, labels: Value, units: Value): Result<seq<Chart>> {
    Collect(ChartOfResource(rule, chartData, scenarios, scale, labels, units), resources)
  }

  /** The inner loop over scenarios, appending one row per scenario. */
  method ScenarioRows(rule: ErrorRule, chartData: Value, scenarios: seq<string>, resource: string, scale: Value)
    returns (r: Result<seq<Row>>)
    ensures r == RowsFor(rule, chartData, scenarios, resource, scale)
  {
    var g := RowOfScenario(rule, chartData, resource, scale);
    var rows: seq<Row> := [];
    for j := 0 to |scenarios|
      invariant MapResults(g, scenarios[..j]) == Ok(rows)
    {
      var row := ScenarioRow(rule, chartData, scenarios[j], resource, scale);
      if row.Raised? {
        MapResultsRaises(g, scenarios, j);
        return Raised;
      }
      MapResultsStep(g, scenarios, j, rows);
      rows := rows + [row.value];
    }
    assert scenarios[..|scenarios|] == scenarios;
    return Ok(rows);
  }

  /** `ChartOf` step by step, for the loop that computes it. */
  lemma ChartOfParts(rule: ErrorRule, chartData: Value, scenarios: seq<string>, scale: Value,
                     labels: Value, units: Value, resource: string)
    ensures var f := ChartOfResource(rule, chartData, scenarios, scale, labels, units);
      var caption := Get(labels, resource, Str(resource));
      var unit := Get(units, resource, Str(""));
      var rows := RowsFor(rule, chartData, scenarios, resource, scale);
      f(resource) == if caption.Raised? || unit.Raised? || rows.Raised? then Raised
                     else Ok(if rows.value == [] then None else Some(Chart(resource, caption.value, unit.value, rows.value)))
  {
  }

  /** One pass of the outer loop: label, unit and rows of one resource, and the
      chart only when it has rows. */
  method ResourceChart(rule: ErrorRule, chartData: Value, scenarios: seq<string>, scale: Value,
                       labels: Value, units: Value, resource: string) returns (r: Result<Option<Chart>>)
    ensures r == ChartOf(rule, chartData, scenarios, scale, labels, units, resource)
  {
    var caption := Get(labels, resource, Str(resource));
    var unit := Get(units, resource, Str(""));
    if caption.Raised? || unit.Raised? {
      return Raised;
    }
    var rows := ScenarioRows(rule, chartData, scenarios, resource, scale);
    if rows.Raised? {
      return Raised;
    }
    if rows.value == [] {
      return Ok(None);
    }
    return Ok(Some(Chart(resource, caption.value, unit.value, rows.value)));
  }

  /** The outer loop over resources, keeping the charts that have rows. */
  method ResourceCharts(rule: ErrorRule, resources: seq<string>, scenarios: seq<string>, chartData: Value,
                        scale: Value, labels: Value, units: Value) returns (r: Result<seq<Chart>>)
    ensures r == ChartsFor(rule, resources, scenarios, chartData, scale, labels, units)
  {
    var charts: seq<Chart> := [];
    for i := 0 to |resources|
      invariant ChartsFor(rule, resources[..i], scenarios, chartData, scale, labels, units) == Ok(charts)
    {
      var chart := ResourceChart(rule, chartData, scenarios, scale, labels, units, resources[i]);
      CollectExtend(ChartOfResource(rule, chartData, scenarios, scale, labels, units), resources, i);
      if chart.Raised? {
        return Raised;
      }
      if chart.value.Some? {
        charts := charts + [chart.value.value];
      }
    }
    assert resources[..|resources|] == resources;
    return Ok(charts);
  }

  /** With at least one scenario every resource gets its chart, in resource
      order, carrying that resource's rows; with none, no chart is drawn. */
  lemma ChartsShape(rule: ErrorRule, resources: seq<string>, scenarios: seq<string>, chartData: Value,
                    scale: Value, labels: Value, units: Value)
    requires ChartsFor(rule, resources, scenarios, chartData, scale, labels, units).Ok?
    ensures var charts := ChartsFor(rule, resources, scenarios, chartData, scale, labels, units).value;
      && (scenarios == [] ==> charts == [])
      && (scenarios != [] ==>
            && |charts| == |resources|
            && forall k :: 0 <= k < |resources| ==>
                 charts[k].resource == resources[k] && RowsFor(rule, chartData, scenarios, resources[k], scale) == Ok(charts[k].rows))
  {
    var f := ChartOfResource(rule, chartData, scenarios, scale, labels, units);
    MapResultsOk(f, resources);
    var drawn := MapResults(f, resources).value;
    if scenarios == [] {
      forall k | 0 <= k < |resources| ensures drawn[k].None? {
        ChartOfParts(rule, chartData, scenarios, scale, labels, units, resources[k]);
      }
      SomesNonePresent(drawn);
    } else {
      forall k | 0 <= k < |resources|
        ensures drawn[k].Some? && drawn[k].value.resource == resources[k]
        ensures RowsFor(rule, chartData, scenarios, resources[k], scale) == Ok(drawn[k].value.rows)
      {
        ChartOfParts(rule, chartData, scenarios, scale, labels, units, resources[k]);
        MapResultsLength(RowOfScenario(rule, chartData, resources[k], scale), scenarios);
      }
      SomesAllPresent(drawn);
    }
  }

  /** Every row is labelled with its scenario. */
  lemma ScenarioRowLabel(rule: ErrorRule, chartData: Value, scenario: string, resource: string, scale: Value)
    requires ScenarioRow(rule, chartData, scenario, resource, scale).Ok?
    ensures ScenarioRow(rule, chartData, scenario, resource, scale).value.scenario == scenario
  {
  }

  /** With no entry at the selected scale (or no entries at all) the scenario
      still gets a row, and it is `(0, 0)`. */
  lemma NoMatchingEntriesGiveZeroRow(rule: ErrorRule, chartData: Dict, scenario: string,
                                     resource: string, scale: Value, entries: seq<Value>)
    requires GetOr(chartData, scenario, Arr([])) == Arr(entries)
    requires forall i :: 0 <= i < |entries| ==> entries[i].Obj? && !PyEq(GetOr(entries[i].fields, "scale", Null), scale)
    ensures ScenarioRow(rule, Obj(chartData), scenario, resource, scale) == Ok(Row(scenario, 0.0, 0.0))
  {
    NothingMatches(entries, scale);
  }

  lemma NothingMatches(entries: seq<Value>, scale: Value)
    requires forall i :: 0 <= i < |entries| ==> entries[i].Obj? && !PyEq(GetOr(entries[i].fields, "scale", Null), scale)
    ensures Matching(entries, scale) == Ok([])
  {
    var f := MatchEntry(scale);
    MapResultsOk(f, entries);
    SomesNonePresent(MapResults(f, entries).value);
  }

  /** When every entry is a dict at the selected scale, the subset is all of
      them, in order. */
  lemma EverythingMatches(entries: seq<Value>, scale: Value)
    requires forall i :: 0 <= i < |entries| ==> entries[i].Obj? && PyEq(GetOr(entries[i].fields, "scale", Null), scale)
    ensures Matching(entries, scale) == Ok(seq(|entries|, i requires 0 <= i < |entries| => entries[i].fields))
  {
    var f := MatchEntry(scale);
    MapResultsOk(f, entries);
    var ys := MapResults(f, entries).value;
    forall i | 0 <= i < |entries| ensures ys[i] == Some(entries[i].fields) {
      assert f(entries[i]) == Ok(ys[i]);
    }
    SomesAllPresent(ys);
    var all := seq(|entries|, i requires 0 <= i < |entries| => entries[i].fields);
    assert |Somes(ys)| == |all|;
    assert forall i :: 0 <= i < |all| ==> Somes(ys)[i] == all[i];
    assert Somes(ys) == all;
  }

  /** Entries that share a scale are summed, not averaged: the value total
      splits over a split of the matched entries, */
  lemma ValueTotalAppend(a: seq<Dict>, b: seq<Dict>, resource: string)
    ensures ValueTotal(a + b, resource) ==
      if ValueTotal(a, resource).Ok? && ValueTotal(b, resource).Ok?
      then Ok(ValueTotal(a, resource).value + ValueTotal(b, resource).value) else Raised
  {
    var f := ValueOfEntry(resource);
    MapResultsAppend(f, a, b);
    if MapResults(f, a).Ok? && MapResults(f, b).Ok? {
      SumAppend(MapResults(f, a).value, MapResults(f, b).value);
    }
  }

  /** and so does the sum of the squared errors. */
  lemma ErrorTotalAppend(rule: ErrorRule, a: seq<Dict>, b: seq<Dict>, resource: string)
    ensures ErrorSquareTotal(rule, a + b, resource) ==
      if ErrorSquareTotal(rule, a, resource).Ok? && ErrorSquareTotal(rule, b, resource).Ok?
      then Ok(ErrorSquareTotal(rule, a, resource).value + ErrorSquareTotal(rule, b, resource).value) else Raised
  {
    var g := ErrorOfEntry(rule, resource);
    MapResultsAppend(g, a, b);
    if MapResults(g, a).Ok? && MapResults(g, b).Ok? {
      SumAppend(MapResults(g, a).value, MapResults(g, b).value);
    }
  }

  /** The two files agree whenever every matched entry's error is a number or
      absent. */
  lemma ErrorRulesAgreeOnNumbers(matched: seq<Dict>, resource: string)
    requires forall i :: 0 <= i < |matched| ==> !HasKey(matched[i], resource + "Err") || Find(matched[i], resource + "Err").value.Num?
    ensures ErrorSquareTotal(FalsyErrorIsZero, matched, resource) == ErrorSquareTotal(ErrorAsIs, matched, resource)
    ensures ErrorSquareTotal(ErrorAsIs, matched, resource).Ok?
  {
    var f, g := ErrorOfEntry(FalsyErrorIsZero, resource), ErrorOfEntry(ErrorAsIs, resource);
    forall i | 0 <= i < |matched| ensures f(matched[i]) == g(matched[i]) && g(matched[i]).Ok? {
      var err := GetOr(matched[i], resource + "Err", Num(0.0));
      assert err.Num?;
    }
    MapResultsPointwise(f, g, matched);
    MapResultsOk(g, matched);
  }

  /** A matched entry whose error is `None` makes display.py raise, */
  lemma NoneErrorRaisesInDisplay(a: seq<Dict>, e: Dict, b: seq<Dict>, resource: string)
    requires Find(e, resource + "Err") == Some(Null)
    ensures ErrorSquareTotal(ErrorAsIs, a + [e] + b, resource).Raised?
  {
    var g := ErrorOfEntry(ErrorAsIs, resource);
    assert (a + [e] + b)[|a|] == e;
    assert g(e).Raised?;
    MapResultsOk(g, a + [e] + b);
  }

  /** while app.py counts it as 0 and combines the other errors as if it were
      not there. */
  lemma NoneErrorIgnoredInApp(a: seq<Dict>, e: Dict, b: seq<Dict>, resource: string)
    requires Find(e, resource + "Err") == Some(Null)
    ensures ErrorSquareTotal(FalsyErrorIsZero, a + [e] + b, resource) == ErrorSquareTotal(FalsyErrorIsZero, a + b, resource)
  {
    ZeroErrorTotal(e, resource);
    assert ErrorSquareTotal(FalsyErrorIsZero, a + [e], resource) == ErrorSquareTotal(FalsyErrorIsZero, a, resource) by {
      ErrorTotalAppend(FalsyErrorIsZero, a, [e], resource);
    }
    ErrorTotalAppend(FalsyErrorIsZero, a + [e], b, resource);
    ErrorTotalAppend(FalsyErrorIsZero, a, b, resource);
  }

  lemma ZeroErrorTotal(e: Dict, resource: string)
    requires Find(e, resource + "Err") == Some(Null)
    ensures ErrorSquareTotal(FalsyErrorIsZero, [e], resource) == Ok(0.0)
  {
    var f := ErrorOfEntry(FalsyErrorIsZero, resource);
    assert f(e) == Ok(0.0);
    var none: seq<Dict> := [];
    var zero: seq<real> := [];
    MapResultsSnoc(f, none, e);
    assert none + [e] == [e] && zero + [0.0] == [0.0];
    assert MapResults(f, [e]) == Ok([0.0]);
    assert Sum([0.0]) == 0.0 by {
      assert [0.0][..0] == [];
    }
  }

  /** Reordering the scenarios only reorders the rows: the row of each scenario
      is the same wherever it stands. `perm` is a bijection given with its
      inverse `inv`. */
  lemma ReorderedScenariosReorderRows(rule: ErrorRule, chartData: Value, scenarios: seq<string>,
                                      perm: seq<nat>, inv: seq<nat>, resource: string, scale: Value)
    requires |perm| == |scenarios| && |inv| == |scenarios|
    requires forall k :: 0 <= k < |perm| ==> perm[k] < |scenarios|
    requires forall i :: 0 <= i < |inv| ==> inv[i] < |perm| && perm[inv[i]] == i
    ensures var reordered := seq(|perm|, k requires 0 <= k < |perm| => scenarios[perm[k]]);
      && (RowsFor(rule, chartData, reordered, resource, scale).Ok? <==> RowsFor(rule, chartData, scenarios, resource, scale).Ok?)
      && (RowsFor(rule, chartData, reordered, resource, scale).Ok? ==>
            |RowsFor(rule, chartData, reordered, resource, scale).value| == |perm| &&
            |RowsFor(rule, chartData, scenarios, resource, scale).value| == |scenarios| &&
            forall k :: 0 <= k < |perm| ==>
              RowsFor(rule, chartData, reordered, resource, scale).value[k] == RowsFor(rule, chartData, scenarios, resource, scale).value[perm[k]])
  {
    var reordered := seq(|perm|, k requires 0 <= k < |perm| => scenarios[perm[k]]);
    RowsForShape(rule, chartData, reordered, resource, scale);
    RowsForShape(rule, chartData, scenarios, resource, scale);
    if RowsFor(rule, chartData, reordered, resource, scale).Ok? {
      forall i | 0 <= i < |scenarios| ensures ScenarioRow(rule, chartData, scenarios[i], resource, scale).Ok? {
        assert reordered[inv[i]] == scenarios[i];
      }
    }
  }

  const ExampleEntryA: Dict := [("scale", Str("S")), ("qubits", Num(10.0)), ("qubitsErr", Num(3.0))]
  const ExampleEntryB: Dict := [("scale", Str("S")), ("qubits", Num(5.0)), ("qubitsErr", Num(4.0))]

  /** A worked example: entries `{scale: S, qubits: 10, qubitsErr: 3}`
      and `{scale: S, qubits: 5, qubitsErr: 4}` give value 15 and error 5, the
      square root of 25. */
  lemma QuadratureExample(rule: ErrorRule)
    ensures ScenarioRow(rule, Obj([("A", Arr([Obj(ExampleEntryA), Obj(ExampleEntryB)]))]), "A", "qubits", Str("S"))
            == Ok(Row("A", 15.0, 25.0))
  {
    var entries := [Obj(ExampleEntryA), Obj(ExampleEntryB)];
    var chartData: Dict := [("A", Arr(entries))];
    assert GetOr(chartData, "A", Arr([])) == Arr(entries);
    assert Iter(Arr(entries)) == Ok(entries);
    ExampleMatching();
    ExampleTotals(rule);
  }

  lemma ExampleMatching()
    ensures Matching([Obj(ExampleEntryA), Obj(ExampleEntryB)], Str("S")) == Ok([ExampleEntryA, ExampleEntryB])
  {
    var e1, e2 := ExampleEntryA, ExampleEntryB;
    var entries := [Obj(e1), Obj(e2)];
    assert GetOr(e1, "scale", Null) == Str("S") && GetOr(e2, "scale", Null) == Str("S");
    EverythingMatches(entries, Str("S"));
    assert seq(2, i requires 0 <= i < 2 => entries[i].fields) == [e1, e2];
  }

  lemma ExampleTotals(rule: ErrorRule)
    ensures ValueTotal([ExampleEntryA, ExampleEntryB], "qubits") == Ok(15.0)
    ensures ErrorSquareTotal(rule, [ExampleEntryA, ExampleEntryB], "qubits") == Ok(25.0)
  {
    ExampleValueTotal();
    ExampleErrorTotal(rule);
  }

  lemma ExampleValueTotal()
    ensures ValueTotal([ExampleEntryA, ExampleEntryB], "qubits") == Ok(15.0)
  {
    var e1, e2 := ExampleEntryA, ExampleEntryB;
    assert GetOr(e1, "qubits", Num(0.0)) == Num(10.0);
    assert GetOr(e2, "qubits", Num(0.0)) == Num(5.0);
    ExampleSum([e1, e2], ValueOfEntry("qubits"), 10.0, 5.0);
  }

  lemma ExampleErrorTotal(rule: ErrorRule)
    ensures ErrorSquareTotal(rule, [ExampleEntryA, ExampleEntryB], "qubits") == Ok(25.0)
  {
    var e1, e2 := ExampleEntryA, ExampleEntryB;
    assert "qubits" + "Err" == "qubitsErr";
    assert GetOr(e1, "qubitsErr", Num(0.0)) == Num(3.0);
    assert GetOr(e2, "qubitsErr", Num(0.0)) == Num(4.0);
    ExampleSum([e1, e2], ErrorOfEntry(rule, "qubits"), 9.0, 16.0);
  }

  lemma ExampleSum(es: seq<Dict>, f: Dict -> Result<real>, x: real, y: real)
    requires |es| == 2 && f(es[0]) == Ok(x) && f(es[1]) == Ok(y)
    ensures MapResults(f, es) == Ok([x, y]) && Sum([x, y]) == x + y
  {
    var zero: seq<real> := [];
    assert es[..1] == [es[0]] && es[..1][..0] == [];
    assert MapResults(f, es[..1][..0]) == Ok(zero);
    assert zero + [x] == [x];
    assert MapResults(f, es[..1]) == Ok([x]);
    assert [x] + [y] == [x, y];
    assert MapResults(f, es) == Ok([x, y]);
    assert [x, y][..1] == [x] && [x][..0] == [];
    assert Sum([x]) == x;
  }

  // ---------------------------------------------------------------------------
  // Map traces

  datatype Style = Style(color: Value, size: Value, opacity: Value)

  /** One `Scattermapbox` trace: the layer's name, marker style, points (each
      giving a latitude and a longitude) and hover text. */
  datatype Trace = Trace(name: string, style: Style, points: seq<Dict>, text: Value)

  /** How a default style field is read. */
  datatype DefaultRule =
    | MissingDefaultIsNone   // app.py: `defaults.get(field)`
    | MissingDefaultRaises   // display.py: `defaults[field]`

  /** The defaults both files use when the style document has no `defaults` key. */
  const FallbackDefaults: Value := Obj([("color", Str("red")), ("size", Num(8.0)), ("opacity", Num(0.7))])

  /** `style_config.get('defaults', {...})` */
  function DefaultsOf(styles: Dict): (d: Value)
    ensures HasKey(styles, "defaults") ==> d == Find(styles, "defaults").value
    ensures !HasKey(styles, "defaults") ==> d == FallbackDefaults
  {
    GetOr(styles, "defaults", FallbackDefaults)
  }

  /** `style.get(field, <default>)`; the default is worked out first, so a
      defaults value that cannot be read raises even when the layer overrides it. */
  function StyleField(rule: DefaultRule, style: Dict, defaults: Value, field: string): Result<Value> {
    var fallback :- if rule == MissingDefaultIsNone then Get(defaults, field, Null) else Subscript(defaults, field);
    Ok(GetOr(style, field, fallback))
  }

  /** The marker style of a layer: `layer_styles.get(name, {})`, then color, size
      and opacity field by field. */
  function LayerStyle(rule: DefaultRule, layerStyles: Value, defaults: Value, name: string): Result<Style> {
    var style :- Get(layerStyles, name, Obj([]));
    if !style.Obj? then Raised
    else
      var color :- StyleField(rule, style.fields, defaults, "color");
      var size :- StyleField(rule, style.fields, defaults, "size");
      var opacity :- StyleField(rule, style.fields, defaults, "opacity");
      Ok(Style(color, size, opacity))
  }

  /** `df.get('name', name)` on the layer's data frame: the per-point `name`
      column when some point has a name (a point without one reads as missing),
      else the layer name. */
  function HoverText(points: seq<Dict>, name: string): Value {
    if exists i :: 0 <= i < |points| && HasKey(points[i], "name")
    then Arr(seq(|points|, i requires 0 <= i < |points| => GetOr(points[i], "name", Null)))
    else Str(name)
  }

  /** `map_layers.get(name, [])` */
  function LayerPointsOf(layers: Assoc<seq<Dict>>, name: string): seq<Dict> {
    GetOr(layers, name, [])
  }

  /** One iteration of the layer loop: no trace for a layer without points,
      else the layer's styled trace. */
  function LayerTrace(rule: DefaultRule, layers: Assoc<seq<Dict>>, layerStyles: Value, defaults: Value, name: string): (r: Result<Option<Trace>>)
    ensures LayerPointsOf(layers, name) == [] ==> r == Ok(None)
    ensures r.Ok? ==> (r.value.Some? <==> LayerPointsOf(layers, name) != [])
    ensures r.Ok? && r.value.Some? ==> r.value.value.name == name && r.value.value.points == LayerPointsOf(layers, name)
  {
    var points := LayerPointsOf(layers, name);
    if points == [] then Ok(None)
    else
      var style :- LayerStyle(rule, layerStyles, defaults, name);
      Ok(Some(Trace(name, style, points, HoverText(points, name))))
  }

  function TraceOfLayer(rule: DefaultRule, layers: Assoc<seq<Dict>>, layerStyles: Value, defaults: Value): string -> Result<Option<Trace>> {
    name => LayerTrace(rule, layers, layerStyles, defaults, name)
  }

  /** The traces the layer loop adds, in selection order. */
  function TracesOf(rule: DefaultRule, selected: seq<string>, layers: Assoc<seq<Dict>>,
                    layerStyles: Value, defaults: Value): Result<seq<Trace>> {
    Collect(TraceOfLayer(rule, layers, layerStyles, defaults), selected)
  }

  /** `has_data` after the loop: some selected layer has points. */
  predicate AnyLayerHasPoints(selected: seq<string>, layers: Assoc<seq<Dict>>) {
    exists i :: 0 <= i < |selected| && LayerPointsOf(layers, selected[i]) != []
  }

  /** The traces and `has_data` of one map rendering. `style_config.get` needs a dict. */
  function MapView(rule: DefaultRule, selected: seq<string>, layers: Assoc<seq<Dict>>, styles: Value): Result<(seq<Trace>, bool)> {
    if !styles.Obj? then Raised
    else
      var defaults := DefaultsOf(styles.fields);
      var layerStyles := GetOr(styles.fields, "layers", Obj([]));
      var traces :- TracesOf(rule, selected, layers, layerStyles, defaults);
      Ok((traces, AnyLayerHasPoints(selected, layers)))
  }

  /** `has_data` grows by one layer at a time. */
  lemma AnyLayerHasPointsSnoc(selected: seq<string>, i: nat, layers: Assoc<seq<Dict>>)
    requires i < |selected|
    ensures AnyLayerHasPoints(selected[..i + 1], layers) <==>
              AnyLayerHasPoints(selected[..i], layers) || LayerPointsOf(layers, selected[i]) != []
  {
    var pre, next := selected[..i], selected[..i + 1];
    if AnyLayerHasPoints(next, layers) {
      var k :| 0 <= k < |next| && LayerPointsOf(layers, next[k]) != [];
      if k < i {
        assert pre[k] == next[k];
      }
    }
    if AnyLayerHasPoints(pre, layers) {
      var k :| 0 <= k < |pre| && LayerPointsOf(layers, pre[k]) != [];
      assert next[k] == pre[k];
    }
    if LayerPointsOf(layers, selected[i]) != [] {
      assert next[i] == selected[i];
    }
  }

  /** The layer loop, with its `has_data` flag. */
  method MapTraces(rule: DefaultRule, selected: seq<string>, layers: Assoc<seq<Dict>>, styles: Value)
    returns (r: Result<(seq<Trace>, bool)>)
    ensures r == MapView(rule, selected, layers, styles)
  {
    if !styles.Obj? {
      return Raised;
    }
    var defaults := DefaultsOf(styles.fields);
    var layerStyles := GetOr(styles.fields, "layers", Obj([]));
    var traces: seq<Trace> := [];
    var hasData := false;
    for i := 0 to |selected|
      invariant TracesOf(rule, selected[..i], layers, layerStyles, defaults) == Ok(traces)
      invariant hasData == AnyLayerHasPoints(selected[..i], layers)
    {
      var name := selected[i];
      CollectExtend(TraceOfLayer(rule, layers, layerStyles, defaults), selected, i);
      AnyLayerHasPointsSnoc(selected, i, layers);
      var points := LayerPointsOf(layers, name);
      if points == [] {
        continue;
      }
      hasData := true;
      var style := LayerStyle(rule, layerStyles, defaults, name);
      if style.Raised? {
        return Raised;
      }
      traces := traces + [Trace(name, style.value, points, HoverText(points, name))];
    }
    assert selected[..|selected|] == selected;
    return Ok((traces, hasData));
  }

  /** Field-wise precedence: each field is the layer's override when it has one,
      otherwise the default (app.py: `None` when the defaults lack it; display.py
      raises instead). A layer without an entry takes every field from the defaults. */
  lemma StylePrecedence(rule: DefaultRule, layerStyles: Dict, defaults: Dict, name: string, field: string)
    requires LayerStyle(rule, Obj(layerStyles), Obj(defaults), name).Ok?
    requires field == "color" || field == "size" || field == "opacity"
    ensures var st := LayerStyle(rule, Obj(layerStyles), Obj(defaults), name).value;
      var got := if field == "color" then st.color else if field == "size" then st.size else st.opacity;
      var override := GetOr(layerStyles, name, Obj([]));
      && override.Obj?
      && (HasKey(override.fields, field) ==> got == Find(override.fields, field).value)
      && (!HasKey(override.fields, field) && HasKey(defaults, field) ==> got == Find(defaults, field).value)
      && (!HasKey(override.fields, field) && !HasKey(defaults, field) ==> got == Null && rule == MissingDefaultIsNone)
  {
  }

  /** display.py raises for a layer with points when the defaults lack a field,
      even if the layer overrides that field. */
  lemma DisplayNeedsEveryDefault(layerStyles: Value, defaults: Dict, name: string, field: string)
    requires field == "color" || field == "size" || field == "opacity"
    requires !HasKey(defaults, field)
    ensures LayerStyle(MissingDefaultRaises, layerStyles, Obj(defaults), name).Raised?
  {
  }

  /** A selected layer with no points adds no trace, wherever it stands. */
  lemma EmptyLayerAddsNoTrace(rule: DefaultRule, a: seq<string>, name: string, b: seq<string>,
                              layers: Assoc<seq<Dict>>, layerStyles: Value, defaults: Value)
    requires LayerPointsOf(layers, name) == []
    ensures TracesOf(rule, a + [name] + b, layers, layerStyles, defaults) == TracesOf(rule, a + b, layers, layerStyles, defaults)
  {
    var f := TraceOfLayer(rule, layers, layerStyles, defaults);
    EmptyLayerYieldsNothing(rule, a, name, b, layers, layerStyles, defaults);
    MapResultsAppend(f, a, b);
    if MapResults(f, a).Ok? && MapResults(f, b).Ok? {
      var ya, yb := MapResults(f, a).value, MapResults(f, b).value;
      SomesAppend(ya + [None], yb);
      SomesSnoc(ya, None);
      SomesAppend(ya, yb);
    }
  }

  lemma EmptyLayerYieldsNothing(rule: DefaultRule, a: seq<string>, name: string, b: seq<string>,
                                layers: Assoc<seq<Dict>>, layerStyles: Value, defaults: Value)
    requires LayerPointsOf(layers, name) == []
    ensures var f := TraceOfLayer(rule, layers, layerStyles, defaults);
      MapResults(f, a + [name] + b) ==
        if MapResults(f, a).Ok? && MapResults(f, b).Ok? then Ok(MapResults(f, a).value + [None] + MapResults(f, b).value) else Raised
  {
    var f := TraceOfLayer(rule, layers, layerStyles, defaults);
    assert f(name) == Ok(None);
    var none: seq<string> := [];
    var nothing: seq<Option<Trace>> := [];
    MapResultsSnoc(f, none, name);
    assert none + [name] == [name] && nothing + [None] == [None];
    assert MapResults(f, [name]) == Ok([None]);
    MapResultsAppend(f, a + [name], b);
    MapResultsAppend(f, a, [name]);
  }

  /** `ts` lists, through `idx`, the selected layers that have points: the k-th
      trace is layer `selected[idx[k]]` with its points, in selection order, and
      every selected layer with points has its trace. */
  predicate TracesIndexed(ts: seq<Trace>, idx: seq<nat>, selected: seq<string>, layers: Assoc<seq<Dict>>) {
    && |idx| == |ts|
    && (forall k :: 0 <= k < |idx| ==> idx[k] < |selected|)
    && (forall k :: 0 <= k < |idx| ==> ts[k].name == selected[idx[k]] && ts[k].points == LayerPointsOf(layers, selected[idx[k]]))
    && (forall k :: 0 <= k < |idx| ==> LayerPointsOf(layers, selected[idx[k]]) != [])
    && (forall k, l :: 0 <= k < l < |idx| ==> idx[k] < idx[l])
    && (forall i :: 0 <= i < |selected| && LayerPointsOf(layers, selected[i]) != [] ==> i in idx)
  }

  lemma TracesAreLayersWithPoints(rule: DefaultRule, selected: seq<string>, layers: Assoc<seq<Dict>>,
                                  layerStyles: Value, defaults: Value) returns (idx: seq<nat>)
    requires TracesOf(rule, selected, layers, layerStyles, defaults).Ok?
    ensures TracesIndexed(TracesOf(rule, selected, layers, layerStyles, defaults).value, idx, selected, layers)
  {
    var f := TraceOfLayer(rule, layers, layerStyles, defaults);
    MapResultsOk(f, selected);
    var ys := MapResults(f, selected).value;
    idx := SomesIndexed(ys);
    var ts := Somes(ys);
    forall k | 0 <= k < |idx|
      ensures ts[k].name == selected[idx[k]] && ts[k].points == LayerPointsOf(layers, selected[idx[k]])
      ensures LayerPointsOf(layers, selected[idx[k]]) != []
    {
      assert f(selected[idx[k]]) == Ok(Some(ts[k]));
    }
    forall i | 0 <= i < |selected| && LayerPointsOf(layers, selected[i]) != [] ensures i in idx {
      assert f(selected[i]) == Ok(ys[i]);
    }
  }

  /** So there is a trace exactly when `has_data` holds. */
  lemma TracesIffHasData(rule: DefaultRule, selected: seq<string>, layers: Assoc<seq<Dict>>,
                         layerStyles: Value, defaults: Value)
    requires TracesOf(rule, selected, layers, layerStyles, defaults).Ok?
    ensures TracesOf(rule, selected, layers, layerStyles, defaults).value != [] <==> AnyLayerHasPoints(selected, layers)
  {
    var idx := TracesAreLayersWithPoints(rule, selected, layers, layerStyles, defaults);
    var ts := TracesOf(rule, selected, layers, layerStyles, defaults).value;
    if ts != [] {
      assert LayerPointsOf(layers, selected[idx[0]]) != [];
    }
    if AnyLayerHasPoints(selected, layers) {
      var i :| 0 <= i < |selected| && LayerPointsOf(layers, selected[i]) != [];
      assert i in idx;
    }
  }
}
