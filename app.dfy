/** The dashboard script app.py: the constants it derives from the loaded
    configuration (scenarios, scales and resources), the bar-chart section
    (drawn only when there is chart data) and the map section.

    The loaded documents, the scale picked in the sidebar's select box and the
    layers picked in its multiselect are inputs; the widgets and figures
    themselves are not modelled. Any exception stops the script, so each step
    is a `Result`. */
module App {
  import opened PyValues
  import opened PySort
  import opened QuantumDataLoader
  import opened DashboardViews

  /** `SCENARIOS`: the chart data's keys when it is truthy, else `['baseline']`.
      Either way there is at least one scenario. */
  function Scenarios(chartData: Value): (r: Result<seq<string>>)
    ensures r.Ok? ==> |r.value| >= 1
    ensures !Truthy(chartData) ==> r == Ok(["baseline"])
    ensures Truthy(chartData) ==> (r.Ok? <==> chartData.Obj?)
    ensures Truthy(chartData) && r.Ok? ==> r.value == Keys(chartData.fields)
  {
    if !Truthy(chartData) then Ok(["baseline"])
    else if chartData.Obj? then Ok(Keys(chartData.fields))
    else Raised
  }

  /** `sample_entries`, the entries of the first scenario. `if SCENARIOS` always
      holds, so the `[]` branch is never taken. */
  function SampleEntries(chartData: Value, scenarios: seq<string>): Result<Value> {
    if scenarios == [] then Ok(Arr([])) else Get(chartData, scenarios[0], Arr([]))
  }

  /** One step of the generator `e.get('scale') for e in sample_entries if 'scale' in e`. */
  function ScaleCandidate(e: Value): Result<Option<Value>> {
    var has :- ContainsText(e, "scale");
    if !has then Ok(None)
    else
      var scale :- Get(e, "scale", Null);
      Ok(Some(scale))
  }

  /** `v` is the `scale` of some entry that is a dict holding the key `scale`. */
  predicate IsEntryScale(entries: seq<Value>, v: Value) {
    exists i :: 0 <= i < |entries| && entries[i].Obj? && HasKey(entries[i].fields, "scale")
                && GetOr(entries[i].fields, "scale", Null) == v
  }

  /** When the generator runs to the end, it yields exactly the scales of the
      dict entries that have a `scale` key; an entry without the key yields
      nothing, and one that is a list or string holding `"scale"` has no `get`. */
  lemma CandidatesAreEntryScales(entries: seq<Value>)
    requires Collect(ScaleCandidate, entries).Ok?
    ensures forall v :: v in Collect(ScaleCandidate, entries).value <==> IsEntryScale(entries, v)
  {
    MapResultsOk(ScaleCandidate, entries);
    var ys := MapResults(ScaleCandidate, entries).value;
    var idx := SomesIndexed(ys);
    forall v | v in Somes(ys) ensures IsEntryScale(entries, v) {
      CandidateIsEntryScale(entries, ys, idx, v);
    }
    forall v | IsEntryScale(entries, v) ensures v in Somes(ys) {
      EntryScaleIsCandidate(entries, ys, idx, v);
    }
  }

  lemma CandidateIsEntryScale(entries: seq<Value>, ys: seq<Option<Value>>, idx: seq<nat>, v: Value)
    requires |ys| == |entries| && forall i :: 0 <= i < |entries| ==> ScaleCandidate(entries[i]) == Ok(ys[i])
    requires |idx| == |Somes(ys)| && forall k :: 0 <= k < |idx| ==> idx[k] < |ys| && ys[idx[k]] == Some(Somes(ys)[k])
    requires v in Somes(ys)
    ensures IsEntryScale(entries, v)
  {
    var k :| 0 <= k < |Somes(ys)| && Somes(ys)[k] == v;
    var i := idx[k];
    assert ScaleCandidate(entries[i]) == Ok(Some(v));
  }

  lemma EntryScaleIsCandidate(entries: seq<Value>, ys: seq<Option<Value>>, idx: seq<nat>, v: Value)
    requires |ys| == |entries| && forall i :: 0 <= i < |entries| ==> ScaleCandidate(entries[i]) == Ok(ys[i])
    requires |idx| == |Somes(ys)| && forall k :: 0 <= k < |idx| ==> idx[k] < |ys| && ys[idx[k]] == Some(Somes(ys)[k])
    requires forall i :: 0 <= i < |ys| && ys[i].Some? ==> i in idx
    requires IsEntryScale(entries, v)
    ensures v in Somes(ys)
  {
    var i :| 0 <= i < |entries| && entries[i].Obj? && HasKey(entries[i].fields, "scale")
             && GetOr(entries[i].fields, "scale", Null) == v;
    assert ScaleCandidate(entries[i]) == Ok(Some(v));
    var k :| 0 <= k < |idx| && idx[k] == i;
    assert Somes(ys)[k] == v;
  }

  /** The scales the generator yields, in entry order. */
  function ScaleCandidates(sample: Value): (r: Result<seq<Value>>)
    ensures r.Ok? ==> Iter(sample).Ok? && forall v :: v in r.value <==> IsEntryScale(Iter(sample).value, v)
  {
    var entries :- Iter(sample);
    var candidates :- Collect(ScaleCandidate, entries);
    CandidatesAreEntryScales(entries);
    Ok(candidates)
  }

  /** `SCALES = list(set(...)); SCALES.sort()`. `set` raises on an unhashable
      scale, and `sort` raises as soon as two distinct scales of different kinds
      must be compared (a comparison sort compares every pair of neighbours in
      its result). Otherwise the scales are the distinct candidates, ascending. */
  function Scales(candidates: seq<Value>): (r: Result<seq<Value>>)
    ensures r.Ok? <==> (forall i :: 0 <= i < |candidates| ==> Hashable(candidates[i])) && OneKind(candidates)
    ensures r.Ok? ==> StrictlySorted(r.value) && forall v :: v in r.value <==> v in candidates
  {
    if exists i :: 0 <= i < |candidates| && !Hashable(candidates[i]) then Raised
    else if !OneKind(candidates) then Raised
    else
      SortedDedup(candidates);
      Ok(Sort(Dedup(candidates)))
  }

  /** `RESOURCES = list(resource_labels.keys())`. */
  function Resources(labels: Value): Result<seq<string>> {
    if labels.Obj? then Ok(Keys(labels.fields)) else Raised
  }

  /** What the script derives before any widget is drawn. */
  datatype Setup = Setup(content: Value, labels: Value, units: Value, scenarios: seq<string>, scales: seq<Value>, resources: seq<string>)

  /** The configuration unpacking and the constants, in script order. The
      scales are the distinct `scale` values of the first scenario's dict
      entries, ascending. */
  function SetupOf(textData: Value, chartData: Value): (r: Result<Setup>)
    ensures r.Ok? ==> textData.Obj? && r.value.content == GetOr(textData.fields, "content", Obj([]))
    ensures r.Ok? ==> r.value.labels.Obj? && r.value.resources == Keys(r.value.labels.fields)
    ensures r.Ok? ==> |r.value.scenarios| >= 1
    ensures r.Ok? && Truthy(chartData) ==> chartData.Obj? && r.value.scenarios == Keys(chartData.fields)
    ensures r.Ok? ==> var sample := Get(chartData, r.value.scenarios[0], Arr([]));
      && sample.Ok? && Iter(sample.value).Ok?
      && StrictlySorted(r.value.scales)
      && forall v :: v in r.value.scales <==> IsEntryScale(Iter(sample.value).value, v)
  {
    if !textData.Obj? then Raised
    else
    var content := GetOr(textData.fields, "content", Obj([]));
    var config := GetOr(textData.fields, "bar_chart_info", Obj([]));
    var labels :- Get(config, "labels", Obj([]));
    var units :- Get(config, "units", Obj([]));
    var scenarios :- Scenarios(chartData);
    var sample :- SampleEntries(chartData, scenarios);
    var candidates :- ScaleCandidates(sample);
    var scales :- Scales(candidates);
    var resources :- Resources(labels);
    Ok(Setup(content, labels, units, scenarios, scales, resources))
  }

  /** `content.get('title', "Quantum Resource Dashboard")`, the page title:
      anything but a dict has no `get`, so the script stops here. */
  function Title(content: Value): (r: Result<Value>)
    ensures r.Ok? <==> content.Obj?
    ensures content.Obj? && HasKey(content.fields, "title") ==> r == Ok(Find(content.fields, "title").value)
    ensures content.Obj? && !HasKey(content.fields, "title") ==> r == Ok(Str("Quantum Resource Dashboard"))
  {
    Get(content, "title", Str("Quantum Resource Dashboard"))
  }

  /** One rendering of the page: the derived constants, the title, the bar
      charts (`None` is the "No chart data found." warning), the map traces and
      `has_data`. */
  datatype Page = Page(setup: Setup, title: Value, charts: Option<seq<Chart>>, traces: seq<Trace>, hasData: bool)

  /** The bar-chart section: the warning when the chart data is falsy. */
  function BarSection(setup: Setup, chartData: Value, selectedScale: Value): Result<Option<seq<Chart>>> {
    if !Truthy(chartData) then Ok(None)
    else
      var charts :- ChartsFor(FalsyErrorIsZero, setup.resources, setup.scenarios, chartData,
                              selectedScale, setup.labels, setup.units);
      Ok(Some(charts))
  }

  /** The whole script from the configuration unpacking to the map loop. Its
      two loops are `BarCharts` (through `ResourceCharts`) and `MapTraces`. */
  function PageOf(textData: Value, chartData: Value, layers: Assoc<seq<Dict>>, styles: Value,
                  selectedScale: Value, selectedLayers: seq<string>): Result<Page> {
    var setup :- SetupOf(textData, chartData);
    var title :- Title(setup.content);
    var charts :- BarSection(setup, chartData, selectedScale);
    var view :- MapView(MissingDefaultIsNone, selectedLayers, layers, styles);
    Ok(Page(setup, title, charts, view.0, view.1))
  }

  /** Lines 62-77: the warning, or the resource loop with app.py's error rule. */
  method BarCharts(setup: Setup, chartData: Value, selectedScale: Value) returns (r: Result<Option<seq<Chart>>>)
    ensures r == BarSection(setup, chartData, selectedScale)
  {
    if !Truthy(chartData) {
      return Ok(None);
    }
    var charts :- ResourceCharts(FalsyErrorIsZero, setup.resources, setup.scenarios, chartData,
                                 selectedScale, setup.labels, setup.units);
    return Ok(Some(charts));
  }

  // ---------------------------------------------------------------------------
  // Properties of the page

  /** A `bar_chart_data` entry that is `null` in the configuration makes the
      script stop at `sample_entries`: `['baseline']` is chosen, and `None` has
      no `get`. */
  lemma NullChartDataStopsScript(textData: Value)
    ensures SetupOf(textData, Null).Raised?
  {
  }

  /** A `content` entry that is not a dict (a string, or `null`) stops the
      script at the title, before any chart or map is drawn. */
  lemma NonDictContentStopsScript(textData: Value, chartData: Value, layers: Assoc<seq<Dict>>, styles: Value,
                                  selectedScale: Value, selectedLayers: seq<string>)
    requires textData.Obj? && !GetOr(textData.fields, "content", Obj([])).Obj?
    ensures PageOf(textData, chartData, layers, styles, selectedScale, selectedLayers).Raised?
  {
    var setup := SetupOf(textData, chartData);
    if setup.Ok? {
      assert Title(setup.value.content).Raised?;
    }
  }

  /** With an empty `bar_chart_data` the only scenario is `baseline`, there are
      no scales, and the page shows the warning instead of charts. */
  lemma EmptyChartDataShowsWarning(textData: Value, layers: Assoc<seq<Dict>>, styles: Value,
                                   selectedScale: Value, selectedLayers: seq<string>)
    requires PageOf(textData, Obj([]), layers, styles, selectedScale, selectedLayers).Ok?
    ensures var page := PageOf(textData, Obj([]), layers, styles, selectedScale, selectedLayers).value;
      page.setup.scenarios == ["baseline"] && page.setup.scales == [] && page.charts == None
  {
    var none: seq<Value> := [];
    assert ScaleCandidates(Arr([])) == Ok(none) by {
      assert MapResults(ScaleCandidate, none) == Ok([]);
    }
  }

  /** The scale list does not depend on the order in which the candidates, or
      the set built from them, are listed. */
  lemma ScalesIgnoreOrder(a: seq<Value>, b: seq<Value>)
    requires forall v :: v in a <==> v in b
    requires Scales(a).Ok?
    ensures Scales(b) == Scales(a)
  {
    OneKindByMembership(b, a);
    assert forall i :: 0 <= i < |b| ==> Hashable(b[i]) by {
      forall i | 0 <= i < |b| ensures Hashable(b[i]) {
        assert b[i] in a;
      }
    }
    StrictlySortedUnique(Scales(a).value, Scales(b).value);
  }

  /** The select box's default (`index=0`) is the smallest scale. */
  lemma DefaultScaleIsSmallest(candidates: seq<Value>)
    requires Scales(candidates).Ok? && Scales(candidates).value != []
    ensures var first := Scales(candidates).value[0];
      first in candidates && forall v :: v in candidates && v != first ==> Less(first, v)
  {
    var scales := Scales(candidates).value;
    forall v | v in candidates && v != scales[0] ensures Less(scales[0], v) {
      assert v in scales;
      var k :| 0 <= k < |scales| && scales[k] == v;
    }
  }

  /** With chart data present every resource in `labels` gets its chart, in
      the order of `labels`, with one row per scenario key. */
  lemma ChartPerResource(textData: Value, chartData: Value, layers: Assoc<seq<Dict>>, styles: Value,
                         selectedScale: Value, selectedLayers: seq<string>)
    requires PageOf(textData, chartData, layers, styles, selectedScale, selectedLayers).Ok?
    requires Truthy(chartData)
    ensures var page := PageOf(textData, chartData, layers, styles, selectedScale, selectedLayers).value;
      && page.setup.labels.Obj? && page.setup.resources == Keys(page.setup.labels.fields)
      && page.setup.scenarios == Keys(chartData.fields)
      && page.charts.Some?
      && |page.charts.value| == |page.setup.resources|
      && forall k :: 0 <= k < |page.setup.resources| ==>
           page.charts.value[k].resource == page.setup.resources[k] && |page.charts.value[k].rows| == |page.setup.scenarios|
  {
    var setup := SetupOf(textData, chartData).value;
    ChartsShape(FalsyErrorIsZero, setup.resources, setup.scenarios, chartData, selectedScale, setup.labels, setup.units);
    var charts := ChartsFor(FalsyErrorIsZero, setup.resources, setup.scenarios, chartData, selectedScale, setup.labels, setup.units).value;
    var page := PageOf(textData, chartData, layers, styles, selectedScale, selectedLayers).value;
    assert BarSection(setup, chartData, selectedScale) == Ok(Some(charts));
    assert page.setup == setup && page.charts == Some(charts);
    forall k | 0 <= k < |setup.resources| ensures |charts[k].rows| == |setup.scenarios| {
      MapResultsLength(RowOfScenario(FalsyErrorIsZero, chartData, setup.resources[k], selectedScale), setup.scenarios);
    }
  }

  /** The map shows traces exactly when `has_data` is set. */
  lemma TracesExactlyWhenHasData(textData: Value, chartData: Value, layers: Assoc<seq<Dict>>, styles: Value,
                                 selectedScale: Value, selectedLayers: seq<string>)
    requires PageOf(textData, chartData, layers, styles, selectedScale, selectedLayers).Ok?
    ensures var page := PageOf(textData, chartData, layers, styles, selectedScale, selectedLayers).value;
      page.traces != [] <==> page.hasData
  {
    var defaults := DefaultsOf(styles.fields);
    var layerStyles := GetOr(styles.fields, "layers", Obj([]));
    TracesIffHasData(MissingDefaultIsNone, selectedLayers, layers, layerStyles, defaults);
  }

  /** With the loader's fallback styles a layer with points is drawn at size
      10; the script's own fallback for a style document without `defaults`
      would give 8. */
  lemma FallbackStylesGiveSizeTen(layers: Assoc<seq<Dict>>, name: string)
    requires LayerPointsOf(layers, name) != []
    ensures var points := LayerPointsOf(layers, name);
      LayerTrace(MissingDefaultIsNone, layers, Obj([]), DefaultsOf(FallbackStyles.fields), name)
      == Ok(Some(Trace(name, Style(Str("red"), Num(10.0), Num(0.7)), points, HoverText(points, name))))
    ensures LayerStyle(MissingDefaultIsNone, Obj([]), DefaultsOf(FallbackStyles.fields), name)
            == Ok(Style(Str("red"), Num(10.0), Num(0.7)))
    ensures LayerStyle(MissingDefaultIsNone, Obj([]), DefaultsOf([]), name)
            == Ok(Style(Str("red"), Num(8.0), Num(0.7)))
    ensures GetOr(FallbackStyles.fields, "layers", Obj([])) == Obj([])
  {
  }
}
