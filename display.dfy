/** The rendering helpers of io_utils/display.py. They run the same two loops
    as app.py (see `DashboardViews`) with display.py's rules: an entry's error
    is squared as it is, and a default style field is read with `defaults[f]`. */
module Display {
  import opened PyValues
  import opened DashboardViews

  /** `show_resource_bar_charts`: the charts it draws, in resource order. With
      at least one scenario every resource gets a chart with one row per
      scenario. */
  method ShowResourceBarCharts(resources: seq<string>, scenarios: seq<string>, chartData: Value,
                               selectedScale: Value, labels: Value, units: Value) returns (r: Result<seq<Chart>>)
    ensures r == ChartsFor(ErrorAsIs, resources, scenarios, chartData, selectedScale, labels, units)
    ensures r.Ok? && scenarios != [] ==>
      |r.value| == |resources| && forall k :: 0 <= k < |resources| ==>
        r.value[k].resource == resources[k] && |r.value[k].rows| == |scenarios|
  {
    r := ResourceCharts(ErrorAsIs, resources, scenarios, chartData, selectedScale, labels, units);
    if r.Ok? && scenarios != [] {
      ChartsShape(ErrorAsIs, resources, scenarios, chartData, selectedScale, labels, units);
      forall k | 0 <= k < |resources| ensures |r.value[k].rows| == |scenarios| {
        MapResultsLength(RowOfScenario(ErrorAsIs, chartData, resources[k], selectedScale), scenarios);
      }
    }
  }

  /** What `show_geographic_map` puts on the page: the figure with its traces,
      or the "No layer data selected." message. */
  datatype MapOutput = MapFigure(traces: seq<Trace>) | NoLayerInfo

  /** `show_geographic_map`: the figure when some selected layer has points,
      and then it holds one trace per such layer; the message otherwise. */
  method ShowGeographicMap(selectedLayers: seq<string>, layers: Assoc<seq<Dict>>, styleConfig: Value)
    returns (r: Result<MapOutput>)
    ensures r.Ok? <==> MapView(MissingDefaultRaises, selectedLayers, layers, styleConfig).Ok?
    ensures r.Ok? ==> (r.value.NoLayerInfo? <==> !AnyLayerHasPoints(selectedLayers, layers))
    ensures r.Ok? && r.value.MapFigure? ==>
      r.value.traces == MapView(MissingDefaultRaises, selectedLayers, layers, styleConfig).value.0 && r.value.traces != []
  {
    var view := MapTraces(MissingDefaultRaises, selectedLayers, layers, styleConfig);
    if view.Raised? {
      return Raised;
    }
    var defaults := DefaultsOf(styleConfig.fields);
    var layerStyles := GetOr(styleConfig.fields, "layers", Obj([]));
    TracesIffHasData(MissingDefaultRaises, selectedLayers, layers, layerStyles, defaults);
    var (traces, hasData) := view.value;
    if hasData {
      return Ok(MapFigure(traces));
    }
    return Ok(NoLayerInfo);
  }
}
