# Quantum resource dashboard — a Dafny model of its data shaping

The dashboard reads one YAML configuration (`DashboardInput.yaml`), GeoJSON
layer files and a style document. It shows two things:

- a column of bar charts, one per resource, with one bar per scenario, filtered
  to the selected fault-tolerant system scale;
- a map with one marker trace per selected layer.

A converter script fetches a Flourish visualisation and turns its embedded
points into a CSV table. This project models the logic between those inputs and
the widgets, and proves what that logic guarantees.

- `py_values.dfy` (`PyValues`): Python values as one datatype and dicts as
  insertion-ordered association lists.
  - `d.get`, `d[k]`, `in`, truthiness, iteration, `str.find` and `dict.update`
    are ordinary functions.
  - Any uncaught exception is the single outcome `Raised`.
  - A loop that appends or skips one item per element is `MapResults`/`Collect`:
    the first item that raises ends it.
- `py_sort.dfy` (`PySort`): `set` and `sort` on hashable scalar values, with
  Python's ordering of booleans, numbers and strings.
- `quantum_data_loader.dfy` (`QuantumDataLoader`): the loader over an abstract
  file system, a map from path to "unreadable" or a parsed document.
  - `_load_yaml` and `_load_geojson_file`, with the absolute and relative
    branches.
  - `_extract_points`, with GeoJSON's `[lon, lat]` axis order from section
    3.1.1 of RFC 7946.
  - `get_map_layers_data`, `get_display_text`, `get_barchart_data` and
    `get_map_styles`, with its fallback.
- `dashboard_views.dfy` (`DashboardViews`): the two loops that app.py and
  io_utils/display.py share.
  - Per resource and scenario: the matching entries, the value total and the
    squared error total.
  - Per selected layer: the style precedence and the traces.
  - The two files differ in how an error of `None` is squared and in how a
    missing default is read. `ErrorRule` and `DefaultRule` name the two
    readings.
- `app.py` (`App`): `SCENARIOS`, `SCALES`, `RESOURCES`, the bar-chart section
  and one page rendering (`PageOf`).
- `display.py` (`Display`): `show_resource_bar_charts` and
  `show_geographic_map`.
- `flourish_converter.dfy` (`FlourishConverter`):
  - `find_flourish_id`, its three regular expressions written out as
    leftmost-match searches;
  - the `</script>` cut of `dump_raw_flourish_text`;
  - `get_meta`, the point-to-row mapping, the row loop, the pandas column union,
    the column filter and the CSV records of `decode_and_export_flourish`.

Loops that the source runs imperatively are `method`s. Each is proved equal to
the function that specifies the loop:
- `ExtractPoints`, `LoadLayers`, `ScenarioRows`, `ResourceCharts`, `MapTraces`
  and `ExtractRows`;
- the sequencing methods that call them.

The properties are lemmas about those functions.

Notes on the code as written:

- `BASE_DIR` is `Path(__name__).resolve().parent`. `__name__` is a module
  name, not a file path, so `BASE_DIR` is the working directory, not the
  project root. The model passes one working directory `cwd` to the
  configuration path, the GeoJSON lookup and the style path.
- `if SCENARIOS` in app.py:33 always holds, because `SCENARIOS` is never empty
  (`Scenarios`). A `bar_chart_data: null` entry in the YAML selects
  `['baseline']` and then fails on `None.get` (`NullChartDataStopsScript`).
- The `data-src` fallback of `find_flourish_id` is dead code. Any page it
  matches already matches `visualisation/(\d+)` (`DataSrcFallbackUnreachable`).
- app.py squares `(e or 0.0)`, so an error of `None` counts as 0. display.py
  squares `e` as it is, so `None` raises there (`NoneErrorIgnoredInApp`,
  `NoneErrorRaisesInDisplay`).
- app.py reads a missing default with `defaults.get`, which gives `None`.
  display.py reads it with `defaults[...]`, which raises
  (`DisplayNeedsEveryDefault`).
- app.py:15 imports `get_image_base64` from `data_utils/GIS_format_converter.py`, which does not define it, so the script would stop at that import. The model assumes the import succeeds and describes the rest of the script.
- The loader's fallback styles have size 10 and app.py's own fallback has
  size 8. The loader's fallback has `defaults`, so app.py's own fallback
  applies only to a loaded style document without `defaults`
  (`FallbackStylesGiveSizeTen`).

## Model

| member | source | states |
|---|---|---|
| QuantumDataLoader.LoadYaml | src_streamlit/quantum_data_loader.py:11-26 | The loaded document is `{}` unless the path exists and parses to a truthy document, which is then returned unchanged. |
| QuantumDataLoader.AbsolutePathNeverFallsBack | src_streamlit/quantum_data_loader.py:37-44 | An absolute path does not depend on the working directory. A missing or unreadable absolute path gives `None`; a parsed one gives its document. |
| QuantumDataLoader.RelativePathUsesWorkingDirectory | src_streamlit/quantum_data_loader.py:45-54 | A relative name is looked up only as `cwd/name`, giving its document or `None`. |
| QuantumDataLoader.ExtractPoints | src_streamlit/quantum_data_loader.py:56-72 | The loop's result equals `ExtractedPoints`. A falsy collection gives `[]`. |
| QuantumDataLoader.PointsOfAppend | src_streamlit/quantum_data_loader.py:60-72 | Records are appended in one pass: the points of `a + b` are the points of `a` followed by those of `b`. |
| QuantumDataLoader.SkippedFeatureLeavesSiblings | src_streamlit/quantum_data_loader.py:65-68 | Removing a skipped feature changes nothing about the other features' records. |
| QuantumDataLoader.PointsOfSources | src_streamlit/quantum_data_loader.py:60-72 | Each record comes from its own feature, at strictly increasing feature positions. Every feature that yields a record is represented. So there are at most as many records as features, in feature order. |
| QuantumDataLoader.FeaturePointAxes | src_streamlit/quantum_data_loader.py:63-71 | A record has `lon = coordinates[0]` and `lat = coordinates[1]` unless a property of that name overrides it. Every other key is the property's. |
| QuantumDataLoader.DictPropertiesMerged | src_streamlit/quantum_data_loader.py:63-71 | With a position and dict properties, the record is `{'lat': lat, 'lon': lon}` updated with the properties. |
| QuantumDataLoader.FeaturePointPairList | src_streamlit/quantum_data_loader.py:64-71 | Properties given as a list of pairs succeed exactly when every item is a pair. A non-position key then reads as the last pair with that key. |
| QuantumDataLoader.PairListExample | src_streamlit/quantum_data_loader.py:62-71 | The feature `{"geometry": {"coordinates": [1, 2]}, "properties": [["name", "x"]]}` gives the record `{"lat": 2, "lon": 1, "name": "x"}`. |
| QuantumDataLoader.FeaturePointStringPropertiesRaise | src_streamlit/quantum_data_loader.py:64-70 | Properties that are a non-empty string make the feature raise, because `update` gets single characters and not pairs. |
| PyValues.FindUpdateLast | src_streamlit/quantum_data_loader.py:70 | After `update`, a key reads as the last entry of the update with that key. A key the update lacks keeps its old value. Repeated keys are allowed. |
| PyValues.UpdateItemsFind | src_streamlit/quantum_data_loader.py:70 | `update` from an iterable succeeds exactly when every item is a pair. Afterwards a key reads as the last pair with that key, or keeps its old value when no pair has it. |
| PyValues.PairOf | src_streamlit/quantum_data_loader.py:70 | A list of two with a string key gives that key and value. A two-character string gives its two characters. Anything else that yields a pair has two parts. |
| QuantumDataLoader.FeatureWithoutPositionSkipped | src_streamlit/quantum_data_loader.py:65-68 | Fewer than two coordinates, or a `None` lat or lon, skips the feature. |
| QuantumDataLoader.LayersOfRaises | src_streamlit/quantum_data_loader.py:104-111 | A non-style layer whose loading raises makes the whole function raise. |
| QuantumDataLoader.LoadLayers | src_streamlit/quantum_data_loader.py:103-112 | The registry loop's result equals `LayersOf`. |
| QuantumDataLoader.GetMapLayersData | src_streamlit/quantum_data_loader.py:98-112 | `get_map_layers_data` raises when the registry is not a dict. Otherwise it is the registry loop. |
| QuantumDataLoader.LayersOfShape | src_streamlit/quantum_data_loader.py:101-112 | Every emitted layer name is a registry key whose lowercase form is not `style`. Every emitted layer has points, and no name is emitted twice. |
| QuantumDataLoader.LayersOfFind | src_streamlit/quantum_data_loader.py:104-111 | A name's emitted points are exactly its file's points, when it is a non-style registry key whose file loads to a non-empty list. Otherwise the name is absent. |
| QuantumDataLoader.GetDisplayText | src_streamlit/quantum_data_loader.py:76-85 | The result has exactly the keys `content` and `bar_chart_info`, each the document's entry or `{}`. It raises only when the document is not a dict. |
| QuantumDataLoader.GetBarchartData | src_streamlit/quantum_data_loader.py:89-94 | The result is the document's `bar_chart_data`, or `{}`. |
| QuantumDataLoader.GetMapStyles | src_streamlit/quantum_data_loader.py:116-142 | The loaded style document when the `style` entry names one that loads non-empty. Otherwise `{defaults: {red, 10, 0.7}, layers: {}}`. It raises exactly when the entry is truthy but not a string. The result is never empty. |
| PySort.Dedup | app.py:34 | `set`: the same values, each listed once. |
| PySort.Sort | app.py:35 | `sort` of distinct values of one kind: strictly ascending and a permutation of its input. |
| PySort.SortedDedup | app.py:34-35 | `sorted(set(vs))` is strictly ascending and holds exactly the values of `vs`. |
| PySort.StrictlySortedUnique | app.py:35 | Two strictly sorted lists with the same values are equal, so the unspecified order of `set` cannot show. |
| App.SetupOf | app.py:25-36 | A successful unpacking needs a dict `text_data` and keeps its `content` (or `{}`). It has a dict of labels, and RESOURCES are its keys. SCENARIOS is never empty, and with truthy chart data it is the keys of that dict. SCALES is strictly ascending and holds exactly the `scale` values of the dict entries of `chart_data[SCENARIOS[0]]` (or `[]`) that have a `scale` key. |
| App.ScaleCandidates | app.py:33-34 | When the generator finishes, `sample_entries` is iterable and the candidates are exactly the `scale` values of its dict entries that have the key. |
| App.CandidatesAreEntryScales | app.py:34 | A value is yielded exactly when some dict entry has the key `scale` with that value. Other entries yield nothing or raise. |
| App.Title | app.py:52 | `content.get('title', ...)` raises exactly when `content` is not a dict. Otherwise it gives the `title` entry, or "Quantum Resource Dashboard". |
| App.NonDictContentStopsScript | app.py:25-52 | A `content` entry (app.py:25) that is not a dict (a string, or `null`) stops the script at the title (app.py:52), before any chart or map is drawn. |
| App.Scenarios | app.py:31 | The chart data's keys when it is truthy (raising unless it is a dict), else `['baseline']`. It is never empty. |
| App.Scales | app.py:34-35 | It raises exactly when a scale is unhashable or two scales cannot be compared. Otherwise the result is strictly ascending and holds exactly the candidate scales. |
| App.BarCharts | app.py:62-77 | Equals `BarSection`: the warning for falsy chart data, else the resource loop with app.py's error rule. |
| App.NullChartDataStopsScript | app.py:31-33 | With `bar_chart_data` `None`, the script raises while computing `SCALES`. |
| App.EmptyChartDataShowsWarning | app.py:31-35 | With empty chart data the scenarios are `['baseline']`, the scales are `[]` and the page shows the warning instead of charts. |
| App.ScalesIgnoreOrder | app.py:34-35 | The scale list depends only on which candidates occur, not on their order. |
| App.DefaultScaleIsSmallest | app.py:49 | The default selection (index 0) is a candidate smaller than every other candidate. |
| App.ChartPerResource | app.py:65-77 | With chart data, every key of `labels` gets a chart, in label order, with one row per chart-data key. |
| App.TracesExactlyWhenHasData | app.py:101-108 | The page has map traces exactly when `has_data` is set. |
| App.FallbackStylesGiveSizeTen | app.py:97-114 | With the loader's fallback styles, a layer with points gives its trace in red, size 10, opacity 0.7. app.py's own fallback would give size 8. The fallback's `layers` is `{}`. |
| DashboardViews.Matching | app.py:72-73 | Raises exactly when some entry is not a dict. |
| DashboardViews.MatchingKeepsScale | io_utils/display.py:25 | An index list says where each kept entry came from. The k-th kept entry is the entry at `idx[k]` and has the selected scale under Python `==`. The indices strictly increase, and every entry at that scale is listed. So the subset holds those entries in their input order. |
| DashboardViews.NothingMatches | io_utils/display.py:25 | No entry has the selected scale, so the subset is empty. |
| DashboardViews.EverythingMatches | io_utils/display.py:25 | When every entry is a dict at the selected scale, the subset is all of them, in order. |
| DashboardViews.ErrorTerm | app.py:76 | A number gives its square, and a boolean gives 1 or 0 (`True ** 2 == 1`). app.py's rule gives 0 for a falsy error. Any other value raises: a string, a list, a dict, and under display.py's rule also `None`. The term is never negative. |
| PyValues.AsNumber | app.py:75 | A number is itself, `True` is 1 and `False` is 0. Anything else raises. |
| DashboardViews.ErrorSquareTotalNonNegative | io_utils/display.py:27 | The summed squared error is never negative. |
| DashboardViews.ValueTotalAppend | app.py:72-75 | The value total of `a + b` is the sum of the two totals. |
| DashboardViews.ErrorTotalAppend | app.py:73-76 | The squared error total of `a + b` is the sum of the two totals. |
| DashboardViews.ErrorRulesAgreeOnNumbers | io_utils/display.py:27 | With numeric (or missing) errors both files give the same squared error, and it does not raise. |
| DashboardViews.NoneErrorRaisesInDisplay | io_utils/display.py:27 | An error of `None` anywhere in the subset makes display.py raise. |
| DashboardViews.NoneErrorIgnoredInApp | app.py:76 | In app.py an entry with error `None` contributes nothing to the squared error. |
| DashboardViews.ZeroErrorTotal | app.py:76 | A lone entry with error `None` gives squared error 0. |
| DashboardViews.NoMatchingEntriesGiveZeroRow | app.py:75-77 | A scenario with no matching entry still gets the row `(scenario, 0, 0)`. |
| DashboardViews.ScenarioRowLabel | app.py:77 | A row carries its own scenario name. |
| DashboardViews.RowsForShape | app.py:70-77 | One row per scenario, in order, each computed from its own scenario. The chart raises exactly when one of its rows raises. |
| DashboardViews.ScenarioRows | app.py:70-77 | The scenario loop's result equals `RowsFor`. |
| DashboardViews.ReorderedScenariosReorderRows | io_utils/display.py:22-28 | Permuting the scenarios permutes the rows the same way and leaves each row unchanged. |
| DashboardViews.QuadratureExample | io_utils/display.py:25-27 | Entries (10, err 3) and (5, err 4) at the selected scale give value 15 and squared error 25, that is error 5. |
| DashboardViews.ExampleMatching | app.py:72 | Both example entries match scale `S`. |
| DashboardViews.ExampleTotals | app.py:75-76 | The example totals are 15 and 25 under both error rules. |
| DashboardViews.ResourceChart | app.py:66-80 | One iteration of the resource loop equals `ChartOf`: label, unit and rows, with no chart when there are no rows. |
| DashboardViews.ResourceCharts | app.py:65-80 | The resource loop's result equals `ChartsFor`. |
| DashboardViews.ChartsShape | io_utils/display.py:17-31 | Without scenarios no chart is drawn. Otherwise there is one chart per resource, in resource order, each holding that resource's rows. |
| DashboardViews.DefaultsOf | app.py:98 | The style document's `defaults` when present, else `{red, 8, 0.7}`. |
| DashboardViews.StylePrecedence | app.py:112-115 | Each of color, size and opacity is the layer override when present, else the default. A missing default is `None` under app.py's rule only. |
| DashboardViews.DisplayNeedsEveryDefault | io_utils/display.py:61-63 | display.py raises when a default field is missing. |
| DashboardViews.LayerTrace | app.py:104-129 | A layer without points gives no trace. Otherwise, when the style lookup does not raise, it gives one trace, named after the layer and carrying its points. |
| DashboardViews.EmptyLayerAddsNoTrace | app.py:104-106 | A selected layer without points adds no trace and does not affect the others. |
| DashboardViews.EmptyLayerYieldsNothing | io_utils/display.py:51-52 | The iteration for a layer without points yields nothing and never raises. |
| DashboardViews.AnyLayerHasPointsSnoc | app.py:103-108 | `has_data` after one more layer is the old flag or that layer's having points. |
| DashboardViews.MapTraces | app.py:101-129 | The layer loop's traces and `has_data` equal `MapView`. |
| DashboardViews.TracesAreLayersWithPoints | app.py:103-129 | The traces are exactly the selected layers with points, in selection order, each with its layer's points. |
| DashboardViews.TracesIffHasData | io_utils/display.py:49-54 | There is a trace exactly when some selected layer has points. |
| Display.ShowResourceBarCharts | io_utils/display.py:15-31 | Equals `ChartsFor` with display.py's error rule. With scenarios there is one chart per resource, in order, with one row per scenario. |
| Display.ShowGeographicMap | io_utils/display.py:43-87 | The figure is drawn exactly when some selected layer has points, and then its traces are the non-empty trace list. Otherwise the "No layer data selected." message is shown. It raises exactly when the trace loop does. |
| FlourishConverter.DigitRun | data_utils/data_from_web_converter.py:19 | A greedy `\d+`: a run of digits in the text at the given position, not followed by a digit. |
| FlourishConverter.SearchNumberAfter | data_utils/data_from_web_converter.py:19-23 | The leftmost position where the prefix is followed by a digit, or no such position. |
| FlourishConverter.DataSrcContainsVisualisation | data_utils/data_from_web_converter.py:33 | Every `data-src` match contains a `visualisation/<digit>` match. |
| FlourishConverter.DataSrcFallbackUnreachable | data_utils/data_from_web_converter.py:25-39 | The id is the visualisation id if there is one, else the story id. The `data-src` branch can never return. |
| FlourishConverter.FoundIdIsNumberInPage | data_utils/data_from_web_converter.py:19-30 | A returned id is a non-empty, maximal run of digits following `visualisation/` or `story/` in the page. |
| PyValues.IndexOf | data_utils/data_from_web_converter.py:96 | `find('{')`: the first position where `{` occurs, or none when it does not occur. |
| FlourishConverter.RawChunk | data_utils/data_from_web_converter.py:63-72 | A prefix of `html[start:start+500000]`, so at most 500000 characters. It contains no `</script>`. It is the whole window, or it stops where the first `</script>` begins. |
| FlourishConverter.RawDump | data_utils/data_from_web_converter.py:54-72 | There is a dump exactly when `_Flourish_data =` matched. The dump has at most 500000 characters and no `</script>`. It is the full 500000-character window after the match when that window holds no `</script>`. |
| FlourishConverter.GetMeta | data_utils/data_from_web_converter.py:134-135 | For a list: `meta[i]` when `i < len(meta)` and it is not `None`, else `""`. A falsy `meta` gives `""`. It raises exactly for a truthy number or boolean, or a dict longer than `i`. |
| FlourishConverter.PointRowOutcome | data_utils/data_from_web_converter.py:122-166 | A point's row raises exactly when the point is not a dict or its metadata is a truthy non-list, non-string value. Otherwise the row has the ten keys in the source's order. |
| FlourishConverter.RowColumns | data_utils/data_from_web_converter.py:124-166 | Name is `label` or `N/A`; Latitude and Longitude are `lat`/`lon` or `None`. Funding, Agency, Agency Full, Institution, Focus Area and Website are metadata 0, 2, 3, 4, 6 and 7. Founding Date is the formatted slot 5 when it is numeric, else `""`. |
| FlourishConverter.SlotOneIgnored | data_utils/data_from_web_converter.py:128-142 | Metadata slot 1 never affects the row. |
| FlourishConverter.ExtractRows | data_utils/data_from_web_converter.py:120-166 | One row per point, in point order, with nothing filtered. It raises exactly when some point's row raises. |
| FlourishConverter.AddNew | data_utils/data_from_web_converter.py:169 | The column union holds exactly the seen keys and the new ones. |
| FlourishConverter.FrameOfRows | data_utils/data_from_web_converter.py:169 | Rows that all have the same distinct keys give a frame with exactly those columns. |
| FlourishConverter.FilterColumns | data_utils/data_from_web_converter.py:175 | A column is kept exactly when it is wanted and exists. There are never more kept columns than wanted ones. |
| FlourishConverter.FilterColumnsOrder | data_utils/data_from_web_converter.py:175 | The k-th kept column is the wanted column at `idx[k]`. The indices strictly increase, and every wanted column that exists is listed. So the kept columns are in the wanted order. |
| FlourishConverter.FilterKeepsAll | data_utils/data_from_web_converter.py:172-175 | When every wanted column exists, the filter keeps the wanted list as it is. |
| FlourishConverter.ExportColumnsOfRows | data_utils/data_from_web_converter.py:169-175 | The exported columns are all ten in the fixed order when there is a row, and none when there is no row. |
| FlourishConverter.Cells | data_utils/data_from_web_converter.py:177 | One record per row with one cell per column. |
| FlourishConverter.DecodeAndExport | data_utils/data_from_web_converter.py:96-177 | Equals `Decoded`: no `{`, a decode error or no `points` ends it early. Otherwise the table is built from the rows. |
| FlourishConverter.ExportShape | data_utils/data_from_web_converter.py:96-177 | An export needs a `{`, a decoded dict and its `points` key. It has one record per point, in point order, and all ten columns, or none without points. Each cell is that point's field under the column. |

## Left out

- Streamlit and Plotly calls are not modelled: page setup, sidebar widgets, subheaders and markdown (app.py:16, 39-60 and 152-154). Only the title's `content.get` is modelled, because it raises on a non-dict `content`; `'intro_markdown' in content` and `content['intro_markdown']` cannot raise once that passed, figure layout, the log axis, map bounds and `st.plotly_chart`. The selected scale and the selected layers are inputs, and a trace is the data a `Scattermapbox` receives.
- YAML and JSON parsing, `Path.exists`, `read_text` and `Path.cwd` are not modelled. The file system is a map from path to a parsed document or "unreadable". Paths are POSIX strings without normalisation.
- `_load_geojson_file` never falls back from an absolute path to the working directory, as its docstring says. The project root it mentions is the working directory, and so is `BASE_DIR`.
- `requests.get` and `raise_for_status` are not modelled. A failed request is the input `None`.
- The regex engine is replaced by searches. `\d` is modelled as the ASCII digits only; Python's `\d` also matches other Unicode decimal digits.
- `re.search(r"_Flourish_data\s*=\s*")` is not modelled. Its match end is an input.
- The `new Date(...)` substitution, the file read and `raw_decode` are inputs. The cleaned text and a decoder that returns nothing on JSONDecodeError are parameters.
- `datetime.fromtimestamp` and `strftime` are not modelled. `formatDate` is a parameter that stands for both the formatted date and the `str(raw_date)` fallback.
- Writing the raw chunk to a file and writing the CSV (`to_csv`, its encoding and quoting) are not modelled. The export is the column list and the records; a missing cell (pandas NaN) is `None`.
- `print` logging is not modelled. The `len(points)` in a progress message raises exactly when iterating `points` does, so it is not a separate step.
- Dict keys are strings only. The YAML configuration could use other keys, such as an integer scenario `2030:` or integer entries in `SCENARIOS`, which chart lookups would then match. A layer key `1:` would make `name.lower()` raise. The model cannot express such documents.
- `QuantumDataLoader.FeaturePoint`: when the properties are a list of pairs, a pair whose key is a number, a boolean or `None` raises in the model, while Python adds that key. This follows from dict keys being strings only.
- `DashboardViews.Matching`: the scale comparison is Python `==`: numbers and booleans compare numerically, and other values compare structurally. A list or dict holding a boolean is compared structurally, so a scale `[True]` does not equal `[1]` in the model, while it does in Python. Dict-valued scales are compared as association lists, so key order matters in the model, while Python's dict `==` ignores it. Only io_utils/display.py's `selected_scale` can be a dict: app.py's comes from `SCALES`, whose values are hashable.
- `Find`/`GetOr`: a Python dict is an association list. Key uniqueness is a precondition only where a lemma needs it (`LayersOfFind`, `FeaturePointAxes`).
- `ScenarioRow`: the error is `np.sqrt` (app.py) or `** 0.5` (display.py) of the squared total. Floating-point square roots are not modelled, so rows carry the squared total, and `ErrorSquareTotalNonNegative` shows the root exists.
- `ValueTotal`: numbers are unbounded reals. Float rounding, NaN and infinities are not modelled, and the difference between int and float results is not kept. `sum` adds numbers and booleans (as 1 and 0), and raises on anything else.
- `PySort.Less`: `True == 1` and the comparison of bools with numbers are not modelled. A mix of booleans and numbers among the scales raises in the model, while Python would sort it.
- `App.Scales` does not model the comparisons `sort` makes. A comparison sort must compare each pair of neighbours in its result, so distinct values of two kinds always raise, and that is the outcome the model gives.
- `QuantumDataLoader.IsStyleKey` uses ASCII lowercasing; `str.lower` on other Unicode letters is not modelled.
- `HoverText` models `df.get('name', name)` as the per-point names when some point has one. The pandas Series itself is not modelled.
- A layer point always has `lat` and `lon`, so the `df['lat']` KeyError can't happen and is not modelled.
- `data_utils/GIS_format_converter.py`, `data_utils/convert_csv_to_geojson.py` and `data_utils/get_quan_data.py` are not part of this model.
