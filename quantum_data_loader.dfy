/** The data loader behind the dashboard: it reads the configuration document,
    resolves GeoJSON layer files, flattens feature collections into point records
    and supplies the text, chart data and map styles.

    Files are an abstract map from a path to what reading and parsing it gives.
    A path that is not a key does not exist. */
module QuantumDataLoader {
  import opened PyValues

  datatype FileState = Unreadable | Parsed(doc: Value)

  type FileSystem = map<string, FileState>

  /** POSIX paths: absolute when they start at the root. */
  predicate IsAbsolute(p: string) {
    |p| > 0 && p[0] == '/'
  }

  /** `Path(base) / p`: an absolute `p` replaces the base. */
  function Join(base: string, p: string): string {
    if IsAbsolute(p) then p else base + "/" + p
  }

  /** `YAML_PATH`. `BASE_DIR` is the parent of `Path(__name__).resolve()`, and
      `__name__` is a module name, not a file, so `BASE_DIR` is the working directory. */
  function ConfigPath(cwd: string): string {
    Join(cwd, "DashboardInput.yaml")
  }

  /** `_load_yaml`: a missing file, a parse failure and a falsy document all read as `{}`. */
  function LoadYaml(fs: FileSystem, path: string): (doc: Value)
    ensures doc == Obj([]) || (path in fs && fs[path] == Parsed(doc) && Truthy(doc))
    ensures path in fs && fs[path].Parsed? && Truthy(fs[path].doc) ==> doc == fs[path].doc
  {
    if path in fs && fs[path].Parsed? && Truthy(fs[path].doc) then fs[path].doc else Obj([])
  }

  // ---------------------------------------------------------------------------
  // GeoJSON files

  /** `_load_geojson_file(filename)`, with Python's `None` as `Null`. An absolute
      path is looked up as it is; any other path relative to the working directory.
      `Path(filename)` raises TypeError unless the name is a string. */
  function LoadGeoJsonFile(fs: FileSystem, cwd: string, filename: Value): Result<Value> {
    match filename
    case Str(name) =>
      var path := if IsAbsolute(name) then name else Join(cwd, name);
      Ok(if path in fs && fs[path].Parsed? then fs[path].doc else Null)
    case _ => Raised
  }

  /** An absolute path is read only from itself: whatever the working directory
      is and whatever lies under it, a missing or unreadable absolute path gives `None`. */
  lemma AbsolutePathNeverFallsBack(fs: FileSystem, cwd: string, cwd': string, name: string)
    requires IsAbsolute(name)
    ensures LoadGeoJsonFile(fs, cwd, Str(name)) == LoadGeoJsonFile(fs, cwd', Str(name))
    ensures name !in fs || fs[name] == Unreadable ==> LoadGeoJsonFile(fs, cwd, Str(name)) == Ok(Null)
    ensures name in fs && fs[name].Parsed? ==> LoadGeoJsonFile(fs, cwd, Str(name)) == Ok(fs[name].doc)
  {
  }

  /** A relative path is read from under the working directory. */
  lemma RelativePathUsesWorkingDirectory(fs: FileSystem, cwd: string, name: string)
    requires !IsAbsolute(name)
    ensures var path := cwd + "/" + name;
      LoadGeoJsonFile(fs, cwd, Str(name)) == Ok(if path in fs && fs[path].Parsed? then fs[path].doc else Null)
  {
  }

  // ---------------------------------------------------------------------------
  // Point extraction

  /** `lon, lat = (coords[0], coords[1]) if len(coords) >= 2 else (None, None)`.
      GeoJSON writes a position longitude first (section 3.1.1 of RFC 7946).
      A string indexes to its characters; a dict with two or more keys has no key
      `0` (KeyError); `len` of anything else raises TypeError. */
  function LonLat(coords: Value): Result<(Value, Value)> {
    match coords
    case Arr(items) => Ok(if |items| >= 2 then (items[0], items[1]) else (Null, Null))
    case Str(s) => Ok(if |s| >= 2 then (Str([s[0]]), Str([s[1]])) else (Null, Null))
    case Obj(fields) => if |fields| >= 2 then Raised else Ok((Null, Null))
    case _ => Raised
  }

  /** One iteration of the loop in `_extract_points`: the record it appends, or
      `None` when the feature is skipped. */
  function FeaturePoint(f: Value): Result<Option<Dict>> {
    if !f.Obj? then Raised
    else
    var geom := Or(GetOr(f.fields, "geometry", Obj([])), Obj([]));
    var props := Or(GetOr(f.fields, "properties", Obj([])), Obj([]));
    var coords :- Get(geom, "coordinates", Null);
    var lonLat :- LonLat(Or(coords, Arr([])));
    var lon := lonLat.0;
    var lat := lonLat.1;
    var base: Dict := [("lat", lat), ("lon", lon)];
    if lat == Null || lon == Null then Ok(None)
    else if props.Obj? then Ok(Some(Update(base, props.fields)))
    else
      // `update` with anything but a dict iterates it and wants pairs
      var items :- Iter(props);
      var entry :- UpdateItems(base, items);
      Ok(Some(entry))
  }

  /** The records `_extract_points` appends for a list of features: each
      feature in turn, the first that raises ending the loop, the skipped ones
      contributing nothing. */
  function PointsOf(features: seq<Value>): Result<seq<Dict>> {
    Collect(FeaturePoint, features)
  }

  /** `gj.get('features', []) or []`, iterated. */
  function FeaturesOf(gj: Value): Result<seq<Value>> {
    var features :- Get(gj, "features", Arr([]));
    Iter(Or(features, Arr([])))
  }

  /** What `_extract_points(gj)` returns. */
  function ExtractedPoints(gj: Value): Result<seq<Dict>> {
    if !Truthy(gj) then Ok([])
    else
      var features :- FeaturesOf(gj);
      PointsOf(features)
  }

  /** `_extract_points` */
  method ExtractPoints(gj: Value) returns (r: Result<seq<Dict>>)
    ensures r == ExtractedPoints(gj)
    ensures !Truthy(gj) ==> r == Ok([])
  {
    if !Truthy(gj) {
      return Ok([]);
    }
    var features :- FeaturesOf(gj);
    var results: seq<Dict> := [];
    for i := 0 to |features|
      invariant PointsOf(features[..i]) == Ok(results)
    {
      var p := FeaturePoint(features[i]);
      CollectExtend(FeaturePoint, features, i);
      if p.Raised? {
        return Raised;
      }
      if p.value.Some? {
        results := results + [p.value.value];
      }
    }
    assert features[..|features|] == features;
    return Ok(results);
  }

  /** Extraction composes over a split of the feature list. */
  lemma PointsOfAppend(a: seq<Value>, b: seq<Value>)
    ensures PointsOf(a + b) ==
      if PointsOf(a).Ok? && PointsOf(b).Ok? then Ok(PointsOf(a).value + PointsOf(b).value) else Raised
  {
    MapResultsAppend(FeaturePoint, a, b);
    if MapResults(FeaturePoint, a).Ok? && MapResults(FeaturePoint, b).Ok? {
      SomesAppend(MapResults(FeaturePoint, a).value, MapResults(FeaturePoint, b).value);
    }
  }

  /** A skipped feature drops out and its siblings are processed as if it
      were not there. */
  lemma SkippedFeatureLeavesSiblings(a: seq<Value>, f: Value, b: seq<Value>)
    requires FeaturePoint(f) == Ok(None)
    ensures PointsOf(a + [f] + b) == PointsOf(a + b)
  {
    PointsOfAppend(a + [f], b);
    PointsOfAppend(a, [f]);
    PointsOfAppend(a, b);
    assert [f][..0] == [];
  }

  /** Each emitted record comes from a feature, in feature order, and every
      feature that yields a record is represented. */
  lemma PointsOfSources(features: seq<Value>) returns (idx: seq<nat>)
    requires PointsOf(features).Ok?
    ensures var out := PointsOf(features).value;
      && |idx| == |out|
      && (forall k :: 0 <= k < |idx| ==> idx[k] < |features| && FeaturePoint(features[idx[k]]) == Ok(Some(out[k])))
      && (forall k, l :: 0 <= k < l < |idx| ==> idx[k] < idx[l])
      && (forall i :: 0 <= i < |features| && FeaturePoint(features[i]).Ok? && FeaturePoint(features[i]).value.Some? ==> i in idx)
  {
    MapResultsOk(FeaturePoint, features);
    idx := SomesIndexed(MapResults(FeaturePoint, features).value);
  }

  /** The axis order of a GeoJSON position: before `update(props)` runs a record
      has `lon == coords[0]` and `lat == coords[1]`; the properties are merged over
      it, so a property named `lat` or `lon` wins, and every other property is
      copied as it is. */
  lemma FeaturePointAxes(f: Dict, geom: Dict, props: Dict, lon: Value, lat: Value, rest: seq<Value>, key: string)
    requires Find(f, "geometry") == Some(Obj(geom))
    requires Find(geom, "coordinates") == Some(Arr([lon, lat] + rest))
    requires Find(f, "properties") == Some(Obj(props)) && KeysUnique(props)
    requires lon != Null && lat != Null
    ensures FeaturePoint(Obj(f)).Ok? && FeaturePoint(Obj(f)).value.Some?
    ensures var rec := FeaturePoint(Obj(f)).value.value;
      && Find(rec, "lon") == (if HasKey(props, "lon") then Find(props, "lon") else Some(lon))
      && Find(rec, "lat") == (if HasKey(props, "lat") then Find(props, "lat") else Some(lat))
      && (key != "lat" && key != "lon" ==> Find(rec, key) == Find(props, key))
  {
    var base: Dict := [("lat", lat), ("lon", lon)];
    DictPropertiesMerged(f, geom, props, lon, lat, rest);
    FindUpdate(base, props, "lon");
    FindUpdate(base, props, "lat");
    FindUpdate(base, props, key);
  }

  /** With a position and dict properties, the record is the position updated
      with the properties. */
  lemma DictPropertiesMerged(f: Dict, geom: Dict, props: Dict, lon: Value, lat: Value, rest: seq<Value>)
    requires Find(f, "geometry") == Some(Obj(geom))
    requires Find(geom, "coordinates") == Some(Arr([lon, lat] + rest))
    requires Find(f, "properties") == Some(Obj(props))
    requires lon != Null && lat != Null
    ensures FeaturePoint(Obj(f)) == Ok(Some(Update([("lat", lat), ("lon", lon)], props)))
  {
    assert Truthy(Arr([lon, lat] + rest));
    assert Truthy(Obj(geom));
    assert LonLat(Arr([lon, lat] + rest)) == Ok((lon, lat));
    if props == [] {
      assert Update([("lat", lat), ("lon", lon)], props) == [("lat", lat), ("lon", lon)];
    } else {
      assert Truthy(Obj(props));
    }
  }

  /** Properties given as a list of `[key, value]` pairs are merged pair by pair
      over the position, a later pair winning over an earlier one with the same
      key; an item that is not a pair makes the feature raise. */
  lemma FeaturePointPairList(f: Dict, geom: Dict, items: seq<Value>, lon: Value, lat: Value, rest: seq<Value>, key: string)
    requires Find(f, "geometry") == Some(Obj(geom))
    requires Find(geom, "coordinates") == Some(Arr([lon, lat] + rest))
    requires Find(f, "properties") == Some(Arr(items)) && items != []
    requires lon != Null && lat != Null
    ensures FeaturePoint(Obj(f)).Ok? <==> forall i :: 0 <= i < |items| ==> PairOf(items[i]).Ok?
    ensures FeaturePoint(Obj(f)).Ok? ==> FeaturePoint(Obj(f)).value.Some?
    ensures FeaturePoint(Obj(f)).Ok? && key != "lat" && key != "lon" ==>
              var rec := FeaturePoint(Obj(f)).value.value;
              forall i :: 0 <= i < |items| && PairOf(items[i]).value.0 == key &&
                          (forall j :: i < j < |items| ==> PairOf(items[j]).value.0 != key) ==>
                Find(rec, key) == Some(PairOf(items[i]).value.1)
  {
    var base: Dict := [("lat", lat), ("lon", lon)];
    assert Truthy(Arr([lon, lat] + rest));
    assert Truthy(Obj(geom));
    assert Truthy(Arr(items));
    UpdateItemsFind(base, items, key);
  }

  /** `{"geometry": {"coordinates": [1, 2]}, "properties": [["name", "x"]]}` gives
      the record `{"lat": 2, "lon": 1, "name": "x"}`. */
  lemma PairListExample()
    ensures FeaturePoint(Obj([("geometry", Obj([("coordinates", Arr([Num(1.0), Num(2.0)]))])),
                              ("properties", Arr([Arr([Str("name"), Str("x")])]))]))
            == Ok(Some([("lat", Num(2.0)), ("lon", Num(1.0)), ("name", Str("x"))]))
  {
    var items := [Arr([Str("name"), Str("x")])];
    var geom: Dict := [("coordinates", Arr([Num(1.0), Num(2.0)]))];
    var f: Dict := [("geometry", Obj(geom)), ("properties", Arr(items))];
    assert "geometry"[0] != "properties"[0];
    FindAt(f, 1);
    assert Or(GetOr(f, "geometry", Obj([])), Obj([])) == Obj(geom);
    assert Or(GetOr(f, "properties", Obj([])), Obj([])) == Arr(items);
    assert LonLat(Or(GetOr(geom, "coordinates", Null), Arr([]))) == Ok((Num(1.0), Num(2.0)));
    assert Iter(Arr(items)) == Ok(items);
    PairListExampleUpdate();
  }

  lemma PairListExampleUpdate()
    ensures UpdateItems([("lat", Num(2.0)), ("lon", Num(1.0))], [Arr([Str("name"), Str("x")])])
            == Ok([("lat", Num(2.0)), ("lon", Num(1.0)), ("name", Str("x"))])
  {
    var pair := Arr([Str("name"), Str("x")]);
    var kv := ("name", Str("x"));
    var base: Dict := [("lat", Num(2.0)), ("lon", Num(1.0))];
    var none: seq<Value> := [];
    var nopairs: seq<(string, Value)> := [];
    assert PairOf(pair) == Ok(kv);
    assert MapResults(PairOf, none) == Ok(nopairs);
    MapResultsSnoc(PairOf, none, pair);
    assert none + [pair] == [pair] && nopairs + [kv] == [kv];
    assert MapResults(PairOf, [pair]) == Ok([kv]);
    assert UpdateItems(base, [pair]) == Ok(Update(base, [kv]));
    assert [kv][1..] == [];
    assert Update(base, [kv]) == Assign(base, "name", Str("x"));
    assert "lat"[0] != "name"[0] && "lon"[0] != "name"[0];
    assert Assign(base[2..], "name", Str("x")) == [kv];
    assert Assign(base[1..], "name", Str("x")) == [base[1]] + [kv];
    assert Assign(base, "name", Str("x")) == [base[0]] + ([base[1]] + [kv]);
    assert [base[0]] + ([base[1]] + [kv]) == base + [kv] == [("lat", Num(2.0)), ("lon", Num(1.0)), kv];
  }

  /** Properties that are a string are iterated as characters, which are not
      pairs, so the feature raises. */
  lemma FeaturePointStringPropertiesRaise(f: Dict, geom: Dict, s: string, lon: Value, lat: Value, rest: seq<Value>)
    requires Find(f, "geometry") == Some(Obj(geom))
    requires Find(geom, "coordinates") == Some(Arr([lon, lat] + rest))
    requires Find(f, "properties") == Some(Str(s)) && s != []
    requires lon != Null && lat != Null
    ensures FeaturePoint(Obj(f)).Raised?
  {
    var base: Dict := [("lat", lat), ("lon", lon)];
    assert Truthy(Arr([lon, lat] + rest));
    assert Truthy(Obj(geom));
    var items := Iter(Str(s)).value;
    assert PairOf(items[0]).Raised?;
    UpdateItemsFind(base, items, "");
  }

  /** A feature whose geometry has fewer than two coordinates, or a `None`
      longitude or latitude among them, is skipped, whatever its properties are. */
  lemma FeatureWithoutPositionSkipped(f: Dict, geom: Dict, coords: seq<Value>)
    requires Find(f, "geometry") == Some(Obj(geom))
    requires Find(geom, "coordinates") == Some(Arr(coords))
    requires |coords| < 2 || coords[0] == Null || coords[1] == Null
    ensures FeaturePoint(Obj(f)) == Ok(None)
  {
    assert Or(GetOr(f, "geometry", Obj([])), Obj([])) == Obj(geom);
    assert Or(Arr(coords), Arr([])) == Arr(coords);
    var lonLat := LonLat(Arr(coords)).value;
    assert lonLat.1 == Null || lonLat.0 == Null;
  }

  // ---------------------------------------------------------------------------
  // Map layers

  /** `name.lower() == 'style'`: the registry entry that names the style file. */
  predicate IsStyleKey(name: string) {
    LowerAscii(name) == "style"
  }

  /** The points a registry entry contributes: none when the file is missing,
      unreadable or falsy. */
  function LayerPoints(fs: FileSystem, cwd: string, filename: Value): Result<seq<Dict>> {
    var gj :- LoadGeoJsonFile(fs, cwd, filename);
    if Truthy(gj) then ExtractedPoints(gj) else Ok([])
  }

  /** The `loaded_layers` dict that the loop of `get_map_layers_data` builds. */
  function LayersOf(fs: FileSystem, cwd: string, registry: Dict): Result<Assoc<seq<Dict>>> {
    if registry == [] then Ok([])
    else
      var prev :- LayersOf(fs, cwd, registry[..|registry| - 1]);
      var name := registry[|registry| - 1].0;
      if IsStyleKey(name) then Ok(prev)
      else
        var points :- LayerPoints(fs, cwd, registry[|registry| - 1].1);
        Ok(if points != [] then Assign(prev, name, points) else prev)
  }

  lemma {:induction false} LayersOfRaises(fs: FileSystem, cwd: string, registry: Dict, i: nat)
    requires i < |registry| && !IsStyleKey(registry[i].0) && LayerPoints(fs, cwd, registry[i].1).Raised?
    ensures LayersOf(fs, cwd, registry).Raised?
    decreases |registry|
  {
    if i < |registry| - 1 {
      var prefix := registry[..|registry| - 1];
      assert prefix[i] == registry[i];
      LayersOfRaises(fs, cwd, prefix, i);
    }
  }

  /** The loop of `get_map_layers_data` over the `gis_layers` registry. */
  method LoadLayers(fs: FileSystem, cwd: string, registry: Dict) returns (r: Result<Assoc<seq<Dict>>>)
    ensures r == LayersOf(fs, cwd, registry)
  {
    var loaded: Assoc<seq<Dict>> := [];
    for i := 0 to |registry|
      invariant LayersOf(fs, cwd, registry[..i]) == Ok(loaded)
    {
      var (name, filename) := registry[i];
      assert registry[..i + 1][..i] == registry[..i];
      if IsStyleKey(name) {
        continue;
      }
      var geojson := LoadGeoJsonFile(fs, cwd, filename);
      if geojson.Raised? {
        LayersOfRaises(fs, cwd, registry, i);
        return Raised;
      }
      if Truthy(geojson.value) {
        var points := ExtractPoints(geojson.value);
        if points.Raised? {
          LayersOfRaises(fs, cwd, registry, i);
          return Raised;
        }
        if points.value != [] {
          loaded := Assign(loaded, name, points.value);
        }
      }
    }
    assert registry[..|registry|] == registry;
    return Ok(loaded);
  }

  /** `data.get("gis_layers", {})` as a dict, iterated with `.items()`. */
  function RegistryOf(fs: FileSystem, cwd: string): Result<Dict> {
    var layers :- Get(LoadYaml(fs, ConfigPath(cwd)), "gis_layers", Obj([]));
    if layers.Obj? then Ok(layers.fields) else Raised
  }

  /** `get_map_layers_data` */
  method GetMapLayersData(fs: FileSystem, cwd: string) returns (r: Result<Assoc<seq<Dict>>>)
    ensures RegistryOf(fs, cwd).Raised? ==> r.Raised?
    ensures RegistryOf(fs, cwd).Ok? ==> r == LayersOf(fs, cwd, RegistryOf(fs, cwd).value)
  {
    var registry :- RegistryOf(fs, cwd);
    r := LoadLayers(fs, cwd, registry);
  }

  /** No emitted layer is the style entry, every emitted layer has points, every
      emitted name is a registry key, and no name is emitted twice. */
  lemma {:induction false} LayersOfShape(fs: FileSystem, cwd: string, registry: Dict)
    requires LayersOf(fs, cwd, registry).Ok?
    ensures var out := LayersOf(fs, cwd, registry).value;
      && KeysUnique(out)
      && forall e :: e in out ==> !IsStyleKey(e.0) && e.1 != [] && HasKey(registry, e.0)
    decreases |registry|
  {
    if registry != [] {
      var n := |registry| - 1;
      var prefix := registry[..n];
      LayersOfShape(fs, cwd, prefix);
      var prev := LayersOf(fs, cwd, prefix).value;
      forall e | e in prev ensures HasKey(registry, e.0) {
        var j :| 0 <= j < |prefix| && prefix[j].0 == e.0;
        assert registry[j].0 == e.0;
      }
      var name := registry[n].0;
      if !IsStyleKey(name) {
        var points := LayerPoints(fs, cwd, registry[n].1).value;
        if points != [] {
          AssignEntries(prev, name, points);
        }
      }
    }
  }

  /** With distinct registry keys, a layer is emitted exactly when it is not the
      style entry, its file loads to a truthy document and that document has points;
      and it is emitted with those points. */
  lemma {:induction false} LayersOfFind(fs: FileSystem, cwd: string, registry: Dict, name: string)
    requires KeysUnique(registry) && LayersOf(fs, cwd, registry).Ok?
    ensures Find(LayersOf(fs, cwd, registry).value, name) ==
      match Find(registry, name)
      case None => None
      case Some(filename) =>
        if IsStyleKey(name) then None
        else
          var points := LayerPoints(fs, cwd, filename);
          if points.Ok? && points.value != [] then Some(points.value) else None
    decreases |registry|
  {
    if registry != [] {
      var n := |registry| - 1;
      var prefix := registry[..n];
      assert KeysUnique(prefix) by {
        forall i, j | 0 <= i < j < n ensures prefix[i].0 != prefix[j].0 {
          assert prefix[i] == registry[i] && prefix[j] == registry[j];
        }
      }
      LayersOfFind(fs, cwd, prefix, name);
      var prev := LayersOf(fs, cwd, prefix).value;
      var last := registry[n];
      FindSplit(prefix, last, name);
      assert registry == prefix + [last];
      if !IsStyleKey(last.0) {
        var points := LayerPoints(fs, cwd, last.1).value;
        if points != [] {
          FindAssign(prev, last.0, points, name);
        }
      }
      if last.0 == name {
        assert !HasKey(prefix, name) by {
          forall j | 0 <= j < n ensures prefix[j].0 != name {
            assert prefix[j] == registry[j];
          }
        }
      }
    }
  }

  /** Looking a key up in `prefix + [last]`. */
  lemma {:induction false} FindSplit<V>(prefix: Assoc<V>, last: (string, V), key: string)
    ensures Find(prefix + [last], key) ==
      if HasKey(prefix, key) then Find(prefix, key) else if last.0 == key then Some(last.1) else None
    decreases |prefix|
  {
    if prefix != [] {
      assert (prefix + [last])[1..] == prefix[1..] + [last];
      FindSplit(prefix[1..], last, key);
      if prefix[0].0 != key {
        assert HasKey(prefix, key) <==> HasKey(prefix[1..], key) by {
          if HasKey(prefix, key) {
            var i :| 0 <= i < |prefix| && prefix[i].0 == key;
            assert prefix[1..][i - 1].0 == key;
          }
          if HasKey(prefix[1..], key) {
            var i :| 0 <= i < |prefix[1..]| && prefix[1..][i].0 == key;
            assert prefix[i + 1].0 == key;
          }
        }
      }
    }
  }

  // ---------------------------------------------------------------------------
  // Text, chart data and styles

  /** `get_display_text`: exactly the keys `content` and `bar_chart_info`, each
      the configuration's section when it has one and `{}` otherwise. */
  function GetDisplayText(fs: FileSystem, cwd: string): (r: Result<Value>)
    ensures var data := LoadYaml(fs, ConfigPath(cwd));
      && (r.Ok? <==> data.Obj?)
      && (r.Ok? ==>
            && r.value.Obj? && Keys(r.value.fields) == ["content", "bar_chart_info"]
            && r.value.fields[0].1 == (if HasKey(data.fields, "dashboard_content") then Find(data.fields, "dashboard_content").value else Obj([]))
            && r.value.fields[1].1 == (if HasKey(data.fields, "bar_chart_info") then Find(data.fields, "bar_chart_info").value else Obj([])))
  {
    var data := LoadYaml(fs, ConfigPath(cwd));
    if !data.Obj? then Raised
    else
      Ok(Obj([("content", GetOr(data.fields, "dashboard_content", Obj([]))),
              ("bar_chart_info", GetOr(data.fields, "bar_chart_info", Obj([])))]))
  }

  /** `get_barchart_data`: the `bar_chart_data` section, or `{}` when there is none. */
  function GetBarchartData(fs: FileSystem, cwd: string): (r: Result<Value>)
    ensures var data := LoadYaml(fs, ConfigPath(cwd));
      && (r.Ok? <==> data.Obj?)
      && (r.Ok? && HasKey(data.fields, "bar_chart_data") ==> r.value == Find(data.fields, "bar_chart_data").value)
      && (r.Ok? && !HasKey(data.fields, "bar_chart_data") ==> r.value == Obj([]))
  {
    Get(LoadYaml(fs, ConfigPath(cwd)), "bar_chart_data", Obj([]))
  }

  /** The styles `get_map_styles` falls back to. */
  const FallbackStyles: Value :=
    Obj([("defaults", Obj([("color", Str("red")), ("size", Num(10.0)), ("opacity", Num(0.7))])),
         ("layers", Obj([]))])

  /** The `style` entry of the layer registry, if it is truthy. The lookup is
      by the exact key, unlike the case-insensitive skip in `get_map_layers_data`. */
  function StyleEntry(fs: FileSystem, cwd: string): Result<Option<Value>> {
    var registry :- RegistryOf(fs, cwd);
    var entry := GetOr(registry, "style", Null);
    Ok(if Truthy(entry) then Some(entry) else None)
  }

  /** `get_map_styles`: the style document named by the registry's `style` entry
      (relative to the working directory) when it loads to something non-empty,
      otherwise the fallback. `BASE_DIR / x` raises TypeError unless `x` is a string. */
  function GetMapStyles(fs: FileSystem, cwd: string): (r: Result<Value>)
    ensures r.Ok? <==> StyleEntry(fs, cwd).Ok? && (StyleEntry(fs, cwd).value.Some? ==> StyleEntry(fs, cwd).value.value.Str?)
    ensures r.Ok? ==> Truthy(r.value)
    ensures r.Ok? && StyleEntry(fs, cwd).value.Some? ==>
      var path := Join(cwd, StyleEntry(fs, cwd).value.value.s);
      r.value == if path in fs && fs[path].Parsed? && Truthy(fs[path].doc) then fs[path].doc else FallbackStyles
    ensures r.Ok? && StyleEntry(fs, cwd).value.None? ==> r.value == FallbackStyles
  {
    var entry :- StyleEntry(fs, cwd);
    match entry
    case None => Ok(FallbackStyles)
    case Some(name) =>
      if !name.Str? then Raised
      else
        var loaded := LoadYaml(fs, Join(cwd, name.s));
        Ok(if Truthy(loaded) then loaded else FallbackStyles)
  }
}
