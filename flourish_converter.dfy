/** data_utils/data_from_web_converter.py: finding a Flourish visualisation id
    in a web page, cutting the raw `_Flourish_data` text out of the embed page,
    and turning the decoded data's points into the rows and columns of the
    exported CSV table.

    The network, the files, JSON decoding and the date formatting are inputs:
    the page text (or `None` when the request failed), the position where the
    `_Flourish_data =` match ends, a decoder for the cleaned text, and the
    function that turns a timestamp into the date text. The three regular
    expressions of `find_flourish_id` are written out as searches. */
module FlourishConverter {
  import opened PyValues

  // ---------------------------------------------------------------------------
  // Finding the visualisation id

  predicate IsDigit(c: char) {
    '0' <= c <= '9'
  }

  predicate IsQuote(c: char) {
    c == '"' || c == '\''
  }

  /** The longest run of digits starting at `i`: what a greedy `\d+` takes. */
  function DigitRun(s: string, i: nat): (r: string)
    requires i <= |s|
    ensures i + |r| <= |s| && s[i..i + |r|] == r
    ensures forall k :: 0 <= k < |r| ==> IsDigit(r[k])
    ensures i + |r| == |s| || (i + |r| < |s| && !IsDigit(s[i + |r|]))
    decreases |s| - i
  {
    if i < |s| && IsDigit(s[i]) then
      var rest := DigitRun(s, i + 1);
      assert s[i..i + 1 + |rest|] == [s[i]] + s[i + 1..i + 1 + |rest|];
      [s[i]] + rest
    else []
  }

  /** `prefix` followed by at least one digit starts at `i`. */
  predicate NumberAfterAt(s: string, prefix: string, i: nat) {
    OccursAt(s, prefix, i) && i + |prefix| < |s| && IsDigit(s[i + |prefix|])
  }

  /** The leftmost position from `from` on where `prefix(\d+)` matches. */
  function SearchNumberAfter(s: string, prefix: string, from: nat): (r: Option<nat>)
    ensures r.Some? ==> from <= r.value && NumberAfterAt(s, prefix, r.value)
    ensures r.Some? ==> forall j :: from <= j < r.value ==> !NumberAfterAt(s, prefix, j)
    ensures r.None? ==> forall j :: from <= j ==> !NumberAfterAt(s, prefix, j)
    decreases |s| - from
  {
    if from >= |s| then None
    else if NumberAfterAt(s, prefix, from) then Some(from)
    else SearchNumberAfter(s, prefix, from + 1)
  }

  /** `re.search(prefix + r"(\d+)", s).group(1)`: the digits after the leftmost
      `prefix` that is followed by a digit. */
  function NumberAfter(s: string, prefix: string): Option<string> {
    match SearchNumberAfter(s, prefix, 0)
    case None => None
    case Some(i) => Some(DigitRun(s, i + |prefix|))
  }

  const DataSrcKey: string := "data-src="
  const EmbedHost: string := "https://flo.uri.sh/"
  const VisualisationPath: string := "visualisation/"

  /** The id that `data-src=["'](https://flo\.uri\.sh/visualisation/(\d+)/embed)["']`
      captures as group 2 when the match starts at `i`. The digits are followed by
      `/`, so the greedy run is the only one that can match. */
  function DataSrcAt(s: string, i: nat): Option<string> {
    var q := i + |DataSrcKey|;
    var digitsAt := q + 1 + |EmbedHost| + |VisualisationPath|;
    if OccursAt(s, DataSrcKey, i) && q < |s| && IsQuote(s[q])
       && OccursAt(s, EmbedHost + VisualisationPath, q + 1) then
      var id := DigitRun(s, digitsAt);
      var end := digitsAt + |id|;
      if id != [] && OccursAt(s, "/embed", end) && end + 6 < |s| && IsQuote(s[end + 6]) then Some(id) else None
    else None
  }

  /** The leftmost `data-src` match from `from` on. */
  function SearchDataSrc(s: string, from: nat): Option<string>
    decreases |s| - from
  {
    if from >= |s| then None
    else if DataSrcAt(s, from).Some? then DataSrcAt(s, from)
    else SearchDataSrc(s, from + 1)
  }

  /** `find_flourish_id`: `None` when the request failed (any exception is
      caught), otherwise the visualisation id, else the story id, else the
      `data-src` id. */
  function FindFlourishId(page: Option<string>): Option<string> {
    match page
    case None => None
    case Some(content) =>
      var viz := NumberAfter(content, VisualisationPath);
      var story := NumberAfter(content, "story/");
      if viz.Some? then viz
      else if story.Some? then story
      else SearchDataSrc(content, 0)
  }

  /** Every `data-src` match contains a `visualisation/<digits>` match. */
  lemma DataSrcContainsVisualisation(s: string, i: nat)
    requires DataSrcAt(s, i).Some?
    ensures NumberAfterAt(s, VisualisationPath, i + |DataSrcKey| + 1 + |EmbedHost|)
  {
    var p := i + |DataSrcKey| + 1;
    var j := p + |EmbedHost|;
    assert s[p..p + |EmbedHost + VisualisationPath|] == EmbedHost + VisualisationPath;
    assert s[j..j + |VisualisationPath|] == s[p..p + |EmbedHost + VisualisationPath|][|EmbedHost|..];
  }

  lemma {:induction false} SearchDataSrcFinds(s: string, from: nat) returns (i: nat)
    requires SearchDataSrc(s, from).Some?
    ensures from <= i && DataSrcAt(s, i).Some?
    decreases |s| - from
  {
    if DataSrcAt(s, from).Some? {
      i := from;
    } else {
      i := SearchDataSrcFinds(s, from + 1);
    }
  }

  /** The `data-src` fallback can never be reached: a page it would match
      already matches the visualisation pattern, so the id is always the
      visualisation id or else the story id. */
  lemma DataSrcFallbackUnreachable(content: string)
    ensures SearchDataSrc(content, 0).Some? ==> NumberAfter(content, VisualisationPath).Some?
    ensures FindFlourishId(Some(content)) ==
      if NumberAfter(content, VisualisationPath).Some? then NumberAfter(content, VisualisationPath)
      else NumberAfter(content, "story/")
  {
    if SearchDataSrc(content, 0).Some? {
      var i := SearchDataSrcFinds(content, 0);
      DataSrcContainsVisualisation(content, i);
    }
  }

  /** A found id is a non-empty run of digits that follows `visualisation/` or
      `story/` in the page, and it is the whole run there. */
  lemma FoundIdIsNumberInPage(content: string)
    requires FindFlourishId(Some(content)).Some?
    ensures var id := FindFlourishId(Some(content)).value;
      && id != [] && (forall k :: 0 <= k < |id| ==> IsDigit(id[k]))
      && exists prefix: string, i: nat :: (prefix == VisualisationPath || prefix == "story/")
           && OccursAt(content, prefix, i) && OccursAt(content, id, i + |prefix|)
           && (i + |prefix| + |id| == |content| || !IsDigit(content[i + |prefix| + |id|]))
  {
    DataSrcFallbackUnreachable(content);
    var id := FindFlourishId(Some(content)).value;
    var prefix := if NumberAfter(content, VisualisationPath).Some? then VisualisationPath else "story/";
    var i := SearchNumberAfter(content, prefix, 0).value;
    assert id == DigitRun(content, i + |prefix|);
    assert id[0] == content[i + |prefix|];
    assert OccursAt(content, id, i + |prefix|);
  }

  // ---------------------------------------------------------------------------
  // Cutting out the raw data text

  const ChunkSize: nat := 500000
  const ScriptEnd: string := "</script>"

  /** `html[start:start + 500000]`, cut before the first `</script>` in it.
      Python slicing clamps both bounds to the text. */
  function RawChunk(html: string, start: nat): (r: string)
    ensures var lo := if start < |html| then start else |html|;
      var hi := if start + ChunkSize < |html| then start + ChunkSize else |html|;
      && |r| <= ChunkSize
      && lo + |r| <= hi && html[lo..lo + |r|] == r
      && (lo + |r| == hi || OccursAt(html[lo..hi], ScriptEnd, |r|))
      && forall j :: 0 <= j <= |r| ==> !OccursAt(r, ScriptEnd, j)
  {
    var lo := if start < |html| then start else |html|;
    var hi := if start + ChunkSize < |html| then start + ChunkSize else |html|;
    var window := html[lo..hi];
    match IndexOf(window, ScriptEnd)
    case None => window
    case Some(k) =>
      PrefixKeepsAbsence(window, k);
      assert OccursAt(window, ScriptEnd, k);
      assert lo + k <= hi;
      assert window[..k] == html[lo..lo + k] by {
        forall j | 0 <= j < k ensures window[..k][j] == html[lo..lo + k][j] {
          assert window[j] == html[lo + j];
        }
      }
      window[..k]
  }

  /** A prefix ending before the first occurrence of `ScriptEnd` holds none. */
  lemma PrefixKeepsAbsence(w: string, k: nat)
    requires k <= |w| && forall j :: 0 <= j < k ==> !OccursAt(w, ScriptEnd, j)
    ensures forall j :: 0 <= j <= k ==> !OccursAt(w[..k], ScriptEnd, j)
  {
    forall j | 0 <= j <= k && OccursAt(w[..k], ScriptEnd, j) ensures false {
      assert w[..k][j..j + |ScriptEnd|] == w[j..j + |ScriptEnd|];
      assert OccursAt(w, ScriptEnd, j);
    }
  }

  /** `dump_raw_flourish_text`: nothing is written when `_Flourish_data =` was
      not found (`matchEnd` is `None`); otherwise the chunk after it. */
  function RawDump(html: string, matchEnd: Option<nat>): (r: Option<string>)
    ensures r.Some? <==> matchEnd.Some?
    ensures r.Some? ==> |r.value| <= ChunkSize && forall j :: 0 <= j <= |r.value| ==> !OccursAt(r.value, ScriptEnd, j)
    ensures r.Some? && matchEnd.value + ChunkSize <= |html| && IndexOf(html[matchEnd.value..matchEnd.value + ChunkSize], ScriptEnd).None? ==>
              r.value == html[matchEnd.value..matchEnd.value + ChunkSize]
  {
    match matchEnd
    case None => None
    case Some(start) => Some(RawChunk(html, start))
  }

  // ---------------------------------------------------------------------------
  // One table row per point

  /** `get_meta(idx)`: the metadata entry, or `""` when the metadata is falsy,
      too short or holds `None` there. A string's entry is its character; a dict
      has no integer keys (KeyError) and a number has no length (TypeError). */
  function GetMeta(meta: Value, idx: nat): (r: Result<Value>)
    ensures !Truthy(meta) ==> r == Ok(Str(""))
    ensures meta.Arr? ==> r == Ok(if idx < |meta.items| && meta.items[idx] != Null then meta.items[idx] else Str(""))
    ensures r.Raised? <==> Truthy(meta) && (meta.Num? || meta.Bool? || (meta.Obj? && idx < |meta.fields|))
  {
    if !Truthy(meta) then Ok(Str(""))
    else
      match meta
      case Arr(items) => Ok(if idx < |items| && items[idx] != Null then items[idx] else Str(""))
      case Str(s) => Ok(if idx < |s| then Str([s[idx]]) else Str(""))
      case Obj(fields) => if idx < |fields| then Raised else Ok(Str(""))
      case _ => Raised
  }

  /** The column names in the order each row dict lists them. */
  const RowKeys: seq<string> :=
    ["Name", "Institution", "Agency", "Agency Full", "Focus Area", "Funding",
     "Founding Date", "Latitude", "Longitude", "Website"]

  /** The row of one point with its fields already read. Metadata slots: 0
      funding, 2 agency, 3 agency full, 4 institution, 5 date, 6 focus area,
      7 website; slot 1 is not read. A numeric date (booleans count, being
      Python ints) becomes `formatDate`'s text, anything else `""`. */
  function RowOf(name: Value, lat: Value, lon: Value, meta: Value, formatDate: Value -> string): Result<Dict> {
    var funding :- GetMeta(meta, 0);
    var agency :- GetMeta(meta, 2);
    var agencyFull :- GetMeta(meta, 3);
    var institution :- GetMeta(meta, 4);
    var focusArea :- GetMeta(meta, 6);
    var website :- GetMeta(meta, 7);
    var rawDate :- GetMeta(meta, 5);
    var founded := if rawDate.Num? || rawDate.Bool? then Str(formatDate(rawDate)) else Str("");
    Ok(Record([name, institution, agency, agencyFull, focusArea, funding, founded, lat, lon, website]))
  }

  /** The row dict with `values` under `RowKeys`, in that order. */
  function Record(values: seq<Value>): (r: Dict)
    requires |values| == |RowKeys|
    ensures |r| == |RowKeys| && forall i :: 0 <= i < |r| ==> r[i] == (RowKeys[i], values[i])
  {
    seq(|RowKeys|, i requires 0 <= i < |RowKeys| => (RowKeys[i], values[i]))
  }

  /** The row of one point: `p.get` needs a dict. */
  function PointRow(p: Value, formatDate: Value -> string): Result<Dict> {
    if !p.Obj? then Raised
    else RowOf(GetOr(p.fields, "label", Str("N/A")), GetOr(p.fields, "lat", Null), GetOr(p.fields, "lon", Null),
               GetOr(p.fields, "metadata", Arr([])), formatDate)
  }

  function PointRowOf(formatDate: Value -> string): Value -> Result<Dict> {
    p => PointRow(p, formatDate)
  }

  /** A point's row fails only when the point is not a dict or its metadata is
      neither falsy, a list nor a string; otherwise it has the ten columns. */
  lemma PointRowOutcome(p: Value, formatDate: Value -> string)
    ensures PointRow(p, formatDate).Raised? <==>
      !p.Obj? || (var meta := GetOr(p.fields, "metadata", Arr([]));
                  Truthy(meta) && (meta.Num? || meta.Bool? || meta.Obj?))
    ensures PointRow(p, formatDate).Ok? ==> Keys(PointRow(p, formatDate).value) == RowKeys
  {
  }

  /** The metadata entry `get_meta(k)` reads from a list. */
  function Slot(items: seq<Value>, k: nat): Value {
    if k < |items| && items[k] != Null then items[k] else Str("")
  }

  /** The row of a point whose metadata is a list, column by column. */
  function ListRow(name: Value, lat: Value, lon: Value, items: seq<Value>, formatDate: Value -> string): Dict {
    var date := Slot(items, 5);
    Record([name, Slot(items, 4), Slot(items, 2), Slot(items, 3), Slot(items, 6), Slot(items, 0),
            if date.Num? || date.Bool? then Str(formatDate(date)) else Str(""), lat, lon, Slot(items, 7)])
  }

  lemma RowOfList(name: Value, lat: Value, lon: Value, items: seq<Value>, formatDate: Value -> string)
    ensures RowOf(name, lat, lon, Arr(items), formatDate) == Ok(ListRow(name, lat, lon, items, formatDate))
  {
  }

  /** Each metadata slot lands in its column, a `None` slot or a missing one
      reads `""`, a missing label reads `N/A`, and a missing position stays
      `None`. */
  lemma RowColumns(p: Dict, items: seq<Value>, formatDate: Value -> string)
    requires GetOr(p, "metadata", Arr([])) == Arr(items)
    ensures PointRow(Obj(p), formatDate).Ok?
    ensures var row := PointRow(Obj(p), formatDate).value;
      && Find(row, "Name") == Some(GetOr(p, "label", Str("N/A")))
      && Find(row, "Latitude") == Some(GetOr(p, "lat", Null))
      && Find(row, "Longitude") == Some(GetOr(p, "lon", Null))
      && Find(row, "Funding") == Some(Slot(items, 0))
      && Find(row, "Agency") == Some(Slot(items, 2))
      && Find(row, "Agency Full") == Some(Slot(items, 3))
      && Find(row, "Institution") == Some(Slot(items, 4))
      && Find(row, "Focus Area") == Some(Slot(items, 6))
      && Find(row, "Website") == Some(Slot(items, 7))
      && Find(row, "Founding Date") ==
           Some(if Slot(items, 5).Num? || Slot(items, 5).Bool? then Str(formatDate(Slot(items, 5))) else Str(""))
  {
    var name, lat, lon := GetOr(p, "label", Str("N/A")), GetOr(p, "lat", Null), GetOr(p, "lon", Null);
    RowOfList(name, lat, lon, items, formatDate);
    var date := Slot(items, 5);
    var values := [name, Slot(items, 4), Slot(items, 2), Slot(items, 3), Slot(items, 6), Slot(items, 0),
                   if date.Num? || date.Bool? then Str(formatDate(date)) else Str(""), lat, lon, Slot(items, 7)];
    assert ListRow(name, lat, lon, items, formatDate) == Record(values);
    FindRecord(values, 0); FindRecord(values, 1); FindRecord(values, 2); FindRecord(values, 3); FindRecord(values, 4);
    FindRecord(values, 5); FindRecord(values, 6); FindRecord(values, 7); FindRecord(values, 8); FindRecord(values, 9);
  }

  lemma FindRecord(values: seq<Value>, i: nat)
    requires |values| == |RowKeys| && i < |RowKeys|
    ensures Find(Record(values), RowKeys[i]) == Some(values[i])
  {
    RowKeysDistinct();
    FindAt(Record(values), i);
  }

  lemma RowKeysDistinct()
    ensures forall i, j :: 0 <= i < j < |RowKeys| ==> RowKeys[i] != RowKeys[j]
  {
  }

  /** Metadata slot 1 (the point colour) never reaches the table. */
  lemma SlotOneIgnored(name: Value, lat: Value, lon: Value, items: seq<Value>, v: Value, formatDate: Value -> string)
    requires 1 < |items|
    ensures RowOf(name, lat, lon, Arr(items), formatDate) == RowOf(name, lat, lon, Arr(items[1 := v]), formatDate)
  {
  }

  /** The rows of the extraction loop, or `Raised` when a point fails. */
  function RowsOf(points: seq<Value>, formatDate: Value -> string): Result<seq<Dict>> {
    MapResults(PointRowOf(formatDate), points)
  }

  /** The extraction loop: one row per point, in point order; it fails exactly
      when some point's row fails. */
  method ExtractRows(points: seq<Value>, formatDate: Value -> string) returns (r: Result<seq<Dict>>)
    ensures r == RowsOf(points, formatDate)
    ensures r.Ok? <==> forall i :: 0 <= i < |points| ==> PointRow(points[i], formatDate).Ok?
    ensures r.Ok? ==> |r.value| == |points| && forall i :: 0 <= i < |points| ==> PointRow(points[i], formatDate) == Ok(r.value[i])
  {
    var f := PointRowOf(formatDate);
    MapResultsOk(f, points);
    var rows: seq<Dict> := [];
    for i := 0 to |points|
      invariant MapResults(f, points[..i]) == Ok(rows)
    {
      var row := PointRow(points[i], formatDate);
      if row.Raised? {
        MapResultsRaises(f, points, i);
        return Raised;
      }
      MapResultsStep(f, points, i, rows);
      rows := rows + [row.value];
    }
    assert points[..|points|] == points;
    return Ok(rows);
  }

  // ---------------------------------------------------------------------------
  // Columns of the table

  /** Appends the keys not seen yet, in order. */
  function AddNew(seen: seq<string>, keys: seq<string>): (r: seq<string>)
    ensures forall k :: k in r <==> k in seen || k in keys
    decreases |keys|
  {
    if keys == [] then seen
    else
      var n := |keys| - 1;
      var prev := AddNew(seen, keys[..n]);
      assert keys == keys[..n] + [keys[n]];
      if keys[n] in prev then prev else prev + [keys[n]]
  }

  /** The columns of `pd.DataFrame(rows)`: the union of the rows' keys, in the
      order they first appear; no rows give no columns. */
  function FrameColumns(rows: seq<Dict>): seq<string> {
    if rows == [] then [] else AddNew(FrameColumns(rows[..|rows| - 1]), Keys(rows[|rows| - 1]))
  }

  /** The column order of the export. */
  const ColumnOrder: seq<string> :=
    ["Name", "Institution", "Agency", "Focus Area", "Founding Date",
     "Funding", "Latitude", "Longitude", "Website", "Agency Full"]

  /** `[c for c in cols if c in present]`: the wanted columns that exist, in the
      wanted order. */
  function FilterColumns(cols: seq<string>, present: seq<string>): (r: seq<string>)
    ensures forall c {:trigger c in r} :: c in r <==> c in cols && c in present
    ensures |r| <= |cols|
    decreases |cols|
  {
    if cols == [] then []
    else
      var n := |cols| - 1;
      assert cols == cols[..n] + [cols[n]];
      var prev := FilterColumns(cols[..n], present);
      if cols[n] in present then prev + [cols[n]] else prev
  }

  /** The filter keeps the wanted order: the k-th kept column is the wanted
      column at position `idx[k]`, the positions increase, and every wanted
      column that exists has its position in `idx`. */
  lemma {:induction false} FilterColumnsOrder(cols: seq<string>, present: seq<string>) returns (idx: seq<nat>)
    ensures var r := FilterColumns(cols, present);
      && |idx| == |r|
      && (forall k :: 0 <= k < |idx| ==> idx[k] < |cols| && r[k] == cols[idx[k]])
      && (forall k, l :: 0 <= k < l < |idx| ==> idx[k] < idx[l])
      && (forall i :: 0 <= i < |cols| && cols[i] in present ==> i in idx)
    decreases |cols|
  {
    if cols == [] {
      idx := [];
    } else {
      var n := |cols| - 1;
      var prefix := cols[..n];
      var prev := FilterColumnsOrder(prefix, present);
      var r' := FilterColumns(prefix, present);
      assert cols == prefix + [cols[n]];
      if cols[n] in present {
        idx := prev + [n];
        var r := r' + [cols[n]];
        assert FilterColumns(cols, present) == r;
        forall k | 0 <= k < |idx| ensures idx[k] < |cols| && r[k] == cols[idx[k]] {
          if k < |prev| {
            assert r[k] == r'[k] && idx[k] == prev[k] && prefix[prev[k]] == cols[prev[k]];
          }
        }
        forall i | 0 <= i < |cols| && cols[i] in present ensures i in idx {
          if i < n {
            assert prefix[i] in present;
            assert i in prev;
          } else {
            assert idx[|prev|] == n;
          }
        }
      } else {
        idx := prev;
        assert FilterColumns(cols, present) == r';
        forall k | 0 <= k < |idx| ensures idx[k] < |cols| && r'[k] == cols[idx[k]] {
          assert prefix[prev[k]] == cols[prev[k]];
        }
        forall i | 0 <= i < |cols| && cols[i] in present ensures i in idx {
          assert i < n && prefix[i] in present;
        }
      }
    }
  }

  lemma {:induction false} AddNewSeen(seen: seq<string>, keys: seq<string>)
    requires forall k :: k in keys ==> k in seen
    ensures AddNew(seen, keys) == seen
    decreases |keys|
  {
    if keys != [] {
      var n := |keys| - 1;
      assert forall k :: k in keys[..n] ==> k in keys;
      AddNewSeen(seen, keys[..n]);
    }
  }

  lemma {:induction false} AddNewFresh(seen: seq<string>, keys: seq<string>)
    requires forall i, j :: 0 <= i < j < |keys| ==> keys[i] != keys[j]
    requires forall k :: k in keys ==> k !in seen
    ensures AddNew(seen, keys) == seen + keys
    decreases |keys|
  {
    if keys != [] {
      var n := |keys| - 1;
      assert forall k :: k in keys[..n] ==> k in keys;
      AddNewFresh(seen, keys[..n]);
      assert keys[n] !in keys[..n];
      assert seen + keys == seen + keys[..n] + [keys[n]];
    }
  }

  lemma {:induction false} FilterNothing(cols: seq<string>)
    ensures FilterColumns(cols, []) == []
    decreases |cols|
  {
    if cols != [] {
      FilterNothing(cols[..|cols| - 1]);
    }
  }

  lemma {:induction false} FilterKeepsAll(cols: seq<string>, present: seq<string>)
    requires forall c :: c in cols ==> c in present
    ensures FilterColumns(cols, present) == cols
    decreases |cols|
  {
    if cols != [] {
      var n := |cols| - 1;
      assert forall c :: c in cols[..n] ==> c in cols;
      FilterKeepsAll(cols[..n], present);
      assert cols == cols[..n] + [cols[n]];
    }
  }

  /** Rows that all hold the same distinct keys give a frame with those
      columns. */
  lemma {:induction false} FrameOfRows(rows: seq<Dict>, keys: seq<string>)
    requires forall i, j :: 0 <= i < j < |keys| ==> keys[i] != keys[j]
    requires rows != [] && forall i :: 0 <= i < |rows| ==> Keys(rows[i]) == keys
    ensures FrameColumns(rows) == keys
    decreases |rows|
  {
    var n := |rows| - 1;
    if n == 0 {
      var none: seq<string> := [];
      assert FrameColumns(rows) == AddNew(none, keys);
      AddNewFresh(none, keys);
    } else {
      assert forall i :: 0 <= i < n ==> rows[..n][i] == rows[i];
      FrameOfRows(rows[..n], keys);
      AddNewSeen(keys, keys);
    }
  }

  /** The exported columns: all ten in the export order when there is a point,
      none when there is no point. */
  function ExportColumns(rows: seq<Dict>): seq<string> {
    FilterColumns(ColumnOrder, FrameColumns(rows))
  }

  lemma ExportColumnsOfRows(rows: seq<Dict>)
    requires forall i :: 0 <= i < |rows| ==> Keys(rows[i]) == RowKeys
    ensures rows == [] ==> ExportColumns(rows) == []
    ensures rows != [] ==> ExportColumns(rows) == ColumnOrder
  {
    if rows != [] {
      RowKeysDistinct();
      FrameOfRows(rows, RowKeys);
      assert forall c :: c in ColumnOrder ==> c in RowKeys;
      FilterKeepsAll(ColumnOrder, RowKeys);
    } else {
      FilterNothing(ColumnOrder);
    }
  }

  /** The CSV records: each row's values in column order; a missing value is
      empty in the file, read here as `None`. */
  function Cells(rows: seq<Dict>, cols: seq<string>): (r: seq<seq<Value>>)
    ensures |r| == |rows|
    ensures forall k :: 0 <= k < |rows| ==> |r[k]| == |cols|
  {
    seq(|rows|, k requires 0 <= k < |rows| => seq(|cols|, j requires 0 <= j < |cols| => GetOr(rows[k], cols[j], Null)))
  }

  // ---------------------------------------------------------------------------
  // Decoding and export

  /** How `decode_and_export_flourish` ends: one of its three early returns, or
      the table written to the CSV file. */
  datatype Outcome =
    | NoObjectStart                                            // no '{' in the text
    | DecodeError                                              // json.JSONDecodeError
    | NoPoints                                                 // no "points" in the data
    | Exported(columns: seq<string>, records: seq<seq<Value>>)

  /** From the cleaned text to the outcome. `rawDecode` is `raw_decode` on the
      text from the first `{` on (`None` when it raises JSONDecodeError). The
      progress message takes `len(points)`, which raises exactly when iterating
      `points` does. */
  function Decoded(cleanText: string, rawDecode: string -> Option<Value>, formatDate: Value -> string): Result<Outcome> {
    match IndexOf(cleanText, "{")
    case None => Ok(NoObjectStart)
    case Some(start) =>
      match rawDecode(cleanText[start..])
      case None => Ok(DecodeError)
      case Some(data) =>
        var hasPoints :- ContainsText(data, "points");
        if !hasPoints then Ok(NoPoints)
        else
          var points :- Subscript(data, "points");
          var items :- Iter(points);
          var rows :- RowsOf(items, formatDate);
          var cols := ExportColumns(rows);
          Ok(Exported(cols, Cells(rows, cols)))
  }

  /** `decode_and_export_flourish` after the file read and the `new Date(...)`
      substitution. */
  method DecodeAndExport(cleanText: string, rawDecode: string -> Option<Value>, formatDate: Value -> string)
    returns (r: Result<Outcome>)
    ensures r == Decoded(cleanText, rawDecode, formatDate)
  {
    var start := IndexOf(cleanText, "{");
    if start.None? {
      return Ok(NoObjectStart);
    }
    var decoded := rawDecode(cleanText[start.value..]);
    if decoded.None? {
      return Ok(DecodeError);
    }
    var data := decoded.value;
    var hasPoints :- ContainsText(data, "points");
    if !hasPoints {
      return Ok(NoPoints);
    }
    var points :- Subscript(data, "points");
    var items :- Iter(points);
    var rows :- ExtractRows(items, formatDate);
    var cols := ExportColumns(rows);
    return Ok(Exported(cols, Cells(rows, cols)));
  }

  /** A finished export needs a `{`, a decodable object and its `points` key.
      It has one record per point, in point order, and either
      all ten columns in the export order or, without points, none; every
      record holds its point's fields under those columns. */
  lemma ExportShape(cleanText: string, rawDecode: string -> Option<Value>, formatDate: Value -> string)
    requires Decoded(cleanText, rawDecode, formatDate).Ok? && Decoded(cleanText, rawDecode, formatDate).value.Exported?
    ensures var start := IndexOf(cleanText, "{").value;
      var data := rawDecode(cleanText[start..]).value;
      var items := Iter(Find(data.fields, "points").value).value;
      var out := Decoded(cleanText, rawDecode, formatDate).value;
      && data.Obj? && HasKey(data.fields, "points")
      && |out.records| == |items|
      && out.columns == (if items == [] then [] else ColumnOrder)
      && forall k, j :: 0 <= k < |items| && 0 <= j < |out.columns| ==>
           PointRow(items[k], formatDate).Ok? && out.records[k][j] == GetOr(PointRow(items[k], formatDate).value, out.columns[j], Null)
  {
    var start := IndexOf(cleanText, "{").value;
    var data := rawDecode(cleanText[start..]).value;
    var items := Iter(Find(data.fields, "points").value).value;
    var f := PointRowOf(formatDate);
    MapResultsOk(f, items);
    var rows := RowsOf(items, formatDate).value;
    forall i | 0 <= i < |rows| ensures Keys(rows[i]) == RowKeys {
      assert f(items[i]) == Ok(rows[i]);
      PointRowOutcome(items[i], formatDate);
    }
    ExportColumnsOfRows(rows);
  }
}
