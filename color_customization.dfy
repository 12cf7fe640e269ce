/**
 * The colour panel: named five-colour schemes applied to every current key,
 * a single custom colour for one key, which keys are editable, and when the
 * panel is shown at all.
 */
module ColorCustomization {
  import opened Wrappers
  import opened JsValues
  import opened Config
  import ChartDisplay

  /** The swatches offered next to each key's colour picker come from this list. */
  const PresetColors: seq<string> := [
    "#8884d8", "#82ca9d", "#ffc658", "#ff7c7c", "#8dd1e1",
    "#d084d0", "#ffb347", "#87d068", "#ffa1b5", "#b0e57c",
    "#FF6B6B", "#4ECDC4", "#45B7D1", "#96CEB4", "#FFEAA7",
    "#DDA0DD", "#98D8C8", "#F7DC6F", "#BB8FCE", "#85C1E9"
  ]

  /** The picker's value when a key has no colour yet. */
  const PickerDefault := "#8884d8"

  /** The names of `COLOR_SCHEMES`, in the order the panel lists them. */
  datatype SchemeName = Default | Ocean | Sunset | Forest | Corporate

  /** `COLOR_SCHEMES[name]`: five colours per scheme, none of them empty. */
  function SchemeColors(name: SchemeName): (palette: seq<string>)
    ensures |palette| == 5
    ensures forall i :: 0 <= i < |palette| ==> palette[i] != ""
  {
    match name
    case Default => ["#8884d8", "#82ca9d", "#ffc658", "#ff7c7c", "#8dd1e1"]
    case Ocean => ["#006994", "#0582ca", "#00a8cc", "#40c9a2", "#84d2f6"]
    case Sunset => ["#ff9a56", "#ff6b6b", "#ee5a6f", "#c44569", "#786fa6"]
    case Forest => ["#2d5016", "#3e6b1f", "#4f7942", "#87a96b", "#c5d4a7"]
    case Corporate => ["#2c3e50", "#3498db", "#e74c3c", "#f39c12", "#9b59b6"]
  }

  /** The ten preset swatches (`PRESET_COLORS.slice(0, 10)`) are exactly the renderer's fallback palette. */
  lemma OfferedSwatchesAreDefaultPalette()
    ensures PresetColors[..10] == ChartDisplay.DefaultColors
  {
  }

  /** The pie branch of both `applyColorScheme` and `getColorKeys`: pie type with data present. */
  predicate PieWithData(cfg: ChartConfig, data: Option<seq<Row>>) {
    cfg.chartType == "pie" && data.Some?
  }

  /** `handleColorChange`: the current colours with `key` (as a property key) mapped to `color`. */
  function HandleColorChange(colors: map<string, string>, key: Cell, color: string): (r: map<string, string>)
    ensures r.Keys == colors.Keys + {ToKey(key)}
    ensures r[ToKey(key)] == color
    ensures forall k :: k in colors && k != ToKey(key) ==> r[k] == colors[k]
  {
    colors[ToKey(key) := color]
  }

  /** A later change of the same key overrides an earlier one. */
  lemma ColorChangeLastWins(colors: map<string, string>, key: Cell, c1: string, c2: string)
    ensures HandleColorChange(HandleColorChange(colors, key, c1), key, c2) == HandleColorChange(colors, key, c2)
  {
  }

  /** After a custom colour is chosen for the y series, bar, line and scatter charts draw it. */
  lemma ColorChangeReachesChart(rows: seq<Row>, cfg: ChartConfig, color: string)
    requires cfg.xAxis != "" && cfg.yAxis != "" && color != ""
    requires cfg.chartType == "bar" || cfg.chartType == "line" || cfg.chartType == "scatter"
    ensures var chart := ChartDisplay.RenderChart(Some(rows),
                           cfg.(colors := HandleColorChange(cfg.colors, Text(cfg.yAxis), color)));
      && (chart.BarChart? ==> chart.bar == Some(ChartDisplay.Series(cfg.yAxis, color)))
      && (chart.LineChart? ==> chart.line == Some(ChartDisplay.Series(cfg.yAxis, color)))
      && (chart.ScatterChart? ==> chart.fill == color)
      && (chart.BarChart? || chart.LineChart? || chart.ScatterChart?)
  {
  }

  /** The colour picker's value for a key: its colour if set, else the picker default. */
  function PickerValue(colors: map<string, string>, key: Cell): (c: string)
    ensures ChartDisplay.HasColor(colors, ToKey(key)) ==> c == colors[ToKey(key)]
    ensures !ChartDisplay.HasColor(colors, ToKey(key)) ==> c == PickerDefault
  {
    if ChartDisplay.HasColor(colors, ToKey(key)) then colors[ToKey(key)] else PickerDefault
  }

  /** The property key row `i` contributes in pie mode: `item[xAxis]` coerced to a key. */
  function KeyAt(rows: seq<Row>, x: string, i: nat): string
    requires i < |rows|
  {
    ToKey(Get(rows[i], x))
  }

  /** The keys a pie colouring has: one per row's x value. */
  function RowKeys(rows: seq<Row>, x: string): set<string> {
    set i | 0 <= i < |rows| :: KeyAt(rows, x, i)
  }

  /** The index of the last row whose x value has the key `key`, or -1 if there is none. */
  function LastIndex(rows: seq<Row>, x: string, key: string): (j: int)
    ensures -1 <= j < |rows|
    ensures j >= 0 ==> KeyAt(rows, x, j) == key
    ensures j >= 0 ==> forall k :: j < k < |rows| ==> KeyAt(rows, x, k) != key
    ensures j == -1 <==> forall k :: 0 <= k < |rows| ==> KeyAt(rows, x, k) != key
    decreases |rows|
  {
    if rows == [] then -1
    else
      var n := |rows| - 1;
      if KeyAt(rows, x, n) == key then n
      else
        var j := LastIndex(rows[..n], x, key);
        assert forall k :: 0 <= k < n ==> KeyAt(rows[..n], x, k) == KeyAt(rows, x, k);
        j
  }

  /**
   * What the `data.forEach` loop of `applyColorScheme` leaves in `newColors`
   * after the rows `rows`: row `i` writes `palette[i % |palette|]` under its
   * key, so a later duplicate overwrites an earlier one.
   */
  function PieColoring(rows: seq<Row>, x: string, palette: seq<string>): (m: map<string, string>)
    requires |palette| > 0
    ensures forall k :: k in m ==> m[k] in palette
    ensures rows == [] ==> m == map[]
    decreases |rows|
  {
    if rows == [] then map[]
    else
      var n := |rows| - 1;
      PieColoring(rows[..n], x, palette)[KeyAt(rows, x, n) := palette[n % |palette|]]
  }

  /** The pie colouring has one key per row's x value. */
  lemma {:induction false} PieColoringKeys(rows: seq<Row>, x: string, palette: seq<string>)
    requires |palette| > 0
    ensures PieColoring(rows, x, palette).Keys == RowKeys(rows, x)
    decreases |rows|
  {
    if rows != [] {
      var n := |rows| - 1;
      var prefix := rows[..n];
      PieColoringKeys(prefix, x, palette);
      var before := PieColoring(prefix, x, palette);
      assert PieColoring(rows, x, palette) == before[KeyAt(rows, x, n) := palette[n % |palette|]];
      assert PieColoring(rows, x, palette).Keys == before.Keys + {KeyAt(rows, x, n)};
      assert forall k :: 0 <= k < n ==> KeyAt(prefix, x, k) == KeyAt(rows, x, k);
      forall key | key in RowKeys(rows, x) ensures key in RowKeys(prefix, x) + {KeyAt(rows, x, n)} {
        var i :| 0 <= i < |rows| && KeyAt(rows, x, i) == key;
        if i < n { assert KeyAt(prefix, x, i) == key; }
      }
      assert RowKeys(rows, x) == RowKeys(prefix, x) + {KeyAt(rows, x, n)};
    }
  }

  /** Each key of the pie colouring is coloured by the last row carrying it. */
  lemma {:induction false} PieColoringValues(rows: seq<Row>, x: string, palette: seq<string>)
    requires |palette| > 0
    ensures forall k :: k in PieColoring(rows, x, palette) ==>
              LastIndex(rows, x, k) >= 0 &&
              PieColoring(rows, x, palette)[k] == palette[LastIndex(rows, x, k) % |palette|]
    decreases |rows|
  {
    if rows != [] {
      var n := |rows| - 1;
      var prefix := rows[..n];
      PieColoringValues(prefix, x, palette);
      var m := PieColoring(rows, x, palette);
      forall k | k in m
        ensures LastIndex(rows, x, k) >= 0 && m[k] == palette[LastIndex(rows, x, k) % |palette|]
      {
        if k != KeyAt(rows, x, n) {
          assert LastIndex(rows, x, k) == LastIndex(prefix, x, k);
        }
      }
    }
  }

  /** The pie colouring has one key per distinct row key, coloured by the last row carrying it. */
  lemma PieColoringSpec(rows: seq<Row>, x: string, palette: seq<string>)
    requires |palette| > 0
    ensures PieColoring(rows, x, palette).Keys == RowKeys(rows, x)
    ensures forall k :: k in PieColoring(rows, x, palette) ==>
              LastIndex(rows, x, k) >= 0 &&
              PieColoring(rows, x, palette)[k] == palette[LastIndex(rows, x, k) % |palette|]
  {
    PieColoringKeys(rows, x, palette);
    PieColoringValues(rows, x, palette);
  }

  /**
   * The colours `applyColorScheme` produces: rebuilt from nothing, per row in
   * pie mode with data, else the y series alone when the y axis is set.
   */
  function SchemeColoring(cfg: ChartConfig, data: Option<seq<Row>>, scheme: SchemeName): (m: map<string, string>)
    ensures !PieWithData(cfg, data) ==> m.Keys == (if cfg.yAxis != "" then {cfg.yAxis} else {})
    ensures !PieWithData(cfg, data) && cfg.yAxis != "" ==> m[cfg.yAxis] == SchemeColors(scheme)[0]
    ensures forall k :: k in m ==> m[k] in SchemeColors(scheme)
  {
    if PieWithData(cfg, data) then PieColoring(data.value, cfg.xAxis, SchemeColors(scheme))
    else if cfg.yAxis != "" then map[cfg.yAxis := SchemeColors(scheme)[0]]
    else map[]
  }

  /** `applyColorScheme`: builds the new colour map row by row. */
  method ApplyColorScheme(cfg: ChartConfig, data: Option<seq<Row>>, scheme: SchemeName)
    returns (newColors: map<string, string>)
    ensures newColors == SchemeColoring(cfg, data, scheme)
    ensures PieWithData(cfg, data) ==> newColors.Keys == RowKeys(data.value, cfg.xAxis)
    ensures !PieWithData(cfg, data) && cfg.yAxis != "" ==> newColors == map[cfg.yAxis := SchemeColors(scheme)[0]]
    ensures !PieWithData(cfg, data) && cfg.yAxis == "" ==> newColors == map[]
    ensures forall k :: k in newColors ==> newColors[k] in SchemeColors(scheme)
  {
    var schemeColors := SchemeColors(scheme);
    newColors := map[];
    if cfg.chartType == "pie" && data.Some? {
      var rows := data.value;
      var index := 0;
      while index < |rows|
        invariant 0 <= index <= |rows|
        invariant newColors == PieColoring(rows[..index], cfg.xAxis, schemeColors)
      {
        assert rows[..index + 1][..index] == rows[..index];
        var key := ToKey(Get(rows[index], cfg.xAxis));
        newColors := newColors[key := schemeColors[index % |schemeColors|]];
        index := index + 1;
      }
      assert rows[..index] == rows;
      PieColoringSpec(rows, cfg.xAxis, schemeColors);
    } else if cfg.yAxis != "" {
      newColors := map[cfg.yAxis := schemeColors[0]];
    }
  }

  /** Applying a scheme discards every previous colour: the result does not depend on them. */
  lemma SchemeReplacesColors(cfg: ChartConfig, data: Option<seq<Row>>, scheme: SchemeName, previous: map<string, string>)
    ensures SchemeColoring(cfg.(colors := previous), data, scheme) == SchemeColoring(cfg, data, scheme)
    ensures forall k :: k in SchemeColoring(cfg, data, scheme) ==>
              if PieWithData(cfg, data) then k in RowKeys(data.value, cfg.xAxis) else k == cfg.yAxis
  {
    if PieWithData(cfg, data) {
      PieColoringSpec(data.value, cfg.xAxis, SchemeColors(scheme));
    }
  }

  /**
   * After a scheme is applied in pie mode, slice `i` is filled with the scheme
   * colour of the last row carrying the same key.
   */
  lemma SchemeThenPie(rows: seq<Row>, cfg: ChartConfig, scheme: SchemeName)
    requires cfg.chartType == "pie" && cfg.xAxis != ""
    ensures var applied := cfg.(colors := SchemeColoring(cfg, Some(rows), scheme));
      var chart := ChartDisplay.RenderChart(Some(rows), applied);
      && chart.PieChart?
      && |chart.slices| == |rows|
      && forall i :: 0 <= i < |rows| ==>
           && LastIndex(rows, cfg.xAxis, KeyAt(rows, cfg.xAxis, i)) >= i
           && chart.slices[i].fill == SchemeColors(scheme)[LastIndex(rows, cfg.xAxis, KeyAt(rows, cfg.xAxis, i)) % 5]
  {
    var palette := SchemeColors(scheme);
    var colors := SchemeColoring(cfg, Some(rows), scheme);
    PieColoringSpec(rows, cfg.xAxis, palette);
    var applied := cfg.(colors := colors);
    var chart := ChartDisplay.RenderChart(Some(rows), applied);
    ChartDisplay.PieSlicesPerRow(rows, applied);
    forall i | 0 <= i < |rows|
      ensures LastIndex(rows, cfg.xAxis, KeyAt(rows, cfg.xAxis, i)) >= i
      ensures chart.slices[i].fill == palette[LastIndex(rows, cfg.xAxis, KeyAt(rows, cfg.xAxis, i)) % 5]
    {
      var key := KeyAt(rows, cfg.xAxis, i);
      assert key in RowKeys(rows, cfg.xAxis);
      var j := LastIndex(rows, cfg.xAxis, key);
      assert colors[key] == palette[j % 5];
      assert ChartDisplay.HasColor(colors, key);
    }
  }

  /** After a scheme is applied outside pie mode, a bar chart's series takes the scheme's first colour. */
  lemma SchemeThenBar(rows: seq<Row>, cfg: ChartConfig, scheme: SchemeName)
    requires cfg.chartType == "bar" && cfg.xAxis != "" && cfg.yAxis != ""
    ensures ChartDisplay.RenderChart(Some(rows), cfg.(colors := SchemeColoring(cfg, Some(rows), scheme))).bar
              == Some(ChartDisplay.Series(cfg.yAxis, SchemeColors(scheme)[0]))
  {
  }

  /** `item[xAxis]` of every row, in row order, with falsy ones dropped and duplicates kept. */
  function TruthyXValues(rows: seq<Row>, x: string): (vs: seq<Cell>)
    ensures |vs| <= |rows|
    ensures forall v :: v in vs ==> Truthy(v)
    decreases |rows|
  {
    if rows == [] then []
    else
      var v := Get(rows[0], x);
      (if Truthy(v) then [v] else []) + TruthyXValues(rows[1..], x)
  }

  /** Filtering distributes over concatenation, so the row order is kept. */
  lemma {:induction false} TruthyXValuesAppend(a: seq<Row>, b: seq<Row>, x: string)
    ensures TruthyXValues(a + b, x) == TruthyXValues(a, x) + TruthyXValues(b, x)
    decreases |a|
  {
    if a != [] {
      assert (a + b)[0] == a[0];
      assert (a + b)[1..] == a[1..] + b;
      TruthyXValuesAppend(a[1..], b, x);
    } else {
      assert a + b == b;
    }
  }

  /** A truthy x value occurs in the key list as often as among the rows; a falsy one never. */
  lemma {:induction false} TruthyXValuesCount(rows: seq<Row>, x: string, v: Cell)
    ensures multiset(TruthyXValues(rows, x))[v] ==
              if Truthy(v) then multiset(seq(|rows|, i requires 0 <= i < |rows| => Get(rows[i], x)))[v] else 0
    decreases |rows|
  {
    var all := seq(|rows|, i requires 0 <= i < |rows| => Get(rows[i], x));
    if rows != [] {
      TruthyXValuesCount(rows[1..], x, v);
      var rest := seq(|rows[1..]|, i requires 0 <= i < |rows[1..]| => Get(rows[1..][i], x));
      assert all == [Get(rows[0], x)] + rest;
    } else {
      assert all == [];
    }
  }

  /** `getColorKeys`: the keys whose colour the panel lets the user edit. */
  function GetColorKeys(cfg: ChartConfig, data: Option<seq<Row>>): (keys: seq<Cell>)
    ensures PieWithData(cfg, data) ==> keys == TruthyXValues(data.value, cfg.xAxis)
    ensures !PieWithData(cfg, data) && cfg.yAxis != "" ==> keys == [Text(cfg.yAxis)]
    ensures !PieWithData(cfg, data) && cfg.yAxis == "" ==> keys == []
  {
    if PieWithData(cfg, data) then TruthyXValues(data.value, cfg.xAxis)
    else if cfg.yAxis != "" then [Text(cfg.yAxis)]
    else []
  }

  /** The panel renders only when there is at least one key to edit. */
  predicate PanelShown(cfg: ChartConfig, data: Option<seq<Row>>)
    ensures PanelShown(cfg, data) ==> PieWithData(cfg, data) || cfg.yAxis != ""
    ensures !PieWithData(cfg, data) ==> (PanelShown(cfg, data) <==> cfg.yAxis != "")
  {
    |GetColorKeys(cfg, data)| > 0
  }

  /** The panel is hidden exactly when no row has a truthy x value (pie with data) or the y axis is unset (otherwise). */
  lemma {:induction false} PanelHiddenIff(cfg: ChartConfig, data: Option<seq<Row>>)
    ensures !PanelShown(cfg, data) <==>
              if PieWithData(cfg, data) then forall i :: 0 <= i < |data.value| ==> !Truthy(Get(data.value[i], cfg.xAxis))
              else cfg.yAxis == ""
  {
    if PieWithData(cfg, data) {
      var rows := data.value;
      forall v ensures multiset(TruthyXValues(rows, cfg.xAxis))[v] ==
                 if Truthy(v) then multiset(seq(|rows|, i requires 0 <= i < |rows| => Get(rows[i], cfg.xAxis)))[v] else 0 {
        TruthyXValuesCount(rows, cfg.xAxis, v);
      }
      var all := seq(|rows|, i requires 0 <= i < |rows| => Get(rows[i], cfg.xAxis));
      if exists i :: 0 <= i < |rows| && Truthy(Get(rows[i], cfg.xAxis)) {
        var i :| 0 <= i < |rows| && Truthy(Get(rows[i], cfg.xAxis));
        assert all[i] in multiset(all);
        assert Get(rows[i], cfg.xAxis) in multiset(TruthyXValues(rows, cfg.xAxis));
      }
    }
  }
}
