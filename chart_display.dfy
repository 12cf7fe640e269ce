/**
 * The chart renderer: colour resolution, the dispatch on the chart type to an
 * abstract description of what is drawn, the surrounding heading and footer,
 * and the name of the exported image.
 */
module ChartDisplay {
  import opened Wrappers
  import opened JsValues
  import opened Config

  /** The fallback palette, cycled by index. */
  const DefaultColors: seq<string> := [
    "#8884d8", "#82ca9d", "#ffc658", "#ff7c7c", "#8dd1e1",
    "#d084d0", "#ffb347", "#87d068", "#ffa1b5", "#b0e57c"
  ]

  /** The chart types the renderer dispatches on; anything else gets the placeholder. */
  predicate IsChartType(t: string) {
    t == "bar" || t == "line" || t == "area" || t == "pie" || t == "scatter"
  }

  /** `colors[key]` is truthy: the key is present with a non-empty colour. */
  predicate HasColor(colors: map<string, string>, key: string) {
    key in colors && colors[key] != ""
  }

  /** `getColor`: the explicit colour of `key` if set, else the palette entry for `index`. */
  function GetColor(colors: map<string, string>, index: nat, key: string): (c: string)
    ensures HasColor(colors, key) ==> c == colors[key]
    ensures !HasColor(colors, key) ==> c == DefaultColors[index % |DefaultColors|]
    ensures c in colors.Values || c in DefaultColors
  {
    if HasColor(colors, key) then colors[key] else DefaultColors[index % |DefaultColors|]
  }

  /** The fallback colour depends on the index only modulo the palette length. */
  lemma GetColorCycles(colors: map<string, string>, index: nat, key: string)
    ensures GetColor(colors, index + |DefaultColors|, key) == GetColor(colors, index, key)
  {
    assert |DefaultColors| == 10;
    assert (index + 10) % 10 == index % 10;
  }

  /** Two keys without an explicit colour, at indices in different positions of the cycle, get different colours. */
  lemma FallbackColorsDiffer(colors: map<string, string>, i: nat, j: nat, ki: string, kj: string)
    requires !HasColor(colors, ki) && !HasColor(colors, kj)
    requires i % |DefaultColors| != j % |DefaultColors|
    ensures GetColor(colors, i, ki) != GetColor(colors, j, kj)
  {
  }

  /** A drawn series: the column it plots and its colour. */
  datatype Series = Series(dataKey: string, color: string)

  /** A pie slice: its label cell, the cell its value is parsed from, and its fill. */
  datatype Slice = Slice(name: Cell, value: Cell, fill: string)

  /** What `renderChart` returns, with presentation details dropped. */
  datatype Chart =
    | NoChart
    | Placeholder
    | BarChart(xKey: string, rows: seq<Row>, bar: Option<Series>)
    | LineChart(xKey: string, rows: seq<Row>, line: Option<Series>)
    | AreaChart(xKey: string, rows: seq<Row>, gradient: string, area: Option<Series>)
    | PieChart(slices: seq<Slice>)
    | ScatterChart(xKey: string, yKey: string, points: seq<Row>, fill: string)

  /** The y series of a bar, line or area chart: drawn only when the y axis is set. */
  function CartesianSeries(cfg: ChartConfig): (s: Option<Series>)
    ensures s.Some? <==> cfg.yAxis != ""
    ensures s.Some? ==> s.value.dataKey == cfg.yAxis && s.value.color == GetColor(cfg.colors, 0, cfg.yAxis)
  {
    if cfg.yAxis != "" then Some(Series(cfg.yAxis, GetColor(cfg.colors, 0, cfg.yAxis))) else None
  }

  /**
   * `Object.keys(item)[1]` used as a property key: the second property's name,
   * or "undefined" when the row has fewer than two properties.
   */
  function SecondKey(row: Row): (k: string)
    ensures |row| > 1 ==> k == Keys(row)[1]
    ensures |row| <= 1 ==> k == "undefined"
  {
    if |row| > 1 then row[1].key else ToKey(Undefined)
  }

  /**
   * The cell a slice's value is parsed from: the y column if truthy, else the
   * row's value under its second key if truthy, else zero.
   */
  function SliceValueCell(row: Row, yAxis: string): (c: Cell)
    ensures Truthy(Get(row, yAxis)) ==> c == Get(row, yAxis)
    ensures
      var second := Get(row, SecondKey(row));
      !Truthy(Get(row, yAxis)) ==> c == (if Truthy(second) then second else Num(0))
  {
    var y := Get(row, yAxis);
    if Truthy(y) then y
    else
      var second := Get(row, SecondKey(row));
      if Truthy(second) then second else Num(0)
  }

  /** A one-column row whose column is named "undefined" supplies its own value to the slice. */
  lemma OneColumnRowReadsUndefinedKey(v: Cell, yAxis: string)
    requires Truthy(v) && yAxis != "undefined"
    ensures SliceValueCell([Field("undefined", v)], yAxis) == v
  {
  }

  function PieSlice(row: Row, index: nat, cfg: ChartConfig): Slice {
    var name := Get(row, cfg.xAxis);
    Slice(name, SliceValueCell(row, cfg.yAxis), GetColor(cfg.colors, index, ToKey(name)))
  }

  /** `data.map(...)` building the pie data: one slice per row, in row order. */
  function PieSlices(rows: seq<Row>, cfg: ChartConfig): (slices: seq<Slice>)
    ensures |slices| == |rows|
    ensures forall i :: 0 <= i < |rows| ==> slices[i] == PieSlice(rows[i], i, cfg)
  {
    seq(|rows|, i requires 0 <= i < |rows| => PieSlice(rows[i], i, cfg))
  }

  /** `renderChart`. */
  function RenderChart(data: Option<seq<Row>>, cfg: ChartConfig): (chart: Chart)
    ensures data.None? || cfg.xAxis == "" ==> chart == NoChart
    ensures chart.Placeholder? <==> data.Some? && cfg.xAxis != "" && !IsChartType(cfg.chartType)
  {
    if data.None? || cfg.xAxis == "" then NoChart
    else
      var rows := data.value;
      if cfg.chartType == "bar" then
        BarChart(cfg.xAxis, rows, CartesianSeries(cfg))
      else if cfg.chartType == "line" then
        LineChart(cfg.xAxis, rows, CartesianSeries(cfg))
      else if cfg.chartType == "area" then
        AreaChart(cfg.xAxis, rows, GetColor(cfg.colors, 0, cfg.yAxis), CartesianSeries(cfg))
      else if cfg.chartType == "pie" then
        PieChart(PieSlices(rows, cfg))
      else if cfg.chartType == "scatter" then
        ScatterChart(cfg.xAxis, cfg.yAxis, rows, GetColor(cfg.colors, 0, cfg.yAxis))
      else
        Placeholder
  }

  /** A chart is drawn exactly when there is data, an x axis and a known chart type. */
  lemma ChartDrawnIff(data: Option<seq<Row>>, cfg: ChartConfig)
    ensures (!RenderChart(data, cfg).NoChart? && !RenderChart(data, cfg).Placeholder?) <==>
              (data.Some? && cfg.xAxis != "" && IsChartType(cfg.chartType))
  {
  }

  /** Bar and line charts draw the y series, coloured `getColor(0, yAxis)`, exactly when the y axis is set. */
  lemma BarAndLineSeries(rows: seq<Row>, cfg: ChartConfig)
    requires cfg.xAxis != "" && (cfg.chartType == "bar" || cfg.chartType == "line")
    ensures var chart := RenderChart(Some(rows), cfg);
      var series := if chart.BarChart? then chart.bar else chart.line;
      && (chart.BarChart? || chart.LineChart?)
      && chart.xKey == cfg.xAxis && chart.rows == rows
      && (series.Some? <==> cfg.yAxis != "")
      && (series.Some? ==> series.value == Series(cfg.yAxis, GetColor(cfg.colors, 0, cfg.yAxis)))
  {
  }

  /** The area chart's gradient always uses `getColor(0, yAxis)`; its series is drawn only when the y axis is set. */
  lemma AreaSeries(rows: seq<Row>, cfg: ChartConfig)
    requires cfg.xAxis != "" && cfg.chartType == "area"
    ensures var chart := RenderChart(Some(rows), cfg);
      && chart.AreaChart?
      && chart.gradient == GetColor(cfg.colors, 0, cfg.yAxis)
      && (chart.area.Some? <==> cfg.yAxis != "")
      && (chart.area.Some? ==> chart.area.value.color == chart.gradient)
  {
  }

  /** Pie: one slice per row in row order, named by the row's x value and filled by `getColor(i, name)`. */
  lemma PieSlicesPerRow(rows: seq<Row>, cfg: ChartConfig)
    requires cfg.xAxis != "" && cfg.chartType == "pie"
    ensures var chart := RenderChart(Some(rows), cfg);
      && chart.PieChart?
      && |chart.slices| == |rows|
      && forall i :: 0 <= i < |rows| ==>
           && chart.slices[i].name == Get(rows[i], cfg.xAxis)
           && chart.slices[i].fill == GetColor(cfg.colors, i, ToKey(Get(rows[i], cfg.xAxis)))
  {
  }

  /** Scatter always draws its points, coloured `getColor(0, yAxis)`, even with no y axis. */
  lemma ScatterAlwaysDrawn(rows: seq<Row>, cfg: ChartConfig)
    requires cfg.xAxis != "" && cfg.chartType == "scatter"
    ensures RenderChart(Some(rows), cfg) ==
              ScatterChart(cfg.xAxis, cfg.yAxis, rows, GetColor(cfg.colors, 0, cfg.yAxis))
  {
  }

  /** Every colour a chart uses. */
  function ChartColors(chart: Chart): set<string> {
    match chart
    case NoChart => {}
    case Placeholder => {}
    case BarChart(_, _, bar) => if bar.Some? then {bar.value.color} else {}
    case LineChart(_, _, line) => if line.Some? then {line.value.color} else {}
    case AreaChart(_, _, gradient, area) => {gradient} + (if area.Some? then {area.value.color} else {})
    case PieChart(slices) => set i | 0 <= i < |slices| :: slices[i].fill
    case ScatterChart(_, _, _, fill) => {fill}
  }

  /** A rendered chart uses only colours from the configuration or from the default palette. */
  lemma RenderedColorsComeFromConfigOrPalette(data: Option<seq<Row>>, cfg: ChartConfig)
    ensures forall c :: c in ChartColors(RenderChart(data, cfg)) ==> c in cfg.colors.Values || c in DefaultColors
  {
    if data.Some? && cfg.xAxis != "" && cfg.chartType == "pie" {
      assert RenderChart(data, cfg) == PieChart(PieSlices(data.value, cfg));
      PieColorsComeFromConfigOrPalette(data.value, cfg);
    }
  }

  lemma PieColorsComeFromConfigOrPalette(rows: seq<Row>, cfg: ChartConfig)
    ensures forall c :: c in ChartColors(PieChart(PieSlices(rows, cfg))) ==> c in cfg.colors.Values || c in DefaultColors
  {
    var slices := PieSlices(rows, cfg);
    forall c | c in ChartColors(PieChart(slices)) ensures c in cfg.colors.Values || c in DefaultColors {
      var i :| 0 <= i < |slices| && slices[i].fill == c;
      assert slices[i].fill == GetColor(cfg.colors, i, ToKey(Get(rows[i], cfg.xAxis)));
    }
  }

  /** The component's output: the optional heading, the chart, and the optional point count. */
  datatype View = View(heading: Option<string>, chart: Chart, pointCount: Option<nat>)

  function Display(data: Option<seq<Row>>, cfg: ChartConfig): (v: View)
    ensures v.heading.Some? <==> cfg.title != ""
    ensures v.heading.Some? ==> v.heading.value == cfg.title
    ensures v.pointCount.Some? <==> data.Some?
    ensures data.Some? ==> v.pointCount.value == |data.value|
    ensures v.chart == RenderChart(data, cfg)
  {
    View(if cfg.title != "" then Some(cfg.title) else None,
         RenderChart(data, cfg),
         if data.Some? then Some(|data.value|) else None)
  }

  /** The downloaded image's name: the title, or "chart" when it is empty, followed by ".png". */
  function ExportFileName(title: string): (name: string)
    ensures |name| >= 4 && name[|name| - 4..] == ".png"
    ensures title != "" ==> name[..|name| - 4] == title
    ensures title == "" ==> name == "chart.png"
  {
    StringOr(title, "chart") + ".png"
  }
}
