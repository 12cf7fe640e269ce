/** The chart configuration shared by the playground, the colour panel and the chart renderer. */
module Config {

  /**
   * `chartConfig`: chart type, the columns bound to the two axes, the title and
   * the colour chosen per series or category key (`type` in the source).
   */
  datatype ChartConfig = ChartConfig(
    chartType: string,
    xAxis: string,
    yAxis: string,
    title: string,
    colors: map<string, string>)

  /** The configuration the playground starts with and returns to on reset. */
  function InitialConfig(): (c: ChartConfig)
    ensures c.chartType == "bar" && c.title == "" && c.colors == map[]
    ensures c.xAxis == "" && c.yAxis == ""
  {
    ChartConfig("bar", "", "", "", map[])
  }
}
