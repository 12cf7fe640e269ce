/**
 * The playground component: the workflow state (data, columns, chart
 * configuration, loading flag, active tab) and the handlers that update it.
 * Each handler is a method on the `Playground` class, proved against a pure
 * transition function on `UiState`; the properties are lemmas about those
 * functions.
 */
module Playground {
  import opened Wrappers
  import opened JsValues
  import opened Config
  import Server
  import ChartDisplay

  /** The tabs of the start screen, and the configuration view a dataset opens. */
  datatype Tab = UploadTab | SamplesTab | ConfigureTab

  /** The ids of `CHART_TYPES`, the only values the type buttons set. */
  const ChartTypeIds: seq<string> := ["bar", "line", "area", "pie", "scatter"]

  /** A snapshot of the five state fields. */
  datatype UiState = UiState(
    data: Option<seq<Row>>,
    columns: seq<string>,
    chartConfig: ChartConfig,
    isLoading: bool,
    activeTab: Tab)

  /** How the upload request ended: the server answered (success or error), or the request itself failed. */
  datatype UploadReply = Answered(result: Result<Server.UploadResponse, Server.HttpError>) | NetworkError

  function Initial(): (s: UiState)
    ensures s.data.None? && s.columns == [] && s.chartConfig == InitialConfig()
    ensures !s.isLoading && s.activeTab == UploadTab
  {
    UiState(None, [], InitialConfig(), false, UploadTab)
  }

  /** The start screen (tabs) is shown without data; the workspace with it. */
  predicate ShowsWorkspace(s: UiState) {
    s.data.Some?
  }

  /** Every chart type the type buttons can set is one the renderer draws. */
  lemma ChartTypeIdsAreRendered()
    ensures forall t :: t in ChartTypeIds ==> ChartDisplay.IsChartType(t)
  {
  }

  // ---------------------------------------------------------------------------
  // The title derived from an uploaded file's name

  predicate OccursAt(s: string, pat: string, i: int) {
    0 <= i && i + |pat| <= |s| && s[i..i + |pat|] == pat
  }

  /** `s.replace(pat, '')` with a string pattern: removes the first occurrence only. */
  function RemoveFirst(s: string, pat: string): (r: string)
    requires pat != ""
    ensures |r| <= |s| && |s| - |pat| <= |r|
    decreases |s|
  {
    if |s| < |pat| then s
    else if s[..|pat|] == pat then s[|pat|..]
    else [s[0]] + RemoveFirst(s[1..], pat)
  }

  /** An occurrence in the tail is an occurrence one position later in the whole string. */
  lemma OccursInTail(s: string, pat: string, j: int)
    requires |s| > 0 && 0 <= j
    ensures OccursAt(s[1..], pat, j) <==> OccursAt(s, pat, j + 1)
  {
    if j + |pat| <= |s| - 1 {
      assert s[1..][j..j + |pat|] == s[j + 1..j + 1 + |pat|];
    }
  }

  lemma {:induction false} RemoveFirstNoMatch(s: string, pat: string)
    requires pat != ""
    requires forall i :: !OccursAt(s, pat, i)
    ensures RemoveFirst(s, pat) == s
    decreases |s|
  {
    if |s| >= |pat| {
      assert !OccursAt(s, pat, 0);
      forall i ensures !OccursAt(s[1..], pat, i) {
        if 0 <= i { OccursInTail(s, pat, i); }
      }
      RemoveFirstNoMatch(s[1..], pat);
    }
  }

  lemma {:induction false} RemoveFirstAt(s: string, pat: string, i: int)
    requires pat != ""
    requires OccursAt(s, pat, i)
    requires forall j :: 0 <= j < i ==> !OccursAt(s, pat, j)
    ensures RemoveFirst(s, pat) == s[..i] + s[i + |pat|..]
    decreases |s|
  {
    if i == 0 {
      assert s[..|pat|] == pat;
    } else {
      assert !OccursAt(s, pat, 0);
      var t := s[1..];
      OccursInTail(s, pat, i - 1);
      forall j | 0 <= j < i - 1 ensures !OccursAt(t, pat, j) {
        OccursInTail(s, pat, j);
      }
      RemoveFirstAt(t, pat, i - 1);
      assert RemoveFirst(s, pat) == [s[0]] + RemoveFirst(t, pat);
      assert [s[0]] + t[..i - 1] == s[..i];
      assert t[i - 1 + |pat|..] == s[i + |pat|..];
    }
  }

  /** `.replace(/[_-]/g, ' ')`: every underscore and hyphen becomes a space. */
  function SpaceSeparators(s: string): (r: string)
    ensures |r| == |s|
    ensures forall k :: 0 <= k < |s| ==> r[k] == if s[k] == '_' || s[k] == '-' then ' ' else s[k]
  {
    seq(|s|, k requires 0 <= k < |s| => if s[k] == '_' || s[k] == '-' then ' ' else s[k])
  }

  /** The chart title an upload gets from the file's name. */
  function TitleFromFileName(name: string): (title: string)
    ensures |name| - |Server.CsvSuffix| <= |title| <= |name|
  {
    SpaceSeparators(RemoveFirst(name, Server.CsvSuffix))
  }

  /** The title never contains an underscore or a hyphen. */
  lemma TitleHasNoSeparators(name: string)
    ensures forall k :: 0 <= k < |TitleFromFileName(name)| ==>
              TitleFromFileName(name)[k] != '_' && TitleFromFileName(name)[k] != '-'
  {
  }

  /** Without ".csv" in the name, the title is the name with separators spaced, so its length is unchanged. */
  lemma TitleWithoutCsv(name: string)
    requires forall i :: !OccursAt(name, Server.CsvSuffix, i)
    ensures TitleFromFileName(name) == SpaceSeparators(name)
    ensures |TitleFromFileName(name)| == |name|
  {
    RemoveFirstNoMatch(name, Server.CsvSuffix);
  }

  /** Only the first ".csv" is removed: the title is four characters shorter than the name. */
  lemma TitleWithCsv(name: string, i: int)
    requires OccursAt(name, Server.CsvSuffix, i)
    requires forall j :: 0 <= j < i ==> !OccursAt(name, Server.CsvSuffix, j)
    ensures TitleFromFileName(name) == SpaceSeparators(name[..i] + name[i + 4..])
    ensures |TitleFromFileName(name)| == |name| - 4
  {
    RemoveFirstAt(name, Server.CsvSuffix, i);
  }

  /** For instance, "my_data-1.csv" becomes "my data 1". */
  lemma TitleExample(name: string)
    requires name == "my_data-1.csv"
    ensures TitleFromFileName(name) == "my data 1"
  {
    forall j | 0 <= j < 9 ensures !OccursAt(name, Server.CsvSuffix, j) {
      assert name[j..j + 4][0] == name[j] != '.';
    }
    RemoveFirstAt(name, Server.CsvSuffix, 9);
    var stripped := name[..9] + name[13..];
    assert stripped == "my_data-1";
    var spaced := SpaceSeparators(stripped);
    assert |spaced| == 9;
    assert spaced == "my data 1" by {
      forall k | 0 <= k < 9 ensures spaced[k] == "my data 1"[k] {
      }
    }
  }

  // ---------------------------------------------------------------------------
  // Configuration updates (`setChartConfig(prev => ({...prev, ...}))`)

  function WithType(cfg: ChartConfig, t: string): ChartConfig
  {
    cfg.(chartType := t)
  }

  function WithXAxis(cfg: ChartConfig, x: string): ChartConfig
  {
    cfg.(xAxis := x)
  }

  function WithYAxis(cfg: ChartConfig, y: string): ChartConfig
  {
    cfg.(yAxis := y)
  }

  function WithTitle(cfg: ChartConfig, title: string): ChartConfig
  {
    cfg.(title := title)
  }

  function WithColors(cfg: ChartConfig, colors: map<string, string>): ChartConfig
  {
    cfg.(colors := colors)
  }

  /** Each setter sets its own field and changes no other; in particular colours survive axis, type and title changes. */
  lemma SettersKeepOtherFields(cfg: ChartConfig, t: string, v: string, colors: map<string, string>)
    ensures WithType(cfg, t).chartType == t && WithXAxis(cfg, v).xAxis == v && WithYAxis(cfg, v).yAxis == v
    ensures WithTitle(cfg, v).title == v && WithColors(cfg, colors).colors == colors
    ensures var r := WithType(cfg, t); r.xAxis == cfg.xAxis && r.yAxis == cfg.yAxis && r.title == cfg.title && r.colors == cfg.colors
    ensures var r := WithXAxis(cfg, v); r.chartType == cfg.chartType && r.yAxis == cfg.yAxis && r.title == cfg.title && r.colors == cfg.colors
    ensures var r := WithYAxis(cfg, v); r.chartType == cfg.chartType && r.xAxis == cfg.xAxis && r.title == cfg.title && r.colors == cfg.colors
    ensures var r := WithTitle(cfg, v); r.chartType == cfg.chartType && r.xAxis == cfg.xAxis && r.yAxis == cfg.yAxis && r.colors == cfg.colors
    ensures var r := WithColors(cfg, colors); r.chartType == cfg.chartType && r.xAxis == cfg.xAxis && r.yAxis == cfg.yAxis && r.title == cfg.title
  {
  }

  /** The axes and title a freshly loaded dataset gets: its first two columns (or "") and the given title. */
  function WithDataset(cfg: ChartConfig, columns: seq<string>, title: string): (r: ChartConfig)
    ensures r.xAxis == At(columns, 0) && r.yAxis == At(columns, 1) && r.title == title
    ensures r.chartType == cfg.chartType && r.colors == cfg.colors
  {
    cfg.(xAxis := At(columns, 0), yAxis := At(columns, 1), title := title)
  }

  /** The Y-axis select's options: the columns other than the current x axis, in order. */
  function YAxisOptions(columns: seq<string>, x: string): (opts: seq<string>)
    ensures forall c :: c in opts <==> c in columns && c != x
    ensures |opts| <= |columns|
    decreases |columns|
  {
    if columns == [] then []
    else
      var rest := YAxisOptions(columns[1..], x);
      assert forall c :: c in columns <==> c == columns[0] || c in columns[1..];
      if columns[0] != x then [columns[0]] + rest else rest
  }

  /** The options keep the columns' order: filtering distributes over concatenation. */
  lemma {:induction false} YAxisOptionsAppend(a: seq<string>, b: seq<string>, x: string)
    ensures YAxisOptions(a + b, x) == YAxisOptions(a, x) + YAxisOptions(b, x)
    decreases |a|
  {
    if a == [] {
      assert a + b == b;
    } else {
      assert (a + b)[0] == a[0];
      assert (a + b)[1..] == a[1..] + b;
      YAxisOptionsAppend(a[1..], b, x);
    }
  }

  /** The Y-axis select is shown for every chart type except pie. */
  predicate ShowsYAxisSelect(cfg: ChartConfig) {
    cfg.chartType != "pie"
  }

  /**
   * For the types the buttons set, the Y-axis select is hidden exactly when the
   * renderer draws a pie; a pie still reads the (hidden) y axis for its values.
   */
  lemma YAxisSelectHiddenExactlyForPie(rows: seq<Row>, cfg: ChartConfig)
    requires cfg.xAxis != "" && cfg.chartType in ChartTypeIds
    ensures !ShowsYAxisSelect(cfg) <==> ChartDisplay.RenderChart(Some(rows), cfg).PieChart?
    ensures !ShowsYAxisSelect(cfg) ==>
              forall i :: 0 <= i < |rows| ==>
                ChartDisplay.RenderChart(Some(rows), cfg).slices[i].value ==
                ChartDisplay.SliceValueCell(rows[i], cfg.yAxis)
  {
  }

  // ---------------------------------------------------------------------------
  // Handler transitions

  /** `setIsLoading(true)` once a file has been chosen. */
  function UploadStarted(s: UiState): (r: UiState)
    ensures r.isLoading
    ensures r.data == s.data && r.columns == s.columns && r.chartConfig == s.chartConfig && r.activeTab == s.activeTab
  {
    s.(isLoading := true)
  }

  /** The rest of `handleFileUpload`: apply a successful reply, and clear the loading flag in `finally`. */
  function UploadFinished(s: UiState, fileName: string, reply: UploadReply): (r: UiState)
    ensures !r.isLoading
    ensures !(reply.Answered? && reply.result.Ok?) ==> r == s.(isLoading := false)
    ensures reply.Answered? && reply.result.Ok? ==>
              && r.data == Some(reply.result.value.sampleData)
              && r.columns == reply.result.value.columns
              && r.chartConfig.title == TitleFromFileName(fileName)
              && r.chartConfig.chartType == s.chartConfig.chartType
              && r.activeTab == ConfigureTab
  {
    if reply.Answered? && reply.result.Ok? then
      var response := reply.result.value;
      s.(columns := response.columns,
         data := Some(response.sampleData),
         chartConfig := WithDataset(s.chartConfig, response.columns, TitleFromFileName(fileName)),
         activeTab := ConfigureTab,
         isLoading := false)
    else
      s.(isLoading := false)
  }

  /** `handleFileUpload` as a whole: nothing happens without a file. */
  function FileUploaded(s: UiState, file: Option<string>, reply: UploadReply): (r: UiState)
    ensures file.None? ==> r == s
    ensures file.Some? ==> !r.isLoading && r == UploadFinished(s, file.value, reply)
  {
    if file.None? then s else UploadFinished(UploadStarted(s), file.value, reply)
  }

  /** `handleSampleDataSelect`. */
  function SampleSelected(s: UiState, sample: Server.SampleDataset): (r: UiState)
    ensures ShowsWorkspace(r) && r.data.value == sample.data && r.columns == sample.columns
    ensures r.chartConfig.title == sample.name && r.chartConfig.chartType == s.chartConfig.chartType
    ensures r.isLoading == s.isLoading && r.activeTab == ConfigureTab
  {
    s.(data := Some(sample.data),
       columns := sample.columns,
       chartConfig := WithDataset(s.chartConfig, sample.columns, sample.name),
       activeTab := ConfigureTab)
  }

  /** `resetData`: the loading flag is the one field it leaves alone. */
  function Reset(s: UiState): (r: UiState)
    ensures r == Initial().(isLoading := s.isLoading)
    ensures !ShowsWorkspace(r)
  {
    s.(data := None, columns := [], chartConfig := InitialConfig(), activeTab := UploadTab)
  }

  lemma UploadWithoutFileChangesNothing(s: UiState, reply: UploadReply)
    ensures FileUploaded(s, None, reply) == s
  {
  }

  /** A failed upload (server error or network failure) only clears the loading flag. */
  lemma UploadFailureKeepsState(s: UiState, name: string, reply: UploadReply)
    requires !(reply.Answered? && reply.result.Ok?)
    ensures FileUploaded(s, Some(name), reply) == s.(isLoading := false)
  {
  }

  /** A successful upload loads the response, binds the first two columns, keeps type and colours, and opens the configuration. */
  lemma UploadSuccessLoadsDataset(s: UiState, name: string, response: Server.UploadResponse)
    ensures var s' := FileUploaded(s, Some(name), Answered(Ok(response)));
      && s'.data == Some(response.sampleData)
      && s'.columns == response.columns
      && s'.chartConfig.xAxis == At(response.columns, 0)
      && s'.chartConfig.yAxis == At(response.columns, 1)
      && s'.chartConfig.title == TitleFromFileName(name)
      && s'.chartConfig.chartType == s.chartConfig.chartType
      && s'.chartConfig.colors == s.chartConfig.colors
      && s'.activeTab == ConfigureTab
      && !s'.isLoading
      && ShowsWorkspace(s')
  {
  }

  /**
   * End to end through the backend: an upload that the server accepts shows
   * the parsed columns and at most the first five parsed rows, in order; one it
   * rejects (for instance a name without ".csv") leaves everything but the
   * loading flag as it was.
   */
  lemma UploadThroughServer(
    s: UiState,
    name: string,
    decoded: Result<string, string>,
    readCsv: string -> Result<Server.Table, string>,
    inserted: Result<string, string>)
    ensures var result := Server.UploadCsv(name, decoded, readCsv, inserted);
      var s' := FileUploaded(s, Some(name), Answered(result));
      && (result.Err? ==> s' == s.(isLoading := false))
      && (result.Ok? ==>
            var table := readCsv(decoded.value).value;
            && s'.columns == table.columns
            && s'.data.Some?
            && s'.data.value <= table.rows
            && |s'.data.value| == Server.Min(Server.SampleSize, |table.rows|))
    ensures !Server.EndsWith(name, Server.CsvSuffix) ==>
              FileUploaded(s, Some(name), Answered(Server.UploadCsv(name, decoded, readCsv, inserted))) ==
              s.(isLoading := false)
  {
  }

  /** Selecting a sample loads it, binds its first two columns, titles the chart with its name, keeps type and colours. */
  lemma SampleSelectionLoadsDataset(s: UiState, sample: Server.SampleDataset)
    ensures var s' := SampleSelected(s, sample);
      && s'.data == Some(sample.data)
      && s'.columns == sample.columns
      && s'.chartConfig.xAxis == At(sample.columns, 0)
      && s'.chartConfig.yAxis == At(sample.columns, 1)
      && s'.chartConfig.title == sample.name
      && s'.chartConfig.chartType == s.chartConfig.chartType
      && s'.chartConfig.colors == s.chartConfig.colors
      && s'.activeTab == ConfigureTab
      && s'.isLoading == s.isLoading
  {
  }

  /** From the initial state, any listed sample gives a bar chart with its first column on x and its second drawn as the series. */
  lemma SampleFromStartDrawsBarChart(sample: Server.SampleDataset)
    requires sample in Server.SampleDatasets()
    ensures var s' := SampleSelected(Initial(), sample);
      var chart := ChartDisplay.RenderChart(s'.data, s'.chartConfig);
      && chart.BarChart?
      && chart.xKey == sample.columns[0]
      && chart.bar.Some?
      && chart.bar.value.dataKey == sample.columns[1]
  {
    Server.SampleDatasetsShape();
  }

  /** Selecting "Sales Data" plots Sales against Month. */
  lemma SalesSampleAxes(s: UiState)
    ensures var s' := SampleSelected(s, Server.SampleDatasets()[0]);
      s'.chartConfig.xAxis == "Month" && s'.chartConfig.yAxis == "Sales" && s'.chartConfig.title == "Sales Data"
  {
  }

  /** Reset returns to the initial state, except that it leaves the loading flag alone, and is idempotent. */
  lemma ResetRestoresInitial(s: UiState)
    ensures Reset(s) == Initial().(isLoading := s.isLoading)
    ensures Reset(Reset(s)) == Reset(s)
    ensures !ShowsWorkspace(Reset(s))
  {
  }

  /** The state machine's steps: from the start, a dataset opens the workspace, and reset closes it. */
  lemma WorkflowRoundTrip(sample: Server.SampleDataset, name: string, response: Server.UploadResponse)
    ensures !ShowsWorkspace(Initial())
    ensures ShowsWorkspace(SampleSelected(Initial(), sample))
    ensures ShowsWorkspace(FileUploaded(Initial(), Some(name), Answered(Ok(response))))
    ensures Reset(SampleSelected(Initial(), sample)) == Initial()
    ensures Reset(FileUploaded(Initial(), Some(name), Answered(Ok(response)))) == Initial()
  {
  }

  /** The component's state: the five fields `useState` holds. */
  class Playground {
    var data: Option<seq<Row>>
    var columns: seq<string>
    var chartConfig: ChartConfig
    var isLoading: bool
    var activeTab: Tab

    function State(): UiState
      reads this
    {
      UiState(data, columns, chartConfig, isLoading, activeTab)
    }

    constructor ()
      ensures State() == Initial()
    {
      data := None;
      columns := [];
      chartConfig := InitialConfig();
      isLoading := false;
      activeTab := UploadTab;
    }

    /** The part of `handleFileUpload` before the request: the loading flag goes up. */
    method StartUpload()
      modifies this
      ensures State() == UploadStarted(old(State()))
    {
      isLoading := true;
    }

    /** The part after the request: the state effects of the reply, then `finally`. */
    method FinishUpload(fileName: string, reply: UploadReply)
      modifies this
      ensures State() == UploadFinished(old(State()), fileName, reply)
    {
      if reply.Answered? && reply.result.Ok? {
        var response := reply.result.value;
        columns := response.columns;
        data := Some(response.sampleData);
        chartConfig := WithDataset(chartConfig, response.columns, TitleFromFileName(fileName));
        activeTab := ConfigureTab;
      }
      isLoading := false;
    }

    /** `handleFileUpload`: `file` is the chosen file's name, if one was chosen. */
    method HandleFileUpload(file: Option<string>, reply: UploadReply)
      modifies this
      ensures State() == FileUploaded(old(State()), file, reply)
    {
      if file.None? {
        return;
      }
      StartUpload();
      FinishUpload(file.value, reply);
    }

    method HandleSampleDataSelect(sample: Server.SampleDataset)
      modifies this
      ensures State() == SampleSelected(old(State()), sample)
    {
      data := Some(sample.data);
      columns := sample.columns;
      chartConfig := WithDataset(chartConfig, sample.columns, sample.name);
      activeTab := ConfigureTab;
    }

    method ResetData()
      modifies this
      ensures State() == Reset(old(State()))
    {
      data := None;
      columns := [];
      chartConfig := InitialConfig();
      activeTab := UploadTab;
    }

    method SelectChartType(t: string)
      modifies this
      ensures State() == old(State()).(chartConfig := WithType(old(chartConfig), t))
    {
      chartConfig := WithType(chartConfig, t);
    }

    method SelectXAxis(x: string)
      modifies this
      ensures State() == old(State()).(chartConfig := WithXAxis(old(chartConfig), x))
    {
      chartConfig := WithXAxis(chartConfig, x);
    }

    method SelectYAxis(y: string)
      modifies this
      ensures State() == old(State()).(chartConfig := WithYAxis(old(chartConfig), y))
    {
      chartConfig := WithYAxis(chartConfig, y);
    }

    method EditTitle(title: string)
      modifies this
      ensures State() == old(State()).(chartConfig := WithTitle(old(chartConfig), title))
    {
      chartConfig := WithTitle(chartConfig, title);
    }

    /** The colour panel's `onColorChange`. */
    method ChangeColors(colors: map<string, string>)
      modifies this
      ensures State() == old(State()).(chartConfig := WithColors(old(chartConfig), colors))
    {
      chartConfig := WithColors(chartConfig, colors);
    }

    /** The start screen's tabs (`onValueChange={setActiveTab}`). */
    method SwitchTab(tab: Tab)
      modifies this
      ensures State() == old(State()).(activeTab := tab)
    {
      activeTab := tab;
    }
  }
}
