/**
 * The backend's CSV upload endpoint and its sample datasets. The CSV parser,
 * UTF-8 decoding and the database insert are foreign code: their outcomes are
 * parameters of the model.
 */
module Server {
  import opened Wrappers
  import opened JsValues

  /** What the CSV parser yields: the header in order and one record per data line. */
  datatype Table = Table(columns: seq<string>, rows: seq<Row>)

  /** An `HTTPException`: a status code and a detail message. */
  datatype HttpError = HttpError(status: nat, detail: string)

  /** The JSON body of a successful upload. */
  datatype UploadResponse = UploadResponse(
    id: string,
    filename: string,
    columns: seq<string>,
    rowCount: nat,
    sampleData: seq<Row>)

  /** One entry of the sample-data listing. */
  datatype SampleDataset = SampleDataset(
    name: string,
    filename: string,
    data: seq<Row>,
    columns: seq<string>)

  const CsvSuffix := ".csv"
  const ErrorPrefix := "Error processing CSV: "
  const NotCsvDetail := "File must be a CSV"
  const SampleSize := 5

  predicate EndsWith(s: string, suffix: string) {
    |suffix| <= |s| && s[|s| - |suffix|..] == suffix
  }

  function Min(a: nat, b: nat): nat {
    if a <= b then a else b
  }

  /** `str(e)` of an `HTTPException`, as Starlette renders it: "<status>: <detail>". */
  function ExceptionText(e: HttpError): (t: string)
    ensures |t| >= |e.detail| + 3
    ensures t[|t| - |e.detail|..] == e.detail
    ensures t[|t| - |e.detail| - 2..|t| - |e.detail|] == ": "
    ensures forall k :: 0 <= k < |t| - |e.detail| - 2 ==> '0' <= t[k] <= '9'
  {
    NatToString(e.status) + ": " + e.detail
  }

  /** The handler's `except` clause: every failure becomes a 400 carrying the message. */
  function Wrapped(message: string): (e: HttpError)
    ensures e.status == 400
    ensures ErrorPrefix <= e.detail && e.detail[|ErrorPrefix|..] == message
  {
    HttpError(400, ErrorPrefix + message)
  }

  /** `data[:5] if data else []`. */
  function SamplePrefix(rows: seq<Row>): (sample: seq<Row>)
    ensures |sample| == Min(SampleSize, |rows|)
    ensures sample <= rows
    ensures |rows| <= SampleSize ==> sample == rows
  {
    if rows == [] then [] else rows[..Min(SampleSize, |rows|)]
  }

  /**
   * `upload_csv`. `decoded` is the outcome of reading the body and decoding it
   * as UTF-8, `readCsv` the parser (with `fillna("")` and the record
   * conversion), `inserted` the outcome of the database insert (the new id, or
   * the driver's error message).
   */
  function UploadCsv(
    filename: string,
    decoded: Result<string, string>,
    readCsv: string -> Result<Table, string>,
    inserted: Result<string, string>): (r: Result<UploadResponse, HttpError>)
    ensures !EndsWith(filename, CsvSuffix) ==>
              r == Err(Wrapped(ExceptionText(HttpError(400, NotCsvDetail))))
    ensures r.Err? ==> r.error.status == 400 && ErrorPrefix <= r.error.detail
    ensures r.Ok? <==>
              && EndsWith(filename, CsvSuffix)
              && decoded.Ok?
              && readCsv(decoded.value).Ok?
              && inserted.Ok?
    ensures r.Ok? ==>
              var table := readCsv(decoded.value).value;
              && r.value.id == inserted.value
              && r.value.filename == filename
              && r.value.columns == table.columns
              && r.value.rowCount == |table.rows|
              && r.value.sampleData <= table.rows
              && |r.value.sampleData| == Min(SampleSize, |table.rows|)
  {
    if !EndsWith(filename, CsvSuffix) then
      Err(Wrapped(ExceptionText(HttpError(400, NotCsvDetail))))
    else if decoded.Err? then
      Err(Wrapped(decoded.error))
    else
      match readCsv(decoded.value)
      case Err(message) => Err(Wrapped(message))
      case Ok(table) =>
        match inserted
        case Err(message) => Err(Wrapped(message))
        case Ok(id) =>
          Ok(UploadResponse(id, filename, table.columns, |table.rows|, SamplePrefix(table.rows)))
  }

  /** A parse or decode failure is never a success, whatever the other outcomes. */
  lemma ParseFailureIsRejected(
    filename: string,
    decoded: Result<string, string>,
    readCsv: string -> Result<Table, string>,
    inserted: Result<string, string>)
    requires decoded.Err? || readCsv(decoded.value).Err?
    ensures UploadCsv(filename, decoded, readCsv, inserted).Err?
    ensures UploadCsv(filename, decoded, readCsv, inserted).error.status == 400
  {
  }

  /** The sample-data listing, field for field. */
  function SampleDatasets(): (ds: seq<SampleDataset>)
    ensures |ds| == 3
    ensures forall i :: 0 <= i < |ds| ==> EndsWith(ds[i].filename, CsvSuffix) && ds[i].name != ""
  {
    [SalesSample(), TemperatureSample(), AnalyticsSample()]
  }

  function SalesSample(): SampleDataset {
    SampleDataset(
      "Sales Data", "sales_sample.csv",
      [ SalesRow("Jan", 4000, 2400, 1600),
        SalesRow("Feb", 3000, 1398, 1602),
        SalesRow("Mar", 2000, 9800, 2000),
        SalesRow("Apr", 2780, 3908, 1800),
        SalesRow("May", 1890, 4800, 1500),
        SalesRow("Jun", 2390, 3800, 1700) ],
      ["Month", "Sales", "Profit", "Expenses"])
  }

  function TemperatureSample(): SampleDataset {
    SampleDataset(
      "Temperature Data", "temperature_sample.csv",
      [ TemperatureRow("New York", 32, 35, 45, 55, 65),
        TemperatureRow("Los Angeles", 60, 62, 65, 68, 72),
        TemperatureRow("Chicago", 25, 28, 38, 50, 62),
        TemperatureRow("Miami", 70, 72, 75, 78, 82) ],
      ["City", "Jan", "Feb", "Mar", "Apr", "May"])
  }

  function AnalyticsSample(): SampleDataset {
    SampleDataset(
      "Website Analytics", "analytics_sample.csv",
      [ AnalyticsRow("Home", 15000, 35, 120),
        AnalyticsRow("About", 8500, 42, 90),
        AnalyticsRow("Products", 12000, 28, 180),
        AnalyticsRow("Contact", 3500, 55, 60),
        AnalyticsRow("Blog", 6200, 38, 210) ],
      ["Page", "Views", "Bounce Rate", "Time on Page"])
  }

  function SalesRow(month: string, sales: int, profit: int, expenses: int): (row: Row)
    ensures Keys(row) == ["Month", "Sales", "Profit", "Expenses"]
  {
    [Field("Month", Text(month)), Field("Sales", Num(sales)), Field("Profit", Num(profit)),
     Field("Expenses", Num(expenses))]
  }

  function TemperatureRow(city: string, jan: int, feb: int, mar: int, apr: int, may: int): (row: Row)
    ensures Keys(row) == ["City", "Jan", "Feb", "Mar", "Apr", "May"]
  {
    [Field("City", Text(city)), Field("Jan", Num(jan)), Field("Feb", Num(feb)), Field("Mar", Num(mar)),
     Field("Apr", Num(apr)), Field("May", Num(may))]
  }

  function AnalyticsRow(page: string, views: int, bounceRate: int, timeOnPage: int): (row: Row)
    ensures Keys(row) == ["Page", "Views", "Bounce Rate", "Time on Page"]
  {
    [Field("Page", Text(page)), Field("Views", Num(views)), Field("Bounce Rate", Num(bounceRate)),
     Field("Time on Page", Num(timeOnPage))]
  }

  /** Every row of every sample lists exactly its dataset's columns, in column order. */
  predicate WellShaped(d: SampleDataset) {
    forall row :: row in d.data ==> Keys(row) == d.columns
  }

  /**
   * There are exactly three samples, each well shaped, with at least two
   * columns and at least one row, and with distinct names.
   */
  lemma SampleDatasetsShape()
    ensures |SampleDatasets()| == 3
    ensures forall d :: d in SampleDatasets() ==>
              WellShaped(d) && |d.columns| >= 2 && d.columns[0] != "" && d.columns[1] != "" && |d.data| > 0
    ensures forall i, j :: 0 <= i < j < |SampleDatasets()| ==> SampleDatasets()[i].name != SampleDatasets()[j].name
  {
    SamplesWellShaped();
  }

  lemma SamplesWellShaped()
    ensures WellShaped(SalesSample()) && |SalesSample().data| > 0
    ensures WellShaped(TemperatureSample()) && |TemperatureSample().data| > 0
    ensures WellShaped(AnalyticsSample()) && |AnalyticsSample().data| > 0
  {
    assert WellShaped(SalesSample());
    assert WellShaped(TemperatureSample());
    assert WellShaped(AnalyticsSample());
  }
}
