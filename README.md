# Data visualization playground: a verified model

The playground is a single-page app. A user uploads a CSV file, or picks one of the backend's sample datasets. They then choose a chart type, the two axes, a title and colours, and see the chart. This project models the app's own logic in Dafny:

- **Colour policy.** `getColor` picks the explicit colour or the 10-entry fallback palette. The colour panel has five named 5-colour schemes, single-key colour edits, the list of editable keys, and a rule for when the panel is hidden (`ColorCustomization` in `color_customization.dfy`, `ChartDisplay.GetColor` in `chart_display.dfy`).
- **Chart dispatch.** `renderChart` is a total function from the data (present or not) and the config to an abstract `Chart`. The result is nothing, the placeholder, a bar, line or area chart with its optional series, pie slices, or a scatter, each with its colour. The module also covers the heading, the point count and the export file name (`ChartDisplay`).
- **Workflow state.** The playground's five state fields (`data`, `columns`, `chartConfig`, `isLoading`, `activeTab`) are fields of the class `Playground.Playground`. Each handler is a method. It is proved equal to a pure transition on the `UiState` snapshot, and the properties are lemmas about those transitions (`playground.dfy`).
- **Upload endpoint.** `upload_csv` checks the `.csv` suffix, wraps every error into a 400, and shapes the response (`row_count`, the 5-row `sample_data`). `get_sample_data` returns a constant listing (`Server` in `server.py`'s model, `server.dfy`).

JavaScript semantics are written out in `JsValues` (`values.dfy`):
- Cells are strings, integers, booleans (a True/False column as the CSV parser reads it) or `undefined`.
- Truthiness: `""`, `0`, `false` and `undefined` are falsy.
- Property access `row[key]` is `undefined` when the key is missing.
- A value used as an object key is coerced to a string. A number becomes its decimal digits, a boolean `"true"` or `"false"`, and `undefined` becomes `"undefined"`.
- Rows are ordered lists of fields, as JS objects and Python dicts keep insertion order.

The CSV parser, UTF-8 decoding, the database insert and the HTTP round trip are foreign code. Their outcomes are parameters:
- `Server.UploadCsv` takes the decode outcome, the parser as a function, and the insert outcome.
- `Playground.Playground.HandleFileUpload` takes the chosen file name (if any) and an `UploadReply`. The reply is either the server's result or a network failure.

Three behaviours of the code worth knowing:
- With no data, or no x axis, `renderChart` returns `null` for every chart type (`NoChart`). The placeholder appears only for an unknown chart type.
- A named scheme rebuilds the colour map from nothing, so every earlier colour is dropped. In pie mode row `i` gets `scheme[i % 5]` and a later duplicate key wins. Otherwise only the y series gets `scheme[0]`.
- After an upload the chart holds only the response's `sample_data`, which is at most the first five parsed rows (`Playground.UploadThroughServer`).

`str()` of FastAPI's `HTTPException` is modelled as Starlette renders it, `"<status>: <detail>"`. Because the suffix check's `raise` sits inside the `try`, a non-CSV name is answered with the detail `"Error processing CSV: 400: File must be a CSV"`.

## Model

| member | source | states |
|---|---|---|
| `JsValues.Get` | frontend/src/components/ChartDisplay.jsx:148 | `row[key]` is the value of the first field named `key`, and `undefined` when no field has that name |
| `JsValues.ToKey` | frontend/src/components/ColorCustomization.jsx:38-39 | A value used as an object key: a string is itself, a boolean is `"true"`/`"false"`, `undefined` is `"undefined"` |
| `JsValues.FalsyValues` | frontend/src/components/ColorCustomization.jsx:50 | `Truthy` (the test of `filter(Boolean)`, `colors[key] &&`, `config.yAxis &&`) fails for exactly `undefined`, `""`, `0` and `false` |
| `ChartDisplay.GetColor` | frontend/src/components/ChartDisplay.jsx:39-42 | The explicit colour when it is present and non-empty, otherwise `DEFAULT_COLORS[index mod 10]`; always an explicit colour or a palette entry |
| `ChartDisplay.GetColorCycles` | frontend/src/components/ChartDisplay.jsx:41 | The result depends on the index only modulo the palette length |
| `ChartDisplay.FallbackColorsDiffer` | frontend/src/components/ChartDisplay.jsx:9-12 | Keys without an explicit colour, at indices in different positions of the cycle, get different colours |
| `ChartDisplay.CartesianSeries` | frontend/src/components/ChartDisplay.jsx:71-77 | A series is drawn exactly when `yAxis` is non-empty; it plots `yAxis` coloured `getColor(0, yAxis)` |
| `ChartDisplay.SecondKey` | frontend/src/components/ChartDisplay.jsx:149 | `Object.keys(item)[1]` as a property key: the second key, or `"undefined"` for a row with fewer than two properties |
| `ChartDisplay.SliceValueCell` | frontend/src/components/ChartDisplay.jsx:149 | The slice value comes from the y field if truthy, else from `row[Object.keys(row)[1]]` if truthy, else from 0 |
| `ChartDisplay.OneColumnRowReadsUndefinedKey` | frontend/src/components/ChartDisplay.jsx:149 | A one-property row whose key is `"undefined"` gives its own truthy value to the slice, through the `undefined` key coercion |
| `ChartDisplay.PieSlices` | frontend/src/components/ChartDisplay.jsx:147-151 | One slice per row, slice `i` built from row `i` with palette index `i` |
| `ChartDisplay.RenderChart` | frontend/src/components/ChartDisplay.jsx:44-217 | No chart when data is absent or `xAxis` is empty; the placeholder exactly when data and x axis are present and the type is none of the five |
| `ChartDisplay.ChartDrawnIff` | frontend/src/components/ChartDisplay.jsx:45-216 | A chart is drawn exactly when data is present, `xAxis` is set and the type is one of bar/line/area/pie/scatter |
| `ChartDisplay.BarAndLineSeries` | frontend/src/components/ChartDisplay.jsx:55-109 | Bar and line charts plot all rows on `xAxis` and draw the y series, coloured `getColor(0, yAxis)`, exactly when `yAxis` is set |
| `ChartDisplay.AreaSeries` | frontend/src/components/ChartDisplay.jsx:111-144 | The area gradient always uses `getColor(0, yAxis)`; the area series is drawn exactly when `yAxis` is set, in that colour |
| `ChartDisplay.PieSlicesPerRow` | frontend/src/components/ChartDisplay.jsx:146-151 | Exactly one slice per row, in row order: slice `i` is named `row[xAxis]` and filled `getColor(i, row[xAxis])` |
| `ChartDisplay.ScatterAlwaysDrawn` | frontend/src/components/ChartDisplay.jsx:180-213 | Scatter always draws all rows coloured `getColor(0, yAxis)`, even when `yAxis` is empty |
| `ChartDisplay.RenderedColorsComeFromConfigOrPalette` | frontend/src/components/ChartDisplay.jsx:39-42 | Every colour of every rendered chart is an explicit config colour or a default-palette entry |
| `ChartDisplay.Display` | frontend/src/components/ChartDisplay.jsx:220-235 | A heading exactly when the title is non-empty; "Showing N data points" exactly when data is present, with N its row count |
| `ChartDisplay.ExportFileName` | frontend/src/components/ChartDisplay.jsx:29 | The image name ends in ".png" after the title, or is "chart.png" when the title is empty |
| `ColorCustomization.SchemeColors` | frontend/src/components/ColorCustomization.jsx:13-19 | Every named scheme has exactly five colours, none empty |
| `ColorCustomization.OfferedSwatchesAreDefaultPalette` | frontend/src/components/ColorCustomization.jsx:111 | The ten swatches offered per key are exactly the renderer's fallback palette |
| `ColorCustomization.HandleColorChange` | frontend/src/components/ColorCustomization.jsx:22-30 | The key (coerced to a property key) maps to the new colour; the key set grows by that key only; every other key is unchanged |
| `ColorCustomization.ColorChangeLastWins` | frontend/src/components/ColorCustomization.jsx:22-30 | Two changes of the same key equal the later change alone |
| `ColorCustomization.ColorChangeReachesChart` | frontend/src/components/ColorCustomization.jsx:22-30 | After a non-empty custom colour for the y series, bar, line and scatter charts draw exactly that colour |
| `ColorCustomization.PickerValue` | frontend/src/components/ColorCustomization.jsx:106 | The picker shows the key's colour if set, otherwise `#8884d8` |
| `ColorCustomization.LastIndex` | frontend/src/components/ColorCustomization.jsx:36-40 | The last row whose x value has the given key, or -1 exactly when no row has it |
| `ColorCustomization.PieColoringSpec` | frontend/src/components/ColorCustomization.jsx:36-40 | The pie colouring's key set is the set of `row[xAxis]` keys, and each key maps to `scheme[i mod 5]` for the last row index `i` carrying it |
| `ColorCustomization.PieColoring` | frontend/src/components/ColorCustomization.jsx:36-40 | The `forEach` loop's map after a prefix of the rows: empty for no rows, and every colour is a palette entry |
| `ColorCustomization.SchemeColoring` | frontend/src/components/ColorCustomization.jsx:32-46 | Outside pie-with-data mode the only key is `yAxis` (when set), coloured `scheme[0]`; every colour is from the scheme |
| `ColorCustomization.ApplyColorScheme` | frontend/src/components/ColorCustomization.jsx:32-46 | The loop's result is the scheme colouring: for pie with data, keys are the row keys; otherwise `{yAxis: scheme[0]}` when `yAxis` is set, else empty; all colours come from the scheme |
| `ColorCustomization.SchemeReplacesColors` | frontend/src/components/ColorCustomization.jsx:34 | The new colour map does not depend on the previous colours; each key is a derived one (row key in pie mode, else `yAxis`) |
| `ColorCustomization.SchemeThenPie` | frontend/src/components/ColorCustomization.jsx:36-40 | After a scheme is applied in pie mode, slice `i` is filled with the scheme colour of the last row carrying its key, at an index no earlier than `i` |
| `ColorCustomization.SchemeThenBar` | frontend/src/components/ColorCustomization.jsx:41-43 | After a scheme is applied to a bar chart with a y axis, its series takes the scheme's first colour |
| `ColorCustomization.TruthyXValues` | frontend/src/components/ColorCustomization.jsx:50 | The filtered x values are all truthy and no more than the rows |
| `ColorCustomization.TruthyXValuesAppend` | frontend/src/components/ColorCustomization.jsx:50 | Filtering distributes over concatenation of row lists, so row order is kept |
| `ColorCustomization.TruthyXValuesCount` | frontend/src/components/ColorCustomization.jsx:50 | Each truthy x value occurs as often as among the rows (duplicates kept); falsy values never occur |
| `ColorCustomization.GetColorKeys` | frontend/src/components/ColorCustomization.jsx:48-55 | Pie with data: the truthy row x values; otherwise `[yAxis]` when set, else `[]` |
| `ColorCustomization.PanelShown` | frontend/src/components/ColorCustomization.jsx:57-61 | The panel can render only in pie-with-data mode or with `yAxis` set; outside pie-with-data mode it renders exactly when `yAxis` is set |
| `ColorCustomization.PanelHiddenIff` | frontend/src/components/ColorCustomization.jsx:57-61 | The panel renders nothing exactly when no row has a truthy x value (pie with data) or `yAxis` is empty (otherwise) |
| `Server.Wrapped` | backend/server.py:102-103 | Every caught error becomes status 400 with detail "Error processing CSV: " followed by the message |
| `Server.SamplePrefix` | backend/server.py:100 | `sample_data` is the prefix of the rows of length min(5, n) |
| `Server.UploadCsv` | backend/server.py:72-103 | A name not ending in ".csv" gets the re-wrapped 400; every error is a 400 with the prefix; success exactly when suffix, decoding, parsing and insert all succeed; then `columns` and `filename` are echoed, `row_count` is the row count and `sample_data` the 5-row prefix |
| `Server.ParseFailureIsRejected` | backend/server.py:78-79 | A decode or parse failure yields a 400, never a success |
| `Server.SampleDatasets` | backend/server.py:115-155 | Three datasets, each with a non-empty name and a `.csv` file name |
| `Server.SampleDatasetsShape` | backend/server.py:115-155 | Exactly three datasets with distinct names, each with at least two non-empty leading columns and one row, every row's keys exactly its columns in order |
| `Server.ExceptionText` | backend/server.py:76-103 | `str()` of the suffix check's `HTTPException`: the status digits, `": "`, then the detail |
| `Playground.Initial` | frontend/src/components/DataVisualizationPlayground.jsx:27-37 | No data, no columns, config `{bar, '', '', '', {}}`, not loading, upload tab |
| `Playground.ChartTypeIdsAreRendered` | frontend/src/components/DataVisualizationPlayground.jsx:18-24 | Every type a chart-type button sets is one the renderer draws |
| `Playground.RemoveFirstNoMatch` | frontend/src/components/DataVisualizationPlayground.jsx:63 | Removing a pattern that does not occur leaves the string unchanged |
| `Playground.RemoveFirstAt` | frontend/src/components/DataVisualizationPlayground.jsx:63 | `replace('.csv', '')` removes exactly the first occurrence |
| `Playground.SpaceSeparators` | frontend/src/components/DataVisualizationPlayground.jsx:63 | Same length; each '_' and '-' becomes a space and every other character is kept |
| `Playground.RemoveFirst` | frontend/src/components/DataVisualizationPlayground.jsx:63 | `replace` with a string pattern removes at most one pattern's length |
| `Playground.TitleFromFileName` | frontend/src/components/DataVisualizationPlayground.jsx:63 | The title is the name, or the name short by at most the length of ".csv" |
| `Playground.TitleHasNoSeparators` | frontend/src/components/DataVisualizationPlayground.jsx:63 | An upload title contains no '_' and no '-' |
| `Playground.TitleWithoutCsv` | frontend/src/components/DataVisualizationPlayground.jsx:63 | Without ".csv" in the name the title has the name's length |
| `Playground.TitleWithCsv` | frontend/src/components/DataVisualizationPlayground.jsx:63 | With ".csv" in the name only its first occurrence is removed, so the title is four characters shorter |
| `Playground.TitleExample` | frontend/src/components/DataVisualizationPlayground.jsx:63 | "my_data-1.csv" gets the title "my data 1" |
| `Playground.SettersKeepOtherFields` | frontend/src/components/DataVisualizationPlayground.jsx:205-277 | Each config setter (type, x axis, y axis, title, colours) sets its own field and leaves the other four unchanged |
| `Playground.WithDataset` | frontend/src/components/DataVisualizationPlayground.jsx:59-64 | x axis is `columns[0]` or '', y axis `columns[1]` or '', the title as given; type and colours kept |
| `Playground.YAxisOptions` | frontend/src/components/DataVisualizationPlayground.jsx:246 | A column is offered for the y axis exactly when it is a column other than the current x axis |
| `Playground.YAxisOptionsAppend` | frontend/src/components/DataVisualizationPlayground.jsx:246 | The options keep the columns' order |
| `Playground.YAxisSelectHiddenExactlyForPie` | frontend/src/components/DataVisualizationPlayground.jsx:235-254 | For the button types, the Y-axis select is hidden exactly when the chart is a pie, whose slice values still read the hidden `yAxis` |
| `Playground.UploadStarted` | frontend/src/components/DataVisualizationPlayground.jsx:45 | The loading flag is set, and no other field changes |
| `Playground.UploadFinished` | frontend/src/components/DataVisualizationPlayground.jsx:56-71 | The loading flag is cleared; a failed reply changes nothing else; a successful one loads the sample rows, the columns and the derived title, keeps the chart type and opens the workspace tab |
| `Playground.FileUploaded` | frontend/src/components/DataVisualizationPlayground.jsx:41-72 | Without a file nothing changes; with one the result is the finished upload and the loading flag is down |
| `Playground.SampleSelected` | frontend/src/components/DataVisualizationPlayground.jsx:74-84 | The workspace shows the sample's rows and columns under its name, with the chart type and the loading flag kept |
| `Playground.Reset` | frontend/src/components/DataVisualizationPlayground.jsx:92-106 | The initial state except for the loading flag, and the workspace is closed |
| `Playground.UploadWithoutFileChangesNothing` | frontend/src/components/DataVisualizationPlayground.jsx:42-43 | An upload event without a file changes no state |
| `Playground.UploadFailureKeepsState` | frontend/src/components/DataVisualizationPlayground.jsx:66-71 | A failed upload (server error or network failure) leaves data, columns, config and tab unchanged and clears the loading flag |
| `Playground.UploadSuccessLoadsDataset` | frontend/src/components/DataVisualizationPlayground.jsx:56-65 | A successful upload sets columns and data from the response, the axes from the first two columns, the title from the file name, keeps type and colours, opens the configure tab and clears loading |
| `Playground.UploadThroughServer` | frontend/src/components/DataVisualizationPlayground.jsx:56-58 | Through the backend: a rejected upload (e.g. a non-".csv" name) changes only the loading flag; an accepted one shows the parsed columns and at most the first five parsed rows |
| `Playground.SampleSelectionLoadsDataset` | frontend/src/components/DataVisualizationPlayground.jsx:74-84 | Sample selection sets data and columns, the axes from the first two columns, the title to the sample name, keeps type and colours, opens the configure tab |
| `Playground.SampleFromStartDrawsBarChart` | frontend/src/components/DataVisualizationPlayground.jsx:74-84 | From the initial state every listed sample yields a bar chart on its first column with its second column drawn |
| `Playground.SalesSampleAxes` | backend/server.py:119-130 | Selecting "Sales Data" plots Sales against Month under that title |
| `Playground.ResetRestoresInitial` | frontend/src/components/DataVisualizationPlayground.jsx:92-106 | Reset gives the initial state with the loading flag untouched, is idempotent, and closes the workspace |
| `Playground.WorkflowRoundTrip` | frontend/src/components/DataVisualizationPlayground.jsx:139 | From the start, a sample or a successful upload opens the workspace; reset after either returns exactly to the initial state |
| `Playground.Playground.constructor` | frontend/src/components/DataVisualizationPlayground.jsx:27-37 | The component starts in the initial state |
| `Playground.Playground.StartUpload` | frontend/src/components/DataVisualizationPlayground.jsx:45 | The loading flag goes up, and nothing else changes |
| `Playground.Playground.FinishUpload` | frontend/src/components/DataVisualizationPlayground.jsx:56-71 | The new state is the upload transition of the old state and the reply |
| `Playground.Playground.HandleFileUpload` | frontend/src/components/DataVisualizationPlayground.jsx:41-72 | The new state is the whole upload transition, which is the identity without a file |
| `Playground.Playground.HandleSampleDataSelect` | frontend/src/components/DataVisualizationPlayground.jsx:74-84 | The new state is the sample-selection transition of the old state |
| `Playground.Playground.ResetData` | frontend/src/components/DataVisualizationPlayground.jsx:92-106 | The new state is the reset transition of the old state |
| `Playground.Playground.SelectChartType` | frontend/src/components/DataVisualizationPlayground.jsx:205 | Only the config's type changes |
| `Playground.Playground.SelectXAxis` | frontend/src/components/DataVisualizationPlayground.jsx:220 | Only the config's x axis changes |
| `Playground.Playground.SelectYAxis` | frontend/src/components/DataVisualizationPlayground.jsx:240 | Only the config's y axis changes |
| `Playground.Playground.EditTitle` | frontend/src/components/DataVisualizationPlayground.jsx:261 | Only the config's title changes |
| `Playground.Playground.ChangeColors` | frontend/src/components/DataVisualizationPlayground.jsx:277 | Only the config's colours change |
| `Playground.Playground.SwitchTab` | frontend/src/components/DataVisualizationPlayground.jsx:140 | Only the active tab changes |

## Left out

- Image export (`saveAsImage`: html2canvas, the DOM link, the click and the error alert) is browser side effects through a foreign library. Only the file-name rule is modelled (`ChartDisplay.ExportFileName`).
- `ChartDisplay.SliceValueCell`: the model gives the cell the pie value is read from, not the value itself. `parseFloat` and JS number coercion are floating point.
- Recharts layout, margins, sizes, styles, tooltips, legends and the rest of the JSX presentation. This is a foreign library and only visual.
- The axios requests are network I/O. Their outcomes are inputs (`UploadReply`), and the console logging and the blocking alert on failure are not modelled.
- SampleDataSelector.jsx is a fetch plus display slicing. Its only effect on the model is the dataset it hands to `HandleSampleDataSelect`.
- App.js, which only sets up routing.
- Other backend parts are foreign libraries and persistence I/O:
  - `pd.read_csv`, `fillna("")` and `to_dict('records')` are the `readCsv` parameter; UTF-8 decoding of the body is the `decoded` parameter.
  - The MongoDB insert is the `inserted` parameter, including the `chart_data.id` assignment.
  - The `/status` endpoints, `get_chart_data`, CORS, logging and the shutdown hook are not modelled.
- backend/test_api.py holds integration tests against a live server and has no logic.
- Cell numbers are integers only. Fractional values, `NaN` and their string form as object keys are floating point. JSON `null` cells cannot occur, because the backend fills missing values with `""`.
- JS object-key details are not modelled:
  - Inherited prototype properties (a key such as "constructor" reads as truthy in `colors[key]`).
  - The special key "__proto__".
  - `Object.keys` listing integer-like keys first. Rows keep insertion order.
- The hidden file input's value reset in `resetData` is DOM state.
- Concurrent handler runs: an upload is modelled as two steps, `StartUpload` then `FinishUpload`. Other events may fall between the two, in whatever order a caller applies them, but no interleaving is modelled beyond "last update wins".
- pydantic validation of `ChartData` cannot fail on the parser's output in the model.
- `str(HTTPException)` follows Starlette's `"<status>: <detail>"` rendering. Other library versions may render it differently.
