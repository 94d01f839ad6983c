# IoT Phone Sensor Dashboard, modelled in Dafny

The system has two halves.

- **The logger** runs on the phone. It lists the device's sensors and maps each canonical sensor group of its table (`SPECS`) to the first device sensor whose name matches. It then samples the sensors in a loop. Each sample becomes one row holding a timestamp and one column per group and axis. The row goes into a streaming window of the last 150 samples and, as a CSV line, into a write batch of 20 lines. From the window it builds the columnar payload the dashboard receives: the timestamps, `sensors[group][AXIS]` and the last two rows.
- **The dashboard** runs in the browser. It keeps its preferences in `localStorage`: the selected sensor, the pinned sensors, and each sensor's view and axis filter. On every pushed snapshot it decides between re-plotting in place and rebuilding the chart area, pinned sensors first. It shows each sensor as a combined graph or one graph per axis, filtered by axis. It also exports the snapshot as CSV text.

The project has one module per concern.

| file | module | what it holds |
|---|---|---|
| `wrappers.dfy` | `Wrappers` | `Option` |
| `text.dfy` | `Text` | ASCII case mapping, Python `strip`/`splitlines`, `startswith`, `in`, `split` at the first separator, `join` |
| `dicts.dfy` | `Dicts` | insertion-ordered dictionaries (Python `dict`, JavaScript object) and duplicate-free lists |
| `json.dfy` | `Json` | `JSON.stringify` of a string array and its parser, with the round trip |
| `snapshot.dfy` | `Snapshots` | rows, payloads, snapshots, messages |
| `logger.dfy` | `Logger` | `scripts/logger.py`: the sensor table, `pad`, `normalize`, matching, one sampler tick (a `Sampler` class), the payload |
| `state.dfy` | `State` | `app/static/state.js`: the `state` object (an `AppState` class with `localStorage` as a map field) |
| `utils.dfy` | `Utils` | `app/static/utils.js`: trend arrow, icons, `isValidSensor`, export CSV text, scroll flags, the loader attribute |
| `charts.dfy` | `Charts` | `app/static/charts.js`: the chart area (a `ChartArea` class holding one container per sensor, each with its plot divs) |
| `app.dfy` | `App` | `app/static/app.js`: the render reconciler (a `Dashboard` class), the `firstLoad`/loader machine, the listeners |

Each loop of the source is a method with loop invariants, proved against a function that specifies it. Objects whose fields change become classes whose methods state their whole new state. The properties are lemmas about the specifying functions.

Two behaviours of the page are easy to miss:
- `plotSensor` (app/static/charts.js:52-56) removes the container of a sensor that stopped rendering, and it does so on the cheap path too, when the render signature is unchanged. `Charts.PlotEffect` and `App.Dashboard.RenderGraphsIfNeeded` model that removal.
- `onerror` (app/static/app.js:122-128) shows the loader but never sets `firstLoad` back to true. So the first message after a reconnection neither renders in full nor hides the loader. `App.Dashboard.OnMessage` models the handler as written; see Findings.

## Model

| member | source | states |
|---|---|---|
| Logger.BuildColumnNames | scripts/logger.py:41-44 | the loop builds `"timestamp"` followed by `group_axis` for every group and axis of the table, in order |
| Logger.HeaderDistinct | scripts/logger.py:41-44 | the header of a well-formed table names each column once |
| Logger.Pad | scripts/logger.py:119-123 | exactly `n` items: item `j` is `vals[j]` when `j < |vals|`, else 0 |
| Logger.Normalize | scripts/logger.py:125-156 | the axis returned is always upper-cased |
| Logger.NormalizeWithoutUnderscore | scripts/logger.py:126-129 | a column without `_` keeps its whole text as the group part and gets axis `X` |
| Logger.NormalizeSplitsAtFirstUnderscore | scripts/logger.py:126-127 | `group_axis` with no `_` in the group splits into the canonical group and the upper-cased axis, even when the axis holds `_` |
| Logger.FirstPrefixFinds | scripts/logger.py:131-154 | the prefix chain finds a prefix iff one of the known prefixes starts the name, and what it finds is such a prefix |
| Logger.CanonicalIsPrefix | scripts/logger.py:131-156 | the canonical group is the name itself or a known prefix of it, and the name itself when no known prefix matches |
| Logger.NormalizeColumn | scripts/logger.py:125-156 | every column of a well-formed table normalizes back to its group and its upper-cased axis |
| Logger.SpecColumnsRoundTrip | scripts/logger.py:24-44 | every column of the logger's own table normalizes back to `(group, AXIS)` |
| Logger.NormalizeInjective | scripts/logger.py:125-156 | two columns of a well-formed table never normalize to the same pair |
| Logger.FirstMatching | scripts/logger.py:95-97 | the index found is within the sensor list |
| Logger.FirstMatchingMeans | scripts/logger.py:95-97 | the index is that of the first sensor whose lower-cased name contains the lower-cased term; none iff no sensor does |
| Logger.MatchSensorMeans | scripts/logger.py:93-98 | the match is the first sensor, in list order, for the first term that occurs in any sensor; None iff no term occurs in any sensor |
| Logger.FindMatch | scripts/logger.py:93-98 | the nested loops with their early return give `MatchSensor`, whose meaning `MatchSensorMeans` states |
| Logger.BuildMapping | scripts/logger.py:100-104 | the mapping's keys are exactly the table's groups in table order, and each maps to `match_sensor` of its candidates |
| Logger.MappingDomain | scripts/logger.py:100-104 | the mapping's entries are exactly its listed keys |
| Logger.MappingKeys | scripts/logger.py:100-104 | after `n` groups of a table with distinct groups, the mapping lists those `n` groups in order |
| Logger.MappingGets | scripts/logger.py:100-104 | after `n` groups, each group maps to what its entry gives |
| Logger.MappingAllKeys | scripts/logger.py:100-104 | the full mapping's keys are the table's groups |
| Logger.DeviceOf | scripts/logger.py:236-238 | a group has a device iff the mapping holds a non-empty sensor name for it |
| Logger.MatchesAreCalled | scripts/logger.py:219 | every device sensor matched by some group is in the call list |
| Logger.NonBlankLines | scripts/logger.py:82-85 | the lines kept are all non-empty |
| Logger.ListDeviceSensors | scripts/logger.py:72-91 | a failed command gives `[]`; a JSON object with `sensors` gives that list; otherwise one name per non-blank stripped line, in order, the text before the first `:` stripped, never holding `:` |
| Logger.NonBlankLinesStep | scripts/logger.py:82-87 | a blank line adds nothing; a non-blank line adds its stripped text |
| Logger.NameHasNoColon | scripts/logger.py:86 | no sensor name taken from a line holds `:` |
| Logger.CsvLine | scripts/logger.py:232-250 | a row's CSV line has one value per key |
| Logger.CsvLineAppend | scripts/logger.py:249-250 | putting a new key appends its value to the CSV line |
| Logger.PutFirstKeys | scripts/logger.py:247-249 | putting new distinct keys appends them to the key order, and the entries grow by exactly those keys |
| Logger.PutFirstKeeps | scripts/logger.py:247-249 | putting new keys keeps every old entry |
| Logger.PutFirstStores | scripts/logger.py:247-249 | putting distinct keys stores each of their values |
| Logger.PutFirstFresh | scripts/logger.py:247-249 | the next key to put is not yet in the row |
| Logger.PutFirstLine | scripts/logger.py:247-250 | the CSV line grows by the values put, in order |
| Logger.PutColumns | scripts/logger.py:247-249 | the loop leaves the row with each column set to its value, in order |
| Logger.PutGroup | scripts/logger.py:246-250 | one group's columns are appended to the row after the existing keys, old entries are kept, each column holds its value, and the CSV line stays the row's values in key order |
| Logger.PutGroupAll | scripts/logger.py:247-250 | what the inner loop leaves: keys appended, old entries kept, each column holding its value, CSV line extended by the values |
| Logger.PutAll | scripts/logger.py:247-250 | the same for any list of new keys |
| Logger.BuildRow | scripts/logger.py:231-250 | the row is the timestamp followed by each group's padded values under its columns, it is a well-formed dictionary, and the CSV line is index-aligned with it |
| Logger.GroupsStoredStep | scripts/logger.py:235-250 | storing group `n`'s padded values extends what the row holds by that group |
| Logger.NewGroupColumns | scripts/logger.py:41-44 | a group's columns are distinct and new to a row holding the earlier groups' columns |
| Logger.ColumnIn | scripts/logger.py:42-44 | every (group, axis) column is among the table's columns |
| Logger.ColumnOf | scripts/logger.py:42-44 | every column of the table is the column of some group and axis |
| Logger.ColumnKeysDiffer | scripts/logger.py:248 | columns of different groups or different axes have different names |
| Logger.NotTimestamp | scripts/logger.py:233 | no column is named `timestamp` |
| Logger.ColumnsDistinct | scripts/logger.py:41-44 | the columns of a well-formed table are distinct |
| Logger.AddReading | scripts/logger.py:177 | appending to `sensors[s][ax]` extends exactly that series by the value, and keeps every series non-empty |
| Logger.AddRowSeries | scripts/logger.py:167-177 | the loop over one row's keys extends each series by exactly the readings of the keys that feed it |
| Logger.PivotSeries | scripts/logger.py:164-177 | each series of the payload equals the reference readings, row by row, and no series is empty |
| Logger.KeyReadingsNone | scripts/logger.py:167-177 | keys none of which feed a series give it no reading |
| Logger.KeyReadingsSingle | scripts/logger.py:167-177 | when only one key feeds a series, a row gives that series exactly that key's reading |
| Logger.ColumnValues | scripts/logger.py:166-177 | one reading per row |
| Logger.ReadingsNeedAFeeder | scripts/logger.py:166-177 | a series with readings has a key that feeds it |
| Logger.ReadingsOfColumn | scripts/logger.py:166-177 | a series fed by one column holds that column's value in every row |
| Logger.OnlyFeeder | scripts/logger.py:170-172 | in a well-formed header, column `group_axis` is the only key feeding (`group`, `AXIS`) |
| Logger.ColumnSeries | scripts/logger.py:164-177 | the series of column (`k`, `j`) holds that column's value, as a number (0 when not numeric), in every row |
| Logger.FeederIsColumn | scripts/logger.py:170-172 | a header key that feeds a series names that series' group and axis |
| Logger.SeriesHasColumn | scripts/logger.py:164-177 | a series with readings belongs to a column of the table |
| Logger.PivotOfSamples | scripts/logger.py:164-177 | each column becomes series (`group`, `AXIS`) holding that column's value in every row, and no other series exists |
| Logger.SeriesLengths | scripts/logger.py:164-177 | every series has one reading per row of the window |
| Logger.KeptKeysMembers | scripts/logger.py:182-189 | the kept keys are exactly `timestamp` and the keys whose normalized group is an important sensor |
| Logger.AllKept | scripts/logger.py:182-189 | filtering keys that are all kept changes nothing |
| Logger.KeepImportant | scripts/logger.py:182-189 | the loop copies the kept keys, in order, with their values, and nothing else |
| Logger.SamplesKeepAllKeys | scripts/logger.py:182-189 | every key of a sample of a well-formed table is kept |
| Logger.KeptRowIsRow | scripts/logger.py:182-189 | a row whose keys are all kept is copied whole |
| Logger.KeepSample | scripts/logger.py:182-199 | the latest (or previous) sample as the payload keeps it is the sample itself |
| Logger.AddRowReadings | scripts/logger.py:167-177 | the loop over a row's keys gives the specifying row step |
| Logger.PivotRows | scripts/logger.py:166-177 | the loop over the window gives the specifying pivot |
| Logger.PayloadOf | scripts/logger.py:158-206 | an empty window gives the empty payload; otherwise `time` lists each row's timestamp in order, `sensors` is the pivot, `latest_row` is the last row and `previous_row` the one before it, or empty with a single row |
| Logger.LastN | scripts/logger.py:51 | a deque with `maxlen=n` holds at most `n` items: the last ones appended, or all when there are at most `n` |
| Logger.DequeAppend | scripts/logger.py:253 | appending to a full deque drops its oldest item |
| Logger.CsvLines | scripts/logger.py:257 | one CSV line per row |
| Logger.SamplesAppend | scripts/logger.py:253 | recording a well-formed sample with the same keys keeps every sample well formed |
| Logger.CsvLinesAppend | scripts/logger.py:257 | recording a sample adds its line to the CSV lines |
| Logger.PendingLineAppend | scripts/logger.py:257 | the file plus the pending lines keep holding the header and every sample's line |
| Logger.WindowKeys | scripts/logger.py:51 | the window keeps the keys of the samples it holds |
| Logger.RecordKeeps | scripts/logger.py:252-257 | recording a sample keeps the window and the file consistent |
| Logger.Sampler.constructor | scripts/logger.py:46-53 | the file holds the header and both buffers are empty |
| Logger.Sampler.Flush | scripts/logger.py:57-69 | with lines pending and a successful write, they are appended to the file and the buffer empties; otherwise nothing changes |
| Logger.Sampler.Startup | scripts/logger.py:208-222 | no device sensors ends the sampler; a mapping returned has the table's groups with their matches, and a non-empty call list of the matched sensors |
| Logger.Sampler.Tick | scripts/logger.py:224-263 | an empty read records nothing; otherwise the sample enters the window (oldest dropped at 150) and its line the batch, which is flushed at 20 when the write succeeds |
| Logger.Sampler.Record | scripts/logger.py:252-257 | the sample is appended to the window (as a bounded deque) and its line to the batch |
| Logger.Sampler.BuildPayload | scripts/logger.py:158-206 | the payload of the current window, with the contract of `PayloadOf` |
| Logger.UpperAxes | scripts/logger.py:156 | the upper-cased axis names, one per axis |
| Logger.PrefixFreeByHeads | scripts/logger.py:131-154 | prefixes that differ in their first three letters never start one another |
| Logger.FirstPrefixOfMember | scripts/logger.py:131-154 | in a prefix-free list each prefix is its own first match |
| Logger.KnownPrefixesCanonical | scripts/logger.py:131-154 | every known prefix is its own canonical group |
| Logger.KnownPrefixesHaveNoUnderscore | scripts/logger.py:131-154 | no known prefix holds `_` |
| Logger.UpperAxesDistinct | scripts/logger.py:24-38 | axes that differ in length, or are already upper case and differ, stay distinct when upper-cased |
| Logger.SpecsWellFormed | scripts/logger.py:24-38 | the logger's table has distinct groups with canonical, underscore-free names and axes that stay distinct when upper-cased |
| Logger.SpecGroupsWellFormed | scripts/logger.py:24-38 | the table's groups are distinct, underscore-free and canonical |
| Logger.SpecGroupsKnown | scripts/logger.py:24-38 | every group of the table is one of the prefixes `normalize` knows |
| Logger.AxisListDistinct | scripts/logger.py:24-38 | each axis list of the table stays distinct when upper-cased |
| Logger.SpecAxesWellFormed | scripts/logger.py:24-38 | every group's axes stay distinct when upper-cased |
| State.FirstIndex | app/static/state.js:21 | `indexOf`: None iff absent; otherwise the position of the first occurrence |
| State.AppState.constructor | app/static/state.js:2-9 | the selected sensor is the stored one or `"all"`, the pinned list is the stored list or `[]`, the flags are cleared and there is no data |
| State.AppState.SaveSensor | app/static/state.js:11-14 | both `currentSensor` and the `selectedSensor` entry are set; nothing else changes |
| State.AppState.SaveDarkMode | app/static/state.js:16-18 | only the flag changes; nothing is stored |
| State.AppState.TogglePin | app/static/state.js:20-24 | the list is toggled and stored as JSON text that decodes back to it; nothing else changes |
| State.AppState.SaveSensorView | app/static/state.js:26-28 | only the view entry of that sensor changes |
| State.AppState.SaveAxisFilter | app/static/state.js:32-34 | only the axis entry of that sensor changes |
| State.ViewKeyDistinct | app/static/state.js:27 | view keys of different sensors differ, and differ from every axis key and from both fixed keys |
| State.AxisKeyDistinct | app/static/state.js:33 | axis keys of different sensors differ, and differ from both fixed keys |
| State.DefaultSettings | app/static/state.js:29-37 | with nothing stored, the view is `"combined"` and the filter `"all"` |
| State.SaveViewReadBack | app/static/state.js:26-31 | after saving a view the getter returns it (the default for `""`), and every other setting reads as before |
| State.SaveAxisReadBack | app/static/state.js:32-37 | after saving an axis filter the getter returns it (`"all"` for `""`), and every other setting reads as before |
| State.SavedSensorReloads | app/static/state.js:3 | a reload after `saveSensor` starts on that sensor (`"all"` for `""`) |
| State.PinnedReloads | app/static/state.js:8 | a reload after `togglePin` starts with the pinned list it stored |
| State.ToggleUnpinned | app/static/state.js:21-22 | toggling an unpinned sensor appends it and leaves the others unchanged |
| State.TogglePinned | app/static/state.js:21-22 | toggling a pinned sensor splices out its first occurrence and keeps the others in order |
| State.ToggleMembership | app/static/state.js:21-22 | in a duplicate-free list, membership flips for the toggled sensor only |
| State.ToggleDistinct | app/static/state.js:21-22 | toggling keeps the list duplicate-free |
| State.ToggleTwiceUnpinned | app/static/state.js:21-22 | toggling an unpinned sensor twice restores the list exactly |
| State.ToggleTwicePinned | app/static/state.js:21-22 | toggling a pinned sensor twice keeps the members but moves it to the end |
| State.ToggleIsWithout | app/static/state.js:21-22 | in a duplicate-free list, toggling a pinned sensor removes it |
| Json.StringifyRoundTrip | app/static/state.js:23 | `JSON.parse(JSON.stringify(pinned))` gives `pinned` back |
| Json.ParseEscapedChar | app/static/state.js:23 | every escaped character reads back as itself |
| Json.ParseQuoted | app/static/state.js:23 | an escaped string literal reads back as its text |
| Json.ParseStringified | app/static/state.js:23 | the elements of a stringified array read back in order |
| Utils.TrendArrow | app/static/utils.js:23-27 | up iff the reading rose, down iff it fell, right iff it is unchanged |
| Utils.IconFor | app/static/utils.js:18-21 | the icon of the text before the first `_`, or the default icon when that text has none |
| Utils.IconForColumn | app/static/utils.js:18-21 | a column of a group with an icon shows that icon, whatever the axis |
| Utils.AllZero | app/static/utils.js:67 | true iff every reading is 0 |
| Utils.SomeLive | app/static/utils.js:66-68 | true iff some axis has readings that are not all 0 |
| Utils.IsValidSensor | app/static/utils.js:64-69 | missing data and data without axes are not valid |
| Utils.ValidSensorMeans | app/static/utils.js:64-69 | a sensor is valid iff some axis holds a reading other than 0 |
| Utils.SensorPairs | app/static/utils.js:79-81 | every column of a sensor belongs to it |
| Utils.CsvLines | app/static/utils.js:76-89 | one header line plus one line per time entry |
| Utils.BuildHeader | app/static/utils.js:77-81 | the loop gives `time` then `sensor_axis` per sensor and axis, in key order |
| Utils.BuildRow | app/static/utils.js:84-87 | the loop gives the time then each column's reading at that index |
| Utils.ExportCsv | app/static/utils.js:71-96 | no text iff the data or its sensors are missing; otherwise the lines joined by newlines |
| Utils.PairsCount | app/static/utils.js:79-81 | the export has one column per axis of every sensor |
| Utils.AxisCountSnoc | app/static/utils.js:79-81 | one more sensor adds its axes to the column count |
| Utils.RowsMatchHeader | app/static/utils.js:77-89 | the header has 1 + the number of axes fields, every row as many, each field the reading of its column or empty when missing |
| Utils.PairsMembers | app/static/utils.js:79-81 | each column is an axis of one of the sensors |
| Utils.ExampleFields | app/static/utils.js:76-89 | the fields of the example export |
| Utils.ExportExample | app/static/utils.js:76-90 | `time=[0,1]` with `sensors={A:{x:[1,2]}}` gives `"time,A_x\n0,1\n1,2"` |
| Utils.PreserveScrollStart | app/static/utils.js:48-52 | the position is captured unless a restore is under way |
| Utils.PreserveScrollEnd | app/static/utils.js:53-54 | the restoring flag is raised at once |
| Utils.FinishRestore | app/static/utils.js:55-60 | the window returns to the captured position and the flag drops |
| Utils.LoaderNeverShownAsWritten | app/static/utils.js:37-39 | as written, the loader is hidden whatever is asked |
| Utils.LoaderAttribute | app/static/utils.js:37-39 | corrected: the loader is hidden iff it is not asked to show |
| Charts.ShouldRenderMeans | app/static/charts.js:18-22 | a sensor renders iff its lower-cased name holds `light` or `step`, or some axis holds a reading other than 0 |
| Charts.FindId | app/static/charts.js:25 | `getElementById`: the first div with that id; none iff no div has it |
| Charts.FirstWithAxis | app/static/charts.js:176 | the first div whose `data-axis` is the axis; none iff no div has it |
| Charts.FirstVisible | app/static/charts.js:27-29 | the first displayed div; none iff none is displayed |
| Charts.VisiblePlot | app/static/charts.js:24-30 | the combined div when it exists and is displayed; otherwise the first displayed div; none iff no div is displayed |
| Charts.WithDiv | app/static/charts.js:76-83 | a div with that id exists afterwards; it is appended only when absent |
| Charts.Hidden | app/static/charts.js:108 | hiding every div keeps their number |
| Charts.CombinedTraces | app/static/charts.js:85-92 | one trace per axis |
| Charts.Filtered | app/static/charts.js:158-179 | filtering keeps the number of divs |
| Charts.HideAll | app/static/charts.js:108 | the loop hides every div |
| Charts.ShowCombinedPlots | app/static/charts.js:73-110 | the method gives the plot divs the combined view specifies |
| Charts.ShowSeparatePlots | app/static/charts.js:112-156 | the method gives the plot divs the separate view specifies |
| Charts.SeparateFromStep | app/static/charts.js:119-155 | one more axis of the loop is one more `ShowAxis` step |
| Charts.FilterPlots | app/static/charts.js:158-179 | the method gives the plot divs the axis filter specifies |
| Charts.FirstWithAxisIgnoresDisplay | app/static/charts.js:176 | showing or hiding divs does not change which div has the axis |
| Charts.PutOk | app/static/charts.js:183-206 | storing a well-formed container keeps the chart area well formed |
| Charts.ChartArea.constructor | app/static/app.js:38 | `#graphs` starts empty |
| Charts.ChartArea.Clear | app/static/app.js:57 | clearing `#graphs` removes every container |
| Charts.ChartArea.EnsureSensorContainer | app/static/charts.js:183-206 | a new container, with its pin label, goes last; an existing one is kept as it is |
| Charts.ChartArea.CreateSensorToggle | app/static/charts.js:212-293 | the container ends up with exactly one controls block |
| Charts.ChartArea.ShowCombinedGraph | app/static/charts.js:73-110 | only that sensor's plot divs change, to the combined view |
| Charts.ChartArea.ShowSeparateGraphs | app/static/charts.js:112-156 | only that sensor's plot divs change, to the separate view |
| Charts.ChartArea.ApplyAxisFilter | app/static/charts.js:158-179 | without a container nothing changes; otherwise only that sensor's divs are filtered under its saved view |
| Charts.ChartArea.PlotSensor | app/static/charts.js:50-71 | a sensor that should not render loses its container; otherwise it has exactly one container with one controls block, showing its saved view under its saved filter |
| Charts.ChartArea.OnShowCombined | app/static/charts.js:224-230 | the combined view is shown and saved, with the filter back to all axes |
| Charts.ChartArea.OnShowSeparate | app/static/charts.js:235-241 | the separate view is shown and saved, with the filter back to all axes |
| Charts.ChartArea.OnAxisChange | app/static/charts.js:254-258 | the chosen axis is saved, then applied |
| Charts.HiddenKeepsDistinct | app/static/charts.js:108 | hiding keeps ids distinct |
| Charts.WithDivDistinct | app/static/charts.js:76-83 | creating a div only when absent keeps ids distinct |
| Charts.CombinedDistinct | app/static/charts.js:73-110 | the combined view never duplicates an id |
| Charts.CombinedShowsOnlyCombined | app/static/charts.js:73-110 | the combined div is created only if absent, draws one trace per axis, and is the only div displayed and the visible one |
| Charts.SeparateDistinct | app/static/charts.js:112-156 | the separate view never duplicates an id |
| Charts.SeparateKeeps | app/static/charts.js:119-129 | existing divs keep their ids and axes, and every div added is some axis's div with `data-axis` upper-cased |
| Charts.SeparateShowsAxes | app/static/charts.js:119-155 | every axis has its div, displayed and drawing that axis alone |
| Charts.SeparateHidesCombined | app/static/charts.js:115-155 | the combined div ends hidden (unless an axis is itself named `XYZ`) |
| Charts.HideCombinedHides | app/static/charts.js:115-116 | hiding the combined div hides every div with its id |
| Charts.ShowAxisKeepsHidden | app/static/charts.js:119-155 | showing an axis div other than the combined one keeps the combined div hidden |
| Charts.AxisIdInjective | app/static/charts.js:120 | different axes have different div ids |
| Charts.FindIdStable | app/static/charts.js:82 | appending divs keeps the first div of an existing id |
| Charts.FindIdUpdate | app/static/charts.js:148-154 | redrawing a div keeps every lookup by id |
| Charts.FindIdSameIds | app/static/charts.js:25 | lookups by id depend on the ids alone |
| Charts.FilteredKeepsIds | app/static/charts.js:158-179 | filtering keeps ids distinct |
| Charts.AxisFilterShowsOne | app/static/charts.js:175-178 | a specific axis displays at most one div, the one with that axis, and none iff no div has it |
| Charts.AllAxesFilter | app/static/charts.js:166-174 | `"all"` in the separate view displays every div but the combined one; otherwise only the combined div |
| Charts.VisibleAfterAxisFilter | app/static/charts.js:24-30 | after filtering on an axis, the visible div is that axis's div |
| Charts.RenderedCombinedAll | app/static/charts.js:61-70 | in the combined view with all axes, only the combined div is displayed, and it exists |
| App.SignatureNeverReset | app/static/app.js:32-34 | a signature holds the separator after the sensor name, so it is never `""` |
| App.SignatureSeparatesSensor | app/static/app.js:32-34 | equal signatures mean the same selected sensor when names hold no `|` |
| App.FirstBar | app/static/app.js:32-34 | the first `|` of a signature ends the sensor name |
| App.ToRenderWithin | app/static/app.js:41-49 | the sensors to render come from the snapshot, there are some iff it has any, they are duplicate-free when its sensors are, and a present selection renders alone |
| App.KeepIn | app/static/app.js:61 | the pinned sensors that are to be rendered |
| App.KeepOut | app/static/app.js:62 | the sensors to render that are not pinned |
| App.OrderedMembers | app/static/app.js:60-63 | the rebuild order lists exactly the sensors to render, and every pinned one comes before every unpinned one |
| App.OrderedPermutation | app/static/app.js:60-63 | with duplicate-free lists, the rebuild order is a permutation of the sensors to render |
| App.DistinctMultiset | app/static/app.js:60-63 | duplicate-free lists with the same members are permutations |
| App.DistinctCount | app/static/app.js:60-63 | in a duplicate-free list each member occurs once |
| App.Renderable | app/static/app.js:65-68 | the sensors that render come from the list |
| App.RebuildContainers | app/static/app.js:57-68 | a rebuild leaves one container per renderable sensor, in the rebuild order, each with one controls block |
| App.LoaderStuckAsWritten | app/static/app.js:103-128 | as written, once the first load is done and the connection dropped, the loader stays requested whatever follows |
| App.ReconnectExampleAsWritten | app/static/app.js:103-128 | message, lost connection, message: the loader stays requested as written, and not when corrected |
| App.RunSnoc | app/static/app.js:103-128 | running one more event is one more step |
| App.LoaderHiddenAfterMessage | app/static/app.js:103-128 | corrected: after a successful message the loader is hidden |
| App.FirstLoadUntilSuccess | app/static/app.js:28 | as written, the first load is pending until the first successful message; failures and lost connections never change it |
| App.AtMostOneInitialRender | app/static/app.js:108-111 | as written, only the first successful message takes the initial-render branch |
| App.RunAppend | app/static/app.js:103-128 | corrected: running two event lists one after the other is running them joined |
| App.StartUntilSuccess | app/static/app.js:103-128 | corrected: until a message succeeds, the page stays in its start state |
| App.ReconnectRendersInFull | app/static/app.js:103-128 | corrected: after a lost connection the first load is pending again until a message succeeds, so that message takes the initial-render branch and hides the loader |
| App.Dashboard.constructor | app/static/app.js:28-30 | first load pending, loader requested, nothing rendered, empty signature; the state starts from the stored selection and pins, light mode, no scroll recorded, no snapshot |
| App.Dashboard.RenderGraphsIfNeeded | app/static/app.js:36-69 | `Reconciled`: fallback to `"all"` selected and saved when the selection is missing; with an unchanged signature and something rendered, each sensor to render is re-plotted in place and the signature and rendered set stay; otherwise the signature on entry is stored, the area cleared and the sensors plotted pinned first, and the rendered set is the rebuild order; pins, snapshot, dark mode and scroll flags unchanged |
| App.Dashboard.Rebuild | app/static/app.js:56-68 | the signature is stored, the area and the rendered set are cleared, and the sensors are plotted in the rebuild order |
| App.Dashboard.ChooseSensors | app/static/app.js:41-49 | the sensors to render, with `"all"` saved on fallback |
| App.Dashboard.PlotOrdered | app/static/app.js:65-68 | each sensor is plotted and recorded as rendered |
| App.Dashboard.OnMessage | app/static/app.js:103-120 | scroll capture before and restore after, always; a parsed snapshot is stored; the loader is hidden and the first load ended only by a successful message while the first load is pending (`StepAsWritten`); a usable snapshot (`latest_row` and `sensors` present) is rendered as `Reconciled` states; a failed message, including a snapshot without `latest_row`, changes neither the charts, the signature, the rendered set, the selection nor the storage |
| App.Dashboard.OnError | app/static/app.js:122-128 | the loader is requested again and `firstLoad` stays |
| App.Dashboard.ResetAndRender | app/static/app.js:130-137 | `ResetRendered`: with a usable snapshot (`latest_row` and `sensors` present), the fallback and a rebuild from scratch under the signature on entry; without one, the signature is `""` and nothing else changes; the loader, `firstLoad`, body class, pins, snapshot, dark mode and scroll flags stay |
| App.Dashboard.OnPinClick | app/static/charts.js:199-203 | the pin is toggled and saved as JSON, then `ResetRendered` from the new storage: the snapshot, if any, is rebuilt under the new pins, otherwise only the signature is reset; the loader, `firstLoad`, body class, snapshot, dark mode and scroll flags stay |
| App.Dashboard.OnDarkToggle | app/static/app.js:142-147 | the body class flips, the flag follows it, and `ResetRendered`: the snapshot, if any, is rebuilt, otherwise only the signature is reset; the loader, `firstLoad`, pins, snapshot and scroll flags stay |
| App.Dashboard.OnScroll | app/static/app.js:153-157 | the position is recorded unless a restore is under way; nothing else in the state changes |
| App.Dashboard.OnExport | app/static/app.js:149-151 | the export text of the last snapshot, none without one |
| App.PlotEach | app/static/app.js:52 | the cheap path plots each sensor in order |
| App.ResetForcesRebuild | app/static/app.js:51 | after a reset the cheap-path test fails, so the next render rebuilds |

## Left out

- The Flask server and its routes (`sensor_stream`, `sensor_data`, `export_csv`, `run`), `app/routes.py` and `app/dashboard.py`: HTTP and server-push plumbing.
- `termux-sensor`, `fetch_values` and `json.loads` of their output: foreign calls. The output of `termux-sensor -l` and its decoded `sensors` list are parameters of `Logger.ListDeviceSensors`, and the values read are the `data` parameter of `Logger.Sampler.Tick`.
- Time, sleeping and the endless loop: the timestamp is a parameter, and `Logger.Sampler.Tick` is one iteration. An exception inside an iteration is not modelled.
- File I/O: the CSV file is the list of lines written, and whether a write succeeds is a parameter. `sorted` of the call list is a set.
- `print` and `console.error` messages, and `toast`.
- Readings are integers, not floats. Every text cell reads as 0, even text that Python's `float()` would parse, such as `"12"`; `null` reads as 0 as in the source.
- `app/static/ui.js` (live table, dropdown, search, pinned panel) is not part of this model. `renderInitial` and `updateLive` are modelled only for what they do to `state` and the charts.
- Plotly is reduced to the traces each plot div draws: the legend name and the readings. Layouts, colours and the x values are left out.
- The title, icon and pin button text of a container: only the pin label is kept.
- The DOM is modelled as the `#graphs` containers, each holding its sensor's plot divs. `getElementById` and `querySelectorAll` look only inside the sensor's own container. The document-wide lookup of the source behaves the same as long as no two sensors' div ids collide.
- State.AppState.constructor: requires the stored pinned list to parse. `togglePin` (app/static/state.js:23) is the only writer of that key and stores `JSON.stringify` of a list of strings; `Json.Parse` reads back only that compact form, so other JSON text the browser would accept is not modelled.
- Logger.Sampler.constructor: takes the sensor table as a parameter and requires it to be well formed. `Logger.SpecsWellFormed` shows that the logger's own table is.
- The listeners that `startSSE` registers again on every reconnection are modelled once. A repeated listener runs the same reset and rebuild again.
- `exportCSV`'s Blob, download link and file name.
- `fullscreenVisible` and `downloadVisiblePNG`: only the div they pick, `getVisiblePlotDiv`, is modelled.
- Keys inherited from `Object.prototype` (for example a sensor named `constructor` in `SENSOR_ICONS[base]`) are not modelled: lookups see only the object's own keys.
- A message whose JSON is `null`, or lacks a `sensors` object or a `latest_row`, counts as a failed message: the source throws on it before `firstLoad` changes (`Object.keys` in app/static/ui.js:10 and app/static/app.js:39). It is still stored as the last snapshot when it parsed, and the reset listeners do not render it either. The payloads the logger builds always carry both fields (scripts/logger.py:159, 201-206). Which other fields a snapshot holds is not modelled.
- App.Dashboard.OnMessage and App.Dashboard.RenderGraphsIfNeeded: require the snapshot's sensor table to be a well-formed dictionary, which `JSON.parse` always yields.
- Case mapping (`upper`, `lower`, `toLowerCase`) is ASCII-only. Python and JavaScript also map other letters, and `"ß".upper()` is `"SS"` in Python.
- `debounce` is not modelled: nothing in the modelled code calls it.

## Findings

| source | as written | input that shows it | evidently intended | confidence | as-written member | corrected member |
|---|---|---|---|---|---|---|
| app/static/utils.js:37-39 | `setAttribute('hidden', show ? false : true)` stores the text `"false"` or `"true"`; `hidden` hides its element whatever its value | `showLoader(true)` | the loader shows for `true` and hides for `false` (remove the attribute to show it) | not executed; follows from HTML's rule for the `hidden` attribute | Utils.LoaderNeverShownAsWritten | Utils.LoaderAttribute |
| app/static/app.js:103-128 | `onerror` shows the loader but never sets `firstLoad` back, so after a reconnection no message hides the loader again and no initial render happens | a message, then a lost connection, then a message | the first successful message after a reconnection renders in full and hides the loader | not executed; follows from the code alone | App.LoaderStuckAsWritten | App.ReconnectRendersInFull |

`App.Dashboard.OnMessage` and `App.Dashboard.OnError` follow the page as written (`App.StepAsWritten`). `App.Step` and `App.Run` are the corrected handler, in which `onerror` also sets `firstLoad` back to true. `App.ReconnectRendersInFull` and `App.LoaderHiddenAfterMessage` are proved about it.
