# BMC power and sensor collector — a Dafny model

This project models the core of a small tool that reads power and temperature data from a
server's baseboard management controller (BMC) through the Redfish HTTP API. Then, in an
analysis script, it picks the columns worth plotting.

**The collector** (`collector.py`): the `Collector` object has two tables.

- `boards`: chassis members whose name is `motherboard`, `self` or `gpu_board` in any letter
  case. Each entry holds a map of power readings by time.
- `sensors`: the board sensors whose path mentions `pwr` or `power`. Each entry holds its
  path, a map of readings by time and the kind `POWER`.

`init_boards` fills the first table from the `/redfish/v1/Chassis` collection.
`find_power_sensors` fills the second from each board's `Sensors` collection. `get_power`
extracts a board's consumed watts from its `Power` document. The two sampling loops store
each future's result under the time at which the loop handled it.

**The analysis script** (`test_main.py`):

- `filter` keeps the power columns whose maximum exceeds 60% of the second-largest maximum.
- Two top-N selections keep the temperature columns that reach the fifth-largest maximum
  (first selection) or the fourth-largest (second selection).
- Name rules classify columns as power, temperature or CPU temperature (`CPU\d+_TEMP`).
- The plotted list is the sorted union of the second top-N set and the CPU set.

Model layout:

- `errors.dfy` — `Errors`: `Option`, `Result`, and the Python exceptions the code can raise
  (`KeyError`, `TypeError`, `IndexError`, `AttributeError`, `ValueError`).
- `text.dfy` — `Text`:
  - ASCII lower-casing and Python's substring test `in`;
  - `str.split('/')` and pathlib's `Path(p).name`;
  - the f-string path builder;
  - the power and temperature name rules.
- `json.dfy` — `Json`: parsed JSON documents, with Python's `x[k]`, `x.get(k, d)`, `x[0]` and
  iteration. Each raises the exception Python raises on a value of the wrong shape.
- `collector.dfy` — `Collector`:
  - the Redfish service, as a function from path to `(status, body)`;
  - specification functions for each step;
  - lemmas about those functions;
  - the class `Collector`, with map fields and loop methods proved against the functions.
- `sorting.dfy` — `Sorting`:
  - Python's `sorted` on the column maxima, and the rank properties of `sorted(xs)[-k]`;
  - `sorted` on a set of names under Python's code-point string order.
- `columns.dfy` — `Columns`: a data frame as its columns in order, each a (name, maximum)
  pair, and the selection rules of `test_main.py`.

Decisions that follow the code:

- Python dicts iterate in insertion order. The class therefore keeps `boardOrder` beside
  `boards`. `find_power_sensors` visits the boards in that order.
- The `filter` doc-comment says columns that "reach at least" 60% are kept. The code compares
  with a strict `>`, and the model follows the code: a column exactly at the threshold is
  dropped.
- `collector.py` does not exclude `vr_` sensors: line 47 keeps every path that mentions
  power. Each handled future takes its own `time()` reading (lines 76 and 97); there is no
  timestamp shared by the tick. A future that raised stores nothing (lines 73-74); there are no
  placeholder readings. The model does the same.
- The line that prints a stored value formats it with `:6.1f` (lines 78 and 99). That line is
  inside the `with` and `while` but outside the `try`. A `get_power` result of `None` (a
  `PowerControl` entry without `PowerConsumedWatts`) or a non-numeric reading therefore raises
  after it has been stored. The exception leaves `sample_power` or `sample_sensors` altogether,
  which ends the whole sampling run, not just the tick. The executor's exit waits for the
  remaining futures but records none of them. The model keeps that order (store, then raise),
  records nothing after that sample, and returns the exception as the tick's outcome.
- As written, the body of the `sample_sensors` loop (lines 90-99) is never reached:
  - with a non-empty sensor table, `self.read_sensor` (line 88) raises AttributeError before
    any future is submitted, since collector.py does not define it;
  - with an empty table, `ThreadPoolExecutor(max_workers=0)` (line 86) raises ValueError.

  The model gives that body the behaviour it would have if `read_sensor` existed: each
  sample's result is a parameter.
- The first temperature selection indexes with `[-5]` although its result is called
  `top_4_temps`. It is modelled as written: every column reaching the fifth-largest maximum.

## Model

| member | source | states |
|---|---|---|
| `Text.ContainsAt` | test_main.py:52-54 | Python's `sub in s` holds exactly when `sub` occurs at some position of `s` |
| `Text.Split` | collector.py:36 | splitting on `/` gives at least one piece and no piece contains `/` |
| `Text.LastComponent` | collector.py:36 | the chosen piece is "" or a real component (neither empty nor ".") taken from the pieces |
| `Text.LastComponentIsLast` | collector.py:36 | the chosen piece is "" exactly when no piece is a component, and otherwise it is the component with no component after it: the last one, as pathlib's `.name` takes |
| `Text.Name` | collector.py:36 | `Path(p).name` never contains `/` and is "" or a real component |
| `Text.SplitJoin` | collector.py:45 | splitting `a/b` splits `a` and `b` independently |
| `Text.NameOfChild` | collector.py:45 | the name of the f-string path `dir/name` is `name`, so building a resource path and taking its name round-trips |
| `Text.TrailingSlash` | collector.py:36 | a trailing slash does not change `Path(p).name` |
| `Text.EmptyIsNotPower` | collector.py:46-47 | the empty id `''` never passes the power rule |
| `Text.MentionsPowerIgnoresCase` | collector.py:47 | the power rule gives the same answer on `s` and on `s.lower()` |
| `Json.Lookup` | collector.py:33 | a key is absent exactly when no member of the object binds it |
| `Json.LookupLast` | collector.py:33 | a bound key gets the value of its last binding, with no binding of that key after it, as `json.loads` keeps repeated keys |
| `Collector.LeadingPaths` | collector.py:34-36 | the registration loop handles exactly the leading run of string ids; the id after the run is not a string, so `Path` raises there |
| `Collector.BoardsAfterSpec` | collector.py:35-40 | a key is in the board table exactly when it was there before or some member's name is that key and its lower-cased form is `motherboard`, `self` or `gpu_board`; each registered key maps to a board with an empty power map; every other entry is unchanged |
| `Collector.OrderAfterMembers` | collector.py:35-40 | the new insertion order extends the old one; it holds exactly the old names and the names some path registers; every name it adds was not already there |
| `Collector.OrderAfterOrder` | collector.py:35-40 | the newly registered names follow the old order in the order of the first path that registers each (Python's dict insertion order), so each is added once |
| `Collector.FirstRegistering` | collector.py:35-38 | the index of the first path whose name is the key and is allow-listed, with no earlier such path, or -1 when none is |
| `Collector.OrderAfterSpec` | collector.py:38 | registration keeps the insertion order in step with the board table (no repeats, exactly its keys), and the old order is a prefix of the new one |
| `Collector.PowerPaths` | collector.py:47 | the power filter succeeds exactly when every id is a string; otherwise `.lower()` raises AttributeError |
| `Collector.PowerPathsKeep` | collector.py:47 | a path is kept exactly when it is one of the ids and mentions `pwr` or `power` in any case; no more paths than ids |
| `Collector.PowerPathsAppend` | collector.py:47 | filtering keeps member order: filtering two lists in turn is filtering their concatenation |
| `Collector.MemberWithoutIdIsDropped` | collector.py:46-47 | a sensor member without `@odata.id` yields `''`, which the power filter drops |
| `Collector.BoardPowerSensorsMentionPower` | collector.py:45-47 | every sensor path found for one board mentions power |
| `Collector.PowerSensorPathsStopsAtError` | collector.py:44-47 | once the boards visited so far raise, the whole search raises the same exception |
| `Collector.PowerSensorPathsMentionPower` | collector.py:44-47 | every sensor path collected over all boards mentions power and is not `''` |
| `Collector.SensorsAfterSpec` | collector.py:50-58 | a sensor name gets the entry of the last collected path with that name (that full path, no readings, kind POWER); a name no path has keeps its old entry or stays absent |
| `Collector.GetPowerReadsFirstControl` | collector.py:107 | the reading is `PowerConsumedWatts` of the first `PowerControl` entry, or null when that entry lacks it |
| `Collector.GetPowerEdgeCases` | collector.py:105-107 | without `PowerControl` the default `[{}]` gives null; an empty `PowerControl` list raises IndexError; a non-200 response (None) raises AttributeError |
| `Collector.GetPowerNumber` | collector.py:105-107 | the reading is the number `w` exactly when the document is an object whose first `PowerControl` entry is an object with `PowerConsumedWatts` equal to `w` |
| `Collector.FirstHalt` | collector.py:76-78 | the position of the first stored value whose printing raises: no sample before it halts, and the sample at it does |
| `Collector.Handled` | collector.py:69-78 | a tick handles a prefix of its futures, and all of them exactly when no future before the last one halts it |
| `Collector.TickOutcome` | collector.py:69-78 | a tick completes exactly when no stored value fails to print |
| `Collector.BoardsSampled` | collector.py:69-77 | recording power samples never adds or removes a board |
| `Collector.SensorsSampled` | collector.py:90-98 | recording sensor samples never adds or removes a sensor |
| `Collector.SeriesAfterSpec` | collector.py:76-77 | a time is in an entry's series exactly when it was before or a successful sample for that entry has that time; it then holds the value of the last such success, so a later write at the same time overwrites; every other time keeps its value |
| `Collector.FailuresRecordNothing` | collector.py:71-74 | an entry whose every future raised keeps its series unchanged |
| `Collector.BoardsSampledSeries` | collector.py:77 | each board's power series evolves on that board's own samples only |
| `Collector.SensorsSampledSeries` | collector.py:98 | each sensor's readings evolve on its own samples only; its path and kind never change |
| `Collector.Collector.constructor` | collector.py:20-21 | the collector starts with empty board and sensor tables |
| `Collector.Collector.InitBoards` | collector.py:28-40 | a non-200 chassis response changes nothing; a malformed collection raises before any registration; otherwise the tables become the registration of the leading string ids, raising TypeError at the first non-string id; the dict order stays valid and the sensors are untouched |
| `Collector.Collector.FindPowerSensors` | collector.py:42-58 | the boards are visited in insertion order; the first board whose collection raises ends the search with that exception and no sensor is added; otherwise the sensor table is the registration of all collected power paths; the boards are untouched |
| `Collector.Collector.RecordPower` | collector.py:70-78 | a returned reading is stored at its time for that board only, a raised one stores nothing; the outcome is the exception of printing the stored value, if any |
| `Collector.Collector.PowerTick` | collector.py:69-78 | the board table becomes the samples recorded in completion order up to and including the first one whose printing raises, and none after it; the outcome is that exception, which ends `sample_power`, or completion; order and sensors unchanged |
| `Collector.Collector.RecordReading` | collector.py:91-99 | a returned reading is stored at its time for that sensor only, a raised one stores nothing; the outcome is the exception of printing it, if any |
| `Collector.Collector.SensorTick` | collector.py:90-99 | the sensor table becomes the samples recorded in completion order up to and including the first one whose printing raises, and none after it; the outcome is that exception, which ends `sample_sensors`, or completion; boards unchanged |
| `Collector.Connect` | collector.py:14-26 | construction runs `init_boards` then `find_power_sensors` on empty tables; a non-200 chassis response leaves both tables empty and completes; a malformed collection raises with both tables empty; otherwise the board table and its order are the registration of the leading string ids, and a non-string id raises TypeError with no sensors; when every id registers, a board whose sensor search raises ends construction with that exception and no sensors, and otherwise construction completes with the sensors of all boards' power paths |
| `Collector.ChassisExample` | collector.py:34-40 | members `motherboard`, `psu_tray` and `Self` give exactly the boards `motherboard` and `Self`, with the case of `Self` kept |
| `Sorting.Insert` | test_main.py:19 | inserting keeps the length plus one, the members, and ascending order |
| `Sorting.Sort` | test_main.py:19 | `sorted` returns an ascending list of the same length and the same members |
| `Sorting.SortCounts` | test_main.py:19 | sorting preserves how many elements lie at or above, and strictly above, any value |
| `Sorting.KthLargestRank` | test_main.py:19 | `sorted(s)[-k]` occurs in `s`, at least k elements are at or above it, and fewer than k are strictly above it |
| `Sorting.SortedRank` | test_main.py:19 | in an ascending list the element at `j` has at least `len-j` elements at or above it and at most `len-j-1` strictly above it |
| `Sorting.CountMonotone` | test_main.py:27 | for `w < v`, at least as many elements exceed `w` as reach `v` |
| `Sorting.KthLargestUnique` | test_main.py:76 | the rank conditions determine `sorted(s)[-k]` |
| `Sorting.AtLeastKthLargest` | test_main.py:77 | a value reaches `sorted(s)[-k]` exactly when fewer than k elements are strictly greater |
| `Sorting.LessIrreflexive` | test_main.py:103 | no name sorts before itself |
| `Sorting.LessTotal` | test_main.py:103 | of two different names one sorts before the other |
| `Sorting.LessTransitive` | test_main.py:103 | the code-point string order is transitive |
| `Sorting.InsertName` | test_main.py:103 | inserting a name into a strictly ascending list keeps it strictly ascending and adds exactly that name |
| `Sorting.SortedDistinct` | test_main.py:103 | `sorted(set(xs))` is strictly ascending and has exactly the members of `xs` |
| `Sorting.StrictlyAscendingDistinct` | test_main.py:103 | a strictly ascending list has no repeats |
| `Columns.Maxima` | test_main.py:18 | `df.max()` lists each column's maximum in column order |
| `Columns.Select` | test_main.py:33 | a comprehension over columns keeps exactly the columns meeting its condition and no more columns than it had |
| `Columns.SelectAppend` | test_main.py:33 | the selected columns keep the frame's column order |
| `Columns.KeepAboveCount` | test_main.py:27 | the number of columns above a threshold is the number of maxima above it |
| `Columns.KeepAtLeastCount` | test_main.py:77 | the number of columns reaching a threshold is the number of maxima reaching it |
| `Columns.Filter` | test_main.py:8-36 | four columns or fewer are returned unchanged; otherwise exactly the columns whose maximum is strictly above 0.6 times the second-largest maximum; never more columns than the input |
| `Columns.FilterKeepsLeaders` | test_main.py:19-27 | when the second-largest maximum is positive, every column reaching it survives, so at least two columns remain |
| `Columns.TopNSpec` | test_main.py:75-79 | `sorted(max_temps)[-n]` raises IndexError exactly with fewer than n columns; otherwise a column is kept exactly when fewer than n columns have a strictly larger maximum, so at least n are kept (n = 5 here and n = 4 at lines 93-97) |
| `Columns.DigitRun` | test_main.py:100 | the leading run of digits: every character in it is a digit and the next one is not |
| `Columns.CpuTempMeaning` | test_main.py:99-101 | the name rule holds exactly when the name starts with `CPU`, then one or more digits, then `_TEMP` (case-sensitive, anchored at the start only) |
| `Columns.CpuTempExamples` | test_main.py:98-100 | `CPU22_TEMP` and `CPU0_TEMP_MAX` match; `CPU_TEMP`, `cpu0_temp` and `DIMM_CPU0_TEMP` do not |
| `Columns.CpuTempIsTemp` | test_main.py:99-101 | every CPU temperature name also mentions `temp` |
| `Columns.CpuColumnsAreTempColumns` | test_main.py:99-101 | the CPU columns taken from the temperature columns are all the CPU columns of the frame |
| `Columns.PlotColumnsSpec` | test_main.py:93-103 | the plot list raises IndexError exactly with fewer than four temperature columns; otherwise it is strictly ascending and holds exactly the names of temperature columns in the top set or matching the CPU rule |
| `Columns.PlotsEveryCpuTemp` | test_main.py:99-103 | every CPU temperature column of the frame is plotted, whatever its maximum |
| `Collector.RedfishGet` | collector.py:109-114 | definition: the body of a 200 response, None for any other status |
| `Collector.MemberIds` | collector.py:34 | definition: each member's `@odata.id`, raising at the first member that has none or is not an object |
| `Collector.ChassisMemberIds` | collector.py:33-34 | definition: `response_data['Members']` iterated and mapped to member ids, with Python's exceptions for each wrong shape |
| `Collector.BoardsAfter` | collector.py:35-40 | definition: the board table after registering the paths in order; `BoardsAfterSpec` states its meaning |
| `Collector.OrderAfter` | collector.py:35-40 | definition: the dict's insertion order after registering the paths in order; `OrderAfterSpec`, `OrderAfterMembers` and `OrderAfterOrder` state its meaning |
| `Collector.SensorIds` | collector.py:46 | definition: `s.get('@odata.id', '')` for each member, AttributeError for a member that is not an object |
| `Collector.BoardPowerSensors` | collector.py:45-47 | definition: one board's power sensor paths from its Sensors document; None (a failed GET) raises AttributeError; `BoardPowerSensorsMentionPower` and `PowerPathsKeep` state its meaning |
| `Collector.PowerSensorPaths` | collector.py:44-47 | definition: the power sensor paths of the boards in insertion order, stopping at the first board that raises; `PowerSensorPathsStopsAtError` and `PowerSensorPathsMentionPower` state its meaning |
| `Collector.SensorsAfter` | collector.py:50-58 | definition: the sensor table after registering the paths in order; `SensorsAfterSpec` states its meaning |
| `Collector.GetPower` | collector.py:105-107 | definition: `data.get('PowerControl', [{}])[0].get('PowerConsumedWatts')` with Python's exceptions; `GetPowerReadsFirstControl`, `GetPowerEdgeCases` and `GetPowerNumber` state its meaning |
| `Collector.PowerReading` | collector.py:66 | definition: a power future's work, `get_power` on the board's Power document |
| `Collector.Record` | collector.py:77 | definition: store a returned value at its time, nothing for a raised one; `SeriesAfterSpec` states its effect over a tick |
| `Collector.FormatFault` | collector.py:78 | definition: the exception of `:6.1f` for a stored value (none for numbers and booleans, ValueError for a string, TypeError otherwise) |
| `Collector.Halts` | collector.py:76-78 | definition: a successful sample whose stored value fails to print |
| `Collector.IsBoardPath` | collector.py:36-37 | definition: the path's name, lower-cased, is `motherboard`, `self` or `gpu_board` |
| `Collector.SensorsPath` | collector.py:45 | definition: the f-string `{REDFISH_BASE}/Chassis/{board}/Sensors` |
| `Collector.PowerPath` | collector.py:105 | definition: the board path `{REDFISH_BASE}/Chassis/{board}` of line 66 with `/Power` appended |
| `Collector.SeriesAfter` | collector.py:76-77 | definition: one entry's series after the samples of a tick; `SeriesAfterSpec` states its meaning |
| `Columns.PenultimateMax` | test_main.py:18-19 | definition: `sorted(max_values)[-2]` |
| `Columns.Threshold` | test_main.py:20 | definition: `0.6 * penultimate_max` |
| `Json.Keys` | collector.py:44 | definition: a dict's distinct keys in first-appearance order, as iteration yields them |
| `Json.Iterate` | collector.py:34 | definition: `for y in x` on a list, a dict, a string, and TypeError otherwise |
| `Json.Subscript` | collector.py:34 | definition: `x[key]`, KeyError for a missing key and TypeError for a value that is not a dict |
| `Json.GetOr` | collector.py:46 | definition: `x.get(key, default)`, AttributeError for a value that is not a dict |
| `Json.First` | collector.py:107 | definition: `x[0]`, IndexError when empty, KeyError on a dict, TypeError on a scalar |
| `Text.Lower` | collector.py:37 | definition: `s.lower()` on ASCII letters |
| `Text.Contains` | collector.py:47 | definition: Python's `sub in s`; `ContainsAt` states its meaning |
| `Text.MentionsPower` | collector.py:47 | definition: the lower-cased text contains `pwr` or `power`; `MentionsPowerIgnoresCase` and `EmptyIsNotPower` state its properties |
| `Text.MentionsTemp` | test_main.py:54 | definition: the lower-cased text contains `temp` |
| `Sorting.KthLargest` | test_main.py:19 | definition: `sorted(s)[-k]`; `KthLargestRank` and `KthLargestUnique` state its meaning |
| `Sorting.Less` | test_main.py:103 | definition: Python's string `<`, lexicographic by code point; `LessIrreflexive`, `LessTotal` and `LessTransitive` show it is a strict total order |
| `Columns.TopN` | test_main.py:75-79 | definition: the columns reaching `sorted(max)[-n]`, IndexError with fewer than n columns; `TopNSpec` states its meaning |
| `Columns.TopTemperatures` | test_main.py:75-79 | definition: the first selection with n = 5 over the Temperatures frame |
| `Columns.TopSensorTemperatures` | test_main.py:93-97 | definition: the second selection with n = 4 over the temperature columns of the Sensors frame |
| `Columns.PowerColumns` | test_main.py:51-53 | definition: the columns whose name mentions `pwr` or `power`; `Select` states its meaning |
| `Columns.TempColumns` | test_main.py:54 | definition: the columns whose name mentions `temp`; `Select` states its meaning |
| `Columns.IsCpuTemp` | test_main.py:99-101 | definition: a scan for `CPU`, digits, `_TEMP`; `CpuTempMeaning` states its meaning |
| `Columns.PlotColumns` | test_main.py:103 | definition: `sorted(top_4_temps \| cpu_temp_cols)`; `PlotColumnsSpec` states its meaning |
| `Collector.BoardPath` | collector.py:66 | definition: the f-string `{REDFISH_BASE}/Chassis/{board}` |
| `Text.Child` | collector.py:45 | definition: the f-string `f'{dir}/{name}'` that builds resource paths (also at collector.py lines 66 and 105); `NameOfChild` states that its name is `name` |
| `Columns.KeepAbove` | test_main.py:27-33 | definition: the columns for which `max_values > threshold`, in column order; `Select`, `SelectAppend` and `KeepAboveCount` state its meaning |
| `Columns.KeepAtLeast` | test_main.py:77-79 | definition: the columns for which `max_temps >= threshold`, in column order (also at lines 95-97); `Select`, `SelectAppend` and `KeepAtLeastCount` state its meaning |
| `Columns.CpuTempColumns` | test_main.py:99-101 | definition: the `cpu_temp_cols` comprehension, the columns whose name matches `CPU\d+_TEMP`; `CpuTempMeaning` and `CpuColumnsAreTempColumns` state its meaning |

## Left out

- The Redfish client, login and HTTP (collector.py:14-23, 109-114). The service is a function
  from path to an already-parsed response. JSON text decoding is not modelled.
- The tick loops themselves (collector.py:60-68, 80-89, 100-103): the thread pool, `time()`,
  `sleep` and the run-time limit. The walrus at line 85 binds a boolean, and the sleep sign at
  line 101 is reversed; neither is modelled.
  - Each tick is modelled by its `as_completed` loop body, over the completed futures in the
    order given.
  - The times at which the loop handles the futures are real parameters.
  - A power future's result is `PowerReading`, which the caller computes from the board's
    response at that moment.
  - Every future belongs to an entry already in the table.
- `read_sensor` is called at collector.py:88 but not defined in collector.py. Sensor readings
  are parameters (`Sample.result`). The AttributeError that the missing method raises at line 88,
  and the ValueError of `max_workers=0` at line 86, are not modelled; they stop
  `sample_sensors` before its loop body runs.
- Printing, apart from the `:6.1f` formatting whose exception ends the sampling method. Formatting is
  modelled only as whether it raises (numbers and booleans format, strings raise ValueError,
  anything else TypeError).
- Floating point: times, readings and the 0.6 threshold are exact reals. NaN handling in
  pandas' `max` is not modelled.
- `str.lower()` and `\d` are modelled on ASCII only. Non-ASCII case mappings and Unicode digits
  are not covered.
- Paths follow POSIX rules in pathlib; Windows path semantics are not modelled.
- `motherboard_path` (collector.py:29) is set and never used, so it is not modelled.
- The insertion order of the sensors dict is not modelled; nothing in the core reads it.
- Column names are assumed distinct. Selecting by a name that several columns share
  (`df[pass_cols]`) is not modelled.
- The pandas and matplotlib glue in test_main.py (lines 39-50, 55-72, 80-92, 104-120): file
  globbing, pickle loading, index rescaling, plotting and colour printing.
- cli_parser.py, main.py and plotter.py, and the `__main__` block of collector.py, are not
  part of this model: argument parsing, file output and plotting.
