# Load-cell monitor: a Dafny model of the acquisition-to-calibrated-value pipeline

This project models the core of `loadcell.py`, a single-channel load-cell monitor.
A serial device sends one line `<ms>,<value>` per sample. The monitor parses each line
and converts the raw count to grams under the current calibration. It keeps the newest
5000 samples in three parallel buffers (time, raw, calibrated) and shows current, maximum,
minimum and mean over a trailing time window. While recording is on, it also captures
rows for export.

Modules (one per component, all in this directory):

- `wrappers.dfy` (`Wrappers`): `Option`.
- `series.dfy` (`Series`): sum, mean (`np.mean`), `max`, `min` and "non-decreasing" over a series of reals.
- `line_parser.dfy` (`LineParser`): `SerialWorker.parse_csv`. `str.strip()` is modelled with
  Python's whitespace set. `float()` is a parameter: a partial function from text to a number.
- `calibration.dfy` (`Calibration`): the eight calibration attributes (`Params`) and `apply_calibration` (`Apply`).
  It also holds the effect of the zero, one-point and two-point commands (`ZeroCalibration`, `Calibrate`),
  and the settings record that is saved and loaded.
- `sample_store.dfy` (`SampleStore`): `deque(maxlen=5000)` as a sequence with a bounded `Push`.
- `window_stats.dfy` (`WindowStats`): the window selection and the figures of `update_display`.
- `monitor.dfy` (`Monitor`): class `LoadCellMonitor`, whose event handlers update its fields in place.
  Each handler's postcondition gives the whole new state in terms of the old state and the functions above.

Parameters stand in for the environment. A clock reading (`time.time()`) is a `real` parameter `now`.
The formatted wall-clock text is a `string`. The operator's answer to a Yes/No prompt is a `bool`.
A settings file is the decoded JSON object as a `map<string, Value>`, or `None` when it cannot be read.
Numbers are `real`.

Behaviour kept exactly as the code has it:

- `perform_calibration` stores the requested mode before it asks the operator and before it checks
  for a zero difference. A declined or refused one-point calibration therefore still changes the mode.
  A refused one also keeps the new reference, reading and weight.
- Two-point calibration takes its first point while `cal_raw_point1 == 0`. Once that point is
  non-zero, every later two-point command replaces only the second point.
- One-point calibration writes `cal_raw_point1` and `cal_weight1` too. After a confirmed one-point
  calibration with a non-zero reading, the next two-point command skips the first point: the
  one-point reading and weight serve as point 1.
- The sample count shown is the length of the whole raw buffer, not of the window.
- `clear_graph` sets the time origin to the current clock reading rather than clearing it. The next
  sample is timed from that moment; only the very first sample of a run gets time 0.
- Calibration is single-channel with modes 0 (zero offset), 1 (one point) and 2 (two points).
  Every calibration command needs at least 10 buffered samples and averages the newest 10.
  The scale factor starts at 1.0.
- `update_display` takes the shown values as the newest `len(x_data)` calibrated samples. If the
  clock ever steps back, the shown values are shifted against the shown times
  (`WindowStats.ClockStepBackShiftsValues`).

## Model

| member | source | states |
|---|---|---|
| LineParser.StripLeft | loadcell.py:145 | only leading whitespace is removed, all of it, and the rest is kept as a suffix |
| LineParser.StripRight | loadcell.py:145 | only trailing whitespace is removed, all of it, and the rest is kept as a prefix |
| LineParser.Strip | loadcell.py:145 | the result is the slice of the line between its leading and its trailing whitespace, all of which is removed; it neither starts nor ends with whitespace |
| LineParser.StripParts | loadcell.py:145 | stripping the right end after the left end gives a slice of the line with only whitespace around it, neither starting nor ending with whitespace |
| LineParser.StripIsIdempotent | loadcell.py:145 | stripping an already stripped line changes nothing |
| LineParser.IndexOf | loadcell.py:147 | finds the first occurrence of the separator, or reports that there is none |
| LineParser.ParseCsv | loadcell.py:143-151 | after stripping, a line without a comma gives None and a line starting with `millis` gives None; any other line is split at its first comma only (later commas stay in the value) and is accepted exactly when both halves convert, yielding (time, value) |
| LineParser.ParseStripped | loadcell.py:146-151 | on the stripped text: no comma or the `millis` header gives None; otherwise the first comma splits, and the pair is returned exactly when both halves convert |
| Series.Mean | loadcell.py:522 | the mean (sum over count) lies between the minimum and the maximum |
| Series.Max | loadcell.py:771 | the maximum is an element and bounds every element from above |
| Series.Min | loadcell.py:772 | the minimum is an element and bounds every element from below |
| Series.SumBounds | loadcell.py:773 | a sum of elements all in [lo, hi] lies in [n lo, n hi] |
| Calibration.RecentMean | loadcell.py:521-522 | the mean of the newest ten raw samples lies within their range |
| Calibration.Apply | loadcell.py:496-512 | mode 0, and mode 2 with coinciding points, read 0 g at the zero offset; mode 1 reads 0 g at its reference; mode 2 with distinct points reads each known weight at its reading; any other mode passes the raw count through |
| Calibration.ApplyIsAffine | loadcell.py:496-512 | in every mode, a difference in raw counts becomes `Gain` times that difference in grams |
| Calibration.OnePointThroughPoints | loadcell.py:501-503 | mode 1 with the scale factor computed from a reading reads the known weight at that reading |
| Calibration.TwoPointMonotone | loadcell.py:504-508 | mode 2 is increasing when the heavier weight has the larger reading |
| Calibration.ZeroCalibration | loadcell.py:514-523 | with fewer than 10 samples nothing changes and the operator is warned; otherwise the mode becomes 0, the mean of the newest ten readings (within their range) becomes the offset and reads 0 g, and nothing else changes |
| Calibration.Calibrate | loadcell.py:537-600 | with fewer than 10 samples nothing changes; otherwise the requested mode is always stored; only a mode-0 request moves the zero offset; a declined prompt changes the mode only |
| Calibration.ZeroRequestIsZeroCalibration | loadcell.py:543-549 | a mode-0 request, confirmed or not, gives exactly the result of zero calibration |
| Calibration.TwoPointFirstReading | loadcell.py:575-588 | a confirmed two-point command while the first point is 0 stores mode 2, the mean of the newest ten samples as the first point and the requested first weight, changes nothing else and reports that the first point is done |
| Calibration.TwoPointSecondReading | loadcell.py:589-597 | a confirmed two-point command once the first point is non-zero stores mode 2, the mean of the newest ten samples as the second point and the requested second weight, changes nothing else and reports that two-point calibration is done |
| Calibration.OnePointReadsKnownWeight | loadcell.py:537-573 | a confirmed one-point calibration with non-zero difference gives exactly: mode 1, reference = old zero offset, first point = current reading, weight1 = known weight, scale = weight over (reading minus reference), all else kept; the old zero offset reads 0 g and the current reading the known weight |
| Calibration.OnePointZeroDifferenceKeepsScale | loadcell.py:560-570 | with a zero difference the scale factor is kept, but mode, reference, reading and weight are already updated |
| Calibration.DeclinedStillSetsMode | loadcell.py:543-595 | answering No still switches to the requested mode and changes nothing else |
| Calibration.TwoPointKeepsFirstPoint | loadcell.py:575-597 | once the first point is non-zero, a two-point command never replaces it or its weight |
| Calibration.OnePointThenTwoPointSkipsFirst | loadcell.py:556-597 | after a confirmed one-point calibration with a non-zero reading, a confirmed two-point command takes only the second point; point 1 and weight1 are the one-point reading and weight |
| Calibration.TwoPointSession | loadcell.py:575-600 | two confirmed two-point commands with distinct readings give a line through both (reading, weight) pairs |
| Calibration.TwoPointZeroFirstReadingRepeats | loadcell.py:577-588 | a first reading of exactly 0 leaves the sentinel at 0, so the first point is asked for again |
| Calibration.SettingsRecord | loadcell.py:602-618 | saving is refused exactly for mode 0 with zero offset 0; otherwise the record has the eight calibration keys plus the timestamp |
| Calibration.FromSettings | loadcell.py:658-665 | each missing key falls back to its documented default; a stored integer mode is used as is; a stored number for any of the seven numeric attributes is used, a JSON integer as the same real number |
| Calibration.EmptyRecordGivesInitial | loadcell.py:658-665 | a record without calibration keys restores the start-up calibration |
| Calibration.SettingsRoundTrip | loadcell.py:608-665 | loading a saved record reproduces all eight calibration attributes |
| SampleStore.Push | loadcell.py:230-232 | appending grows a buffer by one up to capacity, and past it drops exactly the oldest element; the new element is last |
| SampleStore.PushAll | loadcell.py:230-232 | no sequence of appends takes a buffer beyond 5000 elements |
| SampleStore.PushAllKeepsNewest | loadcell.py:230-232 | after any appends a buffer holds exactly the newest 5000 values given to it, in order (FIFO eviction) |
| SampleStore.PushKeepsOrder | loadcell.py:732-734 | appending a time no smaller than the last keeps the time buffer non-decreasing |
| WindowStats.WindowStart | loadcell.py:759-760 | the window start is the larger of 0 and newest time minus window width |
| WindowStats.InWindow | loadcell.py:762 | the selection holds only times of the buffer not before the window start, and every such time |
| WindowStats.InWindowIsFilter | loadcell.py:762 | the selection keeps buffer order and holds each time not before the start exactly as often as the buffer does, and no other time, so its length is the number of such entries |
| WindowStats.SelectWindow | loadcell.py:759-763 | the shown times are the in-window times; the shown values are the newest calibrated values, as many as the shown times, whatever the time order |
| WindowStats.UpdateDisplay | loadcell.py:754-779 | empty buffers show nothing; with a newest time and a window width both at least 0 the figures exist; current is the newest calibrated value; min <= current <= max and min <= mean <= max; sample count is the whole raw buffer's length; with a non-empty buffer the figures are shown exactly when some buffered time lies at or after the window start (the `if y_data_raw:` test) |
| WindowStats.WindowIsSuffix | loadcell.py:762 | for a non-decreasing time buffer the selected times are a suffix, and a time is selected exactly when it is in that suffix |
| WindowStats.WindowAligned | loadcell.py:759-763 | for a non-decreasing time buffer the shown times and values are suffixes from the same index |
| WindowStats.StatsCoverWindow | loadcell.py:762-773 | for a non-decreasing time buffer, one sample inside the window is enough for the figures to be shown, and every calibrated value recorded inside the window lies between the shown min and max |
| WindowStats.StatsOverWindow | loadcell.py:759-773 | for a non-decreasing time buffer whose samples from index k on are exactly the in-window ones, max, min and mean are those of the calibrated values from k on, and max and min are each the value of an in-window sample |
| WindowStats.ShownFromIndex | loadcell.py:759-763 | for a non-decreasing time buffer whose samples from index k on are exactly the in-window ones, the shown values are the calibrated values from k on |
| WindowStats.ClockStepBackShiftsValues | loadcell.py:762-763 | with times 5, 0, 6 and a 3 s window the times 5 and 6 are shown with the values recorded at 0 and 6 |
| WindowStats.ThreeSampleExample | loadcell.py:769-779 | values 1, 2, 3 show current 3, max 3, min 1, mean 2, count 3 |
| Monitor.LoadCellMonitor.constructor | loadcell.py:229-257 | empty buffers, no time origin, no recording, default calibration, 30 s window |
| Monitor.LoadCellMonitor.OnDataReceived | loadcell.py:724-748 | one entry on each buffer, with the calibrated entry computed by the current calibration; the first sample of a run gets time 0; time order is kept when the clock does not go back; a row is added exactly while recording; nothing else changes |
| Monitor.LoadCellMonitor.ClearGraph | loadcell.py:487-494 | all three buffers empty and the time origin is the current clock reading; rows and calibration kept |
| Monitor.LoadCellMonitor.ClearData | loadcell.py:819-826 | when confirmed, buffers and rows are emptied; the time origin is kept; when declined, nothing changes |
| Monitor.LoadCellMonitor.PerformZeroCalibration | loadcell.py:514-528 | the calibration becomes ZeroCalibration of the old one over the raw buffer; buffers and recording unchanged |
| Monitor.LoadCellMonitor.PerformCalibration | loadcell.py:537-600 | the calibration and notice are those of Calibrate on the old calibration, raw buffer, request and answer; buffers and recording unchanged |
| Monitor.LoadCellMonitor.LoadCalibrationFromFile | loadcell.py:652-674 | a readable record replaces all eight attributes through FromSettings; an unreadable file changes nothing |
| Monitor.LoadCellMonitor.UpdateWindowSize | loadcell.py:781-782 | the window width becomes the spin box value; nothing else changes |
| Monitor.LoadCellMonitor.ToggleRecording | loadcell.py:784-797 | starting sets the flag, clears the rows and stamps the start; stopping clears flag and start and keeps the rows |
| Monitor.RecordingSession | loadcell.py:741-797 | rows recorded at 1, 2, 3 s after the start carry those times and values; stopping and starting again empties the rows |

## Left out

- The Qt user interface: `CalibrationDialog`, `ModernPlotWidget`, `setup_ui`, `create_side_panel`, `setup_dark_theme`, `update_calibration_display`, the status bar and message boxes, the 50 ms `QTimer`, `main`. Message boxes appear only as the `Notice` a calibration command returns. The operator's answers are parameters.
- Serial I/O and threading: `SerialWorker.run` and `stop` (opening the port, the polling loop, `msleep`, signals, `toggle_connection`, `connect_serial`, `disconnect_serial`, `on_error`). The handlers run one at a time, as Qt delivers signals on the window's thread.
- The device time: `run` divides the parsed time by 1000 (loadcell.py:132), and `on_data_received` never uses it. `OnDataReceived` therefore takes only the value.
- `float()`: a parameter of `ParseCsv`, not a decimal parser.
- Floating point: all numbers are reals. IEEE rounding, infinities and NaN, and `np.mean`'s summation order are not modelled.
- File I/O: `save_data` (CSV writing), the save and open file dialogs, and the JSON encoding. `save_calibration_settings` is modelled only as the record it writes; the copy it writes to `calibration_settings.json` is left out. The start-up load of that file (loadcell.py:647-650) is `LoadCalibrationFromFile` called after the constructor.
- FromSettings: a `calibration_mode` stored as a JSON float or text, or a numeric attribute stored as text, is read as if its key were absent. JSON `true`, `false` and `null` have no `Value` at all. The program would store any of these unchanged, and a later comparison or arithmetic would treat it by Python's rules; a stored `true`, for instance, acts as mode 1 because `True == 1`.
- Monitor.LoadCellMonitor.PerformCalibration: the dialog limits the known weights to 0.001..10000 g and the mode to 0, 1 or 2. The model accepts any request, as `perform_calibration` itself does.
