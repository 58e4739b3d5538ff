# caldo-calibration core, modelled in Dafny

caldo-calibration is a Tauri desktop app for calibrating and exercising a load-cell scale and a dispensing
motor. A React front end calls a Rust back end through `invoke`. This project models the parts of both sides
whose behaviour is sequential and can be stated exactly:

- **Back end, shared state** (`state.dfy`): `AppData` holds optional slots for the connected scale, the
  coefficients and the calibration data. Commands take the scale out of its slot and put it back, some of the
  time. The class `State.AppData` keeps these slots as fields, and each operation states its whole new state.
- **Back end, commands** (`commands.dfy`): the `#[tauri::command]` handlers that touch `AppData`, and
  `CalibrationTrial::new`. The scale-slot protocol is stated per command: which errors leave the slot
  untouched and which leave it empty.
- **Back end, values** (`errors.dfy`, `calibration.dfy`, `data_requests.dfy`): the `AppError` vocabulary with
  its display and serialised strings, calibration trials and their accumulation, and sampling requests (trial
  type mapping, the missing-cutoff error, dropping the first sample).
- **Back end, dispense loop** (`dispenser.dfy`): `Dispenser::dispense` runs over a sequence of ticks. Each tick
  says what the scale, the motor and the clock answer on that iteration. The loop is a method proved equal to
  a recursive specification. Lemmas about that specification cover the velocity clamp, the check counter,
  the data collected and stopping after the timeout.
- **Front end** (`plot.dfy`, `load_cell.dfy`, `read.dfy`):
  - the chart projection in `plot.tsx` and the chart-instance lifecycle;
  - one acquisition run on the load-cell page, as explicit events: begin, start progress, timer tick, and
    settle with the `invoke` outcome. This includes the payload validation loop;
  - the read page: its request builders, its index-based median, and how it settles.
- **Stand-ins** (`hardware.dfy`, `durations.dfy`, `decimal.dfy`, `wrappers.dfy`): what the external crates are
  asked and answer, Rust's `Duration`, the rendering of non-negative integers in a template literal, and
  `Option`/`Result`.

Hardware, clock and network answers are parameters of the operations. A scale is an object that records the
calls made on it. Passing the same object out of a slot and back in models moving ownership of the scale.
Numbers are exact reals. The read page's form numbers may also be non-finite (`NaN` from a cleared field),
which the page's JSON writes as `null`.

Two behaviours of the code are worth knowing:

- **Weight.** The read page takes `data[floor(n/2)]` of the unsorted readings as the weight. `Read.MiddleElement`
  models it. `Read.MiddleOfUnsortedNotMedian` shows that on unsorted readings this is not a median.
- **First sample.** `DataRequest::conduct` drops the first sample the diagnostics trial returns, from both the
  readings and the times (`DataRequests.DropFirstSample`).

## Model

| member | source | states |
|---|---|---|
| Errors.FixedMessages | src-tauri/src/errors.rs:11-32 | NoScale, ZeroSamples, NotImplemented and ScaleExists display their fixed messages |
| Errors.PrefixedMessages | src-tauri/src/errors.rs:13-34 | Libra, Reqwest, Serde, NodeDiagnostics and Other display their fixed prefix followed by the wrapped text |
| Errors.AnyhowDisplaysEmpty | src-tauri/src/errors.rs:27-28 | every motor (anyhow) error displays as the empty string, so two of them cannot be told apart |
| Errors.SerializeIsDisplay | src-tauri/src/errors.rs:36-43 | serialising an error emits exactly its display string |
| Errors.Display | src-tauri/src/errors.rs:9-35 | a message is empty exactly for the motor (anyhow) variant |
| Errors.Serialize | src-tauri/src/errors.rs:36-43 | the front end receives an empty string exactly for a motor error |
| Errors.SerializeIdentifies | src-tauri/src/errors.rs:36-43 | two non-motor errors that serialise to the same string are the same error |
| Errors.DisplayInjective | src-tauri/src/errors.rs:9-35 | two non-motor errors with the same message are the same error, so the front end's string identifies the error |
| Calibration.FromArray | src-tauri/src/calibration_data.rs:14-19 | the trial holds exactly the four readings in order, the given weight, and the clock time |
| Calibration.NewCalibrationData | src-tauri/src/calibration_data.rs:44-49 | new calibration data has no trials and the given phidget id |
| Calibration.AddTrial | src-tauri/src/calibration_data.rs:50-52 | one more trial, the new one last, earlier trials and the id unchanged |
| Calibration.AddTrialsAppends | src-tauri/src/calibration_data.rs:50-52 | adding trials one by one yields the old trials followed by the new ones in order |
| Calibration.NumbersRoundTrip | src-tauri/src/calibration_data.rs:7-12 | a readings list serialised as JSON numbers reads back as the same list |
| Calibration.TrialToJson | src-tauri/src/calibration_data.rs:7-12 | a trial's JSON form (readings, weight, timestamp) reads back as the same trial |
| Calibration.Coefficients.GetCoefficients | src-tauri/src/calibration_data.rs:60-62 | the returned array is the stored one: wrapping it again gives back the same coefficients |
| State.AppData.constructor | src-tauri/src/state.rs:19-27 | every slot starts empty |
| State.AppData.Display | src-tauri/src/state.rs:127-135 | the rendered string reports the scale flag correctly |
| State.RenderReports | src-tauri/src/state.rs:127-135 | the rendering gives back whether a scale is held; it ends in "None" exactly when there are no coefficients, and has a fixed text then |
| State.AppData.ConnectScale | src-tauri/src/state.rs:39-53 | a held scale gives Ok with no change; an opening or interval failure gives Libra with no change; success stores a fresh scale that was asked for 40 ms intervals, and empty calibration data carrying its id |
| State.AppData.UpdateCoefficients | src-tauri/src/state.rs:54-64 | without a scale: NoScale and no change; otherwise the same scale is kept and sent the coefficients, and the coefficients are stored |
| State.AppData.AddCalibrationTrial | src-tauri/src/state.rs:69-80 | with calibration data: append exactly this trial and return it; without: NoScale and no change |
| State.AppData.TakeScale | src-tauri/src/state.rs:115-117 | returns the held scale and empties the slot; on an empty slot, NoScale and no change |
| State.AppData.ReturnScale | src-tauri/src/state.rs:118-125 | fills an empty slot; on an occupied slot, ScaleExists and the old scale stays |
| State.TakeThenReturn | src-tauri/src/state.rs:115-125 | taking the scale and returning it restores the slot to its prior occupant |
| Commands.CheckAppData | src-tauri/src/lib.rs:20-22 | returns exactly the state's display string, which reports whether a scale is held |
| Commands.ConnectScale | src-tauri/src/lib.rs:25-30 | success maps to "Scale Connected!" and errors pass through unchanged, with the state change of `AppData.connect_scale` |
| Commands.NewCalibrationTrial | src-tauri/src/calibration_data.rs:21-36 | zero samples fail with ZeroSamples before any state access; otherwise NoScale on an empty slot; a failure of `set_data_intervals` or `get_load_cell_medians` gives Libra and leaves the slot empty; success returns the scale to its slot and yields the trial from the medians |
| Commands.AddTrial | src-tauri/src/lib.rs:33-42 | zero samples give ZeroSamples and an empty slot NoScale, with no change; a failure of `set_data_intervals` or `get_load_cell_medians` gives Libra with that error and leaves the slot empty; on success the new trial is appended to the calibration data and its JSON form returned, which reads back as that trial; a failure leaves the calibration data unchanged |
| Commands.Plot | src-tauri/src/lib.rs:55-62 | NoScale when no scale is held; an invalid trial type gives its error and asks the scale nothing; otherwise the held scale is asked for the period and then, unless that failed with Libra, for the trial; a failed trial gives NodeDiagnostics; success gives the data with its first sample dropped |
| Commands.PlotLoadCells | src-tauri/src/lib.rs:64-69 | NoScale when no scale is held; otherwise exactly the capture's outcome, whose type holds exactly four channels (`[Data; 4]`) |
| Commands.SetPhidgetInterval | src-tauri/src/lib.rs:71-82 | NoScale when no scale is held; otherwise the held scale is asked for the period and a refusal becomes Libra |
| Commands.Dispense | src-tauri/src/lib.rs:101-114 | NoScale on an empty slot; an enable failure gives Anyhow and leaves the slot empty; the scale goes back only when the dispense loop stops normally; a failed loop leaves the slot empty |
| Commands.DropScale | src-tauri/src/lib.rs:116-120 | the slot ends empty; NoScale if it already was |
| Commands.SetupRawDataCollection | src-tauri/src/lib.rs:122-127 | with a scale: consumes it and returns NotImplemented; without: NoScale; the slot ends empty |
| DataRequests.ToNodeTrial | src-tauri/src/data.rs:35-52 | Raw and Median map to their kinds; Filtered needs a cutoff and fails with the missing-cutoff Other error otherwise; Dispense is NotImplemented; the trial carries the request's samples and period; success exactly when the trial type is usable |
| DataRequests.DropFirstSample | src-tauri/src/data.rs:29-32 | non-empty data loses exactly its first reading and its first time; empty data is unchanged |
| DataRequests.Conduct | src-tauri/src/data.rs:24-34 | an invalid trial type fails before the scale is asked anything; otherwise the scale is asked for the period, then for the trial; errors become Libra or NodeDiagnostics; success yields the data without its first sample |
| DataRequests.DurationFromWire | src-tauri/src/data.rs:16-22 | accepted exactly when secs is a u64 and nanos a u32 (whole, non-negative, not `null`) and carrying the whole seconds of nanos does not overflow secs; then a duration of exactly secs seconds plus nanos nanoseconds |
| DataRequests.TestTypeFromName | src-tauri/src/data.rs:9-15 | a recognised trial name is the variant's own name |
| DataRequests.Deserialize | src-tauri/src/data.rs:16-22 | accepted exactly for a known trial name, a sample count that is a usize (whole, non-negative, at most 2^64 - 1) and an accepted period; the request carries that trial, count and period, and the cutoff with `null` read as absent |
| DataRequests.DeserializeToWire | src-tauri/src/data.rs:9-22 | every request within the struct's usize and u64 widths, written by the derived serialiser, reads back as the same request |
| Dispenser.DefaultSettings | src-tauri/src/dispenser.rs:99-111 | the defaults are 80 ms, 2.0, 5, 50, 0.5, 0.1 and 30 s |
| Dispenser.CommandedVelocity | src-tauri/src/dispenser.rs:51-60 | for a non-zero target the velocity is the maximum when the proportional speed exceeds it, that speed when it lies in (min, max], and the minimum otherwise; in every case it is the maximum, the minimum or that speed, and it lies in [min, max] whenever min <= max |
| Dispenser.VelocityMonotone | src-tauri/src/dispenser.rs:52-60 | a lower current weight never gives a higher velocity |
| Dispenser.VelocityEnds | src-tauri/src/dispenser.rs:52-60 | nothing dispensed yet gives the maximum velocity; the target dispensed gives the minimum |
| Dispenser.Dispense | src-tauri/src/dispenser.rs:11-87 | the loop over the ticks yields exactly the run its specification describes |
| Dispenser.StepAppendsOneSample | src-tauri/src/dispenser.rs:47-49 | every iteration that does not fail appends exactly one (elapsed, weight) sample before deciding; an unreadable weight fails first |
| Dispenser.StepDecision | src-tauri/src/dispenser.rs:65-85 | a check fires iff the weight dropped by target plus offset, and it counts one more check; after a check the loop stops iff the median confirms or it was the third check; without a check it stops on timeout, else goes on with the count reset |
| Dispenser.StepKeepsChecksBelowThree | src-tauri/src/dispenser.rs:72-85 | the loop never goes on with three checks counted |
| Dispenser.StepSpeedRule | src-tauri/src/dispenser.rs:51-63 | more than 25 ms after the last update, the velocity is recomputed and the update time refreshed; otherwise neither happens; earlier motor commands are kept |
| Dispenser.RunLoopVelocitiesWithin | src-tauri/src/dispenser.rs:46-86 | every velocity the loop commands lies in [min, max] |
| Dispenser.DispenseVelocitiesWithin | src-tauri/src/dispenser.rs:17-86 | every velocity a dispense commands, the initial maximum included, lies in [min, max] |
| Dispenser.RunLoopPendingChecks | src-tauri/src/dispenser.rs:45-86 | fewer than three checks are counted at the top of every iteration |
| Dispenser.RunLoopCollects | src-tauri/src/dispenser.rs:46-84 | a stopped loop returns the earlier data followed by one sample from each tick it ran, in order, with that tick's time and weight |
| Dispenser.StopsWhenTimedOut | src-tauri/src/dispenser.rs:81-84 | with every reading past the timeout, the loop stops within the checks it has left |
| Dispenser.StopsAfterTimeout | src-tauri/src/dispenser.rs:65-85 | with answering hardware and a clock that does not run backwards, the loop stops at most two iterations after the first reading past the timeout |
| Dispenser.DispenseStopsAfterTimeout | src-tauri/src/dispenser.rs:44-86 | the same for a whole dispense whose setup succeeded |
| LoadCell.TotalTime | src/LoadCell.tsx:32 | the estimate is never negative for non-negative inputs, and zero without samples or with a zero period |
| LoadCell.TotalTimeOfDuration | src/LoadCell.tsx:32 | for whole samples and a canonical period, the estimate is samples times the period, in milliseconds |
| LoadCell.IntervalDuration | src/LoadCell.tsx:37-39 | the timer period is positive; 500 periods make up the estimate when it is positive; 50 ms otherwise |
| LoadCell.NextProgress | src/LoadCell.tsx:43-51 | a tick never yields more than 100 and never decreases a value up to 100; it clears the timer exactly when it yields 100, which is when prev + 0.2 reaches 100 |
| LoadCell.ProgressFromZero | src/LoadCell.tsx:35-51 | from 0, after k ticks progress is k times 0.2 up to 500 ticks, and 100 afterwards |
| LoadCell.ClearsAtLastStep | src/LoadCell.tsx:42-53 | from 0, the 500th tick is the first one that clears the timer |
| LoadCell.TimesToSeconds | src/LoadCell.tsx:69 | one x value per timestamp: secs plus nanos times 10^-9 |
| LoadCell.ToMicrovolts | src/LoadCell.tsx:70 | one y value per reading: the reading times 10^6 |
| LoadCell.LineLabelsDistinct | src/LoadCell.tsx:74 | distinct channel indices get distinct `Load Cell i` labels |
| LoadCell.LinesAt | src/LoadCell.tsx:65-75 | one line per payload item, in order; line i is built from item i and labelled `Load Cell i` |
| LoadCell.ValidateItems | src/LoadCell.tsx:61-80 | accepted iff every item is an object with array-valued readings and times; if accepted, the lines of all items; if not, the loop stops at the first bad item with the lines of the items before it |
| LoadCell.LoadCellPage.constructor | src/LoadCell.tsx:10-17 | empty status, progress 0, not plotting, no timer, no plot lines |
| LoadCell.LoadCellPage.Begin | src/LoadCell.tsx:29 | status "Conducting trial..." and nothing else changes |
| LoadCell.LoadCellPage.StartProgress | src/LoadCell.tsx:34-53 | plotting with progress 0, and a running timer with the computed period |
| LoadCell.LoadCellPage.Tick | src/LoadCell.tsx:42-53 | a running timer applies the progress updater and stops once progress reaches 100; progress stays in [0, 100] and never decreases |
| LoadCell.LoadCellPage.Settle | src/LoadCell.tsx:56-110 | the timer is stopped, plotting ends and progress is 100 whatever the outcome; valid data becomes the plot lines with "Data logged!"; a bad item or a non-array keeps the plot lines and sets the matching message and rejection; a rejected call sets the status to the error text and keeps the plot lines |
| Plot.ToPoints | src/plot.tsx:50 | one point per x value |
| Plot.PointAt | src/plot.tsx:50 | point i is (xValues[i], yValues[i]), with y absent past the end of yValues |
| Plot.PointsUnzip | src/plot.tsx:50 | the points give back all the x values, and the y values that were paired with one |
| Plot.ToDataset | src/plot.tsx:51-57 | the label is the given non-empty label, else "Dataset"; a non-empty colour is used verbatim, else a random one; tension 0.1 and no fill |
| Plot.ToDatasets | src/plot.tsx:48-58 | one dataset per line |
| Plot.DatasetAt | src/plot.tsx:48-58 | dataset i is built from line i |
| Plot.DatasetsAppend | src/plot.tsx:48-58 | the datasets of two lists of lines drawn together are those of each list, one after the other |
| Plot.EffectDatasets | src/plot.tsx:33-58 | the effect builds one dataset per line when `dataSets` is given, and throws a TypeError when it is `undefined` |
| Plot.PlotView.constructor | src/plot.tsx:35 | no chart instance yet |
| Plot.PlotView.Effect | src/plot.tsx:37-98 | without a canvas nothing is destroyed or created; with a canvas any existing instance is destroyed; with a context a fresh chart with the projected datasets is stored; without one the ref keeps the destroyed instance |
| Plot.PlotView.Cleanup | src/plot.tsx:101-105 | destroys the current instance, if any, and keeps the ref pointing at it |
| Read.MiddleElement | src/Read.tsx:35-37 | absent exactly for no readings, and otherwise one of the readings |
| Read.MiddleOfSortedIsMedian | src/Read.tsx:35-37 | on sorted readings, at least half the readings lie at or below the result and at least half at or above it |
| Read.MiddleOfUnsortedNotMedian | src/Read.tsx:35-37 | on the unsorted readings 3, 1, 2 it yields 1, not the median 2 |
| Read.RawTrial | src/Read.tsx:62-70 | whatever the back end accepts from the raw request is a Raw request without a cutoff; a non-finite sample count or period is refused |
| Read.FilterTrial | src/Read.tsx:52-61 | whatever the back end accepts from the filtered request is a Filtered request, which becomes a trial exactly when the cutoff is finite; a non-finite sample count or period is refused |
| Read.RawTrialAccepted | src/Read.tsx:62-68 | with a sample count within a usize and a period, fractional milliseconds included, that is a whole number n of nanoseconds with n within a u32, the raw request is accepted as a Raw request for those samples and a period of n nanoseconds, and becomes a raw trial |
| Read.FilterTrialAccepted | src/Read.tsx:54-59 | under the same bounds on samples and period, a filtered request with a finite cutoff is accepted with that cutoff and becomes a filtered trial |
| Read.FilterTrialMissingCutoff | src/Read.tsx:54-59 | under the same bounds on samples and period, a cleared cutoff field goes out as `null`; the back end accepts the request without a cutoff and answers the missing-cutoff Other error |
| Read.HugeSampleCountRefused | src/Read.tsx:54-66 | a sample count beyond a usize makes the back end refuse either request |
| Read.LongPeriodRefused | src/Read.tsx:57 | a period whose nanoseconds exceed a u32 (more than 4294.967295 ms) makes the back end refuse either request |
| Read.PeriodNotWholeNanosRefused | src/Read.tsx:57 | a negative period, or one that is not a whole number of nanoseconds, makes the back end refuse either request |
| Read.PlotAsWrittenThrows | src/Read.tsx:140 | rendered as written, the chart effect throws a TypeError whatever the page holds |
| Read.PlotLines | src/Read.tsx:140 | the corrected props hold one line with exactly the page's x and y values |
| Read.PlotLinesDrawSamples | src/Read.tsx:140 | with the corrected props the chart has one dataset, labelled "Dataset", whose points give back the page's x and y values |
| Read.TimesToSeconds | src/Read.tsx:43 | one x value per timestamp: secs plus nanos times 10^-9 |
| Read.ReadPage.constructor | src/Read.tsx:25-33 | empty status, weight 0, and the initial example x and y values |
| Read.ReadPage.BeginPlot | src/Read.tsx:40 | status "Conducting trial..." before the call, nothing else changes |
| Read.ReadPage.FinishPlot | src/Read.tsx:39-50 | on success: x values from the times, y values the readings unchanged, "Data logged!", and the weight is the middle element; on error: status is the error text and plot values and weight stay |

## Left out

- Network:
  - `src-tauri/src/backend.rs` is an HTTP client of a cloud service. The `calibrate` and `get_coefficients`
    commands only forward to it and are not modelled.
  - `get_motor` and `get_controller` open a TCP controller, spawn a task and sleep 5 s. The motor appears only
    as the faults it reports.
- Motor commands: `enable_motor`, `disable_motor` and `move_motor` are single forwarded calls to the motor and
  are not modelled.
- Dead code: `src-tauri/src/calibrate.rs` and `src-tauri/src/scale.rs` are not in the module list and are not
  modelled.
- Thin front-end pages: `Connect.tsx`, `Calibrate.tsx`, `Motor.tsx`, `MotorControls.tsx`, `App.tsx`,
  `utils.ts`, the `invoke` helpers in `utilities/utils.ts`, and the `checkAppData` button of `Read.tsx`. Each
  sets a status string around one call, or navigates.
- The 2 s denoise pause (`sleepForDenoise`) is the gap between `Begin` and `StartProgress`.
- `durationFromMillis` is imported by the load-cell page but not defined in the code. The request's period is
  taken as a given `{secs, nanos}` object.
- Floating point: all arithmetic is exact. f64 rounding, the 10^-9 scaling and the accumulation of 0.2 steps
  in JavaScript are not modelled.
- Concurrency: the mutex around `AppData` is not modelled, and neither is lock poisoning. Each command runs
  alone, seeing the state the previous one left.
- Timers: tokio's interval and its skipped ticks, the interleaving of the progress timer with the promise,
  and overlapping runs on one page are not modelled. The run button is disabled only after the denoise pause.
- The promise of the load-cell `plotData` is never resolved on success. `Settle` reports this as no
  rejection. What a caller does with the rejection is not modelled.
- Rendering: the random colour, Chart.js options and drawing are not modelled. The chart handle keeps only
  its datasets and how often it was destroyed.
- JavaScript coercions in the payload are not modelled. Non-numeric array elements and a `null` timestamp,
  which throws a TypeError that reaches the `catch`, are outside the payload types. Inner elements are taken
  to be numbers and `{secs, nanos}` objects.
- Dispenser.Dispense: the low-pass filter is not modelled. Each tick supplies the filtered weight directly,
  so the filter reset after an unconfirmed check (`src-tauri/src/dispenser.rs:75-76`) is not modelled either.
- Dispenser.Dispense: one clock reading per iteration stands for the several `Instant::now()` calls. The
  2 s settling sleep is not modelled.
- Dispenser.Dispense: each tick holds one motor fault. It applies to the first motor command of that
  iteration, so a fault on a later command of the same iteration is not modelled.
- Commands.Dispense: when the ticks run out mid-dispense the command has not finished. It answers
  `StillDispensing` and the slot stays empty.
- Commands.AddTrial: the JSON value is returned as a tree. Its rendering as text, and a `Serde` failure of
  that rendering (which cannot happen for these values), are not modelled.
- Commands.PlotLoadCells: `LoadCellDataRequest::conduct` is not part of this model. Its outcome is a
  parameter.
- State.AppData.Display: the Debug rendering of an `f64` is a parameter. Only the layout around it is fixed.
- Logging: `error!` in the error serialiser (`src-tauri/src/errors.rs:41`), `println!` in
  `AppData::connect_scale` (`src-tauri/src/state.rs:41`) and `console.error` on the load-cell page
  (`src/LoadCell.tsx:90,96`) write to logs only and are not modelled.
- LoadCell.TotalTime: the load-cell page's form numbers are taken as finite. A cleared field (`NaN`) is not
  modelled there; it would make the estimate `NaN`, the timer fall back to 50 ms, and the request go out with
  a `null`.
- DataRequests.Deserialize: `usize` is taken to be 64 bits wide, as on the desktop targets the app is built
  for.
- Errors.Display: the text of wrapped library errors (scale, HTTP, JSON, diagnostics) is a string parameter.
  The detail of an `anyhow` error is kept but never displayed.

## Findings

| source | as written | input that shows it | evidently intended | confidence | as-written member | corrected member |
|---|---|---|---|---|---|---|
| src/Read.tsx:140 | the page renders `<Plot xValues={xPlotValues} yValues={yPlotValues} />`, but the component reads only `dataSets` (src/plot.tsx:29-33), so `dataSets.map` runs on `undefined` and the effect throws a TypeError | any render with a canvas and a 2-D context, for example the first render with the initial values [1, 2.5, 3, 4] and [0, 3.1, 4.3, 6.1] | pass the samples as one line, `dataSets={[{xValues: xPlotValues, yValues: yPlotValues}]}`, so the chart draws the readings against time | not executed | Read.PlotAsWrittenThrows | Read.PlotLinesDrawSamples |
