/** The command handlers the front end invokes (`#[tauri::command]` functions), each an operation on the shared
    `AppData`, together with `CalibrationTrial::new`, which takes the scale out of the shared state and puts it
    back. Each command runs alone: the mutex that serialises them is not modelled, so a command sees the state
    exactly as the previous one left it. The motor controller (`get_motor`) is reached over the network and is
    represented only by what it answers. */
module Commands {
  import opened Wrappers
  import opened Durations
  import opened Hardware
  import opened Errors
  import opened Calibration
  import opened State
  import opened DataRequests
  import opened Dispenser

  /** `check_app_data`: the display string of the state. */
  method CheckAppData(state: AppData, f64Debug: real -> string) returns (s: string)
    ensures s == state.Display(f64Debug)
    ensures ReportsScale(s) == state.scale.Some?
  {
    s := state.Display(f64Debug);
  }

  const ScaleConnectedMessage := "Scale Connected!"

  /** `connect_scale`. */
  method ConnectScale(state: AppData, opening: Result<int, string>, intervalFault: Option<string>)
    returns (r: Result<string, AppError>)
    modifies state
    ensures old(state.scale).Some? ==> r == Success(ScaleConnectedMessage) && unchanged(state)
    ensures old(state.scale).None? ==>
              (r == Success(ScaleConnectedMessage) <==> opening.Success? && intervalFault.None?)
    ensures old(state.scale).None? && opening.Failure? ==> r == Failure(Libra(opening.error)) && unchanged(state)
    ensures old(state.scale).None? && opening.Success? && intervalFault.Some? ==>
              r == Failure(Libra(intervalFault.value)) && unchanged(state)
    ensures old(state.scale).None? && opening.Success? && intervalFault.None? ==>
              && state.scale.Some? && fresh(state.scale.value)
              && state.scale.value.phidgetId == opening.value
              && state.calibrationData == Some(NewCalibrationData(opening.value))
    ensures old(state.Consistent()) ==> state.Consistent()
  {
    var res := state.ConnectScale(opening, intervalFault);
    match res
    case Pass => r := Success(ScaleConnectedMessage);
    case Fail(e) => r := Failure(e);
  }

  /** `CalibrationTrial::new`: `intervalFault` is the scale's answer to `set_data_intervals(sample_period)`,
      `medians` the four load-cell medians it reports, `now` the system clock. Zero samples fail before the
      state is touched; a scale failure leaves the slot empty, because the scale taken out is dropped. */
  method NewCalibrationTrial(state: AppData, samples: nat, weight: real, samplePeriod: Duration,
                             intervalFault: Option<string>, medians: Result<Quad, string>, now: Duration)
    returns (r: Result<CalibrationTrial, AppError>)
    modifies state, state.ScaleFrame()
    ensures samples == 0 ==> r == Failure(ZeroSamples) && unchanged(state) && unchanged(state.ScaleFrame())
    ensures samples > 0 && old(state.scale).None? ==> r == Failure(NoScale) && unchanged(state)
    ensures samples > 0 && old(state.scale).Some? ==>
              && old(state.scale).value.calls
                   == old(state.scale.value.calls) + [SetDataIntervalsCall(samplePeriod)]
                      + (if intervalFault.None? then [LoadCellMediansCall(samples, samplePeriod)] else [])
              && (intervalFault.Some? ==> r == Failure(Libra(intervalFault.value)) && state.scale.None?)
              && (intervalFault.None? && medians.Failure? ==> r == Failure(Libra(medians.error)) && state.scale.None?)
              && (intervalFault.None? && medians.Success? ==>
                    r == Success(FromArray(medians.value, weight, now)) && state.scale == old(state.scale))
    ensures state.coefficients == old(state.coefficients) && state.calibrationData == old(state.calibrationData)
    ensures old(state.Consistent()) ==> state.Consistent()
  {
    if samples == 0 {
      return Failure(ZeroSamples);
    }
    var taken := state.TakeScale();
    if taken.Failure? {
      return Failure(taken.error);
    }
    var scale := taken.value;
    var interval := scale.SetDataIntervals(samplePeriod, intervalFault);
    if interval.Fail? {
      return Failure(Libra(interval.error));
    }
    var readings := scale.GetLoadCellMedians(samples, samplePeriod, medians);
    if readings.Failure? {
      return Failure(Libra(readings.error));
    }
    var returned := state.ReturnScale(scale);
    match returned
    case Fail(e) => r := Failure(e);
    case Pass => r := Success(FromArray(readings.value, weight, now));
  }

  /** `add_trial`: conduct a calibration trial, append it to the calibration data, and answer its JSON form. */
  method AddTrial(state: AppData, samples: nat, weight: real, samplePeriod: Duration,
                  intervalFault: Option<string>, medians: Result<Quad, string>, now: Duration)
    returns (r: Result<Json, AppError>)
    modifies state, state.ScaleFrame()
    ensures samples == 0 ==> r == Failure(ZeroSamples) && unchanged(state)
    ensures samples > 0 && old(state.scale).None? ==> r == Failure(NoScale) && unchanged(state)
    ensures samples > 0 && old(state.scale).Some? && old(state.Consistent())
            && intervalFault.None? && medians.Success? ==>
              var trial := FromArray(medians.value, weight, now);
              && r == Success(TrialToJson(trial))
              && state.scale == old(state.scale)
              && state.calibrationData == Some(Calibration.AddTrial(old(state.calibrationData).value, trial))
    ensures samples > 0 && old(state.scale).Some? && intervalFault.Some? ==>
              r == Failure(Libra(intervalFault.value)) && state.scale.None?
    ensures samples > 0 && old(state.scale).Some? && intervalFault.None? && medians.Failure? ==>
              r == Failure(Libra(medians.error)) && state.scale.None?
    ensures r.Failure? ==> state.calibrationData == old(state.calibrationData)
    ensures r.Success? ==> medians.Success? && TrialFromJson(r.value) == Some(FromArray(medians.value, weight, now))
    ensures state.coefficients == old(state.coefficients)
    ensures old(state.Consistent()) ==> state.Consistent()
  {
    var made := NewCalibrationTrial(state, samples, weight, samplePeriod, intervalFault, medians, now);
    if made.Failure? {
      return Failure(made.error);
    }
    var added := state.AddCalibrationTrial(made.value);
    if added.Failure? {
      return Failure(added.error);
    }
    r := Success(TrialToJson(added.value));
  }

  /** `plot`: conduct a sampling trial on the held scale, which stays in its slot. */
  method Plot(state: AppData, request: DataRequest, intervalFault: Option<string>, answer: Result<Data, string>)
    returns (r: Result<Data, AppError>)
    modifies state.ScaleFrame()
    ensures old(state.scale).None? ==> r == Failure(NoScale)
    ensures old(state.scale).Some? && ToNodeTrial(request).Failure? ==>
              r == Failure(ToNodeTrial(request).error) && state.scale.value.calls == old(state.scale.value.calls)
    ensures old(state.scale).Some? && ToNodeTrial(request).Success? && intervalFault.None? && answer.Success? ==>
              r == Success(DropFirstSample(answer.value))
    ensures old(state.scale).Some? && ToNodeTrial(request).Success? && intervalFault.None? && answer.Failure? ==>
              r == Failure(NodeDiagnostics(answer.error))
    ensures old(state.scale).Some? && ToNodeTrial(request).Success? && intervalFault.Some? ==>
              r == Failure(Libra(intervalFault.value))
    ensures old(state.scale).Some? && ToNodeTrial(request).Success? ==>
              state.scale.value.calls == old(state.scale.value.calls) + [SetDataIntervalsCall(request.samplePeriod)]
                                         + (if intervalFault.None? then [ConductCall(ToNodeTrial(request).value)] else [])
  {
    if state.scale.None? {
      return Failure(NoScale);
    }
    r := Conduct(request, state.scale.value, intervalFault, answer);
  }

  /** One `Data` per load cell: the `[Data; 4]` that `plot_lc` returns. */
  type Channels = s: seq<Data> | |s| == 4 witness [EmptyData(), EmptyData(), EmptyData(), EmptyData()]

  /** `plot_lc`: the four-channel capture. `LoadCellDataRequest::conduct` is not part of this model; `answer`
      stands for what it returns. */
  method PlotLoadCells(state: AppData, answer: Result<Channels, AppError>) returns (r: Result<Channels, AppError>)
    ensures state.scale.None? ==> r == Failure(NoScale)
    ensures state.scale.Some? ==> r == answer
  {
    if state.scale.None? {
      return Failure(NoScale);
    }
    r := answer;
  }

  /** `set_phidget_interval`. */
  method SetPhidgetInterval(state: AppData, samplePeriod: Duration, fault: Option<string>)
    returns (r: Outcome<AppError>)
    modifies state.ScaleFrame()
    ensures old(state.scale).None? ==> r == Fail(NoScale)
    ensures old(state.scale).Some? ==>
              && state.scale.value.calls == old(state.scale.value.calls) + [SetDataIntervalsCall(samplePeriod)]
              && r == (if fault.None? then Pass else Fail(Libra(fault.value)))
  {
    if state.scale.None? {
      return Fail(NoScale);
    }
    var res := state.scale.value.SetDataIntervals(samplePeriod, fault);
    r := if res.Pass? then Pass else Fail(Libra(res.error));
  }

  /** What a `dispense` command has produced once its inputs are used up: a final answer, or nothing yet. */
  datatype DispenseReply = Replied(result: Result<Data, AppError>) | StillDispensing

  /** `dispense`: take the scale, enable the motor (`enableFault` is its answer), run the dispense loop, and
      put the scale back only when the loop succeeded. */
  method Dispense(state: AppData, settings: DispenseSettings, enableFault: Option<string>, inputs: DispenseInputs)
    returns (r: DispenseReply)
    modifies state
    ensures old(state.scale).None? ==> r == Replied(Failure(NoScale)) && unchanged(state)
    ensures old(state.scale).Some? && enableFault.Some? ==>
              r == Replied(Failure(Anyhow(enableFault.value))) && state.scale.None?
    ensures old(state.scale).Some? && enableFault.None? ==>
              match DispenseRun(settings, inputs)
              case Stopped(data, _) => r == Replied(Success(data)) && state.scale == old(state.scale)
              case Failed(e) => r == Replied(Failure(e)) && state.scale.None?
              case Pending(_) => r == StillDispensing && state.scale.None?
    ensures state.coefficients == old(state.coefficients) && state.calibrationData == old(state.calibrationData)
    ensures old(state.Consistent()) ==> state.Consistent()
  {
    var taken := state.TakeScale();
    if taken.Failure? {
      return Replied(Failure(taken.error));
    }
    var scale := taken.value;
    if enableFault.Some? {
      return Replied(Failure(Anyhow(enableFault.value)));
    }
    var run := Dispenser.Dispense(settings, inputs);
    match run
    case Failed(e) => r := Replied(Failure(e));
    case Pending(_) => r := StillDispensing;
    case Stopped(data, _) =>
      var returned := state.ReturnScale(scale);
      match returned
      case Fail(e) => r := Replied(Failure(e));
      case Pass => r := Replied(Success(data));
  }

  /** `drop_scale`: the slot ends empty. */
  method DropScale(state: AppData) returns (r: Outcome<AppError>)
    modifies state
    ensures state.scale.None?
    ensures r == if old(state.scale).Some? then Pass else Fail(NoScale)
    ensures state.coefficients == old(state.coefficients) && state.calibrationData == old(state.calibrationData)
  {
    var taken := state.TakeScale();
    r := if taken.Success? then Pass else Fail(taken.error);
  }

  /** `setup_raw_data_collection`: consumes the scale and reports that the feature is missing. */
  method SetupRawDataCollection(state: AppData) returns (r: Outcome<AppError>)
    modifies state
    ensures state.scale.None?
    ensures r == if old(state.scale).Some? then Fail(NotImplemented) else Fail(NoScale)
    ensures state.coefficients == old(state.coefficients) && state.calibrationData == old(state.calibrationData)
  {
    var taken := state.TakeScale();
    if taken.Failure? {
      return Fail(taken.error);
    }
    r := Fail(NotImplemented);
  }
}
