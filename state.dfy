/** The back end's shared state (`AppData`): a slot for the connected scale, the last coefficients pushed to
    it and the calibration data gathered for it. Every operation changes the slots in place. The motor
    controller slots (`controller`, `clear_core`) belong to the network side and are not part of this model. */
module State {
  import opened Wrappers
  import opened Durations
  import opened Hardware
  import opened Errors
  import opened Calibration

  /** The Debug rendering of an `Option<[f64; 4]>`, given how one `f64` is printed. */
  function DebugCoefficients(c: Option<Quad>, f64Debug: real -> string): string
  {
    match c
    case None => "None"
    case Some(q) => "Some([" + f64Debug(q[0]) + ", " + f64Debug(q[1]) + ", " + f64Debug(q[2]) + ", "
                    + f64Debug(q[3]) + "])"
  }

  /** The `Display` layout "Scale: <flag>, Coefficients: <debug>" with the slot's `is_some()` and the coefficients. */
  function Render(scaleHeld: bool, c: Option<Quad>, f64Debug: real -> string): string
  {
    "Scale: " + (if scaleHeld then "true" else "false") + ", Coefficients: " + DebugCoefficients(c, f64Debug)
  }

  /** What a reader of the display string learns about the scale slot. */
  function ReportsScale(s: string): bool
  {
    |s| > 7 && s[7] == 't'
  }

  /** The display string tells whether a scale is held, and its last character tells whether coefficients are set. */
  lemma RenderReports(scaleHeld: bool, c: Option<Quad>, f64Debug: real -> string)
    ensures ReportsScale(Render(scaleHeld, c, f64Debug)) == scaleHeld
    ensures var s := Render(scaleHeld, c, f64Debug);
            |s| > 0 && (s[|s| - 1] == 'e' <==> c.None?)
    ensures c.None? ==> Render(scaleHeld, c, f64Debug)
                        == "Scale: " + (if scaleHeld then "true" else "false") + ", Coefficients: None"
  {
    var flag := if scaleHeld then "true" else "false";
    var s := Render(scaleHeld, c, f64Debug);
    assert s == "Scale: " + flag + ", Coefficients: " + DebugCoefficients(c, f64Debug);
    assert s[7] == flag[0];
    var d := DebugCoefficients(c, f64Debug);
    assert s[|s| - 1] == d[|d| - 1];
  }

  class AppData {
    var scale: Option<ConnectedScale>
    var coefficients: Option<Quad>
    var calibrationData: Option<CalibrationData>

    /** `AppData::new()`: every slot empty. */
    constructor ()
      ensures scale.None? && coefficients.None? && calibrationData.None?
    {
      scale := None;
      coefficients := None;
      calibrationData := None;
    }

    /** The objects a method may touch besides this one: the held scale, if any. */
    function ScaleFrame(): set<object>
      reads this
    {
      if scale.Some? then {scale.value} else {}
    }

    /** A held scale always comes with its calibration data (every command keeps this). */
    predicate Consistent()
      reads this
    {
      scale.Some? ==> calibrationData.Some?
    }

    /** `impl Display for AppData`. */
    function Display(f64Debug: real -> string): (s: string)
      reads this
      ensures ReportsScale(s) == scale.Some?
    {
      RenderReports(scale.Some?, coefficients, f64Debug);
      Render(scale.Some?, coefficients, f64Debug)
    }

    /** `connect_scale`: `opening` is the answer of `ConnectedScale::without_id` (3 s timeout) — the new scale's
        phidget id or the scale error — and `intervalFault` the answer to `set_data_intervals(40 ms)`. */
    method ConnectScale(opening: Result<int, string>, intervalFault: Option<string>) returns (r: Outcome<AppError>)
      modifies this
      ensures old(scale).Some? ==> r == Pass && unchanged(this)
      ensures old(scale).None? && opening.Failure? ==> r == Fail(Libra(opening.error)) && unchanged(this)
      ensures old(scale).None? && opening.Success? && intervalFault.Some? ==>
                r == Fail(Libra(intervalFault.value)) && unchanged(this)
      ensures old(scale).None? && opening.Success? && intervalFault.None? ==>
                && r == Pass
                && scale.Some? && fresh(scale.value)
                && scale.value.phidgetId == opening.value
                && scale.value.calls == [SetDataIntervalsCall(FromMillis(40))]
                && calibrationData == Some(NewCalibrationData(opening.value))
                && coefficients == old(coefficients)
      ensures (old(Consistent()) ==> Consistent()) && (r.Fail? ==> r.error.Libra?)
    {
      if scale.Some? {
        return Pass;
      }
      if opening.Failure? {
        return Fail(Libra(opening.error));
      }
      var s := new ConnectedScale(opening.value);
      var interval := s.SetDataIntervals(FromMillis(40), intervalFault);
      if interval.Fail? {
        return Fail(Libra(interval.error));
      }
      calibrationData := Some(NewCalibrationData(s.phidgetId));
      scale := Some(s);
      r := Pass;
    }

    /** `update_coefficients`: the scale is taken, given the coefficients, and put back. */
    method UpdateCoefficients(c: Coefficients) returns (r: Outcome<AppError>)
      modifies this, ScaleFrame()
      ensures old(scale).None? ==> r == Fail(NoScale) && unchanged(this)
      ensures old(scale).Some? ==>
                && r == Pass
                && scale == old(scale)
                && scale.value.calls == old(scale.value.calls) + [UpdateCoefficientsCall(c.GetCoefficients())]
                && coefficients == Some(c.GetCoefficients())
                && calibrationData == old(calibrationData)
      ensures old(Consistent()) ==> Consistent()
    {
      var taken := TakeScale();
      if taken.Failure? {
        return Fail(taken.error);
      }
      var s := taken.value;
      s.UpdateCoefficients(c.GetCoefficients());
      scale := Some(s);
      coefficients := Some(c.GetCoefficients());
      r := Pass;
    }

    /** `add_calibration_trial`: appends the trial to the calibration data and hands it back. */
    method AddCalibrationTrial(t: CalibrationTrial) returns (r: Result<CalibrationTrial, AppError>)
      modifies this
      ensures old(calibrationData).None? ==> r == Failure(NoScale) && unchanged(this)
      ensures old(calibrationData).Some? ==>
                && r == Success(t)
                && calibrationData == Some(AddTrial(old(calibrationData).value, t))
                && scale == old(scale) && coefficients == old(coefficients)
      ensures old(Consistent()) ==> Consistent()
    {
      if calibrationData.Some? {
        calibrationData := Some(AddTrial(calibrationData.value, t));
        r := Success(t);
      } else {
        r := Failure(NoScale);
      }
    }

    /** `take_scale`: moves the scale out of its slot. */
    method TakeScale() returns (r: Result<ConnectedScale, AppError>)
      modifies this
      ensures old(scale).None? ==> r == Failure(NoScale) && unchanged(this)
      ensures old(scale).Some? ==> r == Success(old(scale).value) && scale.None?
      ensures coefficients == old(coefficients) && calibrationData == old(calibrationData)
      ensures Consistent()
    {
      if scale.Some? {
        r := Success(scale.value);
        scale := None;
      } else {
        r := Failure(NoScale);
      }
    }

    /** `return_scale`: fills an empty slot; an occupied slot keeps its scale. */
    method ReturnScale(s: ConnectedScale) returns (r: Outcome<AppError>)
      modifies this
      ensures old(scale).None? ==> r == Pass && scale == Some(s)
      ensures old(scale).Some? ==> r == Fail(ScaleExists) && scale == old(scale)
      ensures coefficients == old(coefficients) && calibrationData == old(calibrationData)
    {
      if scale.None? {
        scale := Some(s);
        r := Pass;
      } else {
        r := Fail(ScaleExists);
      }
    }
  }

  /** Taking the scale out and returning it at once restores the slot to its prior occupant; an empty slot
      stays empty and the taking fails with `NoScale`. */
  method TakeThenReturn(state: AppData) returns (r: Outcome<AppError>)
    modifies state
    ensures state.scale == old(state.scale)
    ensures state.coefficients == old(state.coefficients) && state.calibrationData == old(state.calibrationData)
    ensures r == if old(state.scale).Some? then Pass else Fail(NoScale)
  {
    var taken := state.TakeScale();
    if taken.Failure? {
      return Fail(taken.error);
    }
    r := state.ReturnScale(taken.value);
  }
}
