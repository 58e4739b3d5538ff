/** Calibration trials and their accumulation (`CalibrationTrial`, `CalibrationData`, `Coefficients`), and the
    JSON value that `serde` derives for a trial. */
module Calibration {
  import opened Wrappers
  import opened Durations
  import opened Hardware

  /** Four load-cell medians taken at a known weight, stamped with the wall-clock time of the trial. */
  datatype CalibrationTrial = CalibrationTrial(readings: seq<real>, weight: real, timestamp: Duration)

  /** `CalibrationTrial::from_array(data, weight)`; `now` is the system clock's time since the Unix epoch. */
  function FromArray(data: Quad, weight: real, now: Duration): (t: CalibrationTrial)
    ensures |t.readings| == 4 && forall i :: 0 <= i < 4 ==> t.readings[i] == data[i]
    ensures t.weight == weight && t.timestamp == now
  {
    CalibrationTrial(data, weight, now)
  }

  /** The trials gathered for one connected scale. */
  datatype CalibrationData = CalibrationData(trials: seq<CalibrationTrial>, phidgetId: int)

  /** `CalibrationData::new(phidget_id)`. */
  function NewCalibrationData(phidgetId: int): (d: CalibrationData)
    ensures |d.trials| == 0 && d.phidgetId == phidgetId
  {
    CalibrationData([], phidgetId)
  }

  /** `CalibrationData::add_trial`: the trial goes to the end, the earlier trials and the id are kept. */
  function AddTrial(d: CalibrationData, t: CalibrationTrial): (r: CalibrationData)
    ensures |r.trials| == |d.trials| + 1 && r.trials[|d.trials|] == t
    ensures r.trials[..|d.trials|] == d.trials && r.phidgetId == d.phidgetId
  {
    d.(trials := d.trials + [t])
  }

  /** Adding trials one at a time keeps them in the order they were added. */
  function AddTrials(d: CalibrationData, ts: seq<CalibrationTrial>): CalibrationData
    decreases |ts|
  {
    if ts == [] then d else AddTrials(AddTrial(d, ts[0]), ts[1..])
  }

  lemma {:induction false} AddTrialsAppends(d: CalibrationData, ts: seq<CalibrationTrial>)
    ensures AddTrials(d, ts).trials == d.trials + ts
    ensures AddTrials(d, ts).phidgetId == d.phidgetId
    decreases |ts|
  {
    if ts != [] {
      AddTrialsAppends(AddTrial(d, ts[0]), ts[1..]);
      assert d.trials + [ts[0]] + ts[1..] == d.trials + ts;
    }
  }

  /** The coefficients the calibration service returns. */
  datatype Coefficients = Coefficients(coefficients: Quad)
  {
    /** `get_coefficients`: the stored array, unchanged. */
    function GetCoefficients(): (r: Quad)
      ensures Coefficients(r) == this
    {
      coefficients
    }
  }

  // The JSON value `serde_json` builds for a trial (`#[derive(Serialize)]`): an object with the fields in
  // declaration order, a `Vec<f64>` as an array of numbers, a `Duration` as `{"secs": .., "nanos": ..}`.

  datatype Json =
    | JNull
    | JNumber(n: real)
    | JString(s: string)
    | JArray(items: seq<Json>)
    | JObject(members: seq<(string, Json)>)

  function NumbersToJson(xs: seq<real>): (items: seq<Json>)
    ensures |items| == |xs|
  {
    seq(|xs|, i requires 0 <= i < |xs| => JNumber(xs[i]))
  }

  function DurationToJson(d: Duration): Json
  {
    JObject([("secs", JNumber(d.secs as real)), ("nanos", JNumber(d.nanos as real))])
  }

  /** `#[derive(Serialize)]` of a trial: the value carries everything the trial holds, since it reads back as
      the same trial. */
  function TrialToJson(t: CalibrationTrial): (j: Json)
    ensures TrialFromJson(j) == Some(t)
  {
    NumbersRoundTrip(t.readings);
    assert NatFromJson(JNumber(t.timestamp.secs as real)) == Some(t.timestamp.secs);
    assert NatFromJson(JNumber(t.timestamp.nanos as real)) == Some(t.timestamp.nanos);
    JObject([("readings", JArray(NumbersToJson(t.readings))),
             ("weight", JNumber(t.weight)),
             ("timestamp", DurationToJson(t.timestamp))])
  }

  // Reading a trial back from its JSON value, as a deserialiser of the same struct would.

  function NumbersFromJson(items: seq<Json>): Option<seq<real>>
    decreases |items|
  {
    if items == [] then Some([])
    else if !items[0].JNumber? then None
    else match NumbersFromJson(items[1..])
         case None => None
         case Some(rest) => Some([items[0].n] + rest)
  }

  function NatFromJson(j: Json): Option<nat>
  {
    if j.JNumber? && j.n >= 0.0 && j.n.Floor as real == j.n then Some(j.n.Floor as nat) else None
  }

  function DurationFromJson(j: Json): Option<Duration>
  {
    if j.JObject? && |j.members| == 2 && j.members[0].0 == "secs" && j.members[1].0 == "nanos" then
      match (NatFromJson(j.members[0].1), NatFromJson(j.members[1].1))
      case (Some(s), Some(n)) => if n < NanosPerSec then Some(DurationRec(s, n)) else None
      case _ => None
    else None
  }

  function TrialFromJson(j: Json): Option<CalibrationTrial>
  {
    if j.JObject? && |j.members| == 3
       && j.members[0].0 == "readings" && j.members[0].1.JArray?
       && j.members[1].0 == "weight" && j.members[1].1.JNumber?
       && j.members[2].0 == "timestamp"
    then
      match (NumbersFromJson(j.members[0].1.items), DurationFromJson(j.members[2].1))
      case (Some(rs), Some(d)) => Some(CalibrationTrial(rs, j.members[1].1.n, d))
      case _ => None
    else None
  }

  lemma {:induction false} NumbersRoundTrip(xs: seq<real>)
    ensures NumbersFromJson(NumbersToJson(xs)) == Some(xs)
    decreases |xs|
  {
    if xs != [] {
      NumbersRoundTrip(xs[1..]);
      assert NumbersToJson(xs)[1..] == NumbersToJson(xs[1..]);
      assert [xs[0]] + xs[1..] == xs;
    }
  }
}
