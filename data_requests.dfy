/** Sampling requests (`DataRequest`): how the requested trial type becomes a diagnostics trial, and how a
    trial is conducted on the scale with its first sample dropped. Also the deserialisation of the request
    object the front end sends. */
module DataRequests {
  import opened Wrappers
  import opened Durations
  import opened Hardware
  import opened Errors

  datatype TestType = Filtered | Raw | Median | Dispense

  datatype DataRequest = DataRequest(trial: TestType, samples: nat, samplePeriod: Duration,
                                     cutoffFrequency: Option<real>)

  const MissingCutoffMessage := "Missing cutoff frequency for filtered trial!"

  /** `DataRequest::to_node_trial`. */
  function ToNodeTrial(req: DataRequest): (r: Result<NodeTrial, AppError>)
    ensures r.Success? <==> req.trial.Raw? || req.trial.Median? || (req.trial.Filtered? && req.cutoffFrequency.Some?)
    ensures r.Success? ==> r.value.samples == req.samples && r.value.samplePeriod == req.samplePeriod
    ensures req.trial.Raw? ==> r.Success? && r.value.kind == RawKind
    ensures req.trial.Median? ==> r.Success? && r.value.kind == MedianKind
    ensures req.trial.Filtered? && req.cutoffFrequency.Some? ==>
              r.Success? && r.value.kind == FilteredKind(Filter(req.samplePeriod, req.cutoffFrequency.value))
    ensures req.trial.Filtered? && req.cutoffFrequency.None? ==> r == Failure(Other(MissingCutoffMessage))
    ensures req.trial.Dispense? ==> r == Failure(NotImplemented)
  {
    var kind: Result<TrialKind, AppError> :=
      match req.trial
      case Raw => Success(RawKind)
      case Median => Success(MedianKind)
      case Filtered =>
        if req.cutoffFrequency.None? then Failure(Other(MissingCutoffMessage))
        else Success(FilteredKind(Filter(req.samplePeriod, req.cutoffFrequency.value)))
      case Dispense => Failure(NotImplemented);
    if kind.Failure? then Failure(kind.error) else Success(NodeTrial(kind.value, req.samples, req.samplePeriod))
  }

  /** The first sample of a trial is discarded, from both readings and times. */
  function DropFirstSample(d: Data): (r: Data)
    ensures |d.readings| > 0 ==> d.readings == [d.readings[0]] + r.readings && d.times == [d.times[0]] + r.times
    ensures |d.readings| == 0 ==> r == d
  {
    if |d.readings| > 0 then DataRec(d.readings[1..], d.times[1..]) else d
  }

  /** `DataRequest::conduct(scale)`: `intervalFault` is the scale's answer to `set_data_intervals`, `answer`
      what the diagnostics trial returns. An unusable trial type fails before the scale is asked anything. */
  method Conduct(req: DataRequest, scale: ConnectedScale, intervalFault: Option<string>,
                 answer: Result<Data, string>) returns (r: Result<Data, AppError>)
    modifies scale
    ensures ToNodeTrial(req).Failure? ==> r == Failure(ToNodeTrial(req).error) && scale.calls == old(scale.calls)
    ensures ToNodeTrial(req).Success? ==>
              scale.calls == old(scale.calls) + [SetDataIntervalsCall(req.samplePeriod)]
                             + (if intervalFault.None? then [ConductCall(ToNodeTrial(req).value)] else [])
    ensures ToNodeTrial(req).Success? && intervalFault.Some? ==> r == Failure(Libra(intervalFault.value))
    ensures ToNodeTrial(req).Success? && intervalFault.None? && answer.Failure? ==>
              r == Failure(NodeDiagnostics(answer.error))
    ensures ToNodeTrial(req).Success? && intervalFault.None? && answer.Success? ==>
              r == Success(DropFirstSample(answer.value))
  {
    var trial := ToNodeTrial(req);
    if trial.Failure? {
      return Failure(trial.error);
    }
    var interval := scale.SetDataIntervals(req.samplePeriod, intervalFault);
    if interval.Fail? {
      return Failure(Libra(interval.error));
    }
    var conducted := scale.Conduct(trial.value, answer);
    if conducted.Failure? {
      return Failure(NodeDiagnostics(conducted.error));
    }
    var data := conducted.value;
    if |data.readings| > 0 {
      data := DataRec(data.readings[1..], data.times[1..]);
    }
    r := Success(data);
  }

  // The request object as it arrives from the front end and its `#[derive(Deserialize)]`. JSON numbers are
  // reals; a number the page could not write (`NaN`, an infinity) arrives as `null`, here `None`.

  const U32Max: nat := 4_294_967_295
  /** The largest `u64`, which is also the largest `usize` on the 64-bit targets the app is built for. */
  const U64Max: nat := 18_446_744_073_709_551_615

  datatype WireDuration = WireDuration(secs: Option<real>, nanos: Option<real>)
  datatype WireRequest = WireRequest(trial: string, samples: Option<real>, samplePeriod: WireDuration,
                                     cutoffFrequency: Option<real>)

  /** A JSON number (not `null`) that a `u64` or `usize` field accepts. */
  predicate IsNatValued(x: Option<real>)
  {
    x.Some? && x.value >= 0.0 && x.value.Floor as real == x.value
  }

  function TestTypeFromName(name: string): (r: Option<TestType>)
    ensures r.Some? ==> NameOf(r.value) == name
  {
    if name == "Filtered" then Some(Filtered)
    else if name == "Raw" then Some(Raw)
    else if name == "Median" then Some(Median)
    else if name == "Dispense" then Some(Dispense)
    else None
  }

  /** The variant's name, as `#[derive(Serialize)]` writes a unit variant. */
  function NameOf(t: TestType): string
  {
    match t
    case Filtered => "Filtered"
    case Raw => "Raw"
    case Median => "Median"
    case Dispense => "Dispense"
  }

  /** `Duration`'s deserialiser: a `u64` of `secs` and a `u32` of `nanos`, normalised as `Duration::new` does;
      refused when carrying the whole seconds of `nanos` overflows `secs`. */
  function DurationFromWire(w: WireDuration): (r: Option<Duration>)
    ensures r.Some? <==> && IsNatValued(w.secs) && IsNatValued(w.nanos)
                         && w.secs.value.Floor <= U64Max && w.nanos.value.Floor <= U32Max
                         && w.secs.value.Floor + w.nanos.value.Floor / NanosPerSec <= U64Max
    ensures r.Some? ==> TotalNanos(r.value) == w.secs.value.Floor * NanosPerSec + w.nanos.value.Floor
    ensures r.Some? ==> r.value.secs <= U64Max
  {
    if && IsNatValued(w.secs) && IsNatValued(w.nanos)
       && w.secs.value.Floor <= U64Max && w.nanos.value.Floor <= U32Max
       && w.secs.value.Floor + w.nanos.value.Floor / NanosPerSec <= U64Max
    then
      var s: nat := w.secs.value.Floor;
      var n: nat := w.nanos.value.Floor;
      Some(DurationRec(s + n / NanosPerSec, n % NanosPerSec))
    else None
  }

  /** `DataRequest`'s deserialiser: a known trial name, a sample count that is a `usize` and a valid period
      are required; the cutoff is optional and `null` reads as its absence. */
  function Deserialize(w: WireRequest): (r: Option<DataRequest>)
    ensures r.Some? <==> TestTypeFromName(w.trial).Some? && DurationFromWire(w.samplePeriod).Some?
                         && IsNatValued(w.samples) && w.samples.value.Floor <= U64Max
    ensures r.Some? ==> && NameOf(r.value.trial) == w.trial
                        && r.value.samples as real == w.samples.value
                        && r.value.samplePeriod == DurationFromWire(w.samplePeriod).value
                        && r.value.cutoffFrequency == w.cutoffFrequency
  {
    match (TestTypeFromName(w.trial), DurationFromWire(w.samplePeriod))
    case (Some(t), Some(d)) =>
      if IsNatValued(w.samples) && w.samples.value.Floor <= U64Max then Some(DataRequest(t, w.samples.value.Floor, d, w.cutoffFrequency)) else None
    case _ => None
  }

  /** The request as `#[derive(Serialize)]` writes it. */
  function ToWire(req: DataRequest): WireRequest
  {
    WireRequest(NameOf(req.trial), Some(req.samples as real),
                WireDuration(Some(req.samplePeriod.secs as real), Some(req.samplePeriod.nanos as real)),
                req.cutoffFrequency)
  }

  /** Every request survives a serialisation round trip. The bounds are those of the struct's `usize` and
      `u64` fields, which every request the back end holds meets. */
  lemma DeserializeToWire(req: DataRequest)
    requires req.samples <= U64Max && req.samplePeriod.secs <= U64Max
    ensures Deserialize(ToWire(req)) == Some(req)
  {
    var w := ToWire(req);
    assert (req.samples as real).Floor == req.samples;
    assert (req.samplePeriod.secs as real).Floor == req.samplePeriod.secs;
    assert (req.samplePeriod.nanos as real).Floor == req.samplePeriod.nanos;
    assert TestTypeFromName(NameOf(req.trial)) == Some(req.trial);
    DivModUnique(req.samplePeriod.nanos, 0, req.samplePeriod.nanos);
  }
}
