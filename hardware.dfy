/** Stand-ins for the external crates the back end drives: the `libra` scale (`ConnectedScale`) and the
    `node_diagnostics` trial and data types. Their behaviour is not part of this model: every hardware
    answer (a reading, a failure) is a parameter of the operation that asks for it, and the scale keeps a
    log of the calls made on it so that the callers' contracts can say which calls happen, on which
    scale, in which order. */
module Hardware {
  import opened Wrappers
  import opened Durations

  /** `[f64; 4]`: one value per load cell. */
  type Quad = s: seq<real> | |s| == 4 witness [0.0, 0.0, 0.0, 0.0]

  /** `node_diagnostics::data::Data`: readings with their timestamps, one timestamp per reading. */
  datatype DataRec = DataRec(readings: seq<real>, times: seq<Duration>)
  type Data = d: DataRec | |d.readings| == |d.times| witness DataRec([], [])

  function EmptyData(): Data
  {
    DataRec([], [])
  }

  /** `Data::push(time, reading)`. */
  function Push(d: Data, time: Duration, reading: real): Data
  {
    DataRec(d.readings + [reading], d.times + [time])
  }

  /** `node_diagnostics::filter::Filter::new(1 / sample_period, cutoff)`, kept by its arguments. */
  datatype Filter = Filter(samplePeriod: Duration, cutoffFrequency: real)

  /** `node_diagnostics::trial::TrialType`. */
  datatype TrialKind = RawKind | MedianKind | FilteredKind(filter: Filter)

  /** `node_diagnostics::trial::Trial::new(kind, samples, sample_period)`. */
  datatype NodeTrial = NodeTrial(kind: TrialKind, samples: nat, samplePeriod: Duration)

  datatype ScaleCall =
    | SetDataIntervalsCall(period: Duration)
    | LoadCellMediansCall(samples: nat, period: Duration)
    | UpdateCoefficientsCall(coefficients: Quad)
    | ConductCall(trial: NodeTrial)

  /** A connected scale. `phidgetId` is the identifier the hardware reports; `calls` records what was asked of it. */
  class ConnectedScale {
    const phidgetId: int
    var calls: seq<ScaleCall>

    constructor (phidgetId: int)
      ensures this.phidgetId == phidgetId && calls == []
    {
      this.phidgetId := phidgetId;
      calls := [];
    }

    /** `set_data_intervals(period)`; `fault` is the scale's answer (`None` when it accepts). */
    method SetDataIntervals(period: Duration, fault: Option<string>) returns (r: Outcome<string>)
      modifies this
      ensures calls == old(calls) + [SetDataIntervalsCall(period)]
      ensures r == if fault.None? then Pass else Fail(fault.value)
    {
      calls := calls + [SetDataIntervalsCall(period)];
      r := if fault.None? then Pass else Fail(fault.value);
    }

    /** `get_load_cell_medians(samples, period)`; `answer` is what the scale returns. */
    method GetLoadCellMedians(samples: nat, period: Duration, answer: Result<Quad, string>) returns (r: Result<Quad, string>)
      modifies this
      ensures calls == old(calls) + [LoadCellMediansCall(samples, period)]
      ensures r == answer
    {
      calls := calls + [LoadCellMediansCall(samples, period)];
      r := answer;
    }

    /** `update_coefficients(coefficients)`, which consumes the scale and hands the same scale back. */
    method UpdateCoefficients(coefficients: Quad)
      modifies this
      ensures calls == old(calls) + [UpdateCoefficientsCall(coefficients)]
    {
      calls := calls + [UpdateCoefficientsCall(coefficients)];
    }

    /** `Trial::conduct(scale)`: the diagnostics crate samples the scale; `answer` is what it returns. */
    method Conduct(trial: NodeTrial, answer: Result<Data, string>) returns (r: Result<Data, string>)
      modifies this
      ensures calls == old(calls) + [ConductCall(trial)]
      ensures r == answer
    {
      calls := calls + [ConductCall(trial)];
      r := answer;
    }
  }
}
