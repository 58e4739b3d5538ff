/** The read page (`Read.tsx`): the single-channel variant of an acquisition run. It builds the raw and
    filtered request objects, asks the back end for one trial (`plot`), shows the samples, and takes the
    element at the middle index of the readings as the weight. */
module Read {
  import opened Wrappers
  import opened Durations
  import opened Hardware
  import opened DataRequests
  import opened Errors
  import opened Plot

  // ---------------------------------------------------------------- median

  /** `median`: the reading at index floor(n/2), without sorting; absent (`undefined`) for no readings. */
  function MiddleElement(data: seq<real>): (r: Option<real>)
    ensures r.Some? <==> |data| > 0
    ensures r.Some? ==> r.value in data
  {
    if |data| == 0 then None else Some(data[|data| / 2])
  }

  predicate Sorted(data: seq<real>)
  {
    forall i, j :: 0 <= i <= j < |data| ==> data[i] <= data[j]
  }

  /** On sorted readings the middle element is a median: at least half of the readings lie at or below it and
      at least half at or above it. */
  lemma MiddleOfSortedIsMedian(data: seq<real>)
    requires Sorted(data) && |data| > 0
    ensures forall i :: 0 <= i <= |data| / 2 ==> data[i] <= MiddleElement(data).value
    ensures forall i :: |data| / 2 <= i < |data| ==> data[i] >= MiddleElement(data).value
    ensures 2 * (|data| / 2 + 1) >= |data| && 2 * (|data| - |data| / 2) >= |data|
  {
  }

  /** On unsorted readings it need not be: of 3, 1 and 2 it picks 1, below the median 2. */
  lemma MiddleOfUnsortedNotMedian()
    ensures MiddleElement([3.0, 1.0, 2.0]) == Some(1.0)
    ensures !Sorted([3.0, 1.0, 2.0])
  {
    var d := [3.0, 1.0, 2.0];
    assert d[0] > d[1];
  }

  // ---------------------------------------------------------------- requests

  /** A number held by the form: `parseInt` and `parseFloat` answer `NaN` for a cleared or unparsable field,
      and `parseFloat` may answer an infinity; `NonFinite` stands for all of those. */
  datatype JsNumber = Finite(value: real) | NonFinite

  /** `JSON.stringify` writes a non-finite number as `null`. */
  function JsonNumber(n: JsNumber): Option<real>
  {
    if n.Finite? then Some(n.value) else None
  }

  /** The period object `{secs: 0, nanos: samplePeriod * 1000000}`; a non-finite product stays non-finite. */
  function PeriodObject(samplePeriodMs: JsNumber): WireDuration
  {
    var nanos := if samplePeriodMs.Finite? then Finite(samplePeriodMs.value * 1_000_000.0) else NonFinite;
    WireDuration(Some(0.0), JsonNumber(nanos))
  }

  /** `rawTrial`: whatever the back end accepts from it is a raw request without a cutoff, and a non-finite
      sample count or period is refused. */
  function RawTrial(samples: JsNumber, samplePeriodMs: JsNumber): (r: WireRequest)
    ensures Deserialize(r).Some? ==> Deserialize(r).value.trial == Raw && Deserialize(r).value.cutoffFrequency.None?
    ensures samples.NonFinite? || samplePeriodMs.NonFinite? ==> Deserialize(r).None?
  {
    WireRequest("Raw", JsonNumber(samples), PeriodObject(samplePeriodMs), None)
  }

  /** `filterTrial`: whatever the back end accepts from it is a filtered request, which becomes a trial exactly
      when the cutoff is finite; a non-finite sample count or period is refused. */
  function FilterTrial(samples: JsNumber, samplePeriodMs: JsNumber, cutoff: JsNumber): (r: WireRequest)
    ensures Deserialize(r).Some? ==> Deserialize(r).value.trial == Filtered
    ensures Deserialize(r).Some? ==> (ToNodeTrial(Deserialize(r).value).Success? <==> cutoff.Finite?)
    ensures samples.NonFinite? || samplePeriodMs.NonFinite? ==> Deserialize(r).None?
  {
    WireRequest("Filtered", JsonNumber(samples), PeriodObject(samplePeriodMs), JsonNumber(cutoff))
  }

  /** A period of milliseconds that is exactly `nanos` whole nanoseconds, within a `u32`, reads back as that
      many nanoseconds. */
  lemma WirePeriod(samplePeriodMs: real, nanos: nat)
    requires samplePeriodMs * 1_000_000.0 == nanos as real && nanos <= U32Max
    ensures DurationFromWire(PeriodObject(Finite(samplePeriodMs))) == Some(FromNanos(nanos))
  {
    assert (nanos as real).Floor == nanos;
    assert 0.0.Floor == 0;
  }

  /** A raw request with a sample count that fits a `usize` and a period of whole nanoseconds within a `u32`
      (a fractional number of milliseconds such as 2.5 included) becomes a raw trial of exactly those samples
      and that period. */
  lemma RawTrialAccepted(samples: nat, samplePeriodMs: real, nanos: nat)
    requires samples <= U64Max && samplePeriodMs * 1_000_000.0 == nanos as real && nanos <= U32Max
    ensures Deserialize(RawTrial(Finite(samples as real), Finite(samplePeriodMs)))
            == Some(DataRequest(Raw, samples, FromNanos(nanos), None))
    ensures ToNodeTrial(DataRequest(Raw, samples, FromNanos(nanos), None))
            == Success(NodeTrial(RawKind, samples, FromNanos(nanos)))
  {
    WirePeriod(samplePeriodMs, nanos);
    assert (samples as real).Floor == samples;
  }

  /** Under the same bounds, a filtered request with a finite cutoff becomes a filtered trial with that cutoff. */
  lemma FilterTrialAccepted(samples: nat, samplePeriodMs: real, nanos: nat, cutoff: real)
    requires samples <= U64Max && samplePeriodMs * 1_000_000.0 == nanos as real && nanos <= U32Max
    ensures Deserialize(FilterTrial(Finite(samples as real), Finite(samplePeriodMs), Finite(cutoff)))
            == Some(DataRequest(Filtered, samples, FromNanos(nanos), Some(cutoff)))
    ensures ToNodeTrial(DataRequest(Filtered, samples, FromNanos(nanos), Some(cutoff)))
            == Success(NodeTrial(FilteredKind(Filter(FromNanos(nanos), cutoff)), samples, FromNanos(nanos)))
  {
    WirePeriod(samplePeriodMs, nanos);
    assert (samples as real).Floor == samples;
  }

  /** Under the same bounds, a cleared cutoff field (`NaN`) goes out as `null`: the back end accepts the request
      without a cutoff and then answers the missing-cutoff error. */
  lemma FilterTrialMissingCutoff(samples: nat, samplePeriodMs: real, nanos: nat)
    requires samples <= U64Max && samplePeriodMs * 1_000_000.0 == nanos as real && nanos <= U32Max
    ensures Deserialize(FilterTrial(Finite(samples as real), Finite(samplePeriodMs), NonFinite))
            == Some(DataRequest(Filtered, samples, FromNanos(nanos), None))
    ensures ToNodeTrial(DataRequest(Filtered, samples, FromNanos(nanos), None))
            == Failure(Other(MissingCutoffMessage))
  {
    WirePeriod(samplePeriodMs, nanos);
    assert (samples as real).Floor == samples;
  }

  /** A period whose nanoseconds exceed a `u32` (more than 4294.967295 ms) is refused by the back end's
      deserialiser, for either request. */
  lemma LongPeriodRefused(samples: JsNumber, samplePeriodMs: real, cutoff: JsNumber)
    requires samplePeriodMs * 1_000_000.0 > U32Max as real
    ensures Deserialize(RawTrial(samples, Finite(samplePeriodMs))).None?
    ensures Deserialize(FilterTrial(samples, Finite(samplePeriodMs), cutoff)).None?
  {
  }

  /** A period that is not a whole non-negative number of nanoseconds (0.0000001 ms, or a negative one) is
      refused too, for either request. */
  lemma PeriodNotWholeNanosRefused(samples: JsNumber, samplePeriodMs: real, cutoff: JsNumber)
    requires samplePeriodMs < 0.0 || (samplePeriodMs * 1_000_000.0).Floor as real != samplePeriodMs * 1_000_000.0
    ensures Deserialize(RawTrial(samples, Finite(samplePeriodMs))).None?
    ensures Deserialize(FilterTrial(samples, Finite(samplePeriodMs), cutoff)).None?
  {
  }

  // ---------------------------------------------------------------- the run

  function DurationSeconds(d: Duration): real
  {
    d.secs as real + d.nanos as real / 1_000_000_000.0
  }

  function TimesToSeconds(ts: seq<Duration>): (xs: seq<real>)
    ensures |xs| == |ts|
    ensures forall j :: 0 <= j < |ts| ==> xs[j] == DurationSeconds(ts[j])
  {
    if |ts| == 0 then [] else [DurationSeconds(ts[0])] + TimesToSeconds(ts[1..])
  }

  /** A sample count beyond a `usize` is refused by the back end's deserialiser, for either request. */
  lemma HugeSampleCountRefused(samples: real, samplePeriodMs: JsNumber, cutoff: JsNumber)
    requires samples > U64Max as real
    ensures Deserialize(RawTrial(Finite(samples), samplePeriodMs)).None?
    ensures Deserialize(FilterTrial(Finite(samples), samplePeriodMs, cutoff)).None?
  {
  }

  // ---------------------------------------------------------------- the chart

  /** The page renders `<Plot xValues={..} yValues={..} />`. The component reads only `dataSets`, so as
      written it receives none. */
  function PlotPropsAsWritten(xPlotValues: seq<real>, yPlotValues: seq<real>): PlotProps
  {
    PlotProps(None)
  }

  /** Whatever the page holds, the chart effect as written throws instead of drawing. */
  lemma PlotAsWrittenThrows(xPlotValues: seq<real>, yPlotValues: seq<real>)
    ensures EffectDatasets(PlotPropsAsWritten(xPlotValues, yPlotValues)) == Failure(TypeErrorName)
  {
  }

  /** The evident intent: the samples as one line, `dataSets={[{xValues, yValues}]}`. */
  function PlotLines(xPlotValues: seq<real>, yPlotValues: seq<real>): (lines: seq<LineData>)
    ensures |lines| == 1 && lines[0].xValues == xPlotValues && lines[0].yValues == yPlotValues
  {
    [LineData(xPlotValues, yPlotValues, None, None)]
  }

  /** With those props the chart has one dataset under the default label whose points give back exactly the
      page's x and y values. */
  lemma PlotLinesDrawSamples(xPlotValues: seq<real>, yPlotValues: seq<real>)
    requires |xPlotValues| == |yPlotValues|
    ensures var r := EffectDatasets(PlotProps(Some(PlotLines(xPlotValues, yPlotValues))));
            && r.Success? && |r.value| == 1
            && r.value[0].labelText == DefaultLabel
            && XsOf(r.value[0].data) == xPlotValues
            && YsOf(r.value[0].data) == yPlotValues
  {
    var lines := PlotLines(xPlotValues, yPlotValues);
    DatasetAt(lines, 0);
    PointsUnzip(xPlotValues, yPlotValues);
    assert yPlotValues[..|xPlotValues|] == yPlotValues;
  }

  const ConductingMessage := "Conducting trial..."
  const LoggedMessage := "Data logged!"

  /** The page's state fields. `weight` is `None` once the median of no readings (`undefined`) was stored. */
  class ReadPage {
    var status: string
    var weight: Option<real>
    var xPlotValues: seq<real>
    var yPlotValues: seq<real>

    constructor()
      ensures status == "" && weight == Some(0.0)
      ensures xPlotValues == [1.0, 2.5, 3.0, 4.0] && yPlotValues == [0.0, 3.1, 4.3, 6.1]
    {
      status := "";
      weight := Some(0.0);
      xPlotValues := [1.0, 2.5, 3.0, 4.0];
      yPlotValues := [0.0, 3.1, 4.3, 6.1];
    }

    /** The props the chart is rendered with, as corrected. */
    function ChartProps(): PlotProps
      reads this
    {
      PlotProps(Some(PlotLines(xPlotValues, yPlotValues)))
    }

    /** `plotData` before the call is issued. */
    method BeginPlot()
      modifies this
      ensures status == ConductingMessage
      ensures weight == old(weight) && xPlotValues == old(xPlotValues) && yPlotValues == old(yPlotValues)
    {
      status := ConductingMessage;
    }

    /** `plotData` once the `plot` call settles, with the data or the error's text. */
    method FinishPlot(outcome: Result<Data, string>)
      modifies this
      ensures outcome.Success? ==>
                && xPlotValues == TimesToSeconds(outcome.value.times)
                && yPlotValues == outcome.value.readings
                && status == LoggedMessage
                && weight == MiddleElement(outcome.value.readings)
                && |xPlotValues| == |yPlotValues|
      ensures outcome.Failure? ==>
                && status == outcome.error
                && weight == old(weight) && xPlotValues == old(xPlotValues) && yPlotValues == old(yPlotValues)
    {
      match outcome {
        case Success(d) =>
          xPlotValues := TimesToSeconds(d.times);
          yPlotValues := d.readings;
          status := LoggedMessage;
          weight := MiddleElement(d.readings);
        case Failure(e) =>
          status := e;
      }
    }
  }
}
