/** The raw load-cell page (`LoadCell.tsx`): one acquisition run of `plotData`, which estimates how long the
    four-channel capture takes, drives a cosmetic progress bar from a timer, asks the back end for the capture
    (`plot_lc`), validates the untrusted answer and turns it into plot lines, and finally settles the page.
    The timer and the `invoke` promise are delivered as explicit events: `Tick` for one timer firing and
    `Settle` for the promise's outcome. Numbers are exact reals. */
module LoadCell {
  import opened Wrappers
  import opened Durations
  import opened Decimal
  import opened Plot

  // ---------------------------------------------------------------- duration estimate

  /** The request the page sends: `samples` and a `{secs, nanos}` sample period, as JavaScript numbers. */
  datatype LoadCellRequest = LoadCellRequest(samples: real, samplePeriod: Stamp)

  const Steps: nat := 500
  const Increment: real := 100.0 / 500.0
  const FallbackInterval: real := 50.0

  /** The estimated capture time in milliseconds: never negative for non-negative inputs, and zero when
      there are no samples or the period is zero. */
  function TotalTime(req: LoadCellRequest): (t: real)
    ensures req.samples >= 0.0 && req.samplePeriod.secs >= 0.0 && req.samplePeriod.nanos >= 0.0 ==> t >= 0.0
    ensures req.samples == 0.0 || (req.samplePeriod.secs == 0.0 && req.samplePeriod.nanos == 0.0) ==> t == 0.0
  {
    req.samples * (req.samplePeriod.secs + req.samplePeriod.nanos / 1_000_000_000.0) * 1000.0
  }

  /** For whole numbers of samples and a canonical period, the estimate is samples times the period, in ms. */
  lemma TotalTimeOfDuration(samples: nat, d: Duration)
    ensures TotalTime(LoadCellRequest(samples as real, Stamp(d.secs as real, d.nanos as real)))
            == (samples * TotalNanos(d)) as real / 1_000_000.0
  {
    var s := d.secs as real;
    var n := d.nanos as real;
    assert (s + n / 1_000_000_000.0) * 1000.0 == (s * 1_000_000_000.0 + n) / 1_000_000.0;
    assert TotalNanos(d) as real == s * 1_000_000_000.0 + n;
  }

  /** The timer period in milliseconds: a 500th of the estimate, or 50 ms when the estimate is not positive. */
  function IntervalDuration(req: LoadCellRequest): (d: real)
    ensures d > 0.0
    ensures TotalTime(req) > 0.0 ==> d * Steps as real == TotalTime(req)
    ensures TotalTime(req) <= 0.0 ==> d == FallbackInterval
  {
    var t := TotalTime(req);
    if t > 0.0 then t / Steps as real else FallbackInterval
  }

  // ---------------------------------------------------------------- progress tick

  /** The progress value after one timer firing, and whether that firing clears the timer. */
  datatype TickResult = TickResult(progress: real, clear: bool)

  /** The state updater the timer passes to `setProgress`. */
  function NextProgress(prev: real): (t: TickResult)
    ensures t.progress <= 100.0
    ensures prev <= 100.0 ==> t.progress >= prev
    ensures t.clear <==> t.progress == 100.0
    ensures t.clear <==> prev + Increment >= 100.0
    ensures !t.clear ==> t.progress == prev + Increment
  {
    var p := prev + Increment;
    if p >= 100.0 then TickResult(100.0, true) else TickResult(p, false)
  }

  /** Progress after `k` firings of a timer that is never cleared. */
  function ProgressAfter(start: real, k: nat): real
    decreases k
  {
    if k == 0 then start else ProgressAfter(NextProgress(start).progress, k - 1)
  }

  /** Starting from zero, progress after k firings is k increments up to 500 firings and 100 afterwards. */
  lemma {:induction false} ProgressFromZero(k: nat)
    ensures ProgressAfter(0.0, k) == if k <= Steps then k as real * Increment else 100.0
  {
    ProgressShift(0.0, k);
    if k <= Steps {
      ProgressLinear(k);
    } else {
      ProgressLinear(Steps);
      ProgressSaturates(Steps, k - Steps);
    }
  }

  /** A firing after the first `k` is the (k+1)-th firing. */
  lemma {:induction false} ProgressShift(start: real, k: nat)
    ensures k > 0 ==> ProgressAfter(start, k) == NextProgress(ProgressAfter(start, k - 1)).progress
    decreases k
  {
    if k > 1 {
      ProgressShift(NextProgress(start).progress, k - 1);
    }
  }

  lemma {:induction false} ProgressLinear(k: nat)
    requires k <= Steps
    ensures ProgressAfter(0.0, k) == k as real * Increment
  {
    if k > 0 {
      ProgressLinear(k - 1);
      ProgressShift(0.0, k);
      assert (k - 1) as real * Increment + Increment == k as real * Increment;
    }
  }

  lemma {:induction false} ProgressSaturates(k: nat, extra: nat)
    requires ProgressAfter(0.0, k) == 100.0
    ensures ProgressAfter(0.0, k + extra) == 100.0
  {
    if extra > 0 {
      ProgressSaturates(k, extra - 1);
      ProgressShift(0.0, k + extra);
    }
  }

  /** Starting from zero, the 500th firing is the first that clears the timer. */
  lemma ClearsAtLastStep(k: nat)
    requires k < Steps
    ensures NextProgress(ProgressAfter(0.0, k)).clear <==> k == Steps - 1
  {
    ProgressFromZero(k);
  }

  // ---------------------------------------------------------------- the untrusted payload

  /** A `{secs, nanos}` timestamp as received. */
  datatype Stamp = Stamp(secs: real, nanos: real)

  /** A property of an item: missing, present but not an array, or an array. */
  datatype Field<T> = Absent | NonArray | ArrayOf(elems: seq<T>)

  /** One element of the answer: `null`, a primitive, or an object (an array element counts as an object
      with neither property). */
  datatype Item = NullItem | PrimitiveItem | ObjectItem(readings: Field<real>, times: Field<Stamp>)

  /** The whole answer: an array of items, or something else. */
  datatype Payload = ArrayPayload(items: seq<Item>) | OtherPayload

  /** The item test inside the validation loop. */
  predicate WellFormed(item: Item)
  {
    item.ObjectItem? && item.readings.ArrayOf? && item.times.ArrayOf?
  }

  function Seconds(t: Stamp): real
  {
    t.secs + t.nanos / 1_000_000_000.0
  }

  function TimesToSeconds(ts: seq<Stamp>): (xs: seq<real>)
    ensures |xs| == |ts|
    ensures forall j :: 0 <= j < |ts| ==> xs[j] == Seconds(ts[j])
  {
    if |ts| == 0 then [] else [Seconds(ts[0])] + TimesToSeconds(ts[1..])
  }

  /** Volts per volt to microvolts per volt. */
  function ToMicrovolts(rs: seq<real>): (ys: seq<real>)
    ensures |ys| == |rs|
    ensures forall j :: 0 <= j < |rs| ==> ys[j] == rs[j] * 1_000_000.0
  {
    if |rs| == 0 then [] else [rs[0] * 1_000_000.0] + ToMicrovolts(rs[1..])
  }

  function LineLabel(i: nat): string
  {
    "Load Cell " + NatToString(i)
  }

  /** Distinct channels get distinct labels. */
  lemma LineLabelsDistinct(i: nat, j: nat)
    requires LineLabel(i) == LineLabel(j)
    ensures i == j
  {
    var p := "Load Cell ";
    assert LineLabel(i)[|p|..] == NatToString(i);
    assert LineLabel(j)[|p|..] == NatToString(j);
    NatToStringInjective(i, j);
  }

  /** The plot line drawn for item `i`. */
  function Line(i: nat, item: Item): LineData
    requires WellFormed(item)
  {
    LineData(TimesToSeconds(item.times.elems), ToMicrovolts(item.readings.elems), Some(LineLabel(i)), None)
  }

  predicate AllWellFormed(items: seq<Item>)
  {
    forall i :: 0 <= i < |items| ==> WellFormed(items[i])
  }

  /** The lines for a list of well-formed items, labelled by position. */
  function Lines(items: seq<Item>): seq<LineData>
    requires AllWellFormed(items)
  {
    if |items| == 0 then [] else Lines(items[..|items| - 1]) + [Line(|items| - 1, items[|items| - 1])]
  }

  /** One line per item, in order, line i built from item i. */
  lemma {:induction false} LinesAt(items: seq<Item>)
    requires AllWellFormed(items)
    ensures |Lines(items)| == |items|
    ensures forall i :: 0 <= i < |items| ==> Lines(items)[i] == Line(i, items[i])
  {
    if |items| > 0 {
      var init := items[..|items| - 1];
      assert AllWellFormed(init) by {
        forall i | 0 <= i < |init| ensures WellFormed(init[i]) {
          assert init[i] == items[i];
        }
      }
      LinesAt(init);
    }
  }

  /** The validation loop: walks the items, stopping at the first that is not well formed. */
  method ValidateItems(items: seq<Item>) returns (allValid: bool, newLines: seq<LineData>)
    ensures allValid <==> AllWellFormed(items)
    ensures allValid ==> newLines == Lines(items)
    ensures !allValid ==> exists k ::
              && 0 <= k < |items| && !WellFormed(items[k]) && AllWellFormed(items[..k])
              && newLines == Lines(items[..k])
  {
    newLines := [];
    allValid := true;
    var i := 0;
    while i < |items|
      invariant 0 <= i <= |items|
      invariant AllWellFormed(items[..i])
      invariant newLines == Lines(items[..i])
    {
      var item := items[i];
      if WellFormed(item) {
        var next := items[..i + 1];
        assert next[..i] == items[..i];
        assert AllWellFormed(next) by {
          forall j | 0 <= j < i + 1 ensures WellFormed(next[j]) {
            if j < i {
              assert next[j] == items[..i][j];
            }
          }
        }
        newLines := newLines + [Line(i, item)];
        i := i + 1;
      } else {
        allValid := false;
        assert !AllWellFormed(items);
        return;
      }
    }
    assert items[..i] == items;
  }

  // ---------------------------------------------------------------- the run

  /** How the `plot_lc` promise settles: with the answer, or rejected with the error's text. */
  datatype InvokeOutcome = Resolved(payload: Payload) | Rejected(reason: string)

  const ConductingMessage := "Conducting trial..."
  const LoggedMessage := "Data logged!"
  const BadItemMessage := "Unexpected data format received in array!"
  const NotArrayMessage := "Unexpected data format received (expected an array)!"
  const BadItemReason := "Unexpected data format in array"
  const NotArrayReason := "Unexpected data format (expected an array)"

  /** The page's state: its `useState` values and the `progressInterval` ref. A timer identifier stays in the
      ref after the timer is cleared; `timerActive` says whether the timer still fires. */
  class LoadCellPage {
    var status: string
    var progress: real
    var isPlotting: bool
    var progressInterval: Option<nat>
    var timerActive: bool
    var tickInterval: real
    var plotDataSets: seq<LineData>

    /** Progress stays within [0, 100], and an active timer is one the ref knows. */
    predicate Valid()
      reads this
    {
      0.0 <= progress <= 100.0 && (timerActive ==> progressInterval.Some?)
    }

    constructor()
      ensures status == "" && progress == 0.0 && !isPlotting && progressInterval.None? && !timerActive
      ensures plotDataSets == []
      ensures Valid()
    {
      status := "";
      progress := 0.0;
      isPlotting := false;
      progressInterval := None;
      timerActive := false;
      tickInterval := 0.0;
      plotDataSets := [];
    }

    /** The first statement of `plotData`. */
    method Begin()
      modifies this
      ensures status == ConductingMessage
      ensures progress == old(progress) && isPlotting == old(isPlotting) && plotDataSets == old(plotDataSets)
      ensures progressInterval == old(progressInterval) && timerActive == old(timerActive)
      ensures tickInterval == old(tickInterval)
      ensures old(Valid()) ==> Valid()
    {
      status := ConductingMessage;
    }

    /** After the denoise pause: the bar is shown at zero and a timer `timerId` is started with the computed
        period. */
    method StartProgress(req: LoadCellRequest, timerId: nat)
      modifies this
      ensures isPlotting && progress == 0.0
      ensures progressInterval == Some(timerId) && timerActive
      ensures tickInterval == IntervalDuration(req) && tickInterval > 0.0
      ensures status == old(status) && plotDataSets == old(plotDataSets)
      ensures Valid()
    {
      isPlotting := true;
      progress := 0.0;
      tickInterval := IntervalDuration(req);
      progressInterval := Some(timerId);
      timerActive := true;
    }

    /** One firing of the timer: the progress updater runs, and clears the timer once it reaches 100. */
    method Tick()
      requires Valid()
      modifies this
      ensures !old(timerActive) ==> progress == old(progress) && !timerActive
      ensures old(timerActive) ==>
                && progress == NextProgress(old(progress)).progress
                && timerActive == !NextProgress(old(progress)).clear
      ensures Valid() && progress >= old(progress)
      ensures status == old(status) && isPlotting == old(isPlotting) && plotDataSets == old(plotDataSets)
      ensures progressInterval == old(progressInterval) && tickInterval == old(tickInterval)
    {
      if timerActive {
        var t := NextProgress(progress);
        progress := t.progress;
        if t.clear {
          timerActive := false;
        }
      }
    }

    /** The `then`/`catch`/`finally` chain. `rejection` is the reason `plotData`'s promise is rejected with;
        `None` means it is left pending, as on success. */
    method Settle(outcome: InvokeOutcome) returns (rejection: Option<string>)
      requires Valid()
      modifies this
      ensures !timerActive && !isPlotting && progress == 100.0
      ensures Valid()
      ensures progressInterval == old(progressInterval) && tickInterval == old(tickInterval)
      ensures outcome.Rejected? ==>
                status == outcome.reason && rejection == Some(outcome.reason) && plotDataSets == old(plotDataSets)
      ensures outcome.Resolved? && outcome.payload.OtherPayload? ==>
                status == NotArrayMessage && rejection == Some(NotArrayReason) && plotDataSets == old(plotDataSets)
      ensures outcome.Resolved? && outcome.payload.ArrayPayload? ==>
                var items := outcome.payload.items;
                && (AllWellFormed(items) ==>
                      status == LoggedMessage && rejection.None? && plotDataSets == Lines(items))
                && (!AllWellFormed(items) ==>
                      status == BadItemMessage && rejection == Some(BadItemReason)
                      && plotDataSets == old(plotDataSets))
    {
      if progressInterval.Some? {
        timerActive := false;
      }
      match outcome {
        case Rejected(reason) =>
          status := reason;
          rejection := Some(reason);
        case Resolved(OtherPayload) =>
          status := NotArrayMessage;
          rejection := Some(NotArrayReason);
        case Resolved(ArrayPayload(items)) =>
          var allValid, newLines := ValidateItems(items);
          if allValid {
            plotDataSets := newLines;
            status := LoggedMessage;
            rejection := None;
          } else {
            status := BadItemMessage;
            rejection := Some(BadItemReason);
          }
      }
      isPlotting := false;
      progress := 100.0;
    }
  }
}
