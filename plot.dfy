/** The `Plot` component: the projection of `LineData` lines to chart datasets, and the lifecycle of the chart
    instance the component keeps in a ref. The canvas and its 2-D context are given as flags; the chart library
    itself is represented by a `Chart` object that remembers its datasets and how often it was destroyed. */
module Plot {
  import opened Wrappers

  /** One line to draw; `label` and `borderColor` are optional properties. */
  datatype LineData = LineData(xValues: seq<real>, yValues: seq<real>, labelText: Option<string>, borderColor: Option<string>)

  /** A chart point; `y` is absent where `yValues` is shorter than `xValues` (the lookup yields `undefined`). */
  datatype Point = Point(x: real, y: Option<real>)

  /** A line's colour: the given CSS colour, or a random one chosen by the component. */
  datatype Color = Given(css: string) | Random

  datatype ChartDataset = ChartDataset(labelText: string, data: seq<Point>, borderColor: Color, tension: real, fill: bool)

  const DefaultLabel := "Dataset"
  const LineTension := 0.1

  /** Falsy in the JavaScript sense for an optional string: absent or empty. */
  predicate Falsy(s: Option<string>)
  {
    s.None? || s.value == ""
  }

  /** Pairs every x value with the y value at the same index. */
  function ToPoints(xs: seq<real>, ys: seq<real>): (ps: seq<Point>)
    ensures |ps| == |xs|
  {
    if |xs| == 0 then []
    else [Point(xs[0], if |ys| == 0 then None else Some(ys[0]))] + ToPoints(xs[1..], if |ys| == 0 then [] else ys[1..])
  }

  /** Point i of a line is (xValues[i], yValues[i]), with y absent past the end of `yValues`. */
  lemma {:induction false} PointAt(xs: seq<real>, ys: seq<real>, i: nat)
    requires i < |xs|
    ensures ToPoints(xs, ys)[i] == Point(xs[i], if i < |ys| then Some(ys[i]) else None)
  {
    if i > 0 {
      var ys' := if |ys| == 0 then [] else ys[1..];
      PointAt(xs[1..], ys', i - 1);
      assert ToPoints(xs, ys)[i] == ToPoints(xs[1..], ys')[i - 1];
    }
  }

  function XsOf(ps: seq<Point>): (xs: seq<real>)
    ensures |xs| == |ps|
  {
    if |ps| == 0 then [] else [ps[0].x] + XsOf(ps[1..])
  }

  /** The y values the points carry, in order. */
  function YsOf(ps: seq<Point>): seq<real>
  {
    if |ps| == 0 then [] else (if ps[0].y.Some? then [ps[0].y.value] else []) + YsOf(ps[1..])
  }

  /** The points of a line give back its x values, and the y values that were paired with one. */
  lemma {:induction false} PointsUnzip(xs: seq<real>, ys: seq<real>)
    ensures XsOf(ToPoints(xs, ys)) == xs
    ensures YsOf(ToPoints(xs, ys)) == ys[..if |ys| < |xs| then |ys| else |xs|]
  {
    if |xs| > 0 {
      var ys' := if |ys| == 0 then [] else ys[1..];
      PointsUnzip(xs[1..], ys');
      var ps := ToPoints(xs, ys);
      assert ps[1..] == ToPoints(xs[1..], ys');
      assert XsOf(ps) == [xs[0]] + xs[1..];
      if |ys| > 0 {
        var m := if |ys| < |xs| then |ys| else |xs|;
        assert ys[..m] == [ys[0]] + ys'[..m - 1];
      }
    }
  }

  /** The dataset configuration built for one line. */
  function ToDataset(line: LineData): (d: ChartDataset)
    ensures d.data == ToPoints(line.xValues, line.yValues)
    ensures d.labelText == (if Falsy(line.labelText) then DefaultLabel else line.labelText.value)
    ensures d.borderColor == (if Falsy(line.borderColor) then Random else Given(line.borderColor.value))
    ensures |d.labelText| > 0
    ensures d.tension == LineTension && !d.fill
  {
    ChartDataset(if line.labelText.None? || line.labelText.value == "" then DefaultLabel else line.labelText.value,
                 ToPoints(line.xValues, line.yValues),
                 if line.borderColor.None? || line.borderColor.value == "" then Random else Given(line.borderColor.value),
                 LineTension, false)
  }

  /** One dataset per line, in the same order. */
  function ToDatasets(lines: seq<LineData>): (ds: seq<ChartDataset>)
    ensures |ds| == |lines|
  {
    if |lines| == 0 then [] else [ToDataset(lines[0])] + ToDatasets(lines[1..])
  }

  /** Dataset i is built from line i. */
  lemma {:induction false} DatasetAt(lines: seq<LineData>, i: nat)
    requires i < |lines|
    ensures ToDatasets(lines)[i] == ToDataset(lines[i])
  {
    if i > 0 {
      DatasetAt(lines[1..], i - 1);
      assert ToDatasets(lines)[i] == ToDatasets(lines[1..])[i - 1];
    }
  }

  /** The datasets of two lists of lines drawn together are those of each list, one after the other. */
  lemma {:induction false} DatasetsAppend(a: seq<LineData>, b: seq<LineData>)
    ensures ToDatasets(a + b) == ToDatasets(a) + ToDatasets(b)
  {
    var l := ToDatasets(a + b);
    var r := ToDatasets(a) + ToDatasets(b);
    assert |l| == |r|;
    forall i | 0 <= i < |l| ensures l[i] == r[i] {
      DatasetAt(a + b, i);
      if i < |a| {
        assert (a + b)[i] == a[i];
        DatasetAt(a, i);
      } else {
        assert (a + b)[i] == b[i - |a|];
        DatasetAt(b, i - |a|);
      }
    }
  }

  /** The props object the component is rendered with. `dataSets` is `undefined` (`None`) when the caller
      does not pass it; other attributes are not read by the component. */
  datatype PlotProps = PlotProps(dataSets: Option<seq<LineData>>)

  /** The exception's message depends on the JavaScript engine; only its type is kept. */
  const TypeErrorName := "TypeError"

  /** The datasets the effect builds once it has a canvas and a context: one per line, or the exception
      `dataSets.map` throws when `dataSets` is `undefined`. */
  function EffectDatasets(props: PlotProps): (r: Result<seq<ChartDataset>, string>)
    ensures r.Success? <==> props.dataSets.Some?
    ensures r.Success? ==> |r.value| == |props.dataSets.value|
  {
    if props.dataSets.None? then Failure(TypeErrorName) else Success(ToDatasets(props.dataSets.value))
  }

  /** A chart handle. Destroying it again is harmless; the count records how often it was destroyed. */
  class Chart {
    const datasets: seq<ChartDataset>
    var destroyCount: nat

    constructor(datasets: seq<ChartDataset>)
      ensures this.datasets == datasets && destroyCount == 0
    {
      this.datasets := datasets;
      destroyCount := 0;
    }

    predicate Destroyed()
      reads this
    {
      destroyCount > 0
    }

    method Destroy()
      modifies this
      ensures destroyCount == old(destroyCount) + 1
      ensures Destroyed()
    {
      destroyCount := destroyCount + 1;
    }
  }

  /** The mounted component: `chartInstance` is its ref to the current chart. */
  class PlotView {
    var chartInstance: Option<Chart>

    constructor()
      ensures chartInstance.None?
    {
      chartInstance := None;
    }

    function Current(): set<object>
      reads this
    {
      if chartInstance.Some? then {chartInstance.value} else {}
    }

    /** The effect run when `dataSets` changes. `canvas` says whether the canvas ref is set and `context`
        whether it yields a 2-D context. */
    method Effect(dataSets: seq<LineData>, canvas: bool, context: bool)
      modifies this, Current()
      ensures !canvas ==> chartInstance == old(chartInstance) && unchanged(old(Current()))
      ensures canvas && old(chartInstance).Some? ==>
                old(chartInstance).value.destroyCount == old(chartInstance.value.destroyCount) + 1
      ensures canvas && context ==>
                && chartInstance.Some? && fresh(chartInstance.value)
                && chartInstance.value.datasets == ToDatasets(dataSets)
                && !chartInstance.value.Destroyed()
      ensures canvas && !context ==> chartInstance == old(chartInstance)
    {
      if canvas {
        if chartInstance.Some? {
          chartInstance.value.Destroy();
        }
        if context {
          var chart := new Chart(ToDatasets(dataSets));
          chartInstance := Some(chart);
        }
      }
    }

    /** The effect's cleanup: destroys the current instance but keeps the ref pointing at it. */
    method Cleanup()
      modifies Current()
      ensures chartInstance == old(chartInstance)
      ensures chartInstance.Some? ==>
                chartInstance.value.destroyCount == old(chartInstance.value.destroyCount) + 1
    {
      if chartInstance.Some? {
        chartInstance.value.Destroy();
      }
    }
  }
}
