/** The Ricker population model of assets/js/models/ricker.js: the series
    `rickerSeries` fills, the shape of the time-series and phase-plot options
    built from it, the scrolly step table, and the lazy creation of the two
    charts. The map's step `x ↦ x·exp(r·(1 − x))` is floating point and is
    given as an abstract function `step`. */
module Ricker {
  import opened Wrappers
  import opened Json

  // ── Series ──────────────────────────────────────────────────────────────────

  /** The `k`-th iterate of `step` from `x0`. */
  function Orbit(step: real -> real, x0: real, k: nat): real
    decreases k
  {
    if k == 0 then x0 else step(Orbit(step, x0, k - 1))
  }

  /** Iterating from the next point gives the same orbit one step on: the
      series is determined by its start alone. */
  lemma {:induction false} OrbitShift(step: real -> real, x0: real, k: nat)
    ensures Orbit(step, step(x0), k) == Orbit(step, x0, k + 1)
  {
    if k > 0 {
      OrbitShift(step, x0, k - 1);
    }
  }

  /** The series as a value: the first `max(n, 1)` iterates. */
  function Series(step: real -> real, x0: real, n: nat): (xs: seq<real>)
    ensures |xs| == (if n == 0 then 1 else n) && xs[0] == x0
  {
    seq(if n == 0 then 1 else n, i requires i >= 0 => Orbit(step, x0, i))
  }

  /** `rickerSeries(r, x0, n)`. `new Array(0)` grows to hold `xs[0]`, so the
      series is never empty. */
  method RickerSeries(step: real -> real, x0: real, n: nat) returns (xs: array<real>)
    ensures fresh(xs)
    ensures xs.Length == (if n == 0 then 1 else n)
    ensures xs[0] == x0
    ensures forall i :: 1 <= i < xs.Length ==> xs[i] == step(xs[i - 1])
    ensures xs[..] == Series(step, x0, n)
  {
    xs := new real[if n == 0 then 1 else n];
    xs[0] := x0;
    var i := 1;
    while i < n
      invariant 1 <= i <= xs.Length
      invariant xs[0] == x0
      invariant forall j :: 1 <= j < i ==> xs[j] == step(xs[j - 1])
      invariant forall j :: 0 <= j < i ==> xs[j] == Orbit(step, x0, j)
    {
      xs[i] := step(xs[i - 1]);
      i := i + 1;
    }
    assert forall j :: 0 <= j < xs.Length ==> xs[j] == Orbit(step, x0, j);
  }

  // ── Chart options ───────────────────────────────────────────────────────────

  /** The data-carrying part of `timeSeriesOptions(xs)`. */
  datatype TimeSeries = TimeSeries(xAxis: seq<nat>, data: seq<real>, showSymbol: bool)

  function TimeSeriesOptions(xs: seq<real>): (o: TimeSeries)
    ensures |o.xAxis| == |xs| && forall i :: 0 <= i < |xs| ==> o.xAxis[i] == i
    ensures o.data == xs
    ensures o.showSymbol <==> |xs| <= 60
  {
    TimeSeries(seq(|xs|, i requires 0 <= i < |xs| => i), xs, |xs| <= 60)
  }

  /** `Math.max(...xs, floor)` (NaN aside). */
  function MaxOf(xs: seq<real>, floor: real): (m: real)
    ensures m >= floor && forall i :: 0 <= i < |xs| ==> m >= xs[i]
    ensures m == floor || exists i :: 0 <= i < |xs| && m == xs[i]
  {
    if xs == [] then floor
    else
      var rest := MaxOf(xs[1..], floor);
      if xs[0] >= rest then xs[0] else rest
  }

  /** The data-carrying part of `phaseOptions(xs)`. */
  /** `[x, y]` */
  datatype Point = Point(x: real, y: real)

  datatype PhasePlot = PhasePlot(pairs: seq<Point>, maxVal: real, diagonal: seq<Point>, symbolSize: nat)

  /** `xs.slice(0, -1).map((x, i) => [x, xs[i + 1]])`, the 45° reference line
      and the scatter's symbol size. */
  function PhaseOptions(xs: seq<real>): (o: PhasePlot)
    ensures |o.pairs| == if xs == [] then 0 else |xs| - 1
    ensures forall i :: 0 <= i < |o.pairs| ==> o.pairs[i] == Point(xs[i], xs[i + 1])
    ensures o.maxVal >= 1.5 && forall i :: 0 <= i < |xs| ==> o.maxVal >= xs[i]
    ensures o.diagonal == [Point(0.0, 0.0), Point(o.maxVal, o.maxVal)]
    ensures o.symbolSize == if |o.pairs| > 80 then 3 else 5
  {
    var n := if xs == [] then 0 else |xs| - 1;
    var pairs := seq(n, i requires 0 <= i < n => Point(xs[i], xs[i + 1]));
    var m := MaxOf(xs, 1.5);
    PhasePlot(pairs, m, [Point(0.0, 0.0), Point(m, m)], if n > 80 then 3 else 5)
  }

  /** Consecutive phase points chain: each point's second coordinate is the
      next point's first. */
  lemma PhasePairsChain(xs: seq<real>, i: nat)
    requires i + 1 < |PhaseOptions(xs).pairs|
    ensures PhaseOptions(xs).pairs[i].y == PhaseOptions(xs).pairs[i + 1].x
  {
  }

  /** On a Ricker series every phase point lies on the graph of `step`. */
  lemma PhasePointsOnMap(step: real -> real, xs: seq<real>, i: nat)
    requires forall j :: 1 <= j < |xs| ==> xs[j] == step(xs[j - 1])
    requires i < |PhaseOptions(xs).pairs|
    ensures PhaseOptions(xs).pairs[i].y == step(PhaseOptions(xs).pairs[i].x)
  {
    assert xs[i + 1] == step(xs[i]);
  }

  // ── Scrolly steps ───────────────────────────────────────────────────────────

  /** One entry of `SCROLLY_STEPS`. */
  datatype StepConfig = StepConfig(r: real, x0: real, n: nat)

  const ScrollySteps: seq<StepConfig> := [StepConfig(1.2, 0.5, 80), StepConfig(2.2, 0.5, 80), StepConfig(3.0, 0.5, 80)]

  /** `SCROLLY_STEPS[stepKey] ?? SCROLLY_STEPS[0]` for the number `stepKey`:
      only 0, 1 and 2 name an entry. */
  function StepFor(stepKey: Num): (c: StepConfig)
    ensures stepKey == Finite(1.0) ==> c == ScrollySteps[1]
    ensures stepKey == Finite(2.0) ==> c == ScrollySteps[2]
    ensures stepKey != Finite(1.0) && stepKey != Finite(2.0) ==> c == ScrollySteps[0]
    ensures c in ScrollySteps
  {
    if stepKey == Finite(1.0) then ScrollySteps[1]
    else if stepKey == Finite(2.0) then ScrollySteps[2]
    else ScrollySteps[0]
  }

  /** `Number(detail.step ?? detail.index)`; `detail.step` is always a string
      (the event builder puts `String(index)` there when `data-step` is absent),
      converted by JavaScript's `Number` (`toNumber`). */
  function StepKey(step: Option<string>, index: nat, toNumber: string -> Num): (k: Num)
    ensures step.Some? ==> k == toNumber(step.value)
    ensures step.None? ==> k == Finite(index as real)
  {
    if step.Some? then toNumber(step.value) else Finite(index as real)
  }

  /** Every step config runs 80 iterations from 0.5; only the growth rate changes. */
  lemma StepsShareStart(k: Num)
    ensures StepFor(k).x0 == 0.5 && StepFor(k).n == 80
  {
  }

  // ── Lazy chart creation ─────────────────────────────────────────────────────

  /** The options handed to ECharts. */
  datatype Options = TsOpts(ts: TimeSeries) | PhOpts(ph: PhasePlot)

  /** A call the widget makes for one of its charts: `renderEChart(el, o)`
      (which yields no chart when ECharts is absent) or `chart.setOption(o)`. */
  datatype ChartCall = Create(opts: Options, made: bool) | SetOption(opts: Options)

  /** Number of `renderEChart` calls that produced a chart. */
  function Made(calls: seq<ChartCall>): nat {
    if calls == [] then 0
    else (if calls[0].Create? && calls[0].made then 1 else 0) + Made(calls[1..])
  }

  lemma {:induction false} MadeAppend(calls: seq<ChartCall>, c: ChartCall)
    ensures Made(calls + [c]) == Made(calls) + (if c.Create? && c.made then 1 else 0)
  {
    if calls == [] {
      assert calls + [c] == [c];
    } else {
      assert (calls + [c])[1..] == calls[1..] + [c];
      MadeAppend(calls[1..], c);
    }
  }

  /** `let tsChart = null` (or `phChart`) and the calls made through it. */
  class LazyChart {
    var chart: bool
    var calls: seq<ChartCall>

    /** The chart exists exactly when one creation succeeded, and never twice. */
    ghost predicate Valid()
      reads this
    {
      Made(calls) == (if chart then 1 else 0)
    }

    constructor ()
      ensures Valid() && !chart && calls == []
    {
      chart := false;
      calls := [];
    }

    /** `if (chart) chart.setOption(o); else chart = renderEChart(el, o);`
        with `available` whether ECharts is loaded. */
    method Show(o: Options, available: bool)
      requires Valid()
      modifies this
      ensures Valid()
      ensures old(chart) ==> chart && calls == old(calls) + [SetOption(o)]
      ensures !old(chart) ==> chart == available && calls == old(calls) + [Create(o, available)]
    {
      if chart {
        MadeAppend(calls, SetOption(o));
        calls := calls + [SetOption(o)];
      } else {
        MadeAppend(calls, Create(o, available));
        calls := calls + [Create(o, available)];
        chart := available;
      }
    }
  }

  /** The two charts of a widget and its `update(r, x0, n)`. */
  class Widget {
    const ts: LazyChart
    const ph: LazyChart

    ghost predicate Valid()
      reads this, ts, ph
    {
      ts != ph && ts.Valid() && ph.Valid()
    }

    constructor ()
      ensures Valid() && fresh(ts) && fresh(ph)
      ensures ts.calls == [] && ph.calls == [] && !ts.chart && !ph.chart
    {
      ts := new LazyChart();
      ph := new LazyChart();
    }

    /** `update(r, x0, n)`: recompute the series, then show both option sets. */
    method Update(step: real -> real, x0: real, n: nat, available: bool)
      requires Valid()
      modifies ts, ph
      ensures Valid()
      ensures ts.chart == (old(ts.chart) || available) && ph.chart == (old(ph.chart) || available)
      // each chart gets the options of the fresh series; one already made is
      // only ever updated in place
      ensures var o := TsOpts(TimeSeriesOptions(Series(step, x0, n)));
              ts.calls == old(ts.calls) + [if old(ts.chart) then SetOption(o) else Create(o, available)]
      ensures var o := PhOpts(PhaseOptions(Series(step, x0, n)));
              ph.calls == old(ph.calls) + [if old(ph.chart) then SetOption(o) else Create(o, available)]
    {
      var xs := RickerSeries(step, x0, n);
      ts.Show(TsOpts(TimeSeriesOptions(xs[..])), available);
      ph.Show(PhOpts(PhaseOptions(xs[..])), available);
    }

    /** The `story:step` listener of `renderRickerScrolly`: `ricker(r)` is the
        map for growth rate `r`. */
    method OnStoryStep(ricker: real -> real -> real, step: Option<string>, index: nat,
                       toNumber: string -> Num, available: bool)
      requires Valid()
      modifies ts, ph
      ensures Valid()
      ensures var cfg := StepFor(StepKey(step, index, toNumber));
              && |ts.calls| == |old(ts.calls)| + 1 && |ph.calls| == |old(ph.calls)| + 1
              && ts.calls[|old(ts.calls)|].opts == TsOpts(TimeSeriesOptions(Series(ricker(cfg.r), cfg.x0, cfg.n)))
              && ph.calls[|old(ph.calls)|].opts == PhOpts(PhaseOptions(Series(ricker(cfg.r), cfg.x0, cfg.n)))
    {
      var cfg := StepFor(StepKey(step, index, toNumber));
      Update(ricker(cfg.r), cfg.x0, cfg.n, available);
    }
  }

  /** `renderRickerScrolly(el)` up to its listener: the widget starts at step 0. */
  method RenderRickerScrolly(ricker: real -> real -> real, available: bool) returns (w: Widget)
    ensures fresh(w) && w.Valid()
    ensures |w.ts.calls| == 1 && w.ts.calls[0] == Create(TsOpts(TimeSeriesOptions(Series(ricker(1.2), 0.5, 80))), available)
    ensures |w.ph.calls| == 1 && w.ph.calls[0] == Create(PhOpts(PhaseOptions(Series(ricker(1.2), 0.5, 80))), available)
  {
    w := new Widget();
    var cfg := ScrollySteps[0];
    w.Update(ricker(cfg.r), cfg.x0, cfg.n, available);
  }
}
