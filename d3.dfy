/** The D3 adapter of assets/js/viz/d3.js: the memoised loader of the D3
    bundle, the chart-factory table, the resolution of a chart's type, data
    and options in `renderD3`, the argument `updateD3` hands to a chart, the
    size arithmetic of `getSize`/`makeSvg`, and the guards of the built-in
    factories. Drawing (scales, axes, joins, transitions, the force
    simulation) is library code and is not modelled. */
module D3 {
  import opened Wrappers
  import opened Json

  // ── Chart factories ─────────────────────────────────────────────────────────

  /** A factory in the table: one of the built-ins, or a factory a page
      registered (identified by an opaque tag). */
  datatype Factory = BarChart | LineChart | ForceGraph | Custom(tag: nat)

  /** The chart object a factory returns. `Inert` is the `{ update() {} }`
      a built-in returns when its data fails its guard (and what a force graph's
      `update` always is); `Drawn` is a real chart; a custom factory's result
      is opaque. `FactoryThrew` stands for a factory call that threw instead
      of returning, so that `renderD3` rejects. */
  datatype Chart = Inert | Drawn(kind: Factory) | CustomChart(tag: nat) | FactoryThrew

  /** `Array.isArray(v)` */
  predicate IsArray(v: Json) {
    v.JArr?
  }

  /** An array with a `null` item: reading `d.label`, `d.value` or `d.x` of
      that item throws a TypeError. */
  predicate HasNullItem(v: Json) {
    v.JArr? && exists i :: 0 <= i < |v.items| && v.items[i].JNull?
  }

  /** Data a bar or line chart draws without throwing. */
  predicate Drawable(v: Json) {
    IsArray(v) && !HasNullItem(v)
  }

  /** `x.map(...)` on a value that is not an array throws: `data.nodes` must
      be an array, and `data.links ?? []` too. */
  predicate ForceThrows(data: Json) {
    var nodes := Prop(data, "nodes");
    var links := Prop(data, "links");
    (nodes.None? || !IsArray(nodes.value)) || (!Nullish(links) && !IsArray(links.value))
  }

  /** What a factory returns for `data` (the guards at the top of each
      built-in, and the item reads that throw on `null`). */
  function Mount(f: Factory, data: Json): (c: Chart)
    ensures f == BarChart || f == LineChart ==> (c == Inert <==> !IsArray(data))
    ensures f == BarChart || f == LineChart ==> (c == FactoryThrew <==> HasNullItem(data))
    ensures f == ForceGraph ==> (c == Inert <==> !(Prop(data, "nodes").Some? && Truthy(Prop(data, "nodes").value)))
    ensures f == ForceGraph ==> (c == FactoryThrew <==>
              Prop(data, "nodes").Some? && Truthy(Prop(data, "nodes").value) && ForceThrows(data))
    ensures f.Custom? ==> c == CustomChart(f.tag)
    ensures c.Drawn? ==> c.kind == f
  {
    match f
    case BarChart => if !IsArray(data) then Inert else if HasNullItem(data) then FactoryThrew else Drawn(BarChart)
    case LineChart => if !IsArray(data) then Inert else if HasNullItem(data) then FactoryThrew else Drawn(LineChart)
    case ForceGraph =>
      var nodes := Prop(data, "nodes");
      if !(nodes.Some? && Truthy(nodes.value)) then Inert
      else if ForceThrows(data) then FactoryThrew
      else Drawn(ForceGraph)
    case Custom(t) => CustomChart(t)
  }

  /** What `chart.update(newData)` does. */
  datatype Redraw = NoRedraw | Redrawn | RedrawThrows

  /** `chart.update(newData)`: bar and line charts ignore non-array input and
      throw on an array with a `null` item; an inert chart and a force graph
      ignore everything. A custom chart's `update` is opaque: it is called.
      A factory that threw left no chart to update. */
  function ChartUpdate(c: Chart, newData: Json): (r: Redraw)
    ensures r == RedrawThrows ==> c.Drawn? && HasNullItem(newData)
    ensures r == Redrawn ==> c.CustomChart? || Drawable(newData)
  {
    match c
    case Drawn(k) =>
      if k == ForceGraph || !IsArray(newData) then NoRedraw
      else if HasNullItem(newData) then RedrawThrows
      else Redrawn
    case CustomChart(_) => Redrawn
    case _ => NoRedraw
  }

  /** A force graph never redraws on update; it is re-mounted instead. */
  lemma ForceNeverRedraws(data: Json, newData: Json)
    ensures ChartUpdate(Mount(ForceGraph, data), newData) == NoRedraw
  {
  }

  /** A built-in chart mounted on clean array data redraws exactly on clean
      array input, and throws on an array holding `null`. */
  lemma BarLineRedraws(f: Factory, data: Json, newData: Json)
    requires f == BarChart || f == LineChart
    ensures ChartUpdate(Mount(f, data), newData) == Redrawn <==> Drawable(data) && Drawable(newData)
    ensures ChartUpdate(Mount(f, data), newData) == RedrawThrows <==> Drawable(data) && HasNullItem(newData)
  {
  }

  /** `[null]` makes the factory throw, and an update with `[null]` throws. */
  lemma NullItemThrows(f: Factory)
    requires f == BarChart || f == LineChart
    ensures Mount(f, JArr([JNull])) == FactoryThrew
    ensures ChartUpdate(Mount(f, JArr([])), JArr([JNull])) == RedrawThrows
  {
    assert JArr([JNull]).items[0].JNull?;
  }

  /** `options.color ?? '#F0177A'` */
  function Color(opts: seq<(string, Json)>): (c: Json)
    ensures Lookup(opts, "color").Some? && !Lookup(opts, "color").value.JNull? ==> c == Lookup(opts, "color").value
    ensures Nullish(Lookup(opts, "color")) ==> c == JStr("#F0177A")
  {
    Coalesce(Lookup(opts, "color"), Some(JStr("#F0177A"))).value
  }

  // ── Sizes ───────────────────────────────────────────────────────────────────

  datatype Margin = Margin(top: real, right: real, bottom: real, left: real)

  const BarMargin: Margin := Margin(16.0, 24.0, 40.0, 120.0)
  const LineMargin: Margin := Margin(16.0, 24.0, 40.0, 52.0)

  /** `getSize(el)` on the measured box: a zero width or height is falsy and
      replaced by 640 or 320. */
  function GetSize(width: real, height: real): (r: (real, real))
    ensures r.0 != 0.0 && r.1 != 0.0
    ensures width != 0.0 ==> r.0 == width
    ensures height != 0.0 ==> r.1 == height
    ensures width == 0.0 ==> r.0 == 640.0
    ensures height == 0.0 ==> r.1 == 320.0
  {
    (if width != 0.0 then width else 640.0, if height != 0.0 then height else 320.0)
  }

  /** Substituting the defaults once is enough. */
  lemma GetSizeIdempotent(width: real, height: real)
    ensures GetSize(GetSize(width, height).0, GetSize(width, height).1) == GetSize(width, height)
  {
  }

  /** The size part of what `makeSvg` returns. */
  datatype Frame = Frame(width: real, height: real, innerW: real, innerH: real)

  function MakeSvg(width: real, height: real, m: Margin): (f: Frame)
    ensures (f.width, f.height) == GetSize(width, height)
    // the inner area and the margins tile the svg exactly
    ensures f.innerW + m.left + m.right == f.width
    ensures f.innerH + m.top + m.bottom == f.height
  {
    var size := GetSize(width, height);
    Frame(size.0, size.1, size.0 - m.left - m.right, size.1 - m.top - m.bottom)
  }

  /** An unmeasured container gets the default 640×320 svg; the bar chart's
      plot area is then 496×264. */
  lemma BarDefaultFrame()
    ensures MakeSvg(0.0, 0.0, BarMargin) == Frame(640.0, 320.0, 496.0, 264.0)
  {
  }

  // ── renderD3 ────────────────────────────────────────────────────────────────

  /** What `renderD3` resolves to. `Unknown` is the warning plus `null`;
      otherwise the factory that was called, with the arguments it got, the
      chart it returned (`{ chart }`), and whether an invalid-JSON warning was logged. */
  datatype RenderOutcome =
    | Unknown
    | Rendered(factory: Factory, data: Json, opts: seq<(string, Json)>, chart: Chart, jsonWarning: bool)

  /** The options after `{ ...options, ...parsed }` and whether parsing warned:
      `data-options` is parsed only when it is a non-empty string, and a parse
      failure leaves `parsed` at `{}`. */
  function MergedOptions(options: Json, dataOptions: Option<string>, parse: Parser): (r: (seq<(string, Json)>, bool))
    ensures r.1 <==> dataOptions.Some? && dataOptions.value != [] && parse(dataOptions.value).None?
    ensures forall k :: Lookup(r.0, k) ==
              if dataOptions.Some? && dataOptions.value != [] && parse(dataOptions.value).Some?
                 && Lookup(SpreadFields(parse(dataOptions.value).value), k).Some?
              then Lookup(SpreadFields(parse(dataOptions.value).value), k)
              else Lookup(SpreadFields(options), k)
  {
    var attempt := if dataOptions.Some? && dataOptions.value != [] then parse(dataOptions.value) else Some(Empty);
    var parsed := attempt.GetOr(Empty);
    (Assign(SpreadFields(options), SpreadFields(parsed)), attempt.None?)
  }

  /** `renderD3(el, options)` after the loader has settled: `charts` is the
      factory table, `chartType` the `data-d3` attribute. */
  function ResolveRender(charts: map<string, Factory>, chartType: Option<string>, dataOptions: Option<string>,
                         parse: Parser, options: Json): (r: RenderOutcome)
    // an unregistered type calls no factory
    ensures r.Unknown? <==> chartType.None? || chartType.value !in charts
    ensures r.Rendered? ==> r.factory == charts[chartType.value]
    ensures r.Rendered? ==> r.chart == Mount(r.factory, r.data)
    // the factory mounts `merged.data ?? []` with every other merged option
    ensures r.Rendered? ==> var m := MergedOptions(options, dataOptions, parse);
              && r.data == Coalesce(Lookup(m.0, "data"), Some(JArr([]))).value
              && r.jsonWarning == m.1
              && forall k :: k != "data" ==> Lookup(r.opts, k) == Lookup(m.0, k)
    // `data` is split off from the rest of the options
    ensures r.Rendered? ==> "data" !in Keys(r.opts)
  {
    if chartType.None? || chartType.value !in charts then Unknown
    else
      var f := charts[chartType.value];
      var m := MergedOptions(options, dataOptions, parse);
      var data := Coalesce(Lookup(m.0, "data"), Some(JArr([]))).value;
      var opts := Without(m.0, "data");
      Rendered(f, data, opts, Mount(f, data), m.1)
  }

  /** `data-options` keys override the passed options, for every key but `data`. */
  lemma RenderOptionsOverride(charts: map<string, Factory>, chartType: string, dataOptions: string,
                              parse: Parser, options: Json, fields: seq<(string, Json)>, k: string)
    requires chartType in charts && dataOptions != [] && parse(dataOptions) == Some(JObj(fields))
    requires k != "data" && Lookup(fields, k).Some?
    ensures Lookup(ResolveRender(charts, Some(chartType), Some(dataOptions), parse, options).opts, k) == Lookup(fields, k)
  {
  }

  /** Invalid `data-options` JSON counts as `{}`: the factory sees exactly the
      passed options, and the warning is logged. */
  lemma RenderInvalidJson(charts: map<string, Factory>, chartType: string, dataOptions: string,
                          parse: Parser, options: Json, k: string)
    requires chartType in charts && dataOptions != [] && parse(dataOptions).None?
    ensures var r := ResolveRender(charts, Some(chartType), Some(dataOptions), parse, options);
            r.jsonWarning && r.data == ResolveRender(charts, Some(chartType), None, parse, options).data
            && (k != "data" ==> Lookup(r.opts, k) == Lookup(SpreadFields(options), k))
  {
  }

  /** Without a `data` key (or with `data: null`) anywhere, the factory gets `[]`. */
  lemma RenderDataDefault(charts: map<string, Factory>, chartType: string, options: Json)
    requires chartType in charts && Nullish(Lookup(SpreadFields(options), "data"))
    ensures ResolveRender(charts, Some(chartType), None, (s: string) => None, options).data == JArr([])
  {
  }

  // ── updateD3 ────────────────────────────────────────────────────────────────

  /** What `renderD3` stored as the instance: `null`, or `{ chart }`. */
  datatype Instance = NullInstance | ChartHolder(chart: Option<Chart>)

  /** What `updateD3(el, data, instance)` does: nothing, call the chart's
      `update` with an argument, or throw (reading `data.data` of `null`). */
  datatype UpdateOutcome = NoCall | Call(arg: Json) | Throws

  /** `instance?.chart?.update(data.data ?? data)`: optional chaining skips the
      whole call, argument included, when the instance or its chart is missing. */
  function UpdateD3(data: Json, instance: Instance): (r: UpdateOutcome)
    ensures instance.NullInstance? || instance.chart.None? ==> r == NoCall
    ensures instance.ChartHolder? && instance.chart.Some? && data.JNull? ==> r == Throws
    ensures r.Call? ==> (if Nullish(Prop(data, "data")) then r.arg == data else r.arg == Prop(data, "data").value)
    ensures r.Call? <==> instance.ChartHolder? && instance.chart.Some? && !data.JNull?
  {
    if instance.NullInstance? || instance.chart.None? then NoCall
    else if data.JNull? then Throws
    else Call(Coalesce(Prop(data, "data"), Some(data)).value)
  }

  /** A payload of the form `{ data: v }` with `v` non-null hands exactly `v` on. */
  lemma UpdateUnwrapsData(v: Json, c: Chart)
    requires !v.JNull?
    ensures UpdateD3(JObj([("data", v)]), ChartHolder(Some(c))) == Call(v)
  {
  }

  // ── Module state ────────────────────────────────────────────────────────────

  /** What an awaited `renderD3` gives: the loader's promise rejected (the
      import failed, now or earlier), or the outcome after the loader settled. */
  datatype RenderResult = Rejected | Resolved(outcome: RenderOutcome)

  /** The module-level state: `d3` (set once the import resolved), `_loadPromise`
      (the in-flight or settled import), whether that cached promise rejected,
      the number of `import()` calls made, and the `D3_CHARTS` Map. */
  class D3Module {
    var loaded: bool
    var pending: bool
    var failed: bool
    var imports: nat
    var charts: map<string, Factory>

    /** A promise is cached exactly when an import was started, at most one
        ever is, and it either resolved, rejected or is still in flight. */
    ghost predicate Valid()
      reads this
    {
      && imports == (if pending then 1 else 0)
      && (loaded ==> pending)
      && (failed ==> pending && !loaded)
    }

    /** Module evaluation: nothing loaded, and the three built-ins registered. */
    constructor ()
      ensures Valid() && !loaded && !pending && !failed && imports == 0
      ensures charts == map["bar" := BarChart, "line" := LineChart, "force" := ForceGraph]
    {
      loaded := false;
      pending := false;
      failed := false;
      imports := 0;
      charts := map[];
      new;
      RegisterD3Chart("bar", BarChart);
      RegisterD3Chart("line", LineChart);
      RegisterD3Chart("force", ForceGraph);
    }

    /** `registerD3Chart(name, factory)`: `Map.set`, overwriting any earlier factory. */
    method RegisterD3Chart(name: string, f: Factory)
      modifies this`charts
      ensures charts == old(charts)[name := f]
    {
      charts := charts[name := f];
    }

    /** `loadD3()` up to its first `await`: returns the module when loaded,
        the cached promise when one exists, and otherwise starts the one import. */
    method LoadD3() returns (startedImport: bool)
      requires Valid()
      modifies this`pending, this`imports
      ensures Valid() && imports <= 1
      ensures startedImport <==> !old(pending)
      ensures pending && imports == 1
      ensures loaded == old(loaded)
    {
      if loaded {
        return false;
      }
      if pending {
        return false;
      }
      pending := true;
      imports := imports + 1;
      return true;
    }

    /** The in-flight import settles: on success its `.then` sets `d3`; on
        failure the rejected promise stays cached in `_loadPromise`, so it is
        never retried and every later `loadD3()` rejects. */
    method ImportSettled(ok: bool)
      requires Valid() && pending && !loaded && !failed
      modifies this`loaded, this`failed
      ensures Valid()
      ensures loaded == ok && failed == !ok
    {
      if ok {
        loaded := true;
      } else {
        failed := true;
      }
    }

    /** `renderD3(el, options)`: `await loadD3()`, where `importOk` is how the
        import settles if this call is the one that awaits it first. A cached
        rejection rejects again, and the factory is not looked up. */
    method RenderD3(importOk: bool, chartType: Option<string>, dataOptions: Option<string>,
                    parse: Parser, options: Json) returns (r: RenderResult)
      requires Valid()
      modifies this`pending, this`imports, this`loaded, this`failed
      ensures Valid() && imports == 1 && pending
      ensures charts == old(charts)
      // the import settles once: a settled import keeps its outcome
      ensures loaded == (old(loaded) || (!old(failed) && importOk))
      ensures failed == !loaded
      ensures r.Rejected? <==> failed
      ensures r.Resolved? ==> r.outcome == ResolveRender(charts, chartType, dataOptions, parse, options)
      // a rejected import is never retried
      ensures old(failed) ==> r.Rejected? && imports == old(imports)
    {
      var _ := LoadD3();
      if !loaded && !failed {
        ImportSettled(importOk);
      }
      if failed {
        r := Rejected;
      } else {
        r := Resolved(ResolveRender(charts, chartType, dataOptions, parse, options));
      }
    }
  }
}
