/** The ordered adapter table (assets/js/viz-registry.js): one descriptor per
    visualization library with its detection predicate, its CDN bundle and the
    capability slots (`init`, `selector`, `render`, `update`) it fills. */
module VizRegistry {
  import opened Wrappers
  import opened Json

  /** A CDN manifest: stylesheet hrefs and script srcs, in declaration order. */
  datatype Bundle = Bundle(styles: seq<string>, scripts: seq<string>)

  /** Which adapter module a descriptor delegates to. */
  datatype Adapter = MathAdapter | DiagramsAdapter | EChartsAdapter | LeafletAdapter | D3Adapter | MapboxAdapter

  /** A descriptor. `hasInit`, `hasRender` and `hasUpdate` say whether the slot
      holds a function (true) or `null` (false). */
  datatype Entry = Entry(
    id: string,
    adapter: Adapter,
    cdn: Bundle,
    hasInit: bool,
    selector: Option<string>,
    hasRender: bool,
    hasUpdate: bool)

  /** What a `detect` predicate can observe of the page: the classes on
      `<body>`, the simple selectors that currently match at least one element,
      and the text of the content root (None when no content root exists). */
  datatype Page = Page(bodyClasses: set<string>, matched: set<string>, content: Option<string>)

  /** `document.querySelector("a, b, …")` finds something iff one of the parts matches. */
  predicate AnyMatches(p: Page, selectors: seq<string>) {
    exists i :: 0 <= i < |selectors| && selectors[i] in p.matched
  }

  /** The body flag class each adapter's `detect` checks. */
  function Flag(a: Adapter): string {
    match a
    case MathAdapter => "tag-hash-math"
    case DiagramsAdapter => "tag-hash-diagram"
    case EChartsAdapter => "tag-hash-viz"
    case LeafletAdapter => "tag-hash-leaflet"
    case D3Adapter => "tag-hash-d3"
    case MapboxAdapter => "tag-hash-geo"
  }

  /** The marker selector list each adapter's `detect` queries. */
  function Markers(a: Adapter): seq<string> {
    match a
    case MathAdapter => [".math", ".math-inline", ".math-display"]
    case DiagramsAdapter => [".mermaid", "code.language-mermaid"]
    case EChartsAdapter => ["[data-viz]"]
    case LeafletAdapter => ["[data-leaflet]"]
    case D3Adapter => ["[data-d3]"]
    case MapboxAdapter => ["[data-map]"]
  }

  /** `!!(content?.textContent.includes('$'))` */
  predicate DollarInContent(p: Page) {
    p.content.Some? && '$' in p.content.value
  }

  /** The `detect` field of each descriptor. */
  function Detect(e: Entry, p: Page): (r: bool)
    ensures e.adapter == MathAdapter ==>
              (r <==> "tag-hash-math" in p.bodyClasses
                      || AnyMatches(p, [".math", ".math-inline", ".math-display"])
                      || DollarInContent(p))
    ensures e.adapter != MathAdapter ==>
              (r <==> Flag(e.adapter) in p.bodyClasses || AnyMatches(p, Markers(e.adapter)))
  {
    match e.adapter
    case MathAdapter =>
      Flag(MathAdapter) in p.bodyClasses || AnyMatches(p, Markers(MathAdapter)) || DollarInContent(p)
    case _ =>
      Flag(e.adapter) in p.bodyClasses || AnyMatches(p, Markers(e.adapter))
  }

  predicate UniqueIds(r: seq<Entry>) {
    forall i, j :: 0 <= i < j < |r| ==> r[i].id != r[j].id
  }

  /** `REGISTRY`, the table in processing order. */
  function Registry(): (r: seq<Entry>)
    ensures |r| == 6
    ensures r[0].id == "math" && r[1].id == "diagrams" && r[2].id == "echarts"
    ensures r[3].id == "leaflet" && r[4].id == "d3" && r[5].id == "mapbox"
    // page-wide adapters: an init and nothing per element
    ensures forall i :: 0 <= i < 2 ==>
              r[i].hasInit && r[i].selector.None? && !r[i].hasRender && !r[i].hasUpdate
    // element adapters: a selector, render and update, and no init
    ensures forall i :: 2 <= i < 6 ==>
              !r[i].hasInit && r[i].selector.Some? && r[i].hasRender && r[i].hasUpdate
    ensures r[4].cdn == Bundle([], [])
    ensures forall i :: 0 <= i < 6 ==> r[i].adapter != MathAdapter || i == 0
  {
    [ Entry("math", MathAdapter,
            Bundle(["https://cdn.jsdelivr.net/npm/katex@0.16/dist/katex.min.css"],
                   ["https://cdn.jsdelivr.net/npm/katex@0.16/dist/katex.min.js",
                    "https://cdn.jsdelivr.net/npm/katex@0.16/dist/contrib/auto-render.min.js"]),
            true, None, false, false),
      Entry("diagrams", DiagramsAdapter,
            Bundle([], ["https://cdn.jsdelivr.net/npm/mermaid@10/dist/mermaid.min.js"]),
            true, None, false, false),
      Entry("echarts", EChartsAdapter,
            Bundle([], ["https://cdn.jsdelivr.net/npm/echarts@5/dist/echarts.min.js"]),
            false, Some("[data-viz]"), true, true),
      Entry("leaflet", LeafletAdapter,
            Bundle(["https://unpkg.com/leaflet@1.9/dist/leaflet.css"],
                   ["https://unpkg.com/leaflet@1.9/dist/leaflet.js"]),
            false, Some("[data-leaflet]"), true, true),
      Entry("d3", D3Adapter,
            Bundle([], []),
            false, Some("[data-d3]"), true, true),
      Entry("mapbox", MapboxAdapter,
            Bundle(["https://api.mapbox.com/mapbox-gl-js/v3.10.0/mapbox-gl.css"],
                   ["https://api.mapbox.com/mapbox-gl-js/v3.10.0/mapbox-gl.js"]),
            false, Some("[data-map]"), true, true) ]
  }

  /** No two descriptors share an id. */
  lemma RegistryIdsUnique()
    ensures UniqueIds(Registry())
  {
    var r := Registry();
    forall i, j | 0 <= i < j < |r|
      ensures r[i].id != r[j].id
    {
      assert |r[i].id| != |r[j].id| || r[i].id[0] != r[j].id[0];
    }
  }

  /** Each element adapter's selector is its own marker selector, so an
      element it renders is one its `detect` would have seen. */
  lemma SelectorIsMarker(i: nat)
    requires 2 <= i < 6
    ensures Registry()[i].selector == Some(Markers(Registry()[i].adapter)[0])
  {
  }

  /** The call a descriptor's `render` slot makes for an element. */
  datatype RenderCall =
    | RenderRicker(options: Json)          // renderRicker(el, options)
    | RenderRickerScrolly(options: Json)   // renderRickerScrolly(el, options)
    | RenderEChart(options: Json)          // renderEChart(el, options ?? {})
    | RenderLeaflet(options: Json)         // renderLeaflet(el, options)
    | RenderD3(options: Json)              // renderD3(el, options)
    | RenderMap(config: Json)              // renderMap(el, config)

  /** `renderEChartsEl`: route by `data-viz` to a named renderer, else to the
      generic chart with `options ?? {}`. */
  function RouteECharts(viz: Option<string>, options: Json): (c: RenderCall)
    ensures viz == Some("ricker") ==> c == RenderRicker(options)
    ensures viz == Some("ricker-scrolly") ==> c == RenderRickerScrolly(options)
    ensures viz != Some("ricker") && viz != Some("ricker-scrolly") ==>
              c == RenderEChart(if options.JNull? then Empty else options)
  {
    if viz == Some("ricker") then RenderRicker(options)
    else if viz == Some("ricker-scrolly") then RenderRickerScrolly(options)
    else RenderEChart(Coalesce(Some(options), Some(Empty)).value)
  }

  /** The `render` slot of a descriptor, or None where it is `null`. */
  function RenderSlot(e: Entry, viz: Option<string>, options: Json): (c: Option<RenderCall>)
    ensures c.Some? <==> e.adapter in {EChartsAdapter, LeafletAdapter, D3Adapter, MapboxAdapter}
    // the Mapbox slot is `(el) => renderMap(el, {})`: options never reach it
    ensures e.adapter == MapboxAdapter ==> c == Some(RenderMap(Empty))
    ensures e.adapter == LeafletAdapter ==> c == Some(RenderLeaflet(options))
    ensures e.adapter == D3Adapter ==> c == Some(RenderD3(options))
  {
    match e.adapter
    case EChartsAdapter => Some(RouteECharts(viz, options))
    case LeafletAdapter => Some(RenderLeaflet(options))
    case D3Adapter => Some(RenderD3(options))
    case MapboxAdapter => Some(RenderMap(Empty))
    case _ => None
  }

  /** In the table, exactly the entries with a `render` slot have one here. */
  lemma RenderSlotMatchesTable(i: nat, viz: Option<string>, options: Json)
    requires i < 6
    ensures RenderSlot(Registry()[i], viz, options).Some? == Registry()[i].hasRender
  {
  }
}
