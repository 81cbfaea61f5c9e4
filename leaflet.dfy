/** The Leaflet adapter of assets/js/viz/leaflet.js: attribute/option
    precedence, the tile-preset table and its fallbacks, markers from
    `data-markers`, the theme-aware tile layer swap, and the branches of
    `updateLeaflet`. Leaflet itself (`L.map`, `setView`, `flyTo`, `setZoom`,
    tile loading) is library code: the model keeps the map's layers and the
    calls made on it. */
module Leaflet {
  import opened Wrappers
  import opened Json

  // ── Precedence ──────────────────────────────────────────────────────────────

  /** A setting before `Number(...)`: an attribute's text, an `options`
      property (any JSON), or the built-in default. */
  datatype Raw = Text(s: string) | OptJson(j: Json) | Default(d: real)

  /** `el.dataset.k ?? options.k ?? d`: a present attribute wins even when empty. */
  function Pick(attr: Option<string>, opt: Option<Json>, d: real): (r: Raw)
    ensures attr.Some? ==> r == Text(attr.value)
    ensures attr.None? && !Nullish(opt) ==> r == OptJson(opt.value)
    ensures attr.None? && Nullish(opt) ==> r == Default(d)
  {
    if attr.Some? then Text(attr.value)
    else if !Nullish(opt) then OptJson(opt.value)
    else Default(d)
  }

  /** The `data-*` attributes `renderLeaflet` reads (None when absent). */
  datatype LeafletAttrs = LeafletAttrs(
    lat: Option<string>, lng: Option<string>, zoom: Option<string>,
    tiles: Option<string>, tilesDark: Option<string>, markers: Option<string>)

  // ── Tile presets ────────────────────────────────────────────────────────────

  /** `TILE_PRESETS` */
  datatype TilePreset = Osm | Carto | CartoDark | Stadia

  function Url(p: TilePreset): string {
    match p
    case Osm => "https://{s}.tile.openstreetmap.org/{z}/{x}/{y}.png"
    case Carto => "https://{s}.basemaps.cartocdn.com/light_all/{z}/{x}/{y}{r}.png"
    case CartoDark => "https://{s}.basemaps.cartocdn.com/dark_all/{z}/{x}/{y}{r}.png"
    case Stadia => "https://tiles.stadiamaps.com/tiles/alidade_smooth/{z}/{x}/{y}{r}.png"
  }

  function MaxZoom(p: TilePreset): nat {
    if p == Osm then 19 else 20
  }

  /** `String(j)` for an `options` value, the property key `TILE_PRESETS[j]`
      looks up. A number becomes a numeral and an array of two or more items
      a comma-separated list: neither names a preset, and both are None here
      in place of the string. */
  function JsonKey(j: Json): (r: Option<string>)
    ensures j.JStr? ==> r == Some(j.s)
    // a one-item array converts as its item does, `null` giving the empty string
    ensures j.JArr? && |j.items| == 1 ==> r == (if j.items[0].JNull? then Some("") else JsonKey(j.items[0]))
    ensures r.None? <==> j.JNum? || (j.JArr? && (|j.items| >= 2 || (|j.items| == 1 && JsonKey(j.items[0]).None?)))
  {
    match j
    case JNull => Some("null")
    case JBool(b) => Some(if b then "true" else "false")
    case JNum(_) => None
    case JStr(s) => Some(s)
    case JArr(items) =>
      if |items| == 0 then Some("")
      else if |items| == 1 then (if items[0].JNull? then Some("") else JsonKey(items[0]))
      else None
    case JObj(_) => Some("[object Object]")
  }

  /** The key `TILE_PRESETS[k]` looks up for a tile setting, as `JsonKey` gives it. */
  function KeyString(k: Raw): (r: Option<string>)
    ensures k.Text? ==> r == Some(k.s)
    ensures k.OptJson? ==> r == JsonKey(k.j)
  {
    match k
    case Text(s) => Some(s)
    case OptJson(j) => JsonKey(j)
    case Default(_) => None
  }

  /** `tileKey === 'carto'`: strict equality, with no conversion. */
  predicate IsCarto(k: Raw) {
    k == Text("carto") || k == OptJson(JStr("carto"))
  }

  /** `TILE_PRESETS[key]`, or None for a key with no preset. */
  function PresetNamed(key: Option<string>): (p: Option<TilePreset>)
    ensures p.Some? <==> key.Some? && key.value in {"osm", "carto", "carto-dark", "stadia"}
  {
    if key == Some("osm") then Some(Osm)
    else if key == Some("carto") then Some(Carto)
    else if key == Some("carto-dark") then Some(CartoDark)
    else if key == Some("stadia") then Some(Stadia)
    else None
  }

  /** Each preset is found under exactly one key. */
  lemma PresetNamesDistinct(a: string, b: string)
    requires PresetNamed(Some(a)).Some? && PresetNamed(Some(a)) == PresetNamed(Some(b))
    ensures a == b
  {
  }

  /** `el.dataset.tiles ?? options.tiles ?? 'osm'` */
  function TileKey(attrs: LeafletAttrs, options: Json): (k: Raw)
    ensures attrs.tiles.Some? ==> k == Text(attrs.tiles.value)
    ensures attrs.tiles.None? && !Nullish(Prop(options, "tiles")) ==> k == OptJson(Prop(options, "tiles").value)
    ensures attrs.tiles.None? && Nullish(Prop(options, "tiles")) ==> k == Text("osm")
  {
    if attrs.tiles.Some? then Text(attrs.tiles.value)
    else if !Nullish(Prop(options, "tiles")) then OptJson(Prop(options, "tiles").value)
    else Text("osm")
  }

  /** `TILE_PRESETS[tileKey] ?? TILE_PRESETS.osm` */
  function LightPreset(tileKey: Raw): (p: TilePreset)
    ensures PresetNamed(KeyString(tileKey)).Some? ==> p == PresetNamed(KeyString(tileKey)).value
    // an unknown key falls back to OpenStreetMap
    ensures PresetNamed(KeyString(tileKey)).None? ==> p == Osm
  {
    PresetNamed(KeyString(tileKey)).GetOr(Osm)
  }

  /** `el.dataset.tilesDark ?? (tileKey === 'carto' ? 'carto-dark' : tileKey)` */
  function DarkKey(tilesDark: Option<string>, tileKey: Raw): (k: Raw)
    ensures tilesDark.Some? ==> k == Text(tilesDark.value)
    ensures tilesDark.None? && IsCarto(tileKey) ==> k == Text("carto-dark")
    ensures tilesDark.None? && !IsCarto(tileKey) ==> k == tileKey
  {
    if tilesDark.Some? then Text(tilesDark.value)
    else if IsCarto(tileKey) then Text("carto-dark")
    else tileKey
  }

  /** `TILE_PRESETS[darkPresetKey] ?? preset`: an unknown dark key falls back
      to the light preset (not to OpenStreetMap). */
  function DarkPreset(tilesDark: Option<string>, tileKey: Raw): (p: TilePreset)
    ensures PresetNamed(KeyString(DarkKey(tilesDark, tileKey))).Some? ==>
              p == PresetNamed(KeyString(DarkKey(tilesDark, tileKey))).value
    ensures PresetNamed(KeyString(DarkKey(tilesDark, tileKey))).None? ==> p == LightPreset(tileKey)
  {
    PresetNamed(KeyString(DarkKey(tilesDark, tileKey))).GetOr(LightPreset(tileKey))
  }

  /** Without `data-tiles-dark`, a page on the light Carto tiles gets Carto
      Dark Matter in dark mode, and any other page keeps its light tiles. */
  lemma DarkDefault(tileKey: Raw)
    ensures IsCarto(tileKey) ==> DarkPreset(None, tileKey) == CartoDark
    ensures !IsCarto(tileKey) ==> DarkPreset(None, tileKey) == LightPreset(tileKey)
  {
  }

  /** A `tiles` option of `["carto"]` converts to the key `carto`, but is not
      `=== 'carto'`: light Carto tiles in both modes. */
  lemma WrappedCartoKey()
    ensures LightPreset(OptJson(JArr([JStr("carto")]))) == Carto
    ensures DarkPreset(None, OptJson(JArr([JStr("carto")]))) == Carto
  {
  }

  /** Where the map opens: the settings `setView` gets, before `Number(...)`. */
  datatype View = View(lat: Raw, lng: Raw, zoom: Raw, light: TilePreset, dark: TilePreset)

  /** Reading `options.lat`, `options.lng`, `options.zoom` and `options.tiles`
      throws a TypeError when `options` is `null` (the `= {}` default replaces
      only `undefined`), and `??` reads each of them only when its attribute
      is absent. On any other value a property that is not there is undefined. */
  predicate OptionsThrow(attrs: LeafletAttrs, options: Json) {
    options.JNull? && (attrs.lat.None? || attrs.lng.None? || attrs.zoom.None? || attrs.tiles.None?)
  }

  /** The settings of a map whose options were read without a throw. */
  function ResolveView(attrs: LeafletAttrs, options: Json): (v: View)
    ensures v.lat == Pick(attrs.lat, Prop(options, "lat"), 51.505)
    ensures v.lng == Pick(attrs.lng, Prop(options, "lng"), -0.09)
    ensures v.zoom == Pick(attrs.zoom, Prop(options, "zoom"), 13.0)
    ensures v.light == LightPreset(TileKey(attrs, options))
    ensures v.dark == DarkPreset(attrs.tilesDark, TileKey(attrs, options))
  {
    var key := TileKey(attrs, options);
    View(Pick(attrs.lat, Prop(options, "lat"), 51.505),
         Pick(attrs.lng, Prop(options, "lng"), -0.09),
         Pick(attrs.zoom, Prop(options, "zoom"), 13.0),
         LightPreset(key), DarkPreset(attrs.tilesDark, key))
  }

  /** A bare `data-leaflet` container opens on London at zoom 13 on OpenStreetMap tiles. */
  lemma BareDefaults()
    ensures ResolveView(LeafletAttrs(None, None, None, None, None, None), Empty)
            == View(Default(51.505), Default(-0.09), Default(13.0), Osm, Osm)
  {
  }

  // ── Markers ─────────────────────────────────────────────────────────────────

  /** `L.marker([lat, lng])`, with the popup bound when `label` is truthy. */
  datatype Marker = Marker(lat: Option<Json>, lng: Option<Json>, popup: Option<Json>)

  /** The marker the `forEach` callback adds for one item; destructuring
      reads missing properties as undefined. */
  function MarkerOf(item: Json): (m: Marker)
    ensures m.popup.Some? <==> Prop(item, "label").Some? && Truthy(Prop(item, "label").value)
  {
    var caption := Prop(item, "label");
    Marker(Prop(item, "lat"), Prop(item, "lng"), if caption.Some? && Truthy(caption.value) then caption else None)
  }

  /** The index of the first item whose callback throws, or the length:
      destructuring a `null` item throws, and so does `L.marker([lat, lng])`
      when `markerThrows` holds for its marker (Leaflet rejects coordinates
      that are not numbers). */
  function FirstFailing(items: seq<Json>, markerThrows: Marker -> bool): (k: nat)
    ensures k <= |items|
    ensures forall i :: 0 <= i < k ==> !items[i].JNull? && !markerThrows(MarkerOf(items[i]))
    ensures k < |items| ==> items[k].JNull? || markerThrows(MarkerOf(items[k]))
  {
    if items == [] then 0
    else if items[0].JNull? || markerThrows(MarkerOf(items[0])) then 0
    else 1 + FirstFailing(items[1..], markerThrows)
  }

  /** The items the markers `forEach` visits: those of a non-empty attribute
      that parses to an array, none otherwise. */
  function MarkerItems(attr: Option<string>, parse: Parser): (items: seq<Json>)
    ensures attr.Some? && attr.value != [] && parse(attr.value).Some? && parse(attr.value).value.JArr? ==>
              items == parse(attr.value).value.items
    ensures !(attr.Some? && attr.value != [] && parse(attr.value).Some? && parse(attr.value).value.JArr?) ==> items == []
  {
    if attr.None? || attr.value == [] then []
    else match parse(attr.value)
      case Some(JArr(items)) => items
      case _ => []
  }

  /** Whether the markers block logs its warning: a non-empty attribute that
      does not parse, is not an array, or holds an item whose callback throws. */
  predicate MarkersWarn(attr: Option<string>, parse: Parser, markerThrows: Marker -> bool) {
    && attr.Some? && attr.value != []
    && (parse(attr.value).None? || !parse(attr.value).value.JArr?
        || FirstFailing(MarkerItems(attr, parse), markerThrows) < |MarkerItems(attr, parse)|)
  }

  /** Layers extended by `AddedMarkers` hold one marker per item before the
      first failing one, after the layers they had. */
  lemma MarkersLayout(before: seq<Layer>, after: seq<Layer>, attr: Option<string>, parse: Parser, markerThrows: Marker -> bool)
    requires after == before + AddedMarkers(attr, parse, markerThrows)
    requires attr.Some? && attr.value != [] && parse(attr.value).Some? && parse(attr.value).value.JArr?
    ensures var items := parse(attr.value).value.items;
            && |after| == |before| + FirstFailing(items, markerThrows)
            && after[..|before|] == before
            && (forall i :: 0 <= i < FirstFailing(items, markerThrows) ==> after[|before| + i] == MarkerLayer(MarkerOf(items[i])))
  {
    assert after[..|before|] == before;
  }

  /** A map layer: a tile layer (identified by its creation number) or a marker. */
  datatype Layer = Tiles(id: nat, preset: TilePreset) | MarkerLayer(marker: Marker)

  /** The marker layers the block adds: one per item before the first failing one. */
  function AddedMarkers(attr: Option<string>, parse: Parser, markerThrows: Marker -> bool): (ls: seq<Layer>)
    ensures var items := MarkerItems(attr, parse);
            && |ls| == FirstFailing(items, markerThrows)
            && forall i :: 0 <= i < |ls| ==> ls[i] == MarkerLayer(MarkerOf(items[i]))
  {
    var items := MarkerItems(attr, parse);
    seq(FirstFailing(items, markerThrows), i requires 0 <= i < FirstFailing(items, markerThrows) => MarkerLayer(MarkerOf(items[i])))
  }

  /** The tile layers among `ls`, in order. */
  function TileLayers(ls: seq<Layer>): (r: seq<Layer>)
    ensures |r| <= |ls|
    ensures forall i :: 0 <= i < |r| ==> r[i].Tiles?
  {
    if ls == [] then []
    else (if ls[0].Tiles? then [ls[0]] else []) + TileLayers(ls[1..])
  }

  /** `map.removeLayer(l)`: every occurrence of `l` goes. */
  function Remove(ls: seq<Layer>, l: Layer): (r: seq<Layer>)
  {
    if ls == [] then []
    else (if ls[0] == l then [] else [ls[0]]) + Remove(ls[1..], l)
  }

  /** The layers that are not tiles, in order (what `eachLayer` leaves). */
  function NonTiles(ls: seq<Layer>): (r: seq<Layer>)
  {
    if ls == [] then []
    else (if ls[0].Tiles? then [] else [ls[0]]) + NonTiles(ls[1..])
  }

  /** `removeLayer(l)` leaves every other layer and takes `l` out. */
  lemma {:induction false} RemoveMembers(ls: seq<Layer>, l: Layer, x: Layer)
    ensures x in Remove(ls, l) <==> x in ls && x != l
  {
    if ls != [] {
      RemoveMembers(ls[1..], l, x);
      assert ls == [ls[0]] + ls[1..];
    }
  }

  /** `eachLayer` keeps exactly the layers that are not tiles. */
  lemma {:induction false} NonTilesMembers(ls: seq<Layer>, x: Layer)
    ensures x in NonTiles(ls) <==> x in ls && !x.Tiles?
  {
    if ls != [] {
      NonTilesMembers(ls[1..], x);
      assert ls == [ls[0]] + ls[1..];
    }
  }

  lemma {:induction false} NonTilesAppend(a: seq<Layer>, b: seq<Layer>)
    ensures NonTiles(a + b) == NonTiles(a) + NonTiles(b)
  {
    if a == [] {
      assert a + b == b;
    } else {
      assert (a + b)[1..] == a[1..] + b;
      NonTilesAppend(a[1..], b);
    }
  }

  /** `NonTiles` of a prefix, one layer at a time. */
  lemma NonTilesSnoc(ls: seq<Layer>, i: nat)
    requires i < |ls|
    ensures NonTiles(ls[..i + 1]) == NonTiles(ls[..i]) + (if ls[i].Tiles? then [] else [ls[i]])
  {
    assert ls[..i + 1] == ls[..i] + [ls[i]];
    NonTilesAppend(ls[..i], [ls[i]]);
  }

  lemma {:induction false} NonTilesMarkers(ls: seq<Layer>)
    requires forall i :: 0 <= i < |ls| ==> ls[i].MarkerLayer?
    ensures NonTiles(ls) == ls
  {
    if ls != [] {
      NonTilesMarkers(ls[1..]);
      assert ls == [ls[0]] + ls[1..];
    }
  }

  lemma {:induction false} TileLayersAppend(a: seq<Layer>, b: seq<Layer>)
    ensures TileLayers(a + b) == TileLayers(a) + TileLayers(b)
  {
    if a == [] {
      assert a + b == b;
    } else {
      assert (a + b)[1..] == a[1..] + b;
      TileLayersAppend(a[1..], b);
    }
  }

  lemma {:induction false} TileLayersRemove(ls: seq<Layer>, l: Layer)
    ensures TileLayers(Remove(ls, l)) == Remove(TileLayers(ls), l)
  {
    if ls != [] {
      TileLayersRemove(ls[1..], l);
      TileLayersAppend(if ls[0] == l then [] else [ls[0]], Remove(ls[1..], l));
      if ls[0].Tiles? {
        assert TileLayers(ls) == [ls[0]] + TileLayers(ls[1..]);
        assert Remove(TileLayers(ls), l) == (if ls[0] == l then [] else [ls[0]]) + Remove(TileLayers(ls[1..]), l);
      } else {
        assert TileLayers(ls) == TileLayers(ls[1..]);
      }
    }
  }

  lemma {:induction false} TileLayersNonTiles(ls: seq<Layer>)
    ensures TileLayers(NonTiles(ls)) == []
  {
    if ls != [] {
      TileLayersNonTiles(ls[1..]);
      TileLayersAppend(if ls[0].Tiles? then [] else [ls[0]], NonTiles(ls[1..]));
    }
  }

  /** What `renderLeaflet` made of `el`: the map's layers and the state of
      the `applyTheme` closure (`currentLayer`, the two presets). */
  class LeafletMap {
    var layers: seq<Layer>
    var current: Option<Layer>
    var created: nat
    var markersWarned: bool
    const view: View

    /** The theme layer is the only live tile layer. */
    ghost predicate Valid()
      reads this
    {
      && TileLayers(layers) == (if current.Some? then [current.value] else [])
      && (current.Some? ==> current.value.Tiles? && current.value.id < created)
    }

    /** `L.map(el).setView(...)` and the first `L.tileLayer(preset.url).addTo(map)`. */
    constructor (view: View)
      ensures this.view == view && layers == [Tiles(0, view.light)] && created == 1
      ensures current.None? && !markersWarned
    {
      this.view := view;
      layers := [Tiles(0, view.light)];
      current := None;
      created := 1;
      markersWarned := false;
    }

    /** `map.eachLayer(l => { if (l instanceof L.TileLayer) map.removeLayer(l); })` */
    method RemoveTileLayers()
      modifies this`layers
      ensures layers == NonTiles(old(layers))
      ensures TileLayers(layers) == []
    {
      var ls := layers;
      var i := 0;
      var kept: seq<Layer> := [];
      while i < |ls|
        invariant 0 <= i <= |ls|
        invariant kept == NonTiles(ls[..i])
      {
        NonTilesSnoc(ls, i);
        if !ls[i].Tiles? {
          kept := kept + [ls[i]];
        }
        i := i + 1;
      }
      assert ls[..i] == ls;
      layers := kept;
      TileLayersNonTiles(old(layers));
    }

    /** `applyTheme(isDark)`: remove the previous theme layer, then add one
        with the dark or the light preset. */
    method ApplyTheme(isDark: bool)
      requires Valid()
      modifies this`layers, this`current, this`created
      ensures Valid()
      ensures current == Some(Tiles(old(created), if isDark then view.dark else view.light))
      ensures layers == (if old(current).Some? then Remove(old(layers), old(current).value) else old(layers)) + [current.value]
      ensures created == old(created) + 1
    {
      if current.Some? {
        TileLayersRemove(layers, current.value);
        layers := Remove(layers, current.value);
      }
      var layer := Tiles(created, if isDark then view.dark else view.light);
      TileLayersAppend(layers, [layer]);
      layers := layers + [layer];
      current := Some(layer);
      created := created + 1;
    }

    /** The `data-markers` block: markers go in item order until an item's
        callback throws (a `null` item, or a marker Leaflet rejects); a parse
        failure, a non-array, or a throw is caught and logged as a warning,
        and markers already added stay. */
    method AddMarkers(attr: Option<string>, parse: Parser, markerThrows: Marker -> bool)
      modifies this`layers, this`markersWarned
      ensures layers == old(layers) + AddedMarkers(attr, parse, markerThrows)
      ensures markersWarned == (old(markersWarned) || MarkersWarn(attr, parse, markerThrows))
      ensures attr.None? || attr.value == [] ==> layers == old(layers) && markersWarned == old(markersWarned)
      ensures attr.Some? && attr.value != [] && (parse(attr.value).None? || !parse(attr.value).value.JArr?) ==>
                layers == old(layers) && markersWarned
      ensures attr.Some? && attr.value != [] && parse(attr.value).Some? && parse(attr.value).value.JArr? ==>
                var items := parse(attr.value).value.items;
                && |layers| == |old(layers)| + FirstFailing(items, markerThrows)
                && layers[..|old(layers)|] == old(layers)
                && (forall i :: 0 <= i < FirstFailing(items, markerThrows) ==> layers[|old(layers)| + i] == MarkerLayer(MarkerOf(items[i])))
                && markersWarned == (old(markersWarned) || FirstFailing(items, markerThrows) < |items|)
    {
      if attr.None? || attr.value == [] {
        return;
      }
      var parsed := parse(attr.value);
      if parsed.None? || !parsed.value.JArr? {
        markersWarned := true;
        return;
      }
      var items := parsed.value.items;
      ghost var added := AddedMarkers(attr, parse, markerThrows);
      assert MarkerItems(attr, parse) == items;
      var i := 0;
      while i < |items|
        invariant 0 <= i <= |added| == FirstFailing(items, markerThrows)
        invariant layers == old(layers) + added[..i]
        invariant markersWarned == old(markersWarned)
      {
        if items[i].JNull? || markerThrows(MarkerOf(items[i])) {
          assert added[..i] == added;
          MarkersLayout(old(layers), layers, attr, parse, markerThrows);
          markersWarned := true;
          return;
        }
        assert i < |added| && added[i] == MarkerLayer(MarkerOf(items[i]));
        assert added[..i + 1] == added[..i] + [added[i]];
        assert old(layers) + added[..i + 1] == (old(layers) + added[..i]) + [MarkerLayer(MarkerOf(items[i]))];
        layers := layers + [MarkerLayer(MarkerOf(items[i]))];
        i := i + 1;
      }
      assert added[..i] == added;
      MarkersLayout(old(layers), layers, attr, parse, markerThrows);
    }
  }

  /** `renderLeaflet(el, options)`; `hasL` is whether `window.L` exists,
      `mapThrows` whether `L.map(el).setView(...)` throws (Leaflet rejects a
      centre that is not a number), `markerThrows` whether `L.marker` rejects
      a marker, and `isDark` whether the page is in dark mode. `threw` is an
      exception escaping to the caller, with no map made. */
  method RenderLeaflet(hasL: bool, attrs: LeafletAttrs, options: Json, parse: Parser,
                       mapThrows: bool, markerThrows: Marker -> bool, isDark: bool)
    returns (m: LeafletMap?, threw: bool)
    ensures !hasL ==> m == null && !threw
    // a `null` options object throws as soon as a missing attribute sends `??` to it
    ensures hasL && OptionsThrow(attrs, options) ==> m == null && threw
    ensures hasL && !OptionsThrow(attrs, options) && mapThrows ==> m == null && threw
    ensures hasL && !OptionsThrow(attrs, options) && !mapThrows ==>
              !threw && m != null && fresh(m) && m.Valid() && m.view == ResolveView(attrs, options)
              // exactly one tile layer is live: the theme layer for the current mode
              && TileLayers(m.layers) == [Tiles(1, if isDark then m.view.dark else m.view.light)]
              // the markers of `data-markers` stay, followed by the theme layer
              && m.layers == AddedMarkers(attrs.markers, parse, markerThrows) + [Tiles(1, if isDark then m.view.dark else m.view.light)]
              && m.markersWarned == MarkersWarn(attrs.markers, parse, markerThrows)
  {
    if !hasL {
      return null, false;
    }
    if OptionsThrow(attrs, options) || mapThrows {
      return null, true;
    }
    threw := false;
    m := NewMap(ResolveView(attrs, options), attrs.markers, parse, markerThrows, isDark);
  }

  /** The map `renderLeaflet` builds once the view is resolved: the first
      tile layer, the markers, then `applyTheme` for the current mode. */
  method NewMap(view: View, markers: Option<string>, parse: Parser, markerThrows: Marker -> bool, isDark: bool)
    returns (m: LeafletMap)
    ensures fresh(m) && m.Valid() && m.view == view
    ensures m.layers == AddedMarkers(markers, parse, markerThrows) + [Tiles(1, if isDark then view.dark else view.light)]
    ensures TileLayers(m.layers) == [Tiles(1, if isDark then view.dark else view.light)]
    ensures m.markersWarned == MarkersWarn(markers, parse, markerThrows)
  {
    m := new LeafletMap(view);
    m.AddMarkers(markers, parse, markerThrows);
    var added := AddedMarkers(markers, parse, markerThrows);
    assert m.layers == [Tiles(0, view.light)] + added && m.current.None?;
    assert m.layers[1..] == added;
    NonTilesMarkers(added);
    assert NonTiles(m.layers) == added;
    m.RemoveTileLayers();
    assert m.layers == added && m.Valid();
    m.ApplyTheme(isDark);
  }

  // ── updateLeaflet ───────────────────────────────────────────────────────────

  /** The call `updateLeaflet` makes. `zoom` None in `FlyTo` is
      `map.getZoom()`; `SetZoom` passes `animate` as given. */
  datatype UpdateOutcome =
    | NoOp
    | FlyTo(lat: Json, lng: Json, zoom: Option<Json>, duration: real)
    | SetZoom(level: Json, animate: Json)
    | Throws

  /** `updateLeaflet(el, data, instance)`; `hasMap` is `instance?.map`. */
  function UpdateLeaflet(data: Json, hasMap: bool): (r: UpdateOutcome)
    ensures !hasMap ==> r == NoOp
    // only reading a property of `null` throws
    ensures r == Throws <==> hasMap && data.JNull?
    // flyTo exactly when both coordinates are non-null
    ensures r.FlyTo? <==> hasMap && !data.JNull? && !Nullish(Prop(data, "lat")) && !Nullish(Prop(data, "lng"))
    ensures r.FlyTo? ==> Some(r.lat) == Prop(data, "lat") && Some(r.lng) == Prop(data, "lng")
                         && r.zoom == (if Nullish(Prop(data, "zoom")) then None else Prop(data, "zoom"))
                         && r.duration == (if Prop(data, "animate").None? || Truthy(Prop(data, "animate").value) then 1.5 else 0.0)
    // otherwise setZoom exactly when the zoom is non-null
    ensures r.SetZoom? <==> hasMap && !data.JNull? && !r.FlyTo? && !Nullish(Prop(data, "zoom"))
    ensures r.SetZoom? ==> Some(r.level) == Prop(data, "zoom") && r.animate == Prop(data, "animate").GetOr(JBool(true))
  {
    if !hasMap then NoOp
    else if data.JNull? then Throws
    else
      var lat, lng, zoom := Prop(data, "lat"), Prop(data, "lng"), Prop(data, "zoom");
      var animate := Prop(data, "animate").GetOr(JBool(true));
      if !Nullish(lat) && !Nullish(lng) then
        FlyTo(lat.value, lng.value, if Nullish(zoom) then None else zoom, if Truthy(animate) then 1.5 else 0.0)
      else if !Nullish(zoom) then SetZoom(zoom.value, animate)
      else NoOp
  }
}
