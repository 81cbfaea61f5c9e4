/** The Mapbox adapter of assets/js/viz/mapbox.js: `parseCenter`, the
    container-height fix, access-token and camera precedence in `renderMap`,
    and the fly-to options `updateMap` builds. `mapboxgl.Map`, `flyTo`, the
    terrain layers and the resize observer are library code: the map's
    construction is an input that may fail, and `flyTo` is its options. */
module Mapbox {
  import opened Wrappers
  import opened Strings
  import opened Json

  /** `PRESETS`: centre (longitude, latitude) and zoom of each named location. */
  function Presets(): map<string, ((real, real), real)> {
    map[
      "calgary"   := ((-114.0719, 51.0447), 11.0),
      "edmonton"  := ((-113.4938, 53.5461), 11.0),
      "vancouver" := ((-123.1207, 49.2827), 11.0),
      "toronto"   := ((-79.3832, 43.6532), 11.0),
      "world"     := ((0.0, 20.0), 1.5),
      "zermatt"   := ((7.7491, 46.0207), 13.0),
      "findelen"  := ((7.840, 46.012), 13.0),
      "gorner"    := ((7.820, 45.970), 12.0),
      "chamonix"  := ((6.869, 45.924), 12.0),
      "peyto"     := ((-116.530, 51.715), 13.0),
      "athabasca" := ((-117.245, 52.190), 12.0)
    ]
  }

  /** `parseCenter(str)`: a pair exactly when `str` is a non-empty string whose
      `,`-pieces are two finite numbers. `toNumber` is JavaScript's `Number`. */
  function ParseCenter(str: Option<string>, toNumber: string -> Num): (r: Option<(real, real)>)
    ensures r.Some? <==> str.Some? && str.value != [] && |Split(str.value, ',')| == 2
                         && IsFinite(toNumber(Split(str.value, ',')[0])) && IsFinite(toNumber(Split(str.value, ',')[1]))
    ensures r.Some? ==> r.value == (toNumber(Split(str.value, ',')[0]).r, toNumber(Split(str.value, ',')[1]).r)
  {
    if str.None? || str.value == [] then None
    else
      var parts := Split(str.value, ',');
      if |parts| == 2 && IsFinite(toNumber(parts[0])) && IsFinite(toNumber(parts[1])) then
        Some((toNumber(parts[0]).r, toNumber(parts[1]).r))
      else None
  }

  /** A centre that parses holds exactly one comma. */
  lemma ParseCenterOneComma(s: string, toNumber: string -> Num)
    requires ParseCenter(Some(s), toNumber).Some?
    ensures Count(s, ',') == 1
  {
    SplitCount(s, ',');
  }

  /** The `data-*` attributes `renderMap` reads (None when absent). */
  datatype MapAttrs = MapAttrs(
    location: Option<string>,   // data-map
    token: Option<string>,
    center: Option<string>,
    zoom: Option<string>,
    pitch: Option<string>,
    bearing: Option<string>,
    style: Option<string>,
    terrain: Option<string>)

  /** A resolved camera value: a parsed number, a value taken from `config`
      (which may be any JSON), or a pair. */
  datatype Val = Number(n: Num) | FromConfig(j: Json) | Pair(lng: real, lat: real) | Text(s: string)

  /** `x != null` for a config property. */
  predicate Present(x: Option<Json>) {
    !Nullish(x)
  }

  /** `el.dataset.k ? parseFloat(el.dataset.k) : null`: present only for a
      non-empty attribute; the parsed value may be NaN, which `??` keeps. */
  function AttrNumber(a: Option<string>, parseFloat: string -> Num): (r: Option<Val>)
    // an empty attribute counts as absent
    ensures r.Some? <==> a.Some? && a.value != []
    ensures r.Some? ==> r.value == Number(parseFloat(a.value))
  {
    if a.Some? && a.value != [] then Some(Number(parseFloat(a.value))) else None
  }

  /** `PRESETS[locationKey] ?? {}`: None stands for the empty preset. */
  function PresetOf(location: Option<string>): (p: Option<((real, real), real)>)
    ensures p.Some? <==> location.Some? && location.value in Presets()
  {
    if location.Some? && location.value in Presets() then Some(Presets()[location.value]) else None
  }

  /** center: parsed `data-center`, then `config.center`, then the preset's centre, then `[0, 0]`. */
  function ResolveCenter(attrs: MapAttrs, config: seq<(string, Json)>, toNumber: string -> Num): (v: Val)
    ensures ParseCenter(attrs.center, toNumber).Some? ==>
              v == Pair(ParseCenter(attrs.center, toNumber).value.0, ParseCenter(attrs.center, toNumber).value.1)
    ensures ParseCenter(attrs.center, toNumber).None? && Present(Lookup(config, "center")) ==>
              v == FromConfig(Lookup(config, "center").value)
    ensures ParseCenter(attrs.center, toNumber).None? && !Present(Lookup(config, "center")) && PresetOf(attrs.location).Some? ==>
              v == Pair(PresetOf(attrs.location).value.0.0, PresetOf(attrs.location).value.0.1)
    ensures ParseCenter(attrs.center, toNumber).None? && !Present(Lookup(config, "center")) && PresetOf(attrs.location).None? ==>
              v == Pair(0.0, 0.0)
  {
    var parsed := ParseCenter(attrs.center, toNumber);
    var preset := PresetOf(attrs.location);
    if parsed.Some? then Pair(parsed.value.0, parsed.value.1)
    else if Present(Lookup(config, "center")) then FromConfig(Lookup(config, "center").value)
    else if preset.Some? then Pair(preset.value.0.0, preset.value.0.1)
    else Pair(0.0, 0.0)
  }

  /** zoom: `data-zoom`, then `config.zoom`, then the preset's zoom, then 2. */
  function ResolveZoom(attrs: MapAttrs, config: seq<(string, Json)>, parseFloat: string -> Num): (v: Val)
    ensures attrs.zoom.Some? && attrs.zoom.value != [] ==> v == Number(parseFloat(attrs.zoom.value))
    ensures AttrNumber(attrs.zoom, parseFloat).None? && Present(Lookup(config, "zoom")) ==>
              v == FromConfig(Lookup(config, "zoom").value)
    ensures AttrNumber(attrs.zoom, parseFloat).None? && !Present(Lookup(config, "zoom")) ==>
              v == Number(Finite(if PresetOf(attrs.location).Some? then PresetOf(attrs.location).value.1 else 2.0))
  {
    var preset := PresetOf(attrs.location);
    if AttrNumber(attrs.zoom, parseFloat).Some? then AttrNumber(attrs.zoom, parseFloat).value
    else if Present(Lookup(config, "zoom")) then FromConfig(Lookup(config, "zoom").value)
    else if preset.Some? then Number(Finite(preset.value.1))
    else Number(Finite(2.0))
  }

  /** pitch and bearing: the attribute, then the `config` property, then 0 (no preset). */
  function ResolveAngle(attr: Option<string>, config: seq<(string, Json)>, key: string, parseFloat: string -> Num): (v: Val)
    ensures attr.Some? && attr.value != [] ==> v == Number(parseFloat(attr.value))
    ensures AttrNumber(attr, parseFloat).None? && Present(Lookup(config, key)) ==> v == FromConfig(Lookup(config, key).value)
    ensures AttrNumber(attr, parseFloat).None? && !Present(Lookup(config, key)) ==> v == Number(Finite(0.0))
  {
    if AttrNumber(attr, parseFloat).Some? then AttrNumber(attr, parseFloat).value
    else if Present(Lookup(config, key)) then FromConfig(Lookup(config, key).value)
    else Number(Finite(0.0))
  }

  /** style: `el.dataset.style ?? config.style ?? outdoors`; `??` on the
      attribute, so even an empty `data-style` wins. */
  function ResolveStyle(attrs: MapAttrs, config: seq<(string, Json)>): (v: Val)
    ensures attrs.style.Some? ==> v == Text(attrs.style.value)
    ensures attrs.style.None? && Present(Lookup(config, "style")) ==> v == FromConfig(Lookup(config, "style").value)
    ensures attrs.style.None? && !Present(Lookup(config, "style")) ==> v == Text("mapbox://styles/mapbox/outdoors-v12")
  {
    if attrs.style.Some? then Text(attrs.style.value)
    else if Present(Lookup(config, "style")) then FromConfig(Lookup(config, "style").value)
    else Text("mapbox://styles/mapbox/outdoors-v12")
  }

  datatype Camera = Camera(center: Val, zoom: Val, pitch: Val, bearing: Val, style: Val)

  /** The camera `renderMap` hands to `new mapboxgl.Map`. */
  function ResolveCamera(attrs: MapAttrs, config: seq<(string, Json)>,
                         toNumber: string -> Num, parseFloat: string -> Num): (c: Camera)
  {
    Camera(ResolveCenter(attrs, config, toNumber), ResolveZoom(attrs, config, parseFloat),
           ResolveAngle(attrs.pitch, config, "pitch", parseFloat), ResolveAngle(attrs.bearing, config, "bearing", parseFloat),
           ResolveStyle(attrs, config))
  }

  /** An unknown `data-map` key is the empty preset: the camera is the one
      of a container with no `data-map` at all. */
  lemma UnknownPresetIsEmpty(attrs: MapAttrs, config: seq<(string, Json)>,
                             toNumber: string -> Num, parseFloat: string -> Num)
    requires attrs.location.Some? && attrs.location.value !in Presets()
    ensures ResolveCamera(attrs, config, toNumber, parseFloat)
            == ResolveCamera(attrs.(location := None), config, toNumber, parseFloat)
  {
  }

  /** With nothing but a known `data-map` key, the camera is that preset's
      centre and zoom, level and facing north, in the outdoors style. */
  lemma PresetCamera(key: string, toNumber: string -> Num, parseFloat: string -> Num)
    requires key in Presets()
    ensures var p := Presets()[key];
            ResolveCamera(MapAttrs(Some(key), None, None, None, None, None, None, None), [], toNumber, parseFloat)
            == Camera(Pair(p.0.0, p.0.1), Number(Finite(p.1)), Number(Finite(0.0)), Number(Finite(0.0)),
                      Text("mapbox://styles/mapbox/outdoors-v12"))
  {
  }

  /** `parseFloat(el.dataset.terrain) || 1.5`: terrain is on when the
      attribute exists; a falsy exaggeration (NaN or zero) becomes 1.5 and any
      other number, infinities included, is kept. */
  function Exaggeration(terrain: Option<string>, parseFloat: string -> Num): (r: Option<Num>)
    ensures r.Some? <==> terrain.Some?
    ensures r.Some? && NumTruthy(parseFloat(terrain.value)) ==> r.value == parseFloat(terrain.value)
    ensures r.Some? && !NumTruthy(parseFloat(terrain.value)) ==> r.value == Finite(1.5)
    // the exaggeration handed to `setTerrain` is never falsy
    ensures r.Some? ==> NumTruthy(r.value)
  {
    if terrain.None? then None
    else if NumTruthy(parseFloat(terrain.value)) then Some(parseFloat(terrain.value))
    else Some(Finite(1.5))
  }

  /** The error message `showError` writes into a container. */
  datatype MapError = NoTokenError | InitError

  /** What a successful `renderMap` returns: the map as constructed. */
  datatype MapInstance = MapInstance(token: string, camera: Camera, terrain: Option<Num>)

  /** The map container: its inline height and the error shown in it. */
  class MapContainer {
    var styleHeight: string
    const offsetHeight: real
    var error: Option<MapError>

    constructor (styleHeight: string, offsetHeight: real)
      ensures this.styleHeight == styleHeight && this.offsetHeight == offsetHeight && error.None?
    {
      this.styleHeight := styleHeight;
      this.offsetHeight := offsetHeight;
      error := None;
    }
  }

  /** `window.mapboxgl`, of which the model sees only `accessToken`. */
  class MapboxGl {
    var accessToken: Option<string>

    constructor ()
      ensures accessToken.None?
    {
      accessToken := None;
    }
  }

  /** `data-token || window.MAPBOX_TOKEN || null` */
  function Token(attr: Option<string>, windowToken: Option<string>): (t: Option<string>)
    ensures t.Some? ==> t.value != []
    ensures attr.Some? && attr.value != [] ==> t == attr
    ensures (attr.None? || attr.value == []) ==> t == (if windowToken.Some? && windowToken.value != [] then windowToken else None)
  {
    if attr.Some? && attr.value != [] then attr
    else if windowToken.Some? && windowToken.value != [] then windowToken
    else None
  }

  /** `renderMap(el, config)`. `gl` is `window.mapboxgl` (null when the
      library is absent) and `mapThrows` whether `new mapboxgl.Map` throws. */
  method RenderMap(el: MapContainer, gl: MapboxGl?, attrs: MapAttrs, windowToken: Option<string>,
                   config: seq<(string, Json)>, toNumber: string -> Num, parseFloat: string -> Num,
                   mapThrows: bool) returns (r: Option<MapInstance>)
    modifies el, gl
    // no library: nothing is touched
    ensures gl == null ==> r.None? && el.styleHeight == old(el.styleHeight) && el.error == old(el.error)
    ensures gl != null ==>
              // the height fix comes before the token check, so it happens even when no map is made
              && el.styleHeight == (if old(el.styleHeight) == [] && el.offsetHeight == 0.0 then "400px" else old(el.styleHeight))
              && (Token(attrs.token, windowToken).None? ==>
                    r.None? && el.error == Some(NoTokenError) && gl.accessToken == old(gl.accessToken))
              && (Token(attrs.token, windowToken).Some? ==>
                    && gl.accessToken == Token(attrs.token, windowToken)
                    && (mapThrows ==> r.None? && el.error == Some(InitError))
                    && (!mapThrows ==>
                          el.error == old(el.error)
                          && r == Some(MapInstance(Token(attrs.token, windowToken).value,
                                                   ResolveCamera(attrs, config, toNumber, parseFloat),
                                                   Exaggeration(attrs.terrain, parseFloat)))))
  {
    if gl == null {
      return None;
    }
    if el.styleHeight == [] && el.offsetHeight == 0.0 {
      el.styleHeight := "400px";
    }
    var token := Token(attrs.token, windowToken);
    if token.None? {
      el.error := Some(NoTokenError);
      return None;
    }
    gl.accessToken := token;
    var camera := ResolveCamera(attrs, config, toNumber, parseFloat);
    if mapThrows {
      el.error := Some(InitError);
      return None;
    }
    r := Some(MapInstance(token.value, camera, Exaggeration(attrs.terrain, parseFloat)));
  }

  /** The `flyOptions` object: `duration` and the optional camera properties. */
  datatype FlyOptions = FlyOptions(duration: real, center: Option<Json>, zoom: Option<Json>,
                                   pitch: Option<Json>, bearing: Option<Json>)

  /** `Object.keys(flyOptions).length` */
  function KeyCount(o: FlyOptions): nat {
    1 + (if o.center.Some? then 1 else 0) + (if o.zoom.Some? then 1 else 0)
      + (if o.pitch.Some? then 1 else 0) + (if o.bearing.Some? then 1 else 0)
  }

  /** What `updateMap(el, data, instance)` does. */
  datatype UpdateOutcome = NoOp | FlyTo(options: FlyOptions) | Throws

  /** The value a camera property of the update contributes: only a non-null one. */
  function IfPresent(x: Option<Json>): (r: Option<Json>)
    ensures r.Some? <==> Present(x)
    ensures r.Some? ==> r == x
  {
    if Present(x) then x else None
  }

  /** `updateMap(el, data, instance)`: `animate` defaults to true only when it
      is undefined (an explicit `null` is falsy); destructuring `null` throws. */
  method UpdateMap(data: Json, hasInstance: bool) returns (r: UpdateOutcome)
    ensures !hasInstance ==> r == NoOp
    // only destructuring `null` throws
    ensures r == Throws <==> hasInstance && data.JNull?
    // flyTo happens iff some camera field is non-null
    ensures r.FlyTo? <==> hasInstance && !data.JNull?
                          && (Present(Prop(data, "center")) || Present(Prop(data, "zoom"))
                              || Present(Prop(data, "pitch")) || Present(Prop(data, "bearing")))
    // its options hold exactly the non-null camera fields, and the duration
    ensures r.FlyTo? ==>
              && r.options.duration == (if Prop(data, "animate").None? || Truthy(Prop(data, "animate").value) then 1500.0 else 0.0)
              && r.options.center == IfPresent(Prop(data, "center"))
              && r.options.zoom == IfPresent(Prop(data, "zoom"))
              && r.options.pitch == IfPresent(Prop(data, "pitch"))
              && r.options.bearing == IfPresent(Prop(data, "bearing"))
  {
    if !hasInstance {
      return NoOp;
    }
    if data.JNull? {
      return Throws;
    }
    var center, zoom, pitch, bearing := Prop(data, "center"), Prop(data, "zoom"), Prop(data, "pitch"), Prop(data, "bearing");
    var animate := Prop(data, "animate").GetOr(JBool(true));
    var duration := if Truthy(animate) then 1500.0 else 0.0;
    var fly := FlyOptions(duration, None, None, None, None);
    if Present(center) {
      fly := fly.(center := center);
    }
    if Present(zoom) {
      fly := fly.(zoom := zoom);
    }
    if Present(pitch) {
      fly := fly.(pitch := pitch);
    }
    if Present(bearing) {
      fly := fly.(bearing := bearing);
    }
    if KeyCount(fly) > 1 {
      r := FlyTo(fly);
    } else {
      r := NoOp;
    }
  }
}
