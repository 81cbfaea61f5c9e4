/** The reading-progress bar and the table-of-contents tracker of
    assets/js/essay/progress.js (the bar's logic is repeated verbatim by
    `initPostProgress` in assets/js/core.js).

    Scroll offsets and heights are inputs; arithmetic is on reals. */
module Progress {
  import opened Wrappers

  // ── Progress bar ───────────────────────────────────────────────────────────

  /** `maxScroll > 0 ? Math.min(100, scrolled / maxScroll * 100) : 0` */
  function Pct(scrolled: real, maxScroll: real): (p: real)
    ensures maxScroll <= 0.0 ==> p == 0.0
    ensures p <= 100.0
    ensures maxScroll > 0.0 ==> p == 100.0 || p == scrolled / maxScroll * 100.0
    ensures maxScroll > 0.0 && scrolled >= maxScroll ==> p == 100.0
    ensures scrolled >= 0.0 ==> p >= 0.0
  {
    if maxScroll > 0.0 then
      var raw := scrolled / maxScroll * 100.0;
      if raw < 100.0 then raw else 100.0
    else 0.0
  }

  /** `Math.round`: the nearest integer, halves rounded up. */
  function Round(x: real): (n: int)
    ensures n as real - 0.5 <= x < n as real + 0.5
  {
    (x + 0.5).Floor
  }

  /** `aria-valuenow` stays within the bar's declared `aria-valuemin`/`aria-valuemax`. */
  lemma ValueNowInRange(scrolled: real, maxScroll: real)
    requires scrolled >= 0.0
    ensures 0 <= Round(Pct(scrolled, maxScroll)) <= 100
  {
  }

  /** The bar of one page. `frames` counts the `update` callbacks queued with
      `requestAnimationFrame` and not yet run. */
  class ProgressBar {
    /** A scroll listener was attached (reduced motion not preferred). */
    const listening: bool
    var ticking: bool
    var frames: nat
    /** The `--progress` custom property and `aria-valuenow`. */
    var progress: real
    var valueNow: int

    /** At most one frame is ever queued, and exactly while `ticking` holds. */
    predicate Valid()
      reads this
    {
      frames <= 1 && (ticking <==> frames == 1) && (!listening ==> frames == 0)
    }

    /** `initProgress()`: the bar always exists; without reduced motion it gets a
        listener and one immediate `update()`. */
    constructor (reducedMotion: bool, scrolled: real, maxScroll: real)
      ensures Valid() && listening == !reducedMotion && !ticking
      ensures reducedMotion ==> progress == 0.0 && valueNow == 0
      ensures !reducedMotion ==> progress == Pct(scrolled, maxScroll) && valueNow == Round(progress)
    {
      listening := !reducedMotion;
      ticking := false;
      frames := 0;
      if reducedMotion {
        progress, valueNow := 0.0, 0;
      } else {
        var pct := Pct(scrolled, maxScroll);
        progress, valueNow := pct, Round(pct);
      }
    }

    /** A `scroll` event: queue `update` unless a frame is already pending. */
    method OnScroll()
      requires Valid()
      modifies this`ticking, this`frames
      ensures Valid()
      ensures listening && !old(ticking) ==> ticking && frames == 1
      ensures !(listening && !old(ticking)) ==> ticking == old(ticking) && frames == old(frames)
    {
      if listening && !ticking {
        frames := frames + 1;
        ticking := true;
      }
    }

    /** The browser runs the queued `update` with the current measurements. */
    method RunFrame(scrolled: real, maxScroll: real)
      requires Valid() && frames > 0
      modifies this`ticking, this`frames, this`progress, this`valueNow
      ensures Valid() && !ticking && frames == 0
      ensures progress == Pct(scrolled, maxScroll) && valueNow == Round(progress)
      ensures 0.0 <= scrolled ==> 0 <= valueNow <= 100
    {
      frames := frames - 1;
      progress := Pct(scrolled, maxScroll);
      valueNow := Round(progress);
      ticking := false;
    }
  }

  // ── TOC active-section tracking ────────────────────────────────────────────

  /** A `.toc-link` of the list: its `href` attribute, the `li` it sits in (if
      any), and the two toggled classes. */
  datatype TocLink = TocLink(href: Option<string>, inItem: bool, active: bool, itemActive: bool)

  /** An element inside `#essay-content`, in document order: its tag name
      and its `id` attribute (None when the attribute is absent). */
  datatype ContentElement = ContentElement(tag: string, id: Option<string>)

  /** The selector `h2[id], h3[id]`: an `h2` or `h3` carrying an `id`
      attribute, even an empty one. */
  predicate IsIdHeading(e: ContentElement) {
    (e.tag == "h2" || e.tag == "h3") && e.id.Some?
  }

  /** `initTocTracking` observes headings only when the list and the content
      exist and at least one `h2[id]`/`h3[id]` heading is present. */
  predicate TrackingEnabled(hasList: bool, hasContent: bool, els: seq<ContentElement>) {
    hasList && hasContent && exists k :: 0 <= k < |els| && IsIdHeading(els[k])
  }

  /** `initTocTracking()`: the positions in `els` of the headings handed to
      `io.observe`, in the order they are observed. */
  method InitTocTracking(hasList: bool, hasContent: bool, els: seq<ContentElement>) returns (observed: seq<nat>)
    ensures forall i, j :: 0 <= i < j < |observed| ==> observed[i] < observed[j]
    ensures forall i :: 0 <= i < |observed| ==> observed[i] < |els|
    // exactly the `h2[id]`/`h3[id]` headings are observed, and only when tracking is enabled
    ensures forall k :: 0 <= k < |els| ==> (k in observed <==> TrackingEnabled(hasList, hasContent, els) && IsIdHeading(els[k]))
    ensures !TrackingEnabled(hasList, hasContent, els) ==> observed == []
  {
    if !hasList || !hasContent {
      return [];
    }
    // `Array.from(content.querySelectorAll('h2[id], h3[id]'))`
    var headings: seq<nat> := [];
    for i := 0 to |els|
      invariant forall a, b :: 0 <= a < b < |headings| ==> headings[a] < headings[b]
      invariant forall a :: 0 <= a < |headings| ==> headings[a] < i
      invariant forall k :: 0 <= k < |els| ==> (k in headings <==> k < i && IsIdHeading(els[k]))
    {
      if IsIdHeading(els[i]) {
        headings := headings + [i];
      }
    }
    if |headings| == 0 {
      return [];
    }
    assert headings[0] in headings;
    observed := headings;
  }

  /** One link after `setActive(id)`. */
  function Toggled(l: TocLink, id: string): (r: TocLink)
    ensures r.href == l.href && r.inItem == l.inItem
    ensures r.active <==> l.href == Some("#" + id)
    ensures l.inItem ==> r.itemActive == r.active
    ensures !l.inItem ==> r.itemActive == l.itemActive
  {
    var on := l.href == Some("#" + id);
    l.(active := on, itemActive := if l.inItem then on else l.itemActive)
  }

  /** `setActive(id)` over the list's links. */
  method SetActive(links: array<TocLink>, id: string)
    modifies links
    ensures forall k :: 0 <= k < links.Length ==> links[k] == Toggled(old(links[k]), id)
  {
    for k := 0 to links.Length
      invariant forall j :: 0 <= j < k ==> links[j] == Toggled(old(links[j]), id)
      invariant forall j :: k <= j < links.Length ==> links[j] == old(links[j])
    {
      links[k] := Toggled(links[k], id);
    }
  }

  /** An `IntersectionObserverEntry`: target id, `isIntersecting` and
      `boundingClientRect.top`. */
  datatype Sighting = Sighting(id: string, intersecting: bool, top: real)

  /** The first of the intersecting entries with the smallest top: what
      `filter` and a stable `sort` by top put at index 0. */
  function Topmost(es: seq<Sighting>): (r: Option<nat>)
    ensures r.None? <==> forall k :: 0 <= k < |es| ==> !es[k].intersecting
    ensures r.Some? ==> r.value < |es| && es[r.value].intersecting
    ensures r.Some? ==> forall k :: 0 <= k < |es| && es[k].intersecting ==> es[r.value].top <= es[k].top
    ensures r.Some? ==> forall k :: 0 <= k < r.value && es[k].intersecting ==> es[k].top > es[r.value].top
    decreases |es|
  {
    if es == [] then None
    else
      var rest := Topmost(es[1..]);
      if !es[0].intersecting then
        (if rest.None? then None else Some(rest.value + 1))
      else if rest.Some? && es[1..][rest.value].top < es[0].top then Some(rest.value + 1)
      else Some(0)
  }

  /** The observer callback: activate the topmost intersecting heading, or
      change nothing when none intersects. */
  method OnIntersect(links: array<TocLink>, es: seq<Sighting>)
    modifies links
    ensures Topmost(es).None? ==> links[..] == old(links[..])
    ensures Topmost(es).Some? ==>
              forall k :: 0 <= k < links.Length ==> links[k] == Toggled(old(links[k]), es[Topmost(es).value].id)
  {
    var t := Topmost(es);
    if t.Some? {
      SetActive(links, es[t.value].id);
    }
  }
}
