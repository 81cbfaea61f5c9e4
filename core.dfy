/** The visualization runtime of assets/js/core.js: a deduplicating asset
    loader, one bootstrap pass over the adapter table (detect, load the bundle,
    `init`, render every matched element), the instance store keyed by element
    id, and the step-update router that hands `data-update` entries to adapters.

    Every `await` is a sequential call. Calls into adapter code (`init`,
    `render`, `update`) are recorded in an event log; whether such a call
    throws is given by the `World`. Nothing around those calls catches, so a
    throw ends the rest of the pass (and the code after the loop never runs). */
module Core {
  import opened Wrappers
  import opened Strings
  import opened Json
  import opened VizRegistry
  import CopyButtons
  import opened Seqs

  // ── Data model ─────────────────────────────────────────────────────────────

  /** A `<link rel=stylesheet>` or `<script>` node in the document. */
  datatype HeadNode = StyleLink(href: string) | ScriptTag(src: string)

  /** The opaque value a `render` call returned: `null` when the descriptor has
      no `render`, otherwise the result of the render call at that log index. */
  datatype Instance = NoInstance | Mounted(call: nat)

  /** `{ entry, el, instance }` in the instance store; `pos` is the entry's
      position in the registry. */
  datatype Record = Record(pos: nat, entry: Entry, el: nat, instance: Instance)

  /** What the runtime does, in order. `pos` is the registry position of the
      descriptor the event belongs to; elements are handles. */
  datatype Event =
    | DetectRan(pos: nat, detected: bool)
    | ScriptAwaited(pos: nat, src: string)
    | InitCalled(pos: nat)
    | IdAssigned(pos: nat, el: nat, n: nat)
    | OptionsWarning(pos: nat, el: nat)
    | Rendered(pos: nat, el: nat, opts: Json)
    | Updated(pos: nat, el: nat, data: Json, instance: Instance)

  /** The phase of a descriptor's processing an event belongs to. */
  function Rank(ev: Event): nat {
    match ev
    case DetectRan(_, _) => 0
    case ScriptAwaited(_, _) => 1
    case InitCalled(_) => 2
    case Updated(_, _, _, _) => 4
    case _ => 3
  }

  /** `a` may come before `b` in one bootstrap pass: an earlier descriptor, or
      the same descriptor and an earlier (or the same) phase. */
  predicate Before(a: Event, b: Event) {
    a.pos < b.pos || (a.pos == b.pos && Rank(a) <= Rank(b))
  }

  /** The runtime's mutable state: document nodes, the `autoId` counter, element
      ids (an element without an entry has no id), the `instances` Map and the log. */
  datatype State = State(
    head: seq<HeadNode>,
    autoId: nat,
    ids: map<nat, string>,
    instances: map<string, Record>,
    log: seq<Event>)

  /** What the runtime reads but does not control. `matches` is the snapshot
      `querySelectorAll(selector)` returns; `options` is each element's
      `data-options` text; `parse` is `JSON.parse` (None for a SyntaxError);
      `faults` are the adapter calls that throw. The last four are the inputs
      of the page-wide features run after the loop. */
  datatype World = World(
    page: Page,
    matches: map<string, seq<nat>>,
    options: map<nat, string>,
    parse: Parser,
    faults: set<Event>,
    essayContent: bool,
    postMain: bool,
    reducedMotion: bool,
    ghCode: seq<nat>)

  /** What `initPostProgress` leaves on the page. */
  datatype BarMode = NoBar | StaticBar | TrackingBar

  /** The state after a step of the loader, and whether the step threw. */
  datatype Run = Run(st: State, threw: bool)

  // ── Asset loader ───────────────────────────────────────────────────────────

  predicate NoDup(head: seq<HeadNode>) {
    forall i, j :: 0 <= i < j < |head| ==> head[i] != head[j]
  }

  function CountOf(head: seq<HeadNode>, n: HeadNode): nat {
    if head == [] then 0 else (if head[0] == n then 1 else 0) + CountOf(head[1..], n)
  }

  lemma {:induction false} NoDupCount(head: seq<HeadNode>, n: HeadNode)
    requires NoDup(head) && n in head
    ensures CountOf(head, n) == 1
  {
    if head[0] == n {
      NotInCount(head[1..], n);
    } else {
      NoDupCount(head[1..], n);
    }
  }

  lemma {:induction false} NotInCount(head: seq<HeadNode>, n: HeadNode)
    requires n !in head
    ensures CountOf(head, n) == 0
  {
    if head != [] {
      NotInCount(head[1..], n);
    }
  }

  /** Append `n` unless an equal node is already in the document
      (`document.querySelector('link[href="…"]')` / `'script[src="…"]'`). */
  function AddNode(head: seq<HeadNode>, n: HeadNode): (r: seq<HeadNode>)
    ensures n in r
    ensures n in head ==> r == head
    ensures n !in head ==> r == head + [n]
    ensures NoDup(head) ==> NoDup(r)
  {
    if n in head then head else head + [n]
  }

  /** `loadStyle(href)` */
  function AddStyle(head: seq<HeadNode>, href: string): (r: seq<HeadNode>)
    // a link with that href already present means nothing is inserted
    ensures |r| == |head| + (if StyleLink(href) in head then 0 else 1)
    ensures StyleLink(href) in r && r[..|head|] == head
  {
    AddNode(head, StyleLink(href))
  }

  /** `loadStyle` is idempotent and, on a document without duplicate nodes,
      leaves exactly one link for `href`. */
  lemma LoadStyleOnce(head: seq<HeadNode>, href: string)
    requires NoDup(head)
    ensures AddStyle(AddStyle(head, href), href) == AddStyle(head, href)
    ensures CountOf(AddStyle(head, href), StyleLink(href)) == 1
  {
    NoDupCount(AddStyle(head, href), StyleLink(href));
  }

  /** `styles.forEach(loadStyle)` */
  function AddStyles(head: seq<HeadNode>, hrefs: seq<string>): (r: seq<HeadNode>)
    ensures |head| <= |r| && r[..|head|] == head
    ensures forall k :: 0 <= k < |hrefs| ==> StyleLink(hrefs[k]) in r
    ensures forall i :: |head| <= i < |r| ==> r[i].StyleLink? && r[i].href in hrefs
    ensures NoDup(head) ==> NoDup(r)
    decreases |hrefs|
  {
    if hrefs == [] then head else AddStyles(AddStyle(head, hrefs[0]), hrefs[1..])
  }

  /** `await loadScript(src)`: insert the script unless one with that src exists,
      then continue once it settles. Load and error both resolve, so there is
      no failure outcome. */
  function AwaitScript(st: State, pos: nat, src: string): (r: State)
    ensures |r.head| == |st.head| + (if ScriptTag(src) in st.head then 0 else 1)
    ensures ScriptTag(src) in r.head && r.head[..|st.head|] == st.head
    // the await is logged, and nothing else changes
    ensures r.log == st.log + [ScriptAwaited(pos, src)]
    ensures r == st.(head := r.head, log := r.log)
  {
    st.(head := AddNode(st.head, ScriptTag(src)), log := st.log + [ScriptAwaited(pos, src)])
  }

  /** The awaits `for (const src of scripts) await loadScript(src)` performs. */
  function Awaits(pos: nat, srcs: seq<string>): (evs: seq<Event>)
    ensures |evs| == |srcs|
  {
    seq(|srcs|, k requires 0 <= k < |srcs| => ScriptAwaited(pos, srcs[k]))
  }

  function AwaitScripts(st: State, pos: nat, srcs: seq<string>): (r: State)
    ensures r.log == st.log + Awaits(pos, srcs)
    ensures r.autoId == st.autoId && r.ids == st.ids && r.instances == st.instances
    ensures |st.head| <= |r.head| && r.head[..|st.head|] == st.head
    ensures forall k :: 0 <= k < |srcs| ==> ScriptTag(srcs[k]) in r.head
    ensures forall i :: |st.head| <= i < |r.head| ==> r.head[i].ScriptTag? && r.head[i].src in srcs
    ensures NoDup(st.head) ==> NoDup(r.head)
    decreases |srcs|
  {
    if srcs == [] then st
    else
      var s1 := AwaitScript(st, pos, srcs[0]);
      assert Awaits(pos, srcs) == [ScriptAwaited(pos, srcs[0])] + Awaits(pos, srcs[1..]);
      AwaitScripts(s1, pos, srcs[1..])
  }

  /** `await loadCDN(cdn)`: every style at once, then each script in turn. */
  function LoadBundle(st: State, pos: nat, b: Bundle): (r: State)
    ensures r.log == st.log + Awaits(pos, b.scripts)
    ensures r.autoId == st.autoId && r.ids == st.ids && r.instances == st.instances
    ensures |st.head| <= |r.head| && r.head[..|st.head|] == st.head
    ensures forall k :: 0 <= k < |b.styles| ==> StyleLink(b.styles[k]) in r.head
    ensures forall k :: 0 <= k < |b.scripts| ==> ScriptTag(b.scripts[k]) in r.head
    ensures NoDup(st.head) ==> NoDup(r.head)
  {
    var s1 := st.(head := AddStyles(st.head, b.styles));
    var r := AwaitScripts(s1, pos, b.scripts);
    PrefixTrans(st.head, s1.head, r.head);
    PrefixIn(s1.head, r.head);
    r
  }

  /** The nodes `loadCDN` inserts are the bundle's, every stylesheet ahead of
      every script. */
  lemma LoadBundleInserts(st: State, pos: nat, b: Bundle)
    ensures var h := LoadBundle(st, pos, b).head;
            forall i :: |st.head| <= i < |h| ==>
              (h[i].StyleLink? && h[i].href in b.styles) || (h[i].ScriptTag? && h[i].src in b.scripts)
    ensures var h := LoadBundle(st, pos, b).head;
            forall i, j :: |st.head| <= i < j < |h| ==> !(h[i].ScriptTag? && h[j].StyleLink?)
  {
    forall i | |st.head| <= i < |LoadBundle(st, pos, b).head| {
      LoadBundleNodeAt(st, pos, b, i);
    }
  }

  /** A node `loadCDN` inserts is a stylesheet of the bundle when it comes
      before the first inserted script, a script of the bundle otherwise. */
  lemma LoadBundleNodeAt(st: State, pos: nat, b: Bundle, i: nat)
    requires |st.head| <= i < |LoadBundle(st, pos, b).head|
    ensures var mid, h := AddStyles(st.head, b.styles), LoadBundle(st, pos, b).head;
            (i < |mid| ==> h[i].StyleLink? && h[i].href in b.styles) &&
            (|mid| <= i ==> h[i].ScriptTag? && h[i].src in b.scripts)
  {
    var mid := AddStyles(st.head, b.styles);
    var h := LoadBundle(st, pos, b).head;
    if i < |mid| {
      assert h[..|mid|][i] == h[i];
    }
  }

  /** The d3 descriptor's bundle is empty: loading it inserts nothing. */
  lemma D3BundleInsertsNothing(st: State)
    ensures LoadBundle(st, 4, Registry()[4].cdn).head == st.head
    ensures LoadBundle(st, 4, Registry()[4].cdn).log == st.log
  {
  }

  /** Loading the same bundle a second time inserts nothing more. */
  lemma {:induction false} LoadBundleTwice(st: State, pos: nat, b: Bundle)
    ensures LoadBundle(LoadBundle(st, pos, b), pos, b).head == LoadBundle(st, pos, b).head
  {
    var r := LoadBundle(st, pos, b);
    AddStylesPresent(r.head, b.styles);
    AwaitScriptsPresent(r.(head := AddStyles(r.head, b.styles)), pos, b.scripts);
  }

  lemma {:induction false} AddStylesPresent(head: seq<HeadNode>, hrefs: seq<string>)
    requires forall k :: 0 <= k < |hrefs| ==> StyleLink(hrefs[k]) in head
    ensures AddStyles(head, hrefs) == head
    decreases |hrefs|
  {
    if hrefs != [] {
      AddStylesPresent(head, hrefs[1..]);
    }
  }

  lemma {:induction false} AwaitScriptsPresent(st: State, pos: nat, srcs: seq<string>)
    requires forall k :: 0 <= k < |srcs| ==> ScriptTag(srcs[k]) in st.head
    ensures AwaitScripts(st, pos, srcs).head == st.head
    decreases |srcs|
  {
    if srcs != [] {
      AwaitScriptsPresent(AwaitScript(st, pos, srcs[0]), pos, srcs[1..]);
    }
  }

  // ── Element ids ────────────────────────────────────────────────────────────

  /** `el.id`, the empty string when the element has none. */
  function IdOf(st: State, h: nat): string {
    if h in st.ids then st.ids[h] else ""
  }

  /** `` `loom-viz-${n}` `` */
  function AutoName(n: nat): string {
    "loom-viz-" + NatToString(n)
  }

  lemma AutoNamesDistinct(a: nat, b: nat)
    ensures a != b ==> AutoName(a) != AutoName(b)
  {
    PrefixedNatInjective("loom-viz-", a, b);
  }

  /** `ensureId(el)`: keep a non-empty id; otherwise take the next counter value. */
  function EnsureIdSpec(st: State, pos: nat, h: nat): (r: State)
    ensures IdOf(st, h) != "" ==> r == st
    ensures IdOf(st, h) == "" ==>
              r.autoId == st.autoId + 1 && IdOf(r, h) == AutoName(r.autoId)
              && r.log == st.log + [IdAssigned(pos, h, r.autoId)]
    ensures IdOf(r, h) != ""
    ensures forall h' :: h' != h ==> IdOf(r, h') == IdOf(st, h')
    ensures r.head == st.head && r.instances == st.instances
  {
    if IdOf(st, h) != "" then st
    else
      var n := st.autoId + 1;
      st.(autoId := n, ids := st.ids[h := AutoName(n)], log := st.log + [IdAssigned(pos, h, n)])
  }

  /** The ids the runtime assigns come from a strictly increasing counter and
      stay on their element: in log order, each assignment's counter value
      exceeds the previous one, none exceeds `autoId`, and the element still
      carries the name it was given. */
  ghost predicate AutoIdsFresh(st: State) {
    && (forall i, j :: 0 <= i < j < |st.log| && st.log[i].IdAssigned? && st.log[j].IdAssigned? ==>
          st.log[i].n < st.log[j].n)
    && (forall i :: 0 <= i < |st.log| && st.log[i].IdAssigned? ==>
          st.log[i].n <= st.autoId && IdOf(st, st.log[i].el) == AutoName(st.log[i].n))
  }

  /** Auto-assigned ids are pairwise distinct, and no element is given two. */
  lemma AutoIdsDistinct(st: State)
    requires AutoIdsFresh(st)
    ensures forall i, j :: 0 <= i < j < |st.log| && st.log[i].IdAssigned? && st.log[j].IdAssigned? ==>
              AutoName(st.log[i].n) != AutoName(st.log[j].n) && st.log[i].el != st.log[j].el
  {
    forall i, j | 0 <= i < j < |st.log| && st.log[i].IdAssigned? && st.log[j].IdAssigned?
      ensures AutoName(st.log[i].n) != AutoName(st.log[j].n) && st.log[i].el != st.log[j].el
    {
      AutoNamesDistinct(st.log[i].n, st.log[j].n);
    }
  }

  // ── One element of a descriptor's selector snapshot ────────────────────────

  /** `opts` for an element: its parsed `data-options`, or `{}` when the
      attribute is absent or empty, or (with a warning, the second component)
      when it is not valid JSON. */
  function ElementOptions(w: World, h: nat): (r: (Json, bool))
    ensures (h !in w.options || w.options[h] == "") ==> r == (Empty, false)
    ensures h in w.options && w.options[h] != "" && w.parse(w.options[h]).Some? ==>
              r == (w.parse(w.options[h]).value, false)
    ensures h in w.options && w.options[h] != "" && w.parse(w.options[h]).None? ==>
              r == (Empty, true)
  {
    if h !in w.options || w.options[h] == "" then (Empty, false)
    else
      match w.parse(w.options[h])
      case Some(v) => (v, false)
      case None => (Empty, true)
  }

  /** The log grew by events of descriptor `pos` in phase `rank` only. */
  ghost predicate Grows(st: State, r: State, pos: nat, rank: nat) {
    && |st.log| <= |r.log| && r.log[..|st.log|] == st.log
    && forall i :: |st.log| <= i < |r.log| ==> r.log[i].pos == pos && Rank(r.log[i]) == rank
  }

  lemma GrowsTrans(s0: State, s1: State, s2: State, pos: nat, rank: nat)
    requires Grows(s0, s1, pos, rank) && Grows(s1, s2, pos, rank)
    ensures Grows(s0, s2, pos, rank)
  {
    SlicePrefix(s2.log, |s1.log|, |s0.log|);
  }

  /** Appending events that assign no id keeps the assigned ids fresh. */
  lemma AppendKeepsFresh(st: State, evs: seq<Event>)
    requires AutoIdsFresh(st)
    requires forall k :: 0 <= k < |evs| ==> !evs[k].IdAssigned?
    ensures AutoIdsFresh(st.(log := st.log + evs))
  {
    var log := st.log + evs;
    assert forall i :: 0 <= i < |st.log| ==> log[i] == st.log[i];
    assert forall i :: |st.log| <= i < |log| ==> log[i] == evs[i - |st.log|];
  }

  lemma EnsureIdKeepsFresh(st: State, pos: nat, h: nat)
    requires AutoIdsFresh(st)
    ensures AutoIdsFresh(EnsureIdSpec(st, pos, h))
  {
    var r := EnsureIdSpec(st, pos, h);
    if IdOf(st, h) == "" {
      assert forall i :: 0 <= i < |st.log| ==> r.log[i] == st.log[i];
      forall i | 0 <= i < |st.log| && st.log[i].IdAssigned?
        ensures st.log[i].el != h
      {
        assert AutoName(st.log[i].n)[0] == 'l';
      }
    }
  }

  /** `ensureId(el)` followed by reading `data-options` (and warning when it
      does not parse). */
  function Prepared(st: State, pos: nat, h: nat, w: World): (r: State)
    ensures r.head == st.head && r.instances == st.instances
    ensures IdOf(r, h) != "" && (IdOf(st, h) != "" ==> IdOf(r, h) == IdOf(st, h))
    ensures forall h' :: h' != h ==> IdOf(r, h') == IdOf(st, h')
  {
    var s1 := EnsureIdSpec(st, pos, h);
    if ElementOptions(w, h).1 then s1.(log := s1.log + [OptionsWarning(pos, h)]) else s1
  }

  lemma PreparedLog(st: State, pos: nat, h: nat, w: World)
    ensures Grows(st, Prepared(st, pos, h, w), pos, 3)
    ensures ElementOptions(w, h).1 ==> OptionsWarning(pos, h) in Prepared(st, pos, h, w).log[|st.log|..]
    ensures AutoIdsFresh(st) ==> AutoIdsFresh(Prepared(st, pos, h, w))
  {
    PreparedGrows(st, pos, h, w);
    PreparedWarns(st, pos, h, w);
    if AutoIdsFresh(st) {
      PreparedFresh(st, pos, h, w);
    }
  }

  lemma PreparedGrows(st: State, pos: nat, h: nat, w: World)
    ensures Grows(st, Prepared(st, pos, h, w), pos, 3)
  {
    var s1 := EnsureIdSpec(st, pos, h);
    assert Grows(st, s1, pos, 3);
    if ElementOptions(w, h).1 {
      var r := s1.(log := s1.log + [OptionsWarning(pos, h)]);
      assert Grows(s1, r, pos, 3);
      GrowsTrans(st, s1, r, pos, 3);
    }
  }

  lemma PreparedWarns(st: State, pos: nat, h: nat, w: World)
    ensures ElementOptions(w, h).1 ==> OptionsWarning(pos, h) in Prepared(st, pos, h, w).log[|st.log|..]
  {
    var s1 := EnsureIdSpec(st, pos, h);
    if ElementOptions(w, h).1 {
      var r := Prepared(st, pos, h, w);
      assert |st.log| <= |s1.log| && r.log == s1.log + [OptionsWarning(pos, h)];
      assert r.log[|st.log|..][|r.log| - 1 - |st.log|] == OptionsWarning(pos, h);
    }
  }

  lemma PreparedFresh(st: State, pos: nat, h: nat, w: World)
    requires AutoIdsFresh(st)
    ensures AutoIdsFresh(Prepared(st, pos, h, w))
  {
    var s1 := EnsureIdSpec(st, pos, h);
    EnsureIdKeepsFresh(st, pos, h);
    if ElementOptions(w, h).1 {
      AppendKeepsFresh(s1, [OptionsWarning(pos, h)]);
    }
  }

  /** The body of the inner `for (const el of els)`; the boolean is "threw". */
  function RenderElement(st: State, pos: nat, e: Entry, h: nat, w: World): (r: Run)
    ensures r.st.head == st.head && r.st.autoId == Prepared(st, pos, h, w).autoId
    ensures r.st.ids == Prepared(st, pos, h, w).ids
    // render receives the element's options and the instance is what it returned
    ensures e.hasRender ==>
              r.st.log == Prepared(st, pos, h, w).log + [Rendered(pos, h, ElementOptions(w, h).0)]
    ensures !e.hasRender ==> r.st.log == Prepared(st, pos, h, w).log
    ensures r.threw <==> e.hasRender && Rendered(pos, h, ElementOptions(w, h).0) in w.faults
    ensures r.threw ==> r.st.instances == st.instances
    ensures !r.threw ==>
              r.st.instances ==
              st.instances[IdOf(r.st, h) := Record(pos, e, h, if e.hasRender then Mounted(|r.st.log| - 1) else NoInstance)]
  {
    var s2 := Prepared(st, pos, h, w);
    var id := IdOf(s2, h);
    var opts := ElementOptions(w, h).0;
    if !e.hasRender then
      Run(s2.(instances := s2.instances[id := Record(pos, e, h, NoInstance)]), false)
    else
      var ev := Rendered(pos, h, opts);
      var s3 := s2.(log := s2.log + [ev]);
      if ev in w.faults then Run(s3, true)
      else Run(s3.(instances := s3.instances[id := Record(pos, e, h, Mounted(|s2.log|))]), false)
  }

  lemma RenderElementLog(st: State, pos: nat, e: Entry, h: nat, w: World)
    ensures Grows(st, RenderElement(st, pos, e, h, w).st, pos, 3)
    ensures ElementOptions(w, h).1 ==> OptionsWarning(pos, h) in RenderElement(st, pos, e, h, w).st.log[|st.log|..]
  {
    var s2 := Prepared(st, pos, h, w);
    var r := RenderElement(st, pos, e, h, w).st;
    PreparedLog(st, pos, h, w);
    if e.hasRender {
      assert Grows(s2, r, pos, 3);
      GrowsTrans(st, s2, r, pos, 3);
      assert r.log[|st.log|..] == s2.log[|st.log|..] + [r.log[|r.log| - 1]];
    }
  }

  lemma RenderElementFresh(st: State, pos: nat, e: Entry, h: nat, w: World)
    requires AutoIdsFresh(st)
    ensures AutoIdsFresh(RenderElement(st, pos, e, h, w).st)
  {
    var s2 := Prepared(st, pos, h, w);
    PreparedLog(st, pos, h, w);
    var id := IdOf(s2, h);
    if !e.hasRender {
      FreshIgnoresInstances(s2, s2.instances[id := Record(pos, e, h, NoInstance)]);
    } else {
      var s3 := s2.(log := s2.log + [Rendered(pos, h, ElementOptions(w, h).0)]);
      AppendKeepsFresh(s2, [Rendered(pos, h, ElementOptions(w, h).0)]);
      FreshIgnoresInstances(s3, s3.instances[id := Record(pos, e, h, Mounted(|s2.log|))]);
    }
  }

  /** The instance store plays no part in id freshness. */
  lemma FreshIgnoresInstances(st: State, inst: map<string, Record>)
    requires AutoIdsFresh(st)
    ensures AutoIdsFresh(st.(instances := inst))
  {
    var r := st.(instances := inst);
    assert r.log == st.log && r.ids == st.ids && r.autoId == st.autoId;
    assert forall x :: IdOf(r, x) == IdOf(st, x);
  }

  /** The inner loop over the selector snapshot; stops at the first render that throws. */
  function RenderAll(st: State, pos: nat, e: Entry, hs: seq<nat>, w: World): (r: Run)
    ensures r.st.head == st.head
    ensures forall h :: IdOf(st, h) != "" ==> IdOf(r.st, h) == IdOf(st, h)
    ensures st.instances.Keys <= r.st.instances.Keys
    ensures r.threw ==> e.hasRender
    // only records of this descriptor are added or replaced
    ensures forall id :: id in r.st.instances && (id !in st.instances || r.st.instances[id] != st.instances[id]) ==>
              r.st.instances[id].pos == pos
    // every element of the snapshot ends with an id and an entry for that id
    ensures !r.threw ==> forall k :: 0 <= k < |hs| ==>
              IdOf(r.st, hs[k]) != "" && IdOf(r.st, hs[k]) in r.st.instances
              && r.st.instances[IdOf(r.st, hs[k])].pos == pos
    decreases |hs|
  {
    if hs == [] then Run(st, false)
    else
      var Run(s1, threw) := RenderElement(st, pos, e, hs[0], w);
      if threw then Run(s1, true)
      else
        var r := RenderAll(s1, pos, e, hs[1..], w);
        assert forall k :: 1 <= k < |hs| ==> hs[k] == hs[1..][k - 1];
        r
  }

  /** One step of the inner loop: the first element is rendered, and unless
      that throws the loop goes on with the rest. */
  lemma RenderAllStep(st: State, pos: nat, e: Entry, hs: seq<nat>, w: World)
    requires hs != []
    ensures var r := RenderElement(st, pos, e, hs[0], w);
            RenderAll(st, pos, e, hs, w) == if r.threw then r else RenderAll(r.st, pos, e, hs[1..], w)
  {
  }

  /** The ids the elements `hs` carry in `st`. */
  function IdsOf(st: State, hs: seq<nat>): set<string> {
    if hs == [] then {} else {IdOf(st, hs[0])} + IdsOf(st, hs[1..])
  }

  /** Without a throw, the store gains exactly the snapshot's ids. */
  lemma {:induction false} RenderAllKeys(st: State, pos: nat, e: Entry, hs: seq<nat>, w: World)
    ensures var r := RenderAll(st, pos, e, hs, w);
            !r.threw ==> r.st.instances.Keys == st.instances.Keys + IdsOf(r.st, hs)
    decreases |hs|
  {
    if hs != [] {
      var Run(s1, threw) := RenderElement(st, pos, e, hs[0], w);
      if !threw {
        RenderAllKeys(s1, pos, e, hs[1..], w);
      }
    }
  }

  lemma {:induction false} RenderAllLog(st: State, pos: nat, e: Entry, hs: seq<nat>, w: World)
    ensures Grows(st, RenderAll(st, pos, e, hs, w).st, pos, 3)
    ensures AutoIdsFresh(st) ==> AutoIdsFresh(RenderAll(st, pos, e, hs, w).st)
    decreases |hs|
  {
    if hs != [] {
      var Run(s1, threw) := RenderElement(st, pos, e, hs[0], w);
      RenderElementLog(st, pos, e, hs[0], w);
      if AutoIdsFresh(st) {
        RenderElementFresh(st, pos, e, hs[0], w);
      }
      if !threw {
        RenderAllLog(s1, pos, e, hs[1..], w);
        GrowsTrans(st, s1, RenderAll(s1, pos, e, hs[1..], w).st, pos, 3);
      }
    }
  }

  /** `querySelectorAll(selector)`, snapshotted. */
  function Matching(w: World, sel: string): seq<nat> {
    if sel in w.matches then w.matches[sel] else []
  }

  /** The events a detected descriptor logs before rendering. */
  function SetupEvents(pos: nat, e: Entry): seq<Event> {
    [DetectRan(pos, true)] + Awaits(pos, e.cdn.scripts) + (if e.hasInit then [InitCalled(pos)] else [])
  }

  /** A detected descriptor: `await loadCDN(entry.cdn)`, then `await entry.init()`. */
  function Setup(st: State, pos: nat, e: Entry): (r: State)
    ensures r.log == st.log + SetupEvents(pos, e)
    ensures r.autoId == st.autoId && r.ids == st.ids && r.instances == st.instances
    ensures forall k :: 0 <= k < |e.cdn.styles| ==> StyleLink(e.cdn.styles[k]) in r.head
    ensures forall k :: 0 <= k < |e.cdn.scripts| ==> ScriptTag(e.cdn.scripts[k]) in r.head
    ensures NoDup(st.head) ==> NoDup(r.head)
  {
    var s1 := LoadBundle(st.(log := st.log + [DetectRan(pos, true)]), pos, e.cdn);
    if e.hasInit then s1.(log := s1.log + [InitCalled(pos)]) else s1
  }

  /** A detected descriptor's setup log starts with its detect. */
  lemma SetupStarts(st: State, pos: nat, e: Entry)
    ensures |st.log| < |Setup(st, pos, e).log|
    ensures Setup(st, pos, e).log[..|st.log| + 1] == st.log + [DetectRan(pos, true)]
    ensures Setup(st, pos, e).log[..|st.log|] == st.log
  {
    var ev := SetupEvents(pos, e);
    assert ev[0] == DetectRan(pos, true);
    assert (st.log + ev)[..|st.log| + 1] == st.log + [ev[0]];
    assert (st.log + ev)[..|st.log|] == st.log;
  }

  /** One iteration of the outer `for (const entry of REGISTRY)`; the boolean is "threw". */
  function RunEntry(st: State, pos: nat, e: Entry, w: World): (r: Run)
    ensures |st.log| < |r.st.log| && r.st.log[..|st.log| + 1] == st.log + [DetectRan(pos, Detect(e, w.page))]
    ensures r.st.log[..|st.log|] == st.log
    // an undetected descriptor is skipped after its detect
    ensures !Detect(e, w.page) ==> r == Run(st.(log := st.log + [DetectRan(pos, false)]), false)
    ensures r.threw ==> Detect(e, w.page) && (e.hasInit || e.hasRender)
    ensures NoDup(st.head) ==> NoDup(r.st.head)
  {
    if !Detect(e, w.page) then Run(st.(log := st.log + [DetectRan(pos, false)]), false)
    else
      var s2 := Setup(st, pos, e);
      SetupStarts(st, pos, e);
      if e.hasInit && InitCalled(pos) in w.faults then Run(s2, true)
      else if e.selector.None? then Run(s2, false)
      else
        var r := RenderAll(s2, pos, e, Matching(w, e.selector.value), w);
        RenderAllLog(s2, pos, e, Matching(w, e.selector.value), w);
        SlicePrefix(r.st.log, |s2.log|, |st.log| + 1);
        SlicePrefix(r.st.log, |s2.log|, |st.log|);
        r
  }

  /** A detected descriptor's run is its setup followed by render events. */
  lemma RunEntryDetected(st: State, pos: nat, e: Entry, w: World)
    requires Detect(e, w.page)
    ensures var log := RunEntry(st, pos, e, w).st.log;
            |log| >= |st.log| + |SetupEvents(pos, e)| && log[..|Setup(st, pos, e).log|] == Setup(st, pos, e).log
            && Grows(Setup(st, pos, e), RunEntry(st, pos, e, w).st, pos, 3)
    ensures AutoIdsFresh(Setup(st, pos, e)) ==> AutoIdsFresh(RunEntry(st, pos, e, w).st)
  {
    var s2 := Setup(st, pos, e);
    if !(e.hasInit && InitCalled(pos) in w.faults) && e.selector.Some? {
      RenderAllLog(s2, pos, e, Matching(w, e.selector.value), w);
    }
  }

  /** From `lo` on, `log` holds events of descriptor `pos` only, phase by phase. */
  ghost predicate Phased(log: seq<Event>, lo: nat, pos: nat) {
    && (forall i :: lo <= i < |log| ==> log[i].pos == pos && Rank(log[i]) < 4)
    && (forall i :: lo <= i < |log| - 1 ==> Rank(log[i]) <= Rank(log[i + 1]))
  }

  lemma PhasedExtend(log: seq<Event>, lo: nat, pos: nat, evs: seq<Event>, rank: nat)
    requires Phased(log, lo, pos) && lo < |log| && Rank(log[|log| - 1]) <= rank < 4
    requires forall k :: 0 <= k < |evs| ==> evs[k].pos == pos && Rank(evs[k]) == rank
    ensures Phased(log + evs, lo, pos)
  {
    var l := log + evs;
    assert forall i :: 0 <= i < |log| ==> l[i] == log[i];
    assert forall i :: |log| <= i < |l| ==> l[i] == evs[i - |log|];
  }

  lemma SetupPhased(st: State, pos: nat, e: Entry)
    ensures Phased(Setup(st, pos, e).log, |st.log|, pos)
    ensures Rank(Setup(st, pos, e).log[|Setup(st, pos, e).log| - 1]) <= 2
  {
    var l0 := st.log + [DetectRan(pos, true)];
    assert Phased(l0, |st.log|, pos);
    PhasedExtend(l0, |st.log|, pos, Awaits(pos, e.cdn.scripts), 1);
    var l1 := l0 + Awaits(pos, e.cdn.scripts);
    if e.hasInit {
      PhasedExtend(l1, |st.log|, pos, [InitCalled(pos)], 2);
      assert Setup(st, pos, e).log == l1 + [InitCalled(pos)];
    } else {
      assert Setup(st, pos, e).log == l1;
    }
  }

  /** A descriptor's events come in order: detect, script awaits, init, renders. */
  lemma RunEntryPhased(st: State, pos: nat, e: Entry, w: World)
    ensures Phased(RunEntry(st, pos, e, w).st.log, |st.log|, pos)
  {
    if Detect(e, w.page) {
      DetectedPhased(st, pos, e, w);
    } else {
      UndetectedLog(st, pos, e, w);
      SinglePhased(st.log, DetectRan(pos, false));
    }
  }

  lemma DetectedPhased(st: State, pos: nat, e: Entry, w: World)
    requires Detect(e, w.page)
    ensures Phased(RunEntry(st, pos, e, w).st.log, |st.log|, pos)
  {
    var s2 := Setup(st, pos, e);
    var log := RunEntry(st, pos, e, w).st.log;
    SetupPhased(st, pos, e);
    RunEntryDetected(st, pos, e, w);
    PrefixAt(s2.log, log);
    PhasedGrow(s2.log, log, |st.log|, pos, 3);
  }

  lemma PhasedGrow(a: seq<Event>, log: seq<Event>, lo: nat, pos: nat, rank: nat)
    requires Phased(a, lo, pos) && lo < |a| <= |log| && Rank(a[|a| - 1]) <= rank < 4
    requires forall i :: 0 <= i < |a| ==> log[i] == a[i]
    requires forall i :: |a| <= i < |log| ==> log[i].pos == pos && Rank(log[i]) == rank
    ensures Phased(log, lo, pos)
  {
  }

  lemma UndetectedLog(st: State, pos: nat, e: Entry, w: World)
    requires !Detect(e, w.page)
    ensures RunEntry(st, pos, e, w).st == st.(log := st.log + [DetectRan(pos, false)])
  {
  }

  lemma SinglePhased(log: seq<Event>, ev: Event)
    requires Rank(ev) < 4
    ensures Phased(log + [ev], |log|, ev.pos)
  {
    assert (log + [ev])[|log|] == ev;
  }

  /** A detected descriptor awaits every script of its bundle, in order, and
      then calls `init`. */
  lemma RunEntryLoads(st: State, pos: nat, e: Entry, w: World)
    requires Detect(e, w.page)
    ensures var log := RunEntry(st, pos, e, w).st.log;
            |log| >= |st.log| + 1 + |e.cdn.scripts|
            && forall k :: 0 <= k < |e.cdn.scripts| ==> log[|st.log| + 1 + k] == ScriptAwaited(pos, e.cdn.scripts[k])
    ensures var log := RunEntry(st, pos, e, w).st.log;
            e.hasInit ==>
              |log| > |st.log| + 1 + |e.cdn.scripts| && log[|st.log| + 1 + |e.cdn.scripts|] == InitCalled(pos)
  {
    var log := RunEntry(st, pos, e, w).st.log;
    RunEntryDetected(st, pos, e, w);
    forall k | 0 <= k < |e.cdn.scripts|
      ensures log[|st.log| + 1 + k] == ScriptAwaited(pos, e.cdn.scripts[k])
    {
      RunEntryScriptAt(st, pos, e, w, k);
    }
    if e.hasInit {
      RunEntryInitAt(st, pos, e, w);
    }
  }

  lemma RunEntryScriptAt(st: State, pos: nat, e: Entry, w: World, k: nat)
    requires Detect(e, w.page) && k < |e.cdn.scripts|
    ensures |st.log| + 1 + k < |RunEntry(st, pos, e, w).st.log|
    ensures RunEntry(st, pos, e, w).st.log[|st.log| + 1 + k] == ScriptAwaited(pos, e.cdn.scripts[k])
  {
    var log := RunEntry(st, pos, e, w).st.log;
    var s2 := Setup(st, pos, e);
    RunEntryDetected(st, pos, e, w);
    SetupScriptAt(st, pos, e, k);
    assert log[..|s2.log|][|st.log| + 1 + k] == log[|st.log| + 1 + k];
  }

  lemma SetupScriptAt(st: State, pos: nat, e: Entry, k: nat)
    requires k < |e.cdn.scripts|
    ensures |st.log| + 1 + k < |Setup(st, pos, e).log|
    ensures Setup(st, pos, e).log[|st.log| + 1 + k] == ScriptAwaited(pos, e.cdn.scripts[k])
  {
    var ev := SetupEvents(pos, e);
    var aw := Awaits(pos, e.cdn.scripts);
    assert ev == [DetectRan(pos, true)] + aw + (if e.hasInit then [InitCalled(pos)] else []);
    assert ev[1 + k] == aw[k];
    assert (st.log + ev)[|st.log| + 1 + k] == ev[1 + k];
  }

  lemma RunEntryInitAt(st: State, pos: nat, e: Entry, w: World)
    requires Detect(e, w.page) && e.hasInit
    ensures |st.log| + 1 + |e.cdn.scripts| < |RunEntry(st, pos, e, w).st.log|
    ensures RunEntry(st, pos, e, w).st.log[|st.log| + 1 + |e.cdn.scripts|] == InitCalled(pos)
  {
    var log := RunEntry(st, pos, e, w).st.log;
    var s2 := Setup(st, pos, e);
    var n := |st.log| + 1 + |e.cdn.scripts|;
    RunEntryDetected(st, pos, e, w);
    SetupInitAt(st, pos, e);
    assert log[..|s2.log|][n] == log[n];
  }

  lemma SetupInitAt(st: State, pos: nat, e: Entry)
    requires e.hasInit
    ensures |st.log| + 1 + |e.cdn.scripts| < |Setup(st, pos, e).log|
    ensures Setup(st, pos, e).log[|st.log| + 1 + |e.cdn.scripts|] == InitCalled(pos)
  {
    var ev := SetupEvents(pos, e);
    var aw := Awaits(pos, e.cdn.scripts);
    assert ev == [DetectRan(pos, true)] + aw + [InitCalled(pos)];
    assert ev[1 + |aw|] == InitCalled(pos);
    assert (st.log + ev)[|st.log| + 1 + |aw|] == ev[1 + |aw|];
  }

  lemma RunEntryFresh(st: State, pos: nat, e: Entry, w: World)
    requires AutoIdsFresh(st)
    ensures AutoIdsFresh(RunEntry(st, pos, e, w).st)
  {
    if Detect(e, w.page) {
      SetupFresh(st, pos, e);
      RunEntryDetected(st, pos, e, w);
    } else {
      AppendKeepsFresh(st, [DetectRan(pos, false)]);
      UndetectedLog(st, pos, e, w);
    }
  }

  lemma SetupFresh(st: State, pos: nat, e: Entry)
    requires AutoIdsFresh(st)
    ensures AutoIdsFresh(Setup(st, pos, e))
  {
    var s2 := Setup(st, pos, e);
    var evs := SetupEvents(pos, e);
    assert forall k :: 0 <= k < |evs| ==> !evs[k].IdAssigned?;
    AppendKeepsFresh(st, evs);
    assert s2 == st.(log := st.log + evs).(head := s2.head);
  }

  /** From `lo` on, the events of `log` come in registry order and, within a
      descriptor, phase by phase (stated for neighbours; see `ChainOrdered`). */
  ghost predicate Chain(log: seq<Event>, lo: nat) {
    forall i :: lo <= i < |log| - 1 ==> Before(log[i], log[i + 1])
  }

  /** The outer loop from registry position `pos` on; stops at the first throw. */
  function RunFrom(st: State, reg: seq<Entry>, pos: nat, w: World): (r: Run)
    ensures |st.log| <= |r.st.log| && r.st.log[..|st.log|] == st.log
    ensures NoDup(st.head) ==> NoDup(r.st.head)
    decreases |reg| - pos
  {
    if pos >= |reg| then Run(st, false)
    else
      var Run(s1, threw) := RunEntry(st, pos, reg[pos], w);
      if threw then Run(s1, true)
      else
        var r := RunFrom(s1, reg, pos + 1, w);
        SlicePrefix(r.st.log, |s1.log|, |st.log|);
        r
  }

  /** One step of the outer loop that does not throw. */
  lemma RunFromStep(st: State, reg: seq<Entry>, pos: nat, w: World)
    requires pos < |reg| && !RunEntry(st, pos, reg[pos], w).threw
    ensures RunFrom(st, reg, pos, w) == RunFrom(RunEntry(st, pos, reg[pos], w).st, reg, pos + 1, w)
  {
  }

  lemma PrefixAt(a: seq<Event>, b: seq<Event>)
    requires |a| <= |b| && b[..|a|] == a
    ensures forall i :: 0 <= i < |a| ==> b[i] == a[i]
  {
    assert forall i :: 0 <= i < |a| ==> b[i] == b[..|a|][i];
  }

  /** A descriptor's phased events followed by a chain of later descriptors' events form a chain. */
  lemma ChainJoin(a: seq<Event>, log: seq<Event>, lo: nat, pos: nat)
    requires Phased(a, lo, pos) && |a| <= |log|
    requires forall i :: 0 <= i < |a| ==> log[i] == a[i]
    requires Chain(log, |a|)
    requires forall i :: |a| <= i < |log| ==> pos < log[i].pos
    ensures Chain(log, lo)
  {
  }

  /** All events of one pass belong to descriptors from `pos` on, in registry
      order, each descriptor finished before the next one's detect. */
  lemma {:induction false} RunFromOrdered(st: State, reg: seq<Entry>, pos: nat, w: World)
    ensures var log := RunFrom(st, reg, pos, w).st.log;
            forall i :: |st.log| <= i < |log| ==> pos <= log[i].pos < |reg|
    ensures Chain(RunFrom(st, reg, pos, w).st.log, |st.log|)
    decreases |reg| - pos
  {
    if pos < |reg| {
      var Run(s1, threw) := RunEntry(st, pos, reg[pos], w);
      RunEntryPhased(st, pos, reg[pos], w);
      if !threw {
        RunFromOrdered(s1, reg, pos + 1, w);
        RunFromStep(st, reg, pos, w);
        var log := RunFrom(s1, reg, pos + 1, w).st.log;
        PrefixAt(s1.log, log);
        ChainJoin(s1.log, log, |st.log|, pos);
      }
    }
  }

  /** Only detected descriptors load, init or render; nothing is updated. */
  lemma {:induction false} RunFromGated(st: State, reg: seq<Entry>, pos: nat, w: World)
    ensures var log := RunFrom(st, reg, pos, w).st.log;
            forall i :: |st.log| <= i < |log| && Rank(log[i]) > 0 ==>
              pos <= log[i].pos < |reg| && Detect(reg[log[i].pos], w.page) && Rank(log[i]) < 4
    decreases |reg| - pos
  {
    if pos < |reg| {
      var Run(s1, threw) := RunEntry(st, pos, reg[pos], w);
      RunEntryPhased(st, pos, reg[pos], w);
      if !Detect(reg[pos], w.page) {
        UndetectedLog(st, pos, reg[pos], w);
      }
      assert forall i :: |st.log| <= i < |s1.log| && Rank(s1.log[i]) > 0 ==> Detect(reg[pos], w.page);
      if !threw {
        RunFromGated(s1, reg, pos + 1, w);
        RunFromStep(st, reg, pos, w);
        PrefixAt(s1.log, RunFrom(s1, reg, pos + 1, w).st.log);
      }
    }
  }

  /** A pass that does not throw runs every descriptor's detect. */
  lemma {:induction false} RunFromDetectsAll(st: State, reg: seq<Entry>, pos: nat, w: World)
    ensures var r := RunFrom(st, reg, pos, w);
            !r.threw ==> forall p :: pos <= p < |reg| ==>
              exists i :: |st.log| <= i < |r.st.log| && r.st.log[i] == DetectRan(p, Detect(reg[p], w.page))
    decreases |reg| - pos
  {
    if pos < |reg| {
      var Run(s1, threw) := RunEntry(st, pos, reg[pos], w);
      if !threw {
        RunFromDetectsAll(s1, reg, pos + 1, w);
        RunFromStep(st, reg, pos, w);
        var log := RunFrom(s1, reg, pos + 1, w).st.log;
        PrefixAt(s1.log, log);
        assert s1.log[|st.log|] == DetectRan(pos, Detect(reg[pos], w.page)) by {
          assert s1.log[..|st.log| + 1][|st.log|] == s1.log[|st.log|];
        }
        assert log[|st.log|] == DetectRan(pos, Detect(reg[pos], w.page));
      }
    }
  }

  lemma {:induction false} RunFromFresh(st: State, reg: seq<Entry>, pos: nat, w: World)
    requires AutoIdsFresh(st)
    ensures AutoIdsFresh(RunFrom(st, reg, pos, w).st)
    decreases |reg| - pos
  {
    if pos < |reg| {
      RunEntryFresh(st, pos, reg[pos], w);
      var Run(s1, threw) := RunEntry(st, pos, reg[pos], w);
      if !threw {
        RunFromFresh(s1, reg, pos + 1, w);
      }
    }
  }

  /** `Before` between neighbours gives `Before` between any two events. */
  lemma {:induction false} ChainOrdered(log: seq<Event>, lo: nat, i: nat, j: nat)
    requires Chain(log, lo) && lo <= i < j < |log|
    ensures Before(log[i], log[j])
    decreases j - i
  {
    if i + 1 < j {
      ChainOrdered(log, lo, i + 1, j);
    }
  }

  /** Every node in the document appears once: a URL named by several bundles
      (or loaded again) is inserted a single time. */
  lemma AssetsInsertedOnce(st: State, w: World)
    requires NoDup(st.head)
    ensures forall n :: n in RunFrom(st, Registry(), 0, w).st.head ==>
              CountOf(RunFrom(st, Registry(), 0, w).st.head, n) == 1
  {
    var head := RunFrom(st, Registry(), 0, w).st.head;
    forall n | n in head ensures CountOf(head, n) == 1 {
      NoDupCount(head, n);
    }
  }

  // ── Step-update router (wireScrolly) ───────────────────────────────────────

  /** An instance store entry whose descriptor has an `update`. */
  predicate Routable(instances: map<string, Record>, id: string) {
    id in instances && instances[id].entry.hasUpdate
  }

  /** The `update(el, data, instance)` calls a `forEach` over `es` makes when
      none of them throws: one per routable id, in order; others are skipped. */
  function UpdateCalls(instances: map<string, Record>, es: seq<(string, Json)>): (calls: seq<Event>)
    ensures |calls| <= |es|
    ensures forall c :: c in calls ==> c.Updated?
  {
    if es == [] then []
    else
      var (id, data) := es[0];
      (if Routable(instances, id)
       then [Updated(instances[id].pos, instances[id].el, data, instances[id].instance)]
       else [])
      + UpdateCalls(instances, es[1..])
  }

  /** The `update` calls `Object.entries(updates).forEach(…)` makes: the same
      calls, up to and including the first that throws. */
  function Routed(instances: map<string, Record>, es: seq<(string, Json)>, faults: set<Event>): (calls: seq<Event>)
    ensures |calls| <= |UpdateCalls(instances, es)|
    decreases |es|
  {
    if es == [] then []
    else
      var (id, data) := es[0];
      if !Routable(instances, id) then Routed(instances, es[1..], faults)
      else
        var ev := Updated(instances[id].pos, instances[id].el, data, instances[id].instance);
        if ev in faults then [ev] else [ev] + Routed(instances, es[1..], faults)
  }

  /** The calls made are a prefix of the calls asked for, cut short only right
      after a call that threw. */
  lemma {:induction false} RoutedPrefix(instances: map<string, Record>, es: seq<(string, Json)>, faults: set<Event>)
    ensures var calls := Routed(instances, es, faults);
            calls == UpdateCalls(instances, es)[..|calls|]
    ensures var calls := Routed(instances, es, faults);
            forall i :: 0 <= i < |calls| - 1 ==> calls[i] !in faults
    ensures var calls := Routed(instances, es, faults);
            |calls| < |UpdateCalls(instances, es)| ==> |calls| > 0 && calls[|calls| - 1] in faults
    decreases |es|
  {
    if es != [] {
      RoutedPrefix(instances, es[1..], faults);
      var (id, data) := es[0];
      if Routable(instances, id) {
        var ev := Updated(instances[id].pos, instances[id].el, data, instances[id].instance);
        var rest := Routed(instances, es[1..], faults);
        assert UpdateCalls(instances, es) == [ev] + UpdateCalls(instances, es[1..]);
        if ev !in faults {
          assert ([ev] + rest)[1..] == rest;
        }
      }
    }
  }

  /** With no throwing adapter, a step routes every routable entry and only those. */
  lemma {:induction false} RoutedAll(instances: map<string, Record>, es: seq<(string, Json)>, faults: set<Event>)
    requires forall k :: 0 <= k < |UpdateCalls(instances, es)| ==> UpdateCalls(instances, es)[k] !in faults
    ensures Routed(instances, es, faults) == UpdateCalls(instances, es)
    decreases |es|
  {
    if es != [] {
      var (id, data) := es[0];
      var all := UpdateCalls(instances, es);
      var tail := UpdateCalls(instances, es[1..]);
      if Routable(instances, id) {
        var ev := Updated(instances[id].pos, instances[id].el, data, instances[id].instance);
        assert all == [ev] + tail;
        assert all[0] == ev;
        assert forall k :: 0 <= k < |tail| ==> tail[k] == all[k + 1];
        RoutedAll(instances, es[1..], faults);
        assert Routed(instances, es, faults) == [ev] + Routed(instances, es[1..], faults);
      } else {
        assert all == tail;
        RoutedAll(instances, es[1..], faults);
      }
    }
  }

  /** An id with no store entry, or whose descriptor lacks `update`, is skipped silently. */
  lemma UnroutableSkipped(instances: map<string, Record>, id: string, data: Json, es: seq<(string, Json)>)
    requires !Routable(instances, id)
    ensures UpdateCalls(instances, [(id, data)] + es) == UpdateCalls(instances, es)
  {
    assert ([(id, data)] + es)[1..] == es;
  }

  /** The `story:step` listener: read the step's `data-update`; a missing or
      empty attribute, or malformed JSON, leaves everything as it was. Only
      the log changes. */
  function OnStepSpec(st: State, update: Option<string>, w: World): (r: State)
    ensures update.None? || update == Some("") ==> r == st
    ensures update.Some? && update.value != "" && w.parse(update.value).None? ==> r == st
    ensures update.Some? && update.value != "" && w.parse(update.value).Some? ==>
              r.log == st.log + Routed(st.instances, Entries(w.parse(update.value).value), w.faults)
    ensures r == st.(log := r.log)
  {
    if update.None? || update.value == "" then st
    else
      match w.parse(update.value)
      case None => st
      case Some(j) => st.(log := st.log + Routed(st.instances, Entries(j), w.faults))
  }

  // ── Page-wide features after the loop ──────────────────────────────────────

  /** `initPostProgress`: nothing on essay pages or off post pages; otherwise a
      bar, which tracks scrolling unless reduced motion is preferred. */
  function PostBarMode(essayContent: bool, postMain: bool, reducedMotion: bool): (m: BarMode)
    ensures m == NoBar <==> essayContent || !postMain
    ensures m == TrackingBar <==> !essayContent && postMain && !reducedMotion
  {
    if essayContent || !postMain then NoBar
    else if reducedMotion then StaticBar
    else TrackingBar
  }

  /** `addCopyButtons` of core.js: skipped on essay pages (essay/core.js decorates those). */
  function PostCopyButtons(buttons: seq<nat>, w: World): seq<nat> {
    if w.essayContent then buttons else CopyButtons.Decorated(buttons, w.ghCode)
  }

  // ── The runtime object ─────────────────────────────────────────────────────

  /** The module-level state of core.js and the parts of the document it writes. */
  class Runtime {
    var head: seq<HeadNode>
    var autoId: nat
    var ids: map<nat, string>
    var instances: map<string, Record>
    var log: seq<Event>
    /** `wireScrolly` has attached the `story:step` listener. */
    var wired: bool
    var postBar: BarMode

    function Snapshot(): State
      reads this`head, this`autoId, this`ids, this`instances, this`log
    {
      State(head, autoId, ids, instances, log)
    }

    /** A page whose document holds `head0` and whose elements carry `ids0`. */
    constructor (head0: seq<HeadNode>, ids0: map<nat, string>)
      ensures Snapshot() == State(head0, 0, ids0, map[], [])
      ensures !wired && postBar == NoBar
    {
      head, autoId, ids, instances, log := head0, 0, ids0, map[], [];
      wired, postBar := false, NoBar;
    }

    method LoadStyle(href: string)
      modifies this`head
      ensures head == AddStyle(old(head), href)
    {
      if StyleLink(href) !in head {
        head := head + [StyleLink(href)];
      }
    }

    method LoadScript(pos: nat, src: string)
      modifies this`head, this`log
      ensures Snapshot() == AwaitScript(old(Snapshot()), pos, src)
    {
      if ScriptTag(src) !in head {
        head := head + [ScriptTag(src)];
      }
      log := log + [ScriptAwaited(pos, src)];
    }

    method LoadCDN(pos: nat, b: Bundle)
      modifies this`head, this`log
      ensures Snapshot() == LoadBundle(old(Snapshot()), pos, b)
    {
      for i := 0 to |b.styles|
        invariant AddStyles(old(head), b.styles) == AddStyles(head, b.styles[i..])
        invariant log == old(log)
      {
        assert b.styles[i..][1..] == b.styles[i + 1..];
        LoadStyle(b.styles[i]);
      }
      ghost var mid := Snapshot();
      for i := 0 to |b.scripts|
        invariant AwaitScripts(mid, pos, b.scripts) == AwaitScripts(Snapshot(), pos, b.scripts[i..])
      {
        assert b.scripts[i..][1..] == b.scripts[i + 1..];
        LoadScript(pos, b.scripts[i]);
      }
    }

    method EnsureId(pos: nat, h: nat) returns (id: string)
      modifies this`autoId, this`ids, this`log
      ensures Snapshot() == EnsureIdSpec(old(Snapshot()), pos, h)
      ensures id == IdOf(Snapshot(), h)
    {
      id := if h in ids then ids[h] else "";
      if id == "" {
        autoId := autoId + 1;
        id := AutoName(autoId);
        ids := ids[h := id];
        log := log + [IdAssigned(pos, h, autoId)];
      }
    }

    method RenderElementM(pos: nat, e: Entry, h: nat, w: World) returns (threw: bool)
      modifies this`autoId, this`ids, this`log, this`instances
      ensures Run(Snapshot(), threw) == RenderElement(old(Snapshot()), pos, e, h, w)
    {
      var id := EnsureId(pos, h);
      var opts := Empty;
      var text := if h in w.options then w.options[h] else "";
      if text != "" {
        var parsed := w.parse(text);
        if parsed.Some? {
          opts := parsed.value;
        } else {
          log := log + [OptionsWarning(pos, h)];
        }
      }
      var instance := NoInstance;
      if e.hasRender {
        log := log + [Rendered(pos, h, opts)];
        if Rendered(pos, h, opts) in w.faults {
          return true;
        }
        instance := Mounted(|log| - 1);
      }
      instances := instances[id := Record(pos, e, h, instance)];
      threw := false;
    }

    method RunEntryM(pos: nat, e: Entry, w: World) returns (threw: bool)
      modifies this`head, this`autoId, this`ids, this`log, this`instances
      ensures Run(Snapshot(), threw) == RunEntry(old(Snapshot()), pos, e, w)
    {
      var detected := Detect(e, w.page);
      log := log + [DetectRan(pos, detected)];
      if !detected {
        return false;
      }
      LoadCDN(pos, e.cdn);
      if e.hasInit {
        log := log + [InitCalled(pos)];
        if InitCalled(pos) in w.faults {
          return true;
        }
      }
      if e.selector.Some? {
        threw := RenderEach(pos, e, Matching(w, e.selector.value), w);
      } else {
        threw := false;
      }
    }

    /** `for (const el of document.querySelectorAll(entry.selector))`: render
        each element of the snapshot, stopping at the first that throws. */
    method RenderEach(pos: nat, e: Entry, els: seq<nat>, w: World) returns (threw: bool)
      modifies this`autoId, this`ids, this`log, this`instances
      ensures Run(Snapshot(), threw) == RenderAll(old(Snapshot()), pos, e, els, w)
    {
      var i := 0;
      while i < |els|
        invariant 0 <= i <= |els|
        invariant RenderAll(old(Snapshot()), pos, e, els, w) == RenderAll(Snapshot(), pos, e, els[i..], w)
      {
        ghost var pre := Snapshot();
        ghost var rest := els[i..];
        assert rest[0] == els[i] && rest[1..] == els[i + 1..];
        threw := RenderElementM(pos, e, els[i], w);
        RenderAllStep(pre, pos, e, rest, w);
        if threw {
          return;
        }
        i := i + 1;
      }
      assert els[i..] == [];
      threw := false;
    }

    /** The `for (const entry of REGISTRY)` loop of `init()`. */
    method RunRegistry(w: World) returns (completed: bool)
      modifies this`head, this`autoId, this`ids, this`log, this`instances
      ensures Run(Snapshot(), !completed) == RunFrom(old(Snapshot()), Registry(), 0, w)
    {
      var reg := Registry();
      var pos := 0;
      while pos < |reg|
        invariant 0 <= pos <= |reg|
        invariant RunFrom(old(Snapshot()), reg, 0, w) == RunFrom(Snapshot(), reg, pos, w)
      {
        var threw := RunEntryM(pos, reg[pos], w);
        if threw {
          return false;
        }
        pos := pos + 1;
      }
      completed := true;
    }

    /** `init()`: the pass over the registry, then progress bar, copy buttons
        and `wireScrolly`, which a throw during the pass means never run.
        `pres[p]` counts the copy buttons in `pre` number `p`. */
    method Bootstrap(w: World, pres: array<nat>) returns (completed: bool)
      requires forall k :: 0 <= k < |w.ghCode| ==> w.ghCode[k] < pres.Length
      modifies this`head, this`autoId, this`ids, this`instances, this`log, this`postBar, this`wired, pres
      ensures Run(Snapshot(), !completed) == RunFrom(old(Snapshot()), Registry(), 0, w)
      ensures wired == (old(wired) || completed)
      ensures postBar == if completed then PostBarMode(w.essayContent, w.postMain, w.reducedMotion) else old(postBar)
      ensures pres[..] == if completed then PostCopyButtons(old(pres[..]), w) else old(pres[..])
    {
      completed := RunRegistry(w);
      if completed {
        PageFeatures(w, pres);
      }
    }

    /** What `init()` does after the pass: `initPostProgress()`,
        `addCopyButtons()` (not on essay pages) and `wireScrolly()`. */
    method PageFeatures(w: World, pres: array<nat>)
      requires forall k :: 0 <= k < |w.ghCode| ==> w.ghCode[k] < pres.Length
      modifies this`postBar, this`wired, pres
      ensures wired
      ensures postBar == PostBarMode(w.essayContent, w.postMain, w.reducedMotion)
      ensures pres[..] == PostCopyButtons(old(pres[..]), w)
    {
      postBar := PostBarMode(w.essayContent, w.postMain, w.reducedMotion);
      if !w.essayContent {
        CopyButtons.AddCopyButtons(pres, w.ghCode);
      }
      wired := true;
    }

    /** `Object.entries(updates).forEach(…)` over the store. */
    method RouteUpdates(es: seq<(string, Json)>, faults: set<Event>)
      modifies this`log
      ensures log == old(log) + Routed(instances, es, faults)
    {
      var i := 0;
      while i < |es|
        invariant 0 <= i <= |es|
        invariant old(log) + Routed(instances, es, faults) == log + Routed(instances, es[i..], faults)
      {
        assert es[i..][1..] == es[i + 1..];
        var id := es[i].0;
        if id in instances && instances[id].entry.hasUpdate {
          var rec := instances[id];
          var ev := Updated(rec.pos, rec.el, es[i].1, rec.instance);
          log := log + [ev];
          if ev in faults {
            return;
          }
        }
        i := i + 1;
      }
    }

    /** A `story:step` event whose step element's `data-update` is `update`.
        Before `wireScrolly` ran there is no listener and nothing happens. */
    method OnStep(update: Option<string>, w: World)
      modifies this`log
      ensures Snapshot() == if wired then OnStepSpec(old(Snapshot()), update, w) else old(Snapshot())
    {
      if !wired || update.None? || update.value == "" {
        return;
      }
      var parsed := w.parse(update.value);
      if parsed.Some? {
        RouteUpdates(Entries(parsed.value), w.faults);
      }
    }
  }
}
