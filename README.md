# Loom theme runtime, modelled in Dafny

Loom is a blog theme. This project models what its scripts do in the browser, and what its Jekyll plugin does at build time.

- **Visualization runtime** (`assets/js/core.js`, `assets/js/viz-registry.js`) walks a fixed registry of six libraries: math, diagrams, ECharts, Leaflet, D3 and Mapbox. For each library it:
  - detects whether the page needs it;
  - loads its CDN styles and scripts just once;
  - runs its page-wide `init`, or renders every element that matches its selector, giving each element an id and keeping the returned instance under that id.

  After the whole pass it:
  - mounts the post reading-progress bar;
  - adds copy buttons;
  - wires the `story:step` event. That event routes a step's `data-update` JSON to each target instance's `update`.
- **Adapters** (`assets/js/viz/d3.js`, `mapbox.js`, `leaflet.js`, `assets/js/models/ricker.js`) turn element attributes and `data-options` into charts and maps. They also turn `data-update` payloads into chart calls or camera moves.
- **Essay scripts** (`assets/js/essay/*.js`) build:
  - the table of contents;
  - the endnotes;
  - keyboard step navigation;
  - the reading-progress bar and TOC tracking;
  - the Scrollama narrative;
  - the sidenote numbering and non-overlapping layout.
- **Alpine components** of `src/main.js`: dark mode, the mobile navigation, search, the gallery and the carousel.
- **Post-render hook** of `_plugins/lazy_images.rb`: it adds `loading="lazy"` to every `<img` tag of an HTML page that does not already have a `loading` attribute.

How things are modelled:

- **Form.** Source that updates state in place is a Dafny `class` or an `array` with `modifies` clauses (the runtime, the Alpine components, Scrollama steps, TOC links, sidenotes, the chart wrappers). Each such method is proved equal to a pure function of the old state, or states its new state outright. Pure source (option merging, presets, the regex rewrite) is made of functions and lemmas.
- **DOM and JSON.**
  - DOM elements are natural-number handles. Element ids are a map from handle to string.
  - JSON values are a datatype whose objects list their own properties in JavaScript property order: each key once, array-index keys first in ascending order, then the rest. `JSON.parse` is a parameter of the type `Parser`, the functions from text to `Option<Json>` whose results have that shape throughout.
- **The visualization pass.** It is a function on a `State`: the `<head>` nodes, the `autoId` counter, the ids, the instance map and an event log.
  - The `World` record gives what the page offers: detection inputs, the elements that match each selector, the `data-options` text, and which external calls throw.
  - A throw from `init` or `render` propagates out of `init()`, as in the source, which has no `try` around them. The rest of the pass and the post-pass features then never happen.
- **Browser inputs.** Timers, `requestAnimationFrame`, observers, `matchMedia` and `localStorage` become method parameters. Each callback is its own method.

## Model

| member | source | states |
|---|---|---|
| Strings.NatToString | assets/js/core.js:67 | the decimal rendering of a number is non-empty and has one digit exactly when the number is below ten |
| Strings.NatToStringDigits | assets/js/core.js:67 | every character of a rendered number is a decimal digit |
| Strings.NatToStringInjective | assets/js/core.js:67 | distinct numbers render to distinct strings, the basis of every generated id being unique |
| Strings.PrefixedNatInjective | assets/js/essay/core.js:42 | `prefix + n` strings are equal only for equal numbers |
| Strings.TrimStart | assets/js/essay/core.js:123 | the result is a suffix of the input starting at a non-space, and everything dropped is whitespace |
| Strings.TrimEnd | assets/js/essay/core.js:123 | the result is a prefix of the input ending at a non-space, and everything dropped is whitespace |
| Strings.Trim | assets/js/essay/core.js:123 | `trim()` cuts exactly the leading and trailing whitespace: the result is a slice of the input, everything cut is whitespace, and the result neither starts nor ends with whitespace |
| Strings.TrimEmptyIff | src/main.js:74-77 | a query trims to empty exactly when it is all whitespace |
| Strings.Split | assets/js/viz/mapbox.js:45-50 | `split(',')` yields at least one part, no part holds the separator, and joining the parts with the separator gives the input back |
| Strings.SplitCount | assets/js/viz/mapbox.js:46-47 | the number of parts is one more than the number of separators |
| Strings.IndexOf | _plugins/lazy_images.rb:13 | the first occurrence of a character, with none before it |
| Json.Lookup | assets/js/viz/d3.js:373 | a property is found exactly when the object has that key, and the value found belongs to that key |
| Json.LookupUnique | assets/js/core.js:100 | in an object without repeated keys, as `JSON.parse` makes them, a key reads as its one binding |
| Json.Keys | assets/js/viz/d3.js:374 | the keys of an object, in order and one per property |
| Json.Prop | assets/js/viz/leaflet.js:83-86 | a property read `v.k` finds something only on an object |
| Json.Nullish | assets/js/viz/d3.js:376 | `x == null`: null or undefined |
| Json.Truthy | assets/js/viz/leaflet.js:107 | JavaScript truthiness of a JSON value: null, false, 0 and the empty string are falsy |
| Json.NumTruthy | assets/js/viz/mapbox.js:143 | JavaScript truthiness of a number: NaN and 0 are falsy |
| Json.Coalesce | assets/js/viz/d3.js:374 | `a ?? b` keeps `a` unless it is null or undefined |
| Json.Assign | assets/js/viz/d3.js:373 | after `{...a, ...b}`, every key reads from `b` when `b` has it and from `a` otherwise |
| Json.LookupConcat | assets/js/viz/d3.js:373 | a lookup in joined property lists takes the first list's value for its keys |
| Json.OverwriteLookup | assets/js/viz/d3.js:373 | a key of `a` reads from `b` when `b` replaces it, else keeps `a`'s value |
| Json.MissingLookup | assets/js/viz/d3.js:373 | a key not in `a` reads exactly as in `b` |
| Json.AssignLookup | assets/js/viz/d3.js:373 | the spread built from overwritten and missing keys amounts to the right-biased merge |
| Json.Without | assets/js/viz/d3.js:374 | `const { data, ...opts }` drops `data` and leaves every other key's value unchanged |
| Json.Entries | assets/js/core.js:100 | `Object.entries` gives an object's properties in order, an array's items under their index names, and nothing for other values; on a parsed value no key is visited twice |
| CopyButtons.AddCopyButtons | assets/js/core.js:156-185 | the button counts of the `pre` blocks become the decorated counts: a block gets one button only if it has none |
| CopyButtons.NeverDuplicated | assets/js/essay/core.js:59-86 | each block ends with exactly the buttons it had, or one if it had none, so every code block ends with a button, and a second pass changes nothing |
| VizRegistry.Detect | assets/js/viz-registry.js:64-67 | math is needed for its body class, a `.math` element or a `$` in the content; every other library for its body flag or one of its marker selectors |
| VizRegistry.Registry | assets/js/viz-registry.js:57-208 | six entries in order math, diagrams, echarts, leaflet, d3, mapbox; the two page-wide ones have only `init`, the four element ones a selector, `render` and `update`; D3 loads nothing from a CDN |
| VizRegistry.RegistryIdsUnique | assets/js/viz-registry.js:57-208 | the registry ids are pairwise distinct |
| VizRegistry.SelectorIsMarker | assets/js/viz-registry.js:120 | each element adapter's selector is its first detection marker, so a selected element always implies detection |
| VizRegistry.RouteECharts | assets/js/viz-registry.js:44-53 | `ricker` and `ricker-scrolly` go to the Ricker widgets; anything else goes to the generic chart, with null options replaced by `{}` |
| VizRegistry.RenderSlot | assets/js/viz-registry.js:119-205 | only the four element adapters render; Mapbox always receives `{}` and ignores the parsed options |
| VizRegistry.RenderSlotMatchesTable | assets/js/viz-registry.js:57-208 | an entry renders exactly when the registry says it has a `render` |
| Core.AddNode | assets/js/core.js:37-44 | a node already in `<head>` leaves it unchanged, a missing one is appended, and `<head>` never gains a duplicate |
| Core.LoadStyleOnce | assets/js/core.js:38 | `loadStyle` twice equals once, and its link appears exactly once |
| Core.AddStyle | assets/js/core.js:37-44 | `loadStyle` appends a link for the href unless one is already there, and keeps the head before it |
| Core.AddStyles | assets/js/core.js:59 | every style is linked afterwards; the old head is a prefix; only style links of the bundle are added |
| Core.AwaitScripts | assets/js/core.js:60 | each script is awaited in order; only script tags of the bundle are added; nothing else in the state changes |
| Core.AwaitScript | assets/js/core.js:46-56 | `loadScript` appends a script tag unless one with that src is there, logs the await, and changes nothing else |
| Core.LoadBundle | assets/js/core.js:58-61 | after `loadCDN` every style and script of the bundle is in `<head>`, and a head without duplicates stays so |
| Core.LoadBundleInserts | assets/js/core.js:58-61 | loadCDN inserts only the bundle's styles and scripts, and every style link comes before every script tag |
| Core.LoadBundleNodeAt | assets/js/core.js:58-61 | each inserted node is either a style link in the style phase or a script tag in the script phase |
| Core.D3BundleInsertsNothing | assets/js/viz-registry.js:178-181 | the D3 entry's empty bundle changes neither the head nor the log |
| Core.LoadBundleTwice | assets/js/core.js:58-61 | loading a bundle again leaves `<head>` unchanged |
| Core.AddStylesPresent | assets/js/core.js:38 | styles already linked add nothing |
| Core.AwaitScriptsPresent | assets/js/core.js:47 | scripts already present add no tag |
| Core.NoDupCount | assets/js/core.js:37-56 | a node in a head without duplicates occurs exactly once |
| Core.AutoNamesDistinct | assets/js/core.js:67 | `loom-viz-n` names of distinct counters differ |
| Core.EnsureIdSpec | assets/js/core.js:65-69 | an element with an id keeps the state unchanged; one without gets `loom-viz-<autoId+1>`; afterwards it has an id and no other element's id changed |
| Core.AutoIdsDistinct | assets/js/core.js:65-69 | in a fresh log, any two assigned auto ids differ and went to different elements |
| Core.EnsureIdKeepsFresh | assets/js/core.js:67 | assigning an id keeps the auto-id counter ahead of every name it already assigned |
| Core.AppendKeepsFresh | assets/js/core.js:65-69 | logging events that assign no id keeps the counter fresh |
| Core.ElementOptions | assets/js/core.js:205-210 | no or empty `data-options` gives `{}`; valid JSON gives its value; invalid JSON gives `{}` plus a warning |
| Core.Prepared | assets/js/core.js:204-210 | preparing an element gives it an id, keeps an id it had, and touches no other element's id nor the head or instances |
| Core.PreparedGrows | assets/js/core.js:204-210 | preparing an element only appends events of this registry entry at the id/options phase or earlier |
| Core.PreparedWarns | assets/js/core.js:209 | invalid options JSON logs a warning for that element |
| Core.PreparedFresh | assets/js/core.js:204 | preparing an element keeps auto ids fresh |
| Core.PreparedLog | assets/js/core.js:204-210 | preparing an element only appends events at the id/options phase, logs a warning on bad JSON, and keeps auto ids fresh |
| Core.RenderElement | assets/js/core.js:204-212 | `render` receives the element's parsed options; a throw leaves instances unchanged; otherwise the instance map gains this entry, element and instance under the element's id |
| Core.RenderElementLog | assets/js/core.js:204-212 | rendering one element appends only events of this entry, including the options warning |
| Core.RenderElementFresh | assets/js/core.js:204 | rendering keeps auto ids fresh |
| Core.RenderAll | assets/js/core.js:201-214 | ids already set persist; instances only gain or replace records of this entry; without a throw every selected element ends with an id and a record |
| Core.RenderAllStep | assets/js/core.js:203-213 | the element loop renders the first element and continues with the rest unless it threw |
| Core.RenderAllKeys | assets/js/core.js:212 | without a throw, the instance keys become the old keys plus the ids of the rendered elements |
| Core.RenderAllLog | assets/js/core.js:203-213 | the element loop only appends events of this entry, and keeps auto ids fresh |
| Core.Setup | assets/js/core.js:195-199 | a detected entry has all its assets in `<head>` and only its detection, awaits and `init` call logged |
| Core.SetupStarts | assets/js/core.js:195 | the first event of a step is its detection |
| Core.RunEntry | assets/js/core.js:194-215 | every entry logs its detection first; an undetected entry logs only that and is skipped; only a detected entry with `init` or `render` can throw; `<head>` never gains duplicates |
| Core.RunEntryDetected | assets/js/core.js:195-214 | for a detected entry, setup events come first and rendering only appends after them |
| Core.UndetectedLog | assets/js/core.js:195 | `continue` on a failed detect changes nothing but the log |
| Core.SetupPhased | assets/js/core.js:195-199 | setup events come in phase order: detect, awaits, init |
| Core.RunEntryPhased | assets/js/core.js:194-215 | each entry's events follow detect, then CDN awaits, then `init`, then per-element work |
| Core.DetectedPhased | assets/js/core.js:195-214 | the same phase order holds for a detected entry |
| Core.RunEntryLoads | assets/js/core.js:197-199 | right after detection the scripts are awaited in bundle order, and `init` comes right after them |
| Core.RunEntryScriptAt | assets/js/core.js:60 | the k-th event after detection is the await of the k-th script |
| Core.RunEntryInitAt | assets/js/core.js:199 | `init` is called only after all of the entry's scripts were awaited |
| Core.RunEntryFresh | assets/js/core.js:194-215 | one registry step keeps auto ids fresh |
| Core.RunFrom | assets/js/core.js:194-215 | the log only grows and `<head>` never gains a duplicate |
| Core.RunFromStep | assets/js/core.js:194 | the loop moves to the next entry unless this one threw |
| Core.RunFromOrdered | assets/js/core.js:194-215 | every logged event belongs to a registry entry at or after the start, and entries appear in registry order |
| Core.RunFromGated | assets/js/core.js:195 | loading, `init` and rendering happen only for detected entries |
| Core.RunFromDetectsAll | assets/js/core.js:194-195 | a pass with no throw runs detection for every entry |
| Core.RunFromFresh | assets/js/core.js:194-215 | the pass keeps auto ids fresh |
| Core.ChainOrdered | assets/js/core.js:194-215 | in a chained log, an earlier event is from an earlier entry or from an earlier-or-same phase of the same entry |
| Core.AssetsInsertedOnce | assets/js/core.js:194-215 | after the whole registry pass every `<head>` node occurs exactly once |
| Core.UpdateCalls | assets/js/core.js:100-104 | only `update` calls are made, at most one per entry of the payload |
| Core.Routed | assets/js/core.js:100-104 | the `forEach` makes at most the routable update calls: it stops at the first that throws |
| Core.RoutedPrefix | assets/js/core.js:100-104 | the update calls made are a prefix of the routable ones; none but the last throws; a run cut short ends at a throw |
| Core.RoutedAll | assets/js/core.js:100-104 | when no update throws, every routable entry is delivered |
| Core.UnroutableSkipped | assets/js/core.js:101-102 | an id with no instance or without `update` is skipped |
| Core.OnStepSpec | assets/js/core.js:89-105 | a missing or empty `data-update`, or invalid JSON, changes nothing; otherwise the routed updates are logged and only the log changes |
| Core.PostBarMode | assets/js/core.js:113-128 | no bar on essay or non-post pages; a tracking bar exactly on post pages without reduced motion |
| Core.Runtime.constructor | assets/js/core.js:65-75 | the runtime starts with the page head, counter 0, no instances and an empty log |
| Core.Runtime.LoadStyle | assets/js/core.js:37-44 | the head becomes `AddStyle` of the old head |
| Core.Runtime.LoadScript | assets/js/core.js:46-56 | the state becomes `AwaitScript` of the old state |
| Core.Runtime.LoadCDN | assets/js/core.js:58-61 | the state becomes `LoadBundle` of the old state |
| Core.Runtime.EnsureId | assets/js/core.js:65-69 | the state becomes `EnsureIdSpec`, and the returned id is the element's id |
| Core.Runtime.RenderElementM | assets/js/core.js:204-212 | the state and the throw flag agree with `RenderElement` |
| Core.Runtime.RenderEach | assets/js/core.js:201-214 | the element loop agrees with `RenderAll` |
| Core.Runtime.RunEntryM | assets/js/core.js:194-215 | one loop body agrees with `RunEntry` |
| Core.Runtime.RunRegistry | assets/js/core.js:194-215 | the registry loop agrees with `RunFrom` over the real registry |
| Core.Runtime.Bootstrap | assets/js/core.js:189-220 | `init()` runs the registry pass; only a completed pass wires `story:step`, sets the post bar and adds copy buttons |
| Core.Runtime.PageFeatures | assets/js/core.js:217-219 | the bar mode, the copy buttons and the scrolly wiring follow the page |
| Core.Runtime.RouteUpdates | assets/js/core.js:100-104 | the log gains exactly the routed update calls |
| Core.Runtime.OnStep | assets/js/core.js:88-106 | before wiring nothing happens; after it, a step agrees with `OnStepSpec` |
| EssayCore.Listed | assets/js/essay/core.js:33-34 | the listed headings are those without `data-notoc` |
| EssayCore.NumberedAt | assets/js/essay/core.js:40-42 | an id-less listed heading gets `section-(k+1)`, k being the id-less listed headings before it; every other heading is unchanged |
| EssayCore.IdlessCountGrows | assets/js/essay/core.js:42 | an id-less heading raises the counter for every heading after it |
| EssayCore.NumberedHasId | assets/js/essay/core.js:42 | after numbering, every listed heading has an id |
| EssayCore.NumberedIdAt | assets/js/essay/core.js:42 | an id-less heading's new id is `section-` followed by its rank among id-less headings |
| EssayCore.SectionNamesDistinct | assets/js/essay/core.js:42 | distinct counter values give distinct section ids |
| EssayCore.NumberedDistinct | assets/js/essay/core.js:40-42 | two generated section ids never collide |
| EssayCore.Items | assets/js/essay/core.js:44-53 | one TOC item per listed heading, in order, with `sub` for `h3`, href `#id` and the heading text |
| EssayCore.NumberedSnoc | assets/js/essay/core.js:41-42 | numbering one more heading extends the numbered list by that heading, maybe renamed |
| EssayCore.ListedNumbered | assets/js/essay/core.js:41-42 | numbering lists as many headings as before |
| EssayCore.ItemsSnoc | assets/js/essay/core.js:44-53 | one more heading adds its item, or none if it is `notoc` |
| EssayCore.BuildToc | assets/js/essay/core.js:27-55 | the outcome and the headings' new ids agree with `Toc`: absent elements do nothing, fewer than two listed headings hide the TOC, otherwise headings are numbered and listed |
| EssayCore.Toc | assets/js/essay/core.js:27-55 | missing elements leave everything as it was; fewer than two listed headings hide the TOC without writing ids; otherwise one item per listed heading, and every listed heading has an id |
| EssayCore.CiteRef | assets/js/essay/core.js:113-116 | reference `i` links to `#endnote-(i+1)` with that number as text and `Reference n` as label |
| EssayCore.CiteNote | assets/js/essay/core.js:121-132 | note `i` has id `endnote-(i+1)`, is a link exactly when the trimmed text starts with `http://` or `https://` (linking the trimmed text), and holds the raw text otherwise |
| EssayCore.NoteIdsDistinct | assets/js/essay/core.js:114 | different citations get different note ids and hrefs |
| EssayCore.RefsAt | assets/js/essay/core.js:106-118 | the i-th reference is `CiteRef(i)` |
| EssayCore.NotesAt | assets/js/essay/core.js:106-134 | the i-th list item is the note of the i-th citation |
| EssayCore.BuildEndnotes | assets/js/essay/core.js:96-137 | missing elements or no citations do nothing and keep the section hidden; otherwise all references and notes are built and the section is unhidden |
| EssayCore.KeyTarget | assets/js/essay/core.js:141-161 | form fields ignore keys; down/right scroll to `min(idx+1, n-1)`, up/left to `max(idx-1, 0)`; only those keys are prevented; the target is always a step |
| EssayCore.KeyFromNothing | assets/js/essay/core.js:148-158 | with no active step, both directions go to the first step |
| EssayCore.NarrativeStarter.constructor | assets/js/essay/core.js:178 | the narrative starts uninitialised |
| EssayCore.NarrativeStarter.TryNarrative | assets/js/essay/core.js:180-193 | once initialised, or without story markup, nothing happens; otherwise Scrollama is loaded only when absent, and init happens exactly when Scrollama is then present |
| Progress.Pct | assets/js/essay/progress.js:39 | 0 without scroll room; at most 100; 100 once fully scrolled; never negative for a non-negative scroll. The post bar of `initPostProgress` (assets/js/core.js:113-149) does the same. |
| Progress.Round | assets/js/essay/progress.js:41 | `Math.round` lies within one half of its input. The post bar of `initPostProgress` (assets/js/core.js:113-149) does the same. |
| Progress.ValueNowInRange | assets/js/essay/progress.js:39-41 | `aria-valuenow` is between 0 and 100. The post bar of `initPostProgress` (assets/js/core.js:113-149) does the same. |
| Progress.ProgressBar.constructor | assets/js/essay/progress.js:19-56 | reduced motion adds no listener and leaves the bar at 0; otherwise an initial update is drawn. The post bar of `initPostProgress` (assets/js/core.js:113-149) does the same. |
| Progress.ProgressBar.OnScroll | assets/js/essay/progress.js:45-54 | a scroll schedules a single frame unless one is already pending. The post bar of `initPostProgress` (assets/js/core.js:113-149) does the same. |
| Progress.ProgressBar.RunFrame | assets/js/essay/progress.js:36-43 | the frame draws the current percentage and clears the pending flag. The post bar of `initPostProgress` (assets/js/core.js:113-149) does the same. |
| Progress.Toggled | assets/js/essay/progress.js:69-75 | a link is active exactly when it targets `#id`, and its list item follows it |
| Progress.SetActive | assets/js/essay/progress.js:69-75 | every TOC link is toggled for the id |
| Progress.Topmost | assets/js/essay/progress.js:81-87 | the first intersecting heading with the smallest top, or none when nothing intersects |
| Progress.InitTocTracking | assets/js/essay/progress.js:61-96 | headings are observed in document order, exactly the `h2[id]`/`h3[id]` ones, and only when the list and the content exist and one such heading does |
| Progress.TrackingEnabled | assets/js/essay/progress.js:62-67 | tracking needs the list, the content and at least one `h2[id]`/`h3[id]` heading |
| Progress.OnIntersect | assets/js/essay/progress.js:78-88 | no intersecting heading leaves links alone; otherwise the topmost heading is made active |
| Narrative.StepIdsDistinct | assets/js/essay/narrative.js:50 | generated step ids within a section differ |
| Narrative.SectionIdsDistinct | assets/js/essay/narrative.js:47 | generated section ids differ |
| Narrative.SetUpSection | assets/js/essay/narrative.js:41-57 | a section without graphic or steps is untouched; otherwise it gets an id, every step gets its id and `Step i of n` label, and nothing else changes |
| Narrative.InitNarrative | assets/js/essay/narrative.js:33-91 | without Scrollama nothing changes; otherwise every section is set up by its index |
| Narrative.Entered | assets/js/essay/narrative.js:59-66 | exactly the entered step is active and visible, and every other step hidden |
| Narrative.Exited | assets/js/essay/narrative.js:79-82 | the exited step loses `data-active` and is hidden; others are unchanged |
| Narrative.EnterThenExit | assets/js/essay/narrative.js:59-82 | entering then leaving a step leaves nothing active |
| Narrative.StepDetail | assets/js/essay/narrative.js:67-76 | the bubbling `story:step` event carries the index, direction, element, and `data-step` or else the index |
| Narrative.Scroller.constructor | assets/js/essay/narrative.js:57-58 | the scroller holds the section's steps and has dispatched no event |
| Narrative.Scroller.OnStepEnter | assets/js/essay/narrative.js:59-78 | the steps become `Entered`, and the graphic receives one `story:step` event |
| Narrative.Scroller.OnStepExit | assets/js/essay/narrative.js:79-82 | the steps become `Exited` |
| Sidenotes.NoteSn | assets/js/essay/sidenotes.js:35-36 | a note's number is its non-empty `data-sn`, else i+1, never empty |
| Sidenotes.SafeId | assets/js/essay/sidenotes.js:41 | ids the quoted selector reproduces exactly: no quote, backslash, newline or NUL |
| Sidenotes.Breaks | assets/js/essay/sidenotes.js:41 | ids for which the quoted selector is certainly invalid CSS |
| Sidenotes.FindAnchor | assets/js/essay/sidenotes.js:41 | the first anchor with the number, or none when no anchor has it |
| Sidenotes.FindAnchorFirst | assets/js/essay/sidenotes.js:41 | an anchor with no match before it is the one found |
| Sidenotes.Decorate | assets/js/essay/sidenotes.js:34-69 | each note gets its number (`sn` or i+1) and id `sn-n`. Its anchor is found or created just before the note, and gets the note label, `aria-describedby` and the noteref role; every other anchor is unchanged. The anchor keeps a marker it has and otherwise gets the note's number; a label is kept |
| Sidenotes.DecorateKeepsLinks | assets/js/essay/sidenotes.js:34-69 | every processed note keeps a linked anchor |
| Sidenotes.DecorateTwice | assets/js/essay/sidenotes.js:41-68 | decorating a note again changes no anchor and nothing in the note |
| Sidenotes.NumberNotes | assets/js/essay/sidenotes.js:25-69 | with the column present, the pass throws exactly when some note's selector is rejected; the notes before that one and the anchors are exactly `DecorateAll` of them, that note gets its number and id but no label, and later notes nothing; without the column nothing changes |
| Sidenotes.NumberPass | assets/js/essay/sidenotes.js:34-69 | the `forEach` over the notes: it stops at the first rejected selector, and the anchors and the notes before it are `DecorateAll` of those notes |
| Sidenotes.DecorateAll | assets/js/essay/sidenotes.js:34-69 | the pass over a prefix of the notes keeps one note per note |
| Sidenotes.FindAnchorStable | assets/js/essay/sidenotes.js:41 | appending anchors does not change which anchor a number finds |
| Sidenotes.DecorateAllNotes | assets/js/essay/sidenotes.js:35-68 | after the pass each note has its number, id `sn-` + number, and its own label or the label i+1 |
| Sidenotes.DecorateKeepsDecorated | assets/js/essay/sidenotes.js:41-59 | decorating one more note leaves every decorated anchor decorated |
| Sidenotes.DecorateAllAnchors | assets/js/essay/sidenotes.js:41-59 | after the pass every note's anchor exists, with the noteref role, `aria-describedby` naming the note, and a marker |
| Sidenotes.DecorateAllKeeps | assets/js/essay/sidenotes.js:41-50 | existing anchors keep their position and number, an anchor no note refers to is unchanged, and each created anchor sits right before a note with its number |
| Sidenotes.DecorateAllLabel | assets/js/essay/sidenotes.js:49 | a note whose number no later note shares leaves its anchor labelled `Note i+1` |
| Sidenotes.FirstRejected | assets/js/essay/sidenotes.js:34-41 | the first note whose anchor selector throws, with every earlier note passing |
| Sidenotes.FirstRejectedAt | assets/js/essay/sidenotes.js:34-41 | the note that throws is the one every earlier note passes |
| Sidenotes.SafeNumbersNeverThrow | assets/js/essay/sidenotes.js:41 | with a browser's selector parser, notes with safe numbers never throw |
| Sidenotes.QuotedNumberThrows | assets/js/essay/sidenotes.js:41 | a number holding a quote (and no `]`, `/` or backslash) throws when the pass reaches it |
| Sidenotes.MobileLayout | assets/js/essay/sidenotes.js:76-87 | on mobile an anchored note is inline, a note without an anchor stays where it was, no note keeps a position or top, and the sidebar loses its minimum height |
| Sidenotes.DesktopMove | assets/js/essay/sidenotes.js:91-94 | on desktop every note moves into the sidebar, absolutely positioned, with its top and the sidebar height left as they were |
| Sidenotes.Place | assets/js/essay/sidenotes.js:97-117 | the frame sets the top of each placed note, keeps the others, and sets the sidebar height to the final bottom plus 16px |
| Sidenotes.MobileAfterDesktop | assets/js/essay/sidenotes.js:76-87 | after a desktop layout, the mobile layout puts every anchored note back inline, clears every position and the sidebar height, and leaves only notes without an anchor in the sidebar |
| Sidenotes.MobileLayoutTwice | assets/js/essay/sidenotes.js:76-87 | running the mobile layout again changes nothing |
| Sidenotes.StackPlaced | assets/js/essay/sidenotes.js:99-114 | a note is placed exactly when it has an anchor, never above its anchor |
| Sidenotes.StackAbove | assets/js/essay/sidenotes.js:106 | every placed note sits at least 8px below the previous bottom |
| Sidenotes.StackNoOverlap | assets/js/essay/sidenotes.js:99-114 | any two placed notes are separated by the earlier note's height plus the 8px gap |
| Sidenotes.StackBottom | assets/js/essay/sidenotes.js:99-116 | the final bottom is below every placed note |
| Sidenotes.StackCons | assets/js/essay/sidenotes.js:99-114 | the stacking loop places one note and continues from its bottom |
| Sidenotes.Stack | assets/js/essay/sidenotes.js:99-116 | one top per note: skipped without an anchor, else `max(prevBottom + 8, ideal)`, with the bottom carried on |
| Sidenotes.PositionNotes | assets/js/essay/sidenotes.js:97-117 | the array loop matches `Stack`, and the column height is the last bottom plus 16px |
| D3.Mount | assets/js/viz/d3.js:131-334 | bar and line return an inert chart for non-array data and throw on an array holding `null` (its `label` is read); force is inert unless `data.nodes` is truthy, and throws when `nodes`, or a non-null `links`, is not an array; a custom factory makes its own chart |
| D3.ChartUpdate | assets/js/viz/d3.js:183-186 | only a drawn chart throws on update, and only on an array holding `null`; a redraw happens only for a custom chart or clean array data |
| D3.ForceNeverRedraws | assets/js/viz/d3.js:333-334 | the force chart's `update` does nothing, whatever it was mounted on |
| D3.BarLineRedraws | assets/js/viz/d3.js:183-186 | a bar or line chart redraws exactly when both the mounted and the new data are arrays without `null`, and its update throws exactly when it was mounted and the new array holds `null` |
| D3.NullItemThrows | assets/js/viz/d3.js:140 | `[null]` makes the bar and line factories throw, and an update with `[null]` throws |
| D3.Color | assets/js/viz/d3.js:136 | the option colour when given, else `#F0177A` |
| D3.GetSize | assets/js/viz/d3.js:97-100 | zero dimensions fall back to 640 by 320; others are kept |
| D3.GetSizeIdempotent | assets/js/viz/d3.js:97-100 | taking the size twice changes nothing |
| D3.MakeSvg | assets/js/viz/d3.js:102-127 | the svg has the resolved size, and the inner area plus the margins fill it exactly |
| D3.BarDefaultFrame | assets/js/viz/d3.js:134 | a default-size bar chart has a 496 by 264 inner area |
| D3.MergedOptions | assets/js/viz/d3.js:366-373 | invalid `data-options` warns; otherwise keys of the parsed attribute override the given options |
| D3.ResolveRender | assets/js/viz/d3.js:352-392 | an unknown type calls no factory; a known one mounts its factory on `merged.data ?? []` with every other merged option, and carries the merge's JSON warning; a throwing factory shows as `FactoryThrew` |
| D3.RenderOptionsOverride | assets/js/viz/d3.js:373 | a key of valid `data-options` wins over the passed option |
| D3.RenderInvalidJson | assets/js/viz/d3.js:366-371 | invalid JSON warns and leaves the passed options in force |
| D3.RenderDataDefault | assets/js/viz/d3.js:374 | with no data, the chart receives `[]` |
| D3.UpdateD3 | assets/js/viz/d3.js:401-403 | no instance or chart means no call; null data throws; otherwise `update` gets `data.data ?? data` |
| D3.UpdateUnwrapsData | assets/js/viz/d3.js:402 | a `{data: v}` payload updates with `v` |
| D3.D3Module.constructor | assets/js/viz/d3.js:60-61 | nothing is loaded, and the three built-in charts are registered |
| D3.D3Module.RegisterD3Chart | assets/js/viz/d3.js:91-93 | the chart table gains or replaces the named factory |
| D3.D3Module.LoadD3 | assets/js/viz/d3.js:70-79 | the import starts at most once, however often `loadD3` is called |
| D3.D3Module.ImportSettled | assets/js/viz/d3.js:70-79 | a resolved import sets the library; a rejected one stays cached as a failure |
| D3.D3Module.RenderD3 | assets/js/viz/d3.js:352-392 | rendering starts the import at most once and keeps the chart table; a rejected import rejects this and every later render without looking up a factory; otherwise the result is `ResolveRender` |
| Mapbox.ParseCenter | assets/js/viz/mapbox.js:45-50 | a centre parses exactly when it is two comma-separated finite numbers |
| Mapbox.ParseCenterOneComma | assets/js/viz/mapbox.js:46-47 | a parsed centre had exactly one comma |
| Mapbox.PresetOf | assets/js/viz/mapbox.js:29-41 | a location names a preset exactly when it is one of the table's keys |
| Mapbox.AttrNumber | assets/js/viz/mapbox.js:113-124 | an attribute counts only when non-empty, and then contributes its `parseFloat` value |
| Mapbox.ResolveCenter | assets/js/viz/mapbox.js:106-110 | the centre attribute wins, then the config, then the preset, then `[0, 0]` |
| Mapbox.ResolveZoom | assets/js/viz/mapbox.js:112-116 | the zoom attribute wins, then the config, then the preset zoom, then 2 |
| Mapbox.ResolveAngle | assets/js/viz/mapbox.js:118-126 | pitch and bearing come from the attribute, then the config, then 0 |
| Mapbox.ResolveStyle | assets/js/viz/mapbox.js:128-131 | the style attribute wins, then the config, then the outdoors style |
| Mapbox.ResolveCamera | assets/js/viz/mapbox.js:106-131 | the camera takes centre, zoom, pitch, bearing and style, each by its own precedence |
| Mapbox.UnknownPresetIsEmpty | assets/js/viz/mapbox.js:103-104 | an unknown location acts as no location |
| Mapbox.PresetCamera | assets/js/viz/mapbox.js:103-131 | a bare preset element gets the preset's centre and zoom, level angles and the default style |
| Mapbox.Exaggeration | assets/js/viz/mapbox.js:142-143 | terrain is added exactly when the attribute is set; a falsy number (NaN or 0) falls back to 1.5 and any other, infinities included, is kept; the result is never falsy |
| Mapbox.Token | assets/js/viz/mapbox.js:86-98 | a non-empty attribute token wins, then a non-empty window token, else none |
| Mapbox.MapContainer.constructor | assets/js/viz/mapbox.js:76 | a map container starts with its height and no error shown |
| Mapbox.RenderMap | assets/js/viz/mapbox.js:76-169 | no library touches nothing; the height fix comes first; no token shows the token error; a throwing constructor shows the init error; otherwise a map is made from the resolved camera and terrain |
| Mapbox.IfPresent | assets/js/viz/mapbox.js:185-189 | a field is kept exactly when it is neither null nor undefined |
| Mapbox.UpdateMap | assets/js/viz/mapbox.js:180-194 | no instance does nothing; with an instance it throws exactly on null data; flyTo happens exactly when a camera field is present, with exactly those fields, and a duration of 1500 unless `animate` is falsy |
| Leaflet.Pick | assets/js/viz/leaflet.js:83-86 | the attribute wins, then a non-null option, then the default |
| Leaflet.JsonKey | assets/js/viz/leaflet.js:87 | the string a JSON tile option converts to as a property key: a string itself, a one-item array its item, none where the string cannot name a preset |
| Leaflet.KeyString | assets/js/viz/leaflet.js:87 | the property key a tile setting converts to |
| Leaflet.IsCarto | assets/js/viz/leaflet.js:116 | `tileKey === 'carto'`: only the string itself, unconverted |
| Leaflet.PresetNamed | assets/js/viz/leaflet.js:41-66 | the four tile presets are the only named ones |
| Leaflet.PresetNamesDistinct | assets/js/viz/leaflet.js:41-66 | different preset names give different presets |
| Leaflet.TileKey | assets/js/viz/leaflet.js:86 | `data-tiles`, then the `tiles` option, then `osm` |
| Leaflet.LightPreset | assets/js/viz/leaflet.js:87 | an unknown key falls back to OpenStreetMap |
| Leaflet.DarkKey | assets/js/viz/leaflet.js:115-116 | `data-tiles-dark` wins; otherwise a key that is strictly the string `carto` becomes `carto-dark` and any other key is kept |
| Leaflet.DarkPreset | assets/js/viz/leaflet.js:115-119 | the dark key's preset, falling back to the light preset |
| Leaflet.DarkDefault | assets/js/viz/leaflet.js:115-116 | maps whose key is the string `carto` darken to carto-dark; other maps keep their tiles |
| Leaflet.WrappedCartoKey | assets/js/viz/leaflet.js:86-116 | a `tiles` option `["carto"]` selects Carto, and keeps it in dark mode because it is not `=== 'carto'` |
| Leaflet.OptionsThrow | assets/js/viz/leaflet.js:83-86 | null `options` throws exactly when some attribute is missing, so that `??` reads it |
| Leaflet.ResolveView | assets/js/viz/leaflet.js:83-116 | latitude 51.505, longitude -0.09 and zoom 13 are the defaults, overridden by options then attributes, plus the light and dark presets; options that are not an object supply nothing |
| Leaflet.BareDefaults | assets/js/viz/leaflet.js:83-87 | a bare element shows London on OpenStreetMap in both modes |
| Leaflet.MarkerOf | assets/js/viz/leaflet.js:106-108 | a marker gets a popup exactly when its label is truthy |
| Leaflet.FirstFailing | assets/js/viz/leaflet.js:102-112 | the markers processed before the first item whose callback throws: a null item, or a marker Leaflet rejects |
| Leaflet.MarkerItems | assets/js/viz/leaflet.js:101-105 | the items visited: those of a non-empty attribute parsing to an array, otherwise none |
| Leaflet.MarkersWarn | assets/js/viz/leaflet.js:101-111 | the warning is logged for bad JSON, a non-array, or a failing item |
| Leaflet.AddedMarkers | assets/js/viz/leaflet.js:105-108 | one marker layer per item before the first failing one, in order |
| Leaflet.TileLayers | assets/js/viz/leaflet.js:127 | only tile layers are selected |
| Leaflet.RemoveMembers | assets/js/viz/leaflet.js:122 | removing a layer keeps exactly the other layers |
| Leaflet.NonTilesMembers | assets/js/viz/leaflet.js:127 | clearing tiles keeps exactly the non-tile layers |
| Leaflet.TileLayersAppend | assets/js/viz/leaflet.js:127 | the tile layers of a joined list are the tile layers of each part |
| Leaflet.TileLayersRemove | assets/js/viz/leaflet.js:122 | removing a layer removes it from the tile layers |
| Leaflet.TileLayersNonTiles | assets/js/viz/leaflet.js:127 | no tile layer survives clearing |
| Leaflet.LeafletMap.constructor | assets/js/viz/leaflet.js:89-94 | the map starts with the view and its first light tile layer |
| Leaflet.LeafletMap.RemoveTileLayers | assets/js/viz/leaflet.js:127 | every tile layer is removed and the rest kept |
| Leaflet.LeafletMap.ApplyTheme | assets/js/viz/leaflet.js:118-124 | the current tile layer is replaced by a new layer for the mode |
| Leaflet.LeafletMap.AddMarkers | assets/js/viz/leaflet.js:97-112 | no attribute adds nothing; bad JSON or a non-array warns; otherwise markers are added in order up to the first null or rejected item, which warns; in all, the layers gain `AddedMarkers` |
| Leaflet.RenderLeaflet | assets/js/viz/leaflet.js:79-137 | no Leaflet gives no map; null options with a missing attribute throw, and so does a map Leaflet rejects; otherwise the view resolves, the markers added stay, followed by the one live tile layer for the current mode, and the warning flag is `MarkersWarn` |
| Leaflet.NewMap | assets/js/viz/leaflet.js:89-127 | the map built once the view resolves has the view, the markers added followed by the one theme tile layer for the mode, and the warning flag `MarkersWarn` |
| Leaflet.UpdateLeaflet | assets/js/viz/leaflet.js:148-159 | no map does nothing; with a map it throws exactly on null data; flyTo exactly when latitude and longitude are present (duration 1.5 unless `animate` is falsy); else setZoom exactly when a zoom is present |
| Ricker.Series | assets/js/models/ricker.js:23-30 | the series has n points, one when n is 0, starting at x0 |
| Ricker.Orbit | assets/js/models/ricker.js:25-28 | the k-th iterate of the map from x0 |
| Ricker.OrbitShift | assets/js/models/ricker.js:25-28 | starting one step later gives the same orbit shifted by one |
| Ricker.RickerSeries | assets/js/models/ricker.js:23-30 | every point is the map applied to the previous one, and the array equals `Series` |
| Ricker.TimeSeriesOptions | assets/js/models/ricker.js:34-51 | the x axis is the indices, the data is the series, and symbols show only up to 60 points |
| Ricker.MaxOf | assets/js/models/ricker.js:60 | the maximum bounds every point and the floor, and is one of them |
| Ricker.PhaseOptions | assets/js/models/ricker.js:53-91 | the pairs are consecutive points; the axis bound covers every point and 1.5; the diagonal spans it; the symbol size is 3 above 80 pairs, else 5 |
| Ricker.PhasePairsChain | assets/js/models/ricker.js:55 | each pair's y is the next pair's x |
| Ricker.PhasePointsOnMap | assets/js/models/ricker.js:55 | every phase point lies on the map's graph |
| Ricker.StepFor | assets/js/models/ricker.js:183-187 | steps 1 and 2 select their settings, and any other key selects step 0 |
| Ricker.StepKey | assets/js/models/ricker.js:238-239 | the step is `Number(data-step)`, or else the index |
| Ricker.StepsShareStart | assets/js/models/ricker.js:183-187 | all three steps start at 0.5 with 80 points |
| Ricker.MadeAppend | assets/js/models/ricker.js:154-164 | one more call creates at most one chart |
| Ricker.LazyChart.constructor | assets/js/models/ricker.js:154-164 | a lazy chart starts with no chart and no calls |
| Ricker.LazyChart.Show | assets/js/models/ricker.js:154-164 | a made chart is updated in place; otherwise it is created if the library is available |
| Ricker.Widget.constructor | assets/js/models/ricker.js:199-213 | a widget starts with two fresh, empty chart slots |
| Ricker.Widget.Update | assets/js/models/ricker.js:143-165 | both charts receive the options of the fresh series, via create or in place |
| Ricker.Widget.OnStoryStep | assets/js/models/ricker.js:237-241 | a step redraws both charts with that step's series |
| Ricker.RenderRickerScrolly | assets/js/models/ricker.js:199-243 | the widget starts at r 1.2, x0 0.5 and 80 points, creating both charts once |
| UiMain.ThemeName | src/main.js:12 | `dark` exactly when dark mode is on |
| UiMain.DarkMode.constructor | src/main.js:8-9 | dark exactly when the theme attribute is `dark` |
| UiMain.DarkMode.Toggle | src/main.js:10-14 | flips dark and writes the theme to the attribute and to storage |
| UiMain.DarkMode.Init | src/main.js:15-23 | a stored theme decides, else the colour-scheme query; storage is not written |
| UiMain.MobileNav.Toggle | src/main.js:28-32 | flips the nav |
| UiMain.MobileNav.Close | src/main.js:28-32 | closes the nav |
| UiMain.MobileNav.constructor | src/main.js:29 | the nav starts closed |
| UiMain.Search.constructor | src/main.js:38-43 | the search starts closed, with an empty query, no results, not loading and no Pagefind |
| UiMain.FirstResults | src/main.js:81-83 | at most the first eight results, in their order |
| UiMain.Search.Open | src/main.js:54-65 | opens, and Pagefind is set once an import resolves |
| UiMain.Search.Close | src/main.js:67-71 | closes and clears the query and results |
| UiMain.Search.RunSearch | src/main.js:73-89 | no Pagefind or a blank query clears results; otherwise the first eight results, or none on a failure, and loading ends false |
| UiMain.Search.OnKey | src/main.js:45-52 | Cmd/Ctrl+K toggles the dialog and is the only key prevented; opening keeps the query and the results, closing clears them |
| UiMain.PrevIndex | src/main.js:119 | decrements above 0 only |
| UiMain.NextIndex | src/main.js:120 | increments below the last image only |
| UiMain.StepsStayInBounds | src/main.js:119-120 | prev and next keep a valid index valid |
| UiMain.StepsUndo | src/main.js:119-120 | away from the ends, next and prev undo each other |
| UiMain.Gallery.constructor | src/main.js:95-98 | the gallery starts hidden at index 0 |
| UiMain.Gallery.Show | src/main.js:109-113 | opens at the given index |
| UiMain.Gallery.Hide | src/main.js:115-117 | closes the lightbox |
| UiMain.Gallery.Prev | src/main.js:119 | moves back within bounds |
| UiMain.Gallery.Next | src/main.js:120 | moves forward within bounds |
| UiMain.Gallery.OnKey | src/main.js:100-107 | a closed lightbox ignores keys; Escape, ArrowLeft and ArrowRight close, go back and go forward; other keys do nothing |
| UiMain.Carousel.constructor | src/main.js:126-128 | the carousel starts at index 0 |
| UiMain.Carousel.Prev | src/main.js:130 | moves back within bounds |
| UiMain.Carousel.Next | src/main.js:131 | moves forward within bounds |
| UiMain.Carousel.GoTo | src/main.js:132 | jumps to the given index |
| LazyImages.TagAt | _plugins/lazy_images.rb:13 | a tag matches at the start exactly when the text starts with `<img`, has no `loading=` ahead in the tag, and has a closing `>`; the match ends at the first `>` |
| LazyImages.Lazy | _plugins/lazy_images.rb:12-15 | the rewrite never shortens the page and keeps its first character |
| LazyImages.Tag | _plugins/lazy_images.rb:14 | the rewritten tag is `<img loading="lazy"` + attributes + `>`, 15 characters longer than the match |
| LazyImages.PostRender | _plugins/lazy_images.rb:9-15 | only `.html` output is rewritten |
| LazyImages.LazyMatched | _plugins/lazy_images.rb:12-15 | a match is replaced and scanning resumes after its `>` |
| LazyImages.LazyUnmatched | _plugins/lazy_images.rb:12-15 | an unmatched position keeps its character |
| LazyImages.NoGtFixed | _plugins/lazy_images.rb:13 | text without `>` is never rewritten |
| LazyImages.TagRewritten | _plugins/lazy_images.rb:13-14 | an `<img` tag without `loading=` gains `loading="lazy"` |
| LazyImages.TagKept | _plugins/lazy_images.rb:6-8 | a tag that already has `loading=` is kept as is, so eager images stay eager |
| LazyImages.ImgSkipped | _plugins/lazy_images.rb:13 | an `<img` that does not match passes through |
| LazyImages.LazyLength | _plugins/lazy_images.rb:12-15 | the output is 15 characters longer per rewrite |
| LazyImages.LazyUnchangedIff | _plugins/lazy_images.rb:12-15 | the page is unchanged exactly when no tag was rewritten |
| LazyImages.TagPassesAgain | _plugins/lazy_images.rb:13-14 | a rewritten tag passes unchanged through a second pass |
| LazyImages.TagNotRematched | _plugins/lazy_images.rb:13 | a rewritten tag does not match again |
| LazyImages.TagAfterImg | _plugins/lazy_images.rb:13 | an `<img` fails to match exactly when `loading=` is ahead in the tag or no `>` follows |
| LazyImages.LazyIdempotent | _plugins/lazy_images.rb:12-15 | on pages whose image tags hold no `<`, a second pass changes nothing |
| LazyImages.PostRenderIdempotent | _plugins/lazy_images.rb:10-15 | running the hook twice equals once, on such pages |
| LazyImages.OnceNested | _plugins/lazy_images.rb:13-14 | on `<img<img b>` the first pass matches at the outer `<img` and rewrites the whole tag |
| LazyImages.TwiceNested | _plugins/lazy_images.rb:13-14 | the second pass finds the inner `<img` unmarked and rewrites it again |
| LazyImages.LazyNotIdempotent | _plugins/lazy_images.rb:13 | `<img<img b>` is rewritten again by a second pass, so idempotence needs the no-`<` condition |

## Left out

- LazyImages.LazyIdempotent: idempotence is proved only for pages whose `<img …>` tags hold no `<`. Such a `<` is legal inside a quoted attribute, for example `<img alt="x <img y">`. A second pass then rewrites the inner `<img`, as `LazyImages.LazyNotIdempotent` shows on `<img<img b>`.
- LazyImages: `\w` is ASCII letters, digits and `_`. Ruby's Unicode-aware word characters are not modelled.
- Numbers are Dafny reals or an abstract `Num`. The Ricker map (`r·x·e^(1-x)`), `Number`, `parseFloat`, `parseInt` and `toFixed` are parameters or left abstract.
- Ricker.RickerSeries takes `n` as a natural number. A `data-n` that parses to NaN or to a negative number is not modelled; in the source the negative case makes `new Array` throw.
- renderRicker's slider label text (`toFixed`) is not modelled.
- Browser callbacks (observers, timers, `requestAnimationFrame`) are separate methods called in order. Event-loop interleaving of the awaits in `init()` is modelled as sequential calls.
- `matchMedia`, `localStorage`, `window.scrollY` and element geometry are parameters.
- The markup built by `innerHTML` templates, error-box styling and `showError` text are not modelled.
- The clipboard behaviour of the copy buttons is not modelled.
- The resize observer of `renderD3` (assets/js/viz/d3.js:379-389), which re-renders on resize, is not modelled.
- assets/js/viz/echarts.js, math.js, diagrams.js and pyodide.js are not part of this model. Their `init`, `render` and `update` are abstract calls that may throw.
- Pagefind search results are opaque values. The search and `data()` promises are given by their outcome, an `Option`.
- `loadCDN`'s `= []` defaults are never exercised, because every registry entry lists both styles and scripts.
- The essay `init()` order (assets/js/essay/core.js:195-203) has no member of its own; each step it calls is modelled separately.
- `Object.entries` is modelled for objects and arrays. It gives nothing for other values, including strings.
- Keys inherited from `Object.prototype`, such as `constructor` or `toString`, are not modelled as table entries. VizRegistry.RouteECharts treats them like any unknown `data-viz` name and sends the element to the generic chart, where `ECHARTS_RENDERERS[...]` in the source finds the inherited function. Leaflet.PresetNamed treats them like an unknown tile key, and so does the Mapbox `PRESETS` lookup.
- Spreading arrays or strings into option objects is not modelled; only object spreads are.
- D3.Mount: throws raised inside the D3 library are not modelled, for example `forceLink` on a link naming a node that does not exist. The factories' own reads (`d.label` of a `null` item, `.map` of a non-array) are modelled. A throwing factory reaches the visualization pass only as a render fault.
- Leaflet.RenderLeaflet: whether Leaflet rejects the centre passed to `setView` or a marker's coordinates is an input (`mapThrows`, `markerThrows`). Leaflet's own validation is library code.
- Sidenotes.NumberNotes: the page's selector parser is the parameter `rejects`. It is fixed only where CSS is unambiguous: a `SafeId` never throws and a `Breaks` id always throws. Other ids are left to the parameter: backslash escapes, `/*` comments, or a quote followed by `]` that injects another selector. For an id that passes, the anchor is found by string equality. CSS unescaping and matching on an injected selector are not modelled.
- Sidenotes.Decorate: the same selector limit applies. It takes the anchor with `data-sn` equal to the number, by string equality.
- Leaflet.ResolveView: a JSON `tiles` option is turned into a property key by `JsonKey`. An object gives `[object Object]`. A number or an array of two or more items gives a numeral or a comma-separated list, and neither names a preset; that string is not computed, and `JsonKey` gives `None`.
- `JSON.parse` itself is not modelled. The `Parser` type states only the shape of its results: distinct keys and JavaScript property order.

Where the code and its description differ, the model follows the code:
- Pagefind stays set after a failed `init()`.
- `rickerSeries(0)` has one point.
- The Mapbox height fix happens even when no token is found.
- A null `data-update` payload makes each adapter's `update` throw.
