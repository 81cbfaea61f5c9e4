/** The essay runtime of assets/js/essay/core.js: the table of contents, the
    endnote list, keyboard step navigation and the once-only narrative start.
    Copy buttons are `CopyButtons.AddCopyButtons`, shared with assets/js/core.js. */
module EssayCore {
  import opened Wrappers
  import opened Strings
  import opened Seqs

  // ── buildToc ───────────────────────────────────────────────────────────────

  /** An `h2`/`h3` of the content: its id ("" when none), level, `data-notoc` and text. */
  datatype Heading = Heading(id: string, isH3: bool, notoc: bool, text: string)

  /** An `li.toc-item` (with `toc-item--sub` for an `h3`) holding `a.toc-link`. */
  datatype TocItem = TocItem(sub: bool, href: string, text: string)

  datatype TocOutcome =
    | TocAbsent           // the toc, its list or the content is missing
    | TocHidden           // fewer than two headings: `hidden` is set
    | TocBuilt(items: seq<TocItem>)

  /** `` `section-${n}` `` */
  function SectionName(n: nat): string {
    "section-" + NatToString(n)
  }

  /** A heading the TOC lists and that needs an id. */
  predicate Idless(h: Heading) {
    !h.notoc && h.id == ""
  }

  /** The number of listed headings without an id. */
  function IdlessCount(hs: seq<Heading>): (n: nat)
    ensures n <= |hs|
  {
    if hs == [] then 0 else (if Idless(hs[0]) then 1 else 0) + IdlessCount(hs[1..])
  }

  /** The listed headings. */
  function Listed(hs: seq<Heading>): (r: seq<Heading>)
    ensures |r| <= |hs|
    ensures forall k :: 0 <= k < |r| ==> !r[k].notoc
  {
    if hs == [] then [] else (if hs[0].notoc then [] else [hs[0]]) + Listed(hs[1..])
  }

  /** The headings after `if (!h.id) h.id = `section-${++counter}``, the counter
      starting at `c`. */
  function Numbered(hs: seq<Heading>, c: nat): (r: seq<Heading>)
    ensures |r| == |hs|
    decreases |hs|
  {
    if hs == [] then []
    else
      var h := hs[0];
      if Idless(h) then [h.(id := SectionName(c + 1))] + Numbered(hs[1..], c + 1)
      else [h] + Numbered(hs[1..], c)
  }

  /** Heading `i` is numbered by how many id-less listed headings precede it:
      existing ids are kept and the counter advances only for id-less ones. */
  lemma {:induction false} NumberedAt(hs: seq<Heading>, c: nat, i: nat)
    requires i < |hs|
    ensures Numbered(hs, c)[i] ==
              if Idless(hs[i]) then hs[i].(id := SectionName(c + IdlessCount(hs[..i]) + 1)) else hs[i]
    decreases i
  {
    if i > 0 {
      var c' := if Idless(hs[0]) then c + 1 else c;
      NumberedAt(hs[1..], c', i - 1);
      var t := hs[..i];
      assert t[0] == hs[0] && t[1..] == hs[1..][..i - 1];
      assert IdlessCount(t) == (if Idless(hs[0]) then 1 else 0) + IdlessCount(t[1..]);
      assert c + IdlessCount(t) == c' + IdlessCount(hs[1..][..i - 1]);
      assert Numbered(hs, c)[i] == Numbered(hs[1..], c')[i - 1];
      assert hs[1..][i - 1] == hs[i];
    }
  }

  lemma {:induction false} IdlessCountGrows(hs: seq<Heading>, i: nat, j: nat)
    requires i < j <= |hs| && Idless(hs[i])
    ensures IdlessCount(hs[..i]) < IdlessCount(hs[..j])
    decreases |hs|
  {
    if i > 0 {
      IdlessCountGrows(hs[1..], i - 1, j - 1);
      assert hs[1..][..i - 1] == hs[..i][1..];
      assert hs[1..][..j - 1] == hs[..j][1..];
    } else {
      assert hs[..j][0] == hs[0];
    }
  }

  /** Every listed heading ends with an id. */
  lemma NumberedHasId(hs: seq<Heading>, i: nat)
    requires i < |hs| && !hs[i].notoc
    ensures Numbered(hs, 0)[i].id != ""
  {
    NumberedAt(hs, 0, i);
    assert SectionName(IdlessCount(hs[..i]) + 1)[0] == 's';
  }

  /** An idless heading gets the section name of its place among the idless. */
  lemma NumberedIdAt(hs: seq<Heading>, i: nat)
    requires i < |hs| && Idless(hs[i])
    ensures Numbered(hs, 0)[i].id == SectionName(IdlessCount(hs[..i]) + 1)
  {
    NumberedAt(hs, 0, i);
  }

  lemma SectionNamesDistinct(a: nat, b: nat)
    requires a != b
    ensures SectionName(a) != SectionName(b)
  {
    PrefixedNatInjective("section-", a, b);
  }

  /** The generated ids are pairwise distinct. */
  lemma NumberedDistinct(hs: seq<Heading>, i: nat, j: nat)
    requires i < j < |hs| && Idless(hs[i]) && Idless(hs[j])
    ensures Numbered(hs, 0)[i].id != Numbered(hs, 0)[j].id
  {
    NumberedIdAt(hs, i);
    NumberedIdAt(hs, j);
    IdlessCountGrows(hs, i, j);
    NamesDiffer(Numbered(hs, 0)[i].id, Numbered(hs, 0)[j].id, IdlessCount(hs[..i]) + 1, IdlessCount(hs[..j]) + 1);
  }

  lemma NamesDiffer(x: string, y: string, a: nat, b: nat)
    requires x == SectionName(a) && y == SectionName(b) && a != b
    ensures x != y
  {
    SectionNamesDistinct(a, b);
  }

  /** The list items for (already numbered) headings, in order. */
  function Items(hs: seq<Heading>): (r: seq<TocItem>)
    ensures |r| == |Listed(hs)|
    ensures forall k :: 0 <= k < |r| ==>
              r[k] == TocItem(Listed(hs)[k].isH3, "#" + Listed(hs)[k].id, Listed(hs)[k].text)
  {
    if hs == [] then []
    else (if hs[0].notoc then [] else [TocItem(hs[0].isH3, "#" + hs[0].id, hs[0].text)]) + Items(hs[1..])
  }

  /** What `buildToc()` leaves: the outcome and the headings, ids written. */
  datatype TocResult = TocResult(outcome: TocOutcome, headings: seq<Heading>)

  /** `buildToc()` */
  function Toc(present: bool, hs: seq<Heading>): (r: TocResult)
    ensures !present ==> r == TocResult(TocAbsent, hs)
    // fewer than two listed headings: the TOC is hidden and no id is written
    ensures present && |Listed(hs)| < 2 ==> r == TocResult(TocHidden, hs)
    // otherwise one item per listed heading, and every listed heading has an id
    ensures present && |Listed(hs)| >= 2 ==>
              && r.outcome.TocBuilt? && |r.outcome.items| == |Listed(hs)| && |r.headings| == |hs|
              && forall k :: 0 <= k < |hs| && !hs[k].notoc ==> r.headings[k].id != ""
  {
    if !present then TocResult(TocAbsent, hs)
    else if |Listed(hs)| < 2 then TocResult(TocHidden, hs)
    else
      ListedNumbered(hs, 0);
      assert forall k :: 0 <= k < |hs| && !hs[k].notoc ==> Numbered(hs, 0)[k].id != "" by {
        forall k | 0 <= k < |hs| && !hs[k].notoc {
          NumberedHasId(hs, k);
        }
      }
      TocResult(TocBuilt(Items(Numbered(hs, 0))), Numbered(hs, 0))
  }

  /** Numbering one more heading extends the numbering by that heading alone. */
  lemma {:induction false} NumberedSnoc(hs: seq<Heading>, h: Heading, c: nat)
    ensures Numbered(hs + [h], c) ==
              Numbered(hs, c) + [if Idless(h) then h.(id := SectionName(c + IdlessCount(hs) + 1)) else h]
    decreases |hs|
  {
    var y := if Idless(h) then h.(id := SectionName(c + IdlessCount(hs) + 1)) else h;
    if hs == [] {
      assert [h][1..] == [];
    } else {
      var c' := if Idless(hs[0]) then c + 1 else c;
      var x := if Idless(hs[0]) then hs[0].(id := SectionName(c + 1)) else hs[0];
      NumberedSnoc(hs[1..], h, c');
      assert IdlessCount(hs) == (if Idless(hs[0]) then 1 else 0) + IdlessCount(hs[1..]);
      calc {
        Numbered(hs + [h], c);
        { assert (hs + [h])[0] == hs[0] && (hs + [h])[1..] == hs[1..] + [h]; }
        [x] + Numbered(hs[1..] + [h], c');
        [x] + (Numbered(hs[1..], c') + [y]);
        ([x] + Numbered(hs[1..], c')) + [y];
        Numbered(hs, c) + [y];
      }
    }
  }

  lemma {:induction false} ListedNumbered(hs: seq<Heading>, c: nat)
    ensures |Listed(Numbered(hs, c))| == |Listed(hs)|
    decreases |hs|
  {
    if hs != [] {
      ListedNumbered(hs[1..], if Idless(hs[0]) then c + 1 else c);
      assert Numbered(hs, c)[1..] == Numbered(hs[1..], if Idless(hs[0]) then c + 1 else c);
    }
  }

  lemma {:induction false} ItemsSnoc(hs: seq<Heading>, h: Heading)
    ensures Items(hs + [h]) == Items(hs) + (if h.notoc then [] else [TocItem(h.isH3, "#" + h.id, h.text)])
    decreases |hs|
  {
    var t := if h.notoc then [] else [TocItem(h.isH3, "#" + h.id, h.text)];
    if hs == [] {
      assert [h][1..] == [];
      assert Items([h]) == t + Items([]);
    } else {
      var x := if hs[0].notoc then [] else [TocItem(hs[0].isH3, "#" + hs[0].id, hs[0].text)];
      ItemsSnoc(hs[1..], h);
      calc {
        Items(hs + [h]);
        { assert (hs + [h])[0] == hs[0] && (hs + [h])[1..] == hs[1..] + [h]; }
        x + Items(hs[1..] + [h]);
        x + (Items(hs[1..]) + t);
        { AppendAssoc(x, Items(hs[1..]), t); }
        x + Items(hs[1..]) + t;
        Items(hs) + t;
      }
    }
  }

  /** The DOM version: ids are written into `hs` and the items appended to the list. */
  method BuildToc(present: bool, hs: array<Heading>) returns (outcome: TocOutcome)
    modifies hs
    ensures TocResult(outcome, hs[..]) == Toc(present, old(hs[..]))
  {
    if !present {
      return TocAbsent;
    }
    var listed := 0;
    for k := 0 to hs.Length
      invariant listed == |Listed(hs[..k])|
      invariant hs[..] == old(hs[..])
    {
      assert hs[..k + 1] == hs[..k] + [hs[k]];
      ListedSnoc(hs[..k], hs[k]);
      if !hs[k].notoc {
        listed := listed + 1;
      }
    }
    assert hs[..] == hs[..hs.Length];
    if listed < 2 {
      return TocHidden;
    }
    ghost var before := hs[..];
    var counter := 0;
    var items := [];
    for k := 0 to hs.Length
      invariant counter == IdlessCount(before[..k])
      invariant hs[..k] == Numbered(before[..k], 0)
      invariant forall j :: k <= j < hs.Length ==> hs[j] == before[j]
      invariant items == Items(hs[..k])
    {
      ghost var done := hs[..k];
      NumberedStep(before, k, counter);
      assert hs[k] == before[k];
      if !hs[k].notoc && hs[k].id == "" {
        counter := counter + 1;
        hs[k] := hs[k].(id := SectionName(counter));
      }
      assert hs[..k + 1] == done + [hs[k]];
      ItemsSnoc(done, hs[k]);
      if !hs[k].notoc {
        items := items + [TocItem(hs[k].isH3, "#" + hs[k].id, hs[k].text)];
      }
    }
    assert before[..hs.Length] == before;
    assert hs[..] == hs[..hs.Length];
    outcome := TocBuilt(items);
  }

  /** One step of the numbering loop: heading `k` gets the next section name
      exactly when it is idless. */
  lemma NumberedStep(before: seq<Heading>, k: nat, counter: nat)
    requires k < |before| && counter == IdlessCount(before[..k])
    ensures var h := before[k];
            Numbered(before[..k + 1], 0) ==
              Numbered(before[..k], 0) + [if Idless(h) then h.(id := SectionName(counter + 1)) else h]
    ensures IdlessCount(before[..k + 1]) == counter + (if Idless(before[k]) then 1 else 0)
  {
    assert before[..k + 1] == before[..k] + [before[k]];
    NumberedSnoc(before[..k], before[k], 0);
    IdlessSnoc(before[..k], before[k]);
  }

  lemma {:induction false} ListedSnoc(hs: seq<Heading>, h: Heading)
    ensures Listed(hs + [h]) == Listed(hs) + (if h.notoc then [] else [h])
    decreases |hs|
  {
    var t := if h.notoc then [] else [h];
    if hs == [] {
      assert [h][1..] == [];
      assert Listed([h]) == t + Listed([]);
    } else {
      var x := if hs[0].notoc then [] else [hs[0]];
      ListedSnoc(hs[1..], h);
      calc {
        Listed(hs + [h]);
        { assert (hs + [h])[0] == hs[0] && (hs + [h])[1..] == hs[1..] + [h]; }
        x + Listed(hs[1..] + [h]);
        x + (Listed(hs[1..]) + t);
        { AppendAssoc(x, Listed(hs[1..]), t); }
        x + Listed(hs[1..]) + t;
        Listed(hs) + t;
      }
    }
  }

  lemma {:induction false} IdlessSnoc(hs: seq<Heading>, h: Heading)
    ensures IdlessCount(hs + [h]) == IdlessCount(hs) + (if Idless(h) then 1 else 0)
    decreases |hs|
  {
    if hs == [] {
      assert [h][1..] == [];
    } else {
      IdlessSnoc(hs[1..], h);
      assert (hs + [h])[1..] == hs[1..] + [h];
    }
  }

  // ── buildEndnotes ──────────────────────────────────────────────────────────

  /** The `li#endnote-k` body: a link for a URL, the raw text otherwise. */
  datatype NoteBody = Link(href: string) | Plain(text: string)

  datatype Endnote = Endnote(id: string, body: NoteBody)

  /** The `sup.endnote-ref` that replaces a cite. */
  datatype Ref = Ref(href: string, caption: string, ariaLabel: string)

  datatype EndnotesOutcome =
    | NotesAbsent                 // section or list missing, or no cites: nothing changes
    | NotesBuilt(refs: seq<Ref>, notes: seq<Endnote>)

  /** `/^https?:\/\//.test(t)` */
  predicate IsUrl(t: string) {
    StartsWith(t, "http://") || StartsWith(t, "https://")
  }

  /** `` `endnote-${num}` `` */
  function NoteId(num: nat): string {
    "endnote-" + NatToString(num)
  }

  /** The reference that replaces the `i`-th cite. */
  function CiteRef(i: nat): (r: Ref)
    ensures r.href == "#" + NoteId(i + 1)
    ensures r.caption == NatToString(i + 1) && r.ariaLabel == "Reference " + NatToString(i + 1)
  {
    var num := NatToString(i + 1);
    Ref("#" + NoteId(i + 1), num, "Reference " + num)
  }

  /** The list item for the `i`-th cite, whose `data-cite` is `text`. */
  function CiteNote(i: nat, text: string): (r: Endnote)
    ensures r.id == NoteId(i + 1)
    ensures r.body.Link? <==> IsUrl(Trim(text))
    ensures r.body.Link? ==> r.body.href == Trim(text)
    ensures r.body.Plain? ==> r.body.text == text
  {
    Endnote(NoteId(i + 1), if IsUrl(Trim(text)) then Link(Trim(text)) else Plain(text))
  }

  /** Endnote ids (and so the reference targets) are pairwise distinct. */
  lemma NoteIdsDistinct(i: nat, j: nat, a: string, b: string)
    requires i != j
    ensures CiteNote(i, a).id != CiteNote(j, b).id && CiteRef(i).href != CiteRef(j).href
  {
    PrefixedNatInjective("endnote-", i + 1, j + 1);
    assert CiteRef(i).href[1..] == NoteId(i + 1);
    assert CiteRef(j).href[1..] == NoteId(j + 1);
  }

  /** The references for the first `n` cites, in document order. */
  function Refs(n: nat): (r: seq<Ref>)
    ensures |r| == n
  {
    if n == 0 then [] else Refs(n - 1) + [CiteRef(n - 1)]
  }

  /** The list items for `cites`, in document order. */
  function Notes(cites: seq<string>): (r: seq<Endnote>)
    ensures |r| == |cites|
  {
    if cites == [] then [] else Notes(cites[..|cites| - 1]) + [CiteNote(|cites| - 1, cites[|cites| - 1])]
  }

  lemma {:induction false} RefsAt(n: nat, i: nat)
    requires i < n
    ensures Refs(n)[i] == CiteRef(i)
  {
    if i < n - 1 {
      RefsAt(n - 1, i);
    }
  }

  lemma {:induction false} NotesAt(cites: seq<string>, i: nat)
    requires i < |cites|
    ensures Notes(cites)[i] == CiteNote(i, cites[i])
  {
    if i < |cites| - 1 {
      NotesAt(cites[..|cites| - 1], i);
    }
  }

  /** `buildEndnotes()` over the cites' `data-cite` texts (the `[data-cite]`
      selector guarantees the attribute, so `?? ''` never applies). The boolean
      is whether the section is unhidden. Reference `i` and list item `i` are
      `CiteRef(i)` and `CiteNote(i, cites[i])` (`RefsAt`, `NotesAt`). */
  method BuildEndnotes(present: bool, cites: seq<string>) returns (outcome: EndnotesOutcome, unhidden: bool)
    ensures !present || cites == [] ==> outcome == NotesAbsent && !unhidden
    ensures present && cites != [] ==>
              unhidden && outcome == NotesBuilt(Refs(|cites|), Notes(cites))
  {
    if !present || cites == [] {
      return NotesAbsent, false;
    }
    var refs := [];
    var notes := [];
    for i := 0 to |cites|
      invariant refs == Refs(i)
      invariant notes == Notes(cites[..i])
    {
      assert cites[..i + 1][..i] == cites[..i];
      refs := refs + [CiteRef(i)];
      notes := notes + [CiteNote(i, cites[i])];
    }
    assert cites[..|cites|] == cites;
    outcome := NotesBuilt(refs, notes);
    unhidden := true;
  }

  // ── Keyboard navigation ────────────────────────────────────────────────────

  datatype KeyOutcome = KeyOutcome(target: Option<nat>, prevented: bool)

  /** The `keydown` handler for `n` steps, `idx` being the active step's index
      or -1. Arrow keys scroll to the neighbouring step, clamped to the ends. */
  function KeyTarget(idx: int, n: nat, key: string, inFormField: bool): (r: KeyOutcome)
    requires n >= 1 && -1 <= idx < n
    ensures r.target.Some? ==> r.target.value < n
    ensures r.prevented <==> r.target.Some?
    ensures inFormField ==> r == KeyOutcome(None, false)
    ensures !inFormField && (key == "ArrowDown" || key == "ArrowRight") ==>
              r.target == Some(if idx + 1 < n - 1 then idx + 1 else n - 1)
    ensures !inFormField && (key == "ArrowUp" || key == "ArrowLeft") ==>
              r.target == Some(if idx - 1 > 0 then idx - 1 else 0)
    ensures key !in {"ArrowDown", "ArrowRight", "ArrowUp", "ArrowLeft"} ==> r == KeyOutcome(None, false)
  {
    if inFormField then KeyOutcome(None, false)
    else if key == "ArrowDown" || key == "ArrowRight" then
      var down: nat := if idx + 1 < n - 1 then idx + 1 else n - 1;
      KeyOutcome(Some(down), true)
    else if key == "ArrowUp" || key == "ArrowLeft" then
      var up: nat := if idx - 1 > 0 then idx - 1 else 0;
      KeyOutcome(Some(up), true)
    else KeyOutcome(None, false)
  }

  /** From no active step, Down goes to the first step and Up stays at it. */
  lemma KeyFromNothing(n: nat)
    requires n >= 1
    ensures KeyTarget(-1, n, "ArrowDown", false).target == Some(0)
    ensures KeyTarget(-1, n, "ArrowUp", false).target == Some(0)
  {
  }

  // ── tryNarrative ───────────────────────────────────────────────────────────

  /** `https://cdn.jsdelivr.net/npm/scrollama@3/build/scrollama.min.js` */
  const ScrollamaCdn := "https://cdn.jsdelivr.net/npm/scrollama@3/build/scrollama.min.js"

  /** The module-level `narrativeInited` flag and what `tryNarrative` does. */
  class NarrativeStarter {
    var inited: bool
    /** `initNarrative()` + `initKeyboardNav()` runs. */
    var starts: nat
    /** Scrollama script elements this module appended (it does not deduplicate). */
    var scripts: seq<string>

    predicate Valid()
      reads this
    {
      starts <= 1 && (inited <==> starts == 1)
    }

    constructor ()
      ensures Valid() && !inited && starts == 0 && scripts == []
    {
      inited, starts, scripts := false, 0, [];
    }

    /** `await tryNarrative()`: `hasStory` is whether a `.story-section` or
        `.story-step` exists; `before`/`after` whether `window.scrollama` is a
        function before and after the optional load. */
    method TryNarrative(hasStory: bool, before: bool, after: bool)
      requires Valid()
      modifies this
      ensures Valid()
      ensures old(inited) || !hasStory ==> inited == old(inited) && starts == old(starts) && scripts == old(scripts)
      ensures !old(inited) && hasStory ==>
                scripts == old(scripts) + (if before then [] else [ScrollamaCdn])
                && (inited <==> (if before then true else after))
    {
      if inited || !hasStory {
        return;
      }
      var available := before;
      if !before {
        scripts := scripts + [ScrollamaCdn];
        available := after;
      }
      if !available {
        return;
      }
      inited := true;
      starts := starts + 1;
    }
  }
}
