/** Tufte-style margin notes of assets/js/essay/sidenotes.js: numbering each
    `aside.sidenote`, locating or creating its anchor, decorating both once,
    and the two layouts (stacked in the sidebar on desktop, inline on mobile).
    Measured positions and heights are inputs. */
module Sidenotes {
  import opened Wrappers
  import opened Strings

  /** An `aside.sidenote`: `data-sn` ("" when absent), id, the `.sidenote-number` label. */
  datatype Note = Note(sn: string, id: string, numberLabel: Option<string>)

  /** A `.sidenote-anchor`: its `data-sn`, `.sidenote-marker` text, ARIA
      attributes, and — for one this module created — the note it was
      inserted before. */
  datatype Anchor = Anchor(
    sn: string, marker: Option<string>, role: string, ariaLabel: string, describedBy: string,
    insertedBefore: Option<nat>)

  /** The note's number: its `data-sn`, or `i + 1` when that is empty. */
  function NoteSn(note: Note, i: nat): (sn: string)
    ensures sn != []
    ensures note.sn != [] ==> sn == note.sn
  {
    if note.sn == "" then NatToString(i + 1) else note.sn
  }

  predicate IsNewline(c: char) {
    c == '\n' || c == '\r' || c == 12 as char
  }

  /** An id the selector `[data-sn="${id}"]` quotes exactly: no `"`, no
      backslash, no newline (an unescaped one ends a CSS string in error) and
      no NUL (which CSS replaces). */
  predicate SafeId(id: string) {
    forall c :: c in id ==> c != '"' && c != '\\' && c != 0 as char && !IsNewline(c)
  }

  /** An id that certainly makes the selector a syntax error: without
      backslashes, comments or `]`, a `"` closes the quoted value early and
      the selector's final `"` opens a second string inside the brackets; and
      with no `"` at all, a newline breaks the quoted value. */
  predicate Breaks(id: string) {
    && '\\' !in id && '/' !in id
    && (('"' in id && ']' !in id) || ('"' !in id && exists c :: c in id && IsNewline(c)))
  }

  /** Whether `content.querySelector(...)` rejects the selector built from an
      id with a SyntaxError. Ids in neither class above are left to the
      parameter. */
  type SelectorCheck = f: string -> bool | forall id :: (SafeId(id) ==> !f(id)) && (Breaks(id) ==> f(id))
    witness (id: string) => Breaks(id)

  /** `content.querySelector(`.sidenote-anchor[data-sn="${sn}"]`)`: the first anchor with that number. */
  function FindAnchor(anchors: seq<Anchor>, sn: string): (r: Option<nat>)
    ensures r.Some? ==> r.value < |anchors| && anchors[r.value].sn == sn
                        && forall k :: 0 <= k < r.value ==> anchors[k].sn != sn
    ensures r.None? ==> forall k :: 0 <= k < |anchors| ==> anchors[k].sn != sn
  {
    if anchors == [] then None
    else if anchors[0].sn == sn then Some(0)
    else
      var r := FindAnchor(anchors[1..], sn);
      if r.None? then None else Some(r.value + 1)
  }

  /** The body of `notes.forEach((note, i) => …)` for note `i`. */
  function Decorate(anchors: seq<Anchor>, note: Note, i: nat): (r: (seq<Anchor>, Note))
    ensures var sn := if note.sn == "" then NatToString(i + 1) else note.sn;
            && r.1.sn == sn && r.1.id == "sn-" + sn
            && FindAnchor(r.0, sn).Some?
            && r.0[FindAnchor(r.0, sn).value].ariaLabel == "Note " + NatToString(i + 1)
            && r.0[FindAnchor(r.0, sn).value].describedBy == "sn-" + sn
            && r.0[FindAnchor(r.0, sn).value].role == "doc-noteref"
    // a marker or number label already present is kept
    ensures r.1.numberLabel == if note.numberLabel.Some? then note.numberLabel else Some(NatToString(i + 1))
    ensures |anchors| <= |r.0| <= |anchors| + 1
    ensures forall k :: 0 <= k < |anchors| ==>
              r.0[k].sn == anchors[k].sn && r.0[k].insertedBefore == anchors[k].insertedBefore
              && (anchors[k].marker.Some? ==> r.0[k].marker == anchors[k].marker)
    // an anchor is created only when none has the number, right before the note
    ensures |r.0| == |anchors| + 1 <==> FindAnchor(anchors, r.1.sn).None?
    ensures |r.0| == |anchors| + 1 ==>
              r.0[|anchors|].sn == r.1.sn && r.0[|anchors|].insertedBefore == Some(i)
              && r.0[|anchors|].marker == Some(NatToString(i + 1))
    // a found anchor stays the one found
    ensures FindAnchor(anchors, NoteSn(note, i)).Some? ==> FindAnchor(r.0, NoteSn(note, i)) == FindAnchor(anchors, NoteSn(note, i))
    // every other anchor is left exactly as it was
    ensures forall k :: 0 <= k < |anchors| && FindAnchor(anchors, NoteSn(note, i)) != Some(k) ==> r.0[k] == anchors[k]
    // the note's anchor keeps a marker it has, and otherwise gets the note's number
    ensures var k := FindAnchor(r.0, NoteSn(note, i)).value;
            r.0[k].marker == (if k < |anchors| && anchors[k].marker.Some? then anchors[k].marker else Some(NatToString(i + 1)))
  {
    var r := DecorateStep(anchors, note, i);
    DecorateStepShape(anchors, note, i);
    var found := FindAnchor(anchors, NoteSn(note, i));
    FindAnchorFirst(r.0, NoteSn(note, i), if found.Some? then found.value else |anchors|);
    r
  }

  /** Where `DecorateStep` writes: the found or appended anchor `k`, and the note. */
  lemma DecorateStepShape(anchors: seq<Anchor>, note: Note, i: nat)
    ensures var sn := NoteSn(note, i);
            var found := FindAnchor(anchors, sn);
            var k := if found.Some? then found.value else |anchors|;
            var r := DecorateStep(anchors, note, i);
            && |r.0| == (if found.Some? then |anchors| else |anchors| + 1)
            && (forall j :: 0 <= j < |anchors| && j != k ==> r.0[j] == anchors[j])
            && (forall j :: 0 <= j < k ==> r.0[j].sn != sn)
            && r.0[k].sn == sn && r.0[k].role == "doc-noteref" && r.0[k].ariaLabel == "Note " + NatToString(i + 1)
            && r.0[k].describedBy == "sn-" + sn
            && r.0[k].marker == (if k < |anchors| && anchors[k].marker.Some? then anchors[k].marker else Some(NatToString(i + 1)))
            && r.0[k].insertedBefore == (if k < |anchors| then anchors[k].insertedBefore else Some(i))
            && r.1.sn == sn && r.1.id == "sn-" + sn
            && r.1.numberLabel == (if note.numberLabel.Some? then note.numberLabel else Some(NatToString(i + 1)))
  {
  }

  /** The steps of the `forEach` body, in source order; `Decorate` states
      what they achieve. */
  function DecorateStep(anchors: seq<Anchor>, note: Note, i: nat): (seq<Anchor>, Note) {
    var num := NatToString(i + 1);
    var sn := if note.sn == "" then num else note.sn;
    var found := FindAnchor(anchors, sn);
    var all := if found.Some? then anchors else anchors + [Anchor(sn, None, "", "", "", Some(i))];
    var k := if found.Some? then found.value else |anchors|;
    var a := all[k];
    var a' := a.(role := "doc-noteref", ariaLabel := "Note " + num, describedBy := "sn-" + sn,
                 marker := if a.marker.Some? then a.marker else Some(num));
    var note' := note.(sn := sn, id := "sn-" + sn,
                       numberLabel := if note.numberLabel.Some? then note.numberLabel else Some(num));
    (all[k := a'], note')
  }

  /** After the numbering pass, every note has an anchor with its number. */
  ghost predicate Linked(anchors: seq<Anchor>, notes: seq<Note>) {
    forall j :: 0 <= j < |notes| ==> FindAnchor(anchors, notes[j].sn).Some?
  }

  /** Anchors never disappear or change number during the pass, so notes
      linked earlier stay linked. */
  lemma DecorateKeepsLinks(anchors: seq<Anchor>, done: seq<Note>, note: Note, i: nat)
    requires Linked(anchors, done)
    ensures Linked(DecorateStep(anchors, note, i).0, done + [DecorateStep(anchors, note, i).1])
  {
    var r := Decorate(anchors, note, i);
    forall j | 0 <= j < |done| ensures FindAnchor(r.0, done[j].sn).Some? {
      var f := FindAnchor(anchors, done[j].sn).value;
      assert r.0[f].sn == done[j].sn;
      FindAnchorAt(r.0, done[j].sn, f);
    }
  }

  lemma {:induction false} FindAnchorFirst(anchors: seq<Anchor>, sn: string, k: nat)
    requires k < |anchors| && anchors[k].sn == sn
    requires forall j :: 0 <= j < k ==> anchors[j].sn != sn
    ensures FindAnchor(anchors, sn) == Some(k)
  {
    if k > 0 {
      FindAnchorFirst(anchors[1..], sn, k - 1);
    }
  }

  lemma FindAnchorAt(anchors: seq<Anchor>, sn: string, k: nat)
    requires k < |anchors| && anchors[k].sn == sn
    ensures FindAnchor(anchors, sn).Some?
  {
  }

  /** The numbering pass over `notes` when no selector is rejected: the
      body of the `forEach` applied to each note in turn, with the anchors
      threaded through. */
  function DecorateAll(anchors: seq<Anchor>, notes: seq<Note>): (r: (seq<Anchor>, seq<Note>))
    ensures |r.1| == |notes|
    decreases |notes|
  {
    if notes == [] then (anchors, [])
    else
      var prev := DecorateAll(anchors, notes[..|notes| - 1]);
      var d := DecorateStep(prev.0, notes[|notes| - 1], |notes| - 1);
      (d.0, prev.1 + [d.1])
  }

  /** An anchor found for a number stays the one found when anchors are only
      appended and no number changes. */
  lemma FindAnchorStable(a: seq<Anchor>, b: seq<Anchor>, sn: string)
    requires FindAnchor(a, sn).Some? && |a| <= |b|
    requires forall k :: 0 <= k < |a| ==> b[k].sn == a[k].sn
    ensures FindAnchor(b, sn) == FindAnchor(a, sn)
  {
    FindAnchorFirst(b, sn, FindAnchor(a, sn).value);
  }

  /** After the pass, note `j` carries its number, the id `sn-` + number, and
      its own label or the number label `j + 1`. */
  lemma {:induction false} DecorateAllNotes(anchors: seq<Anchor>, notes: seq<Note>, j: nat)
    requires j < |notes|
    ensures var n := DecorateAll(anchors, notes).1[j];
            && n.sn == NoteSn(notes[j], j) && n.id == "sn-" + NoteSn(notes[j], j)
            && n.numberLabel == (if notes[j].numberLabel.Some? then notes[j].numberLabel else Some(NatToString(j + 1)))
    decreases |notes|
  {
    if j < |notes| - 1 {
      DecorateAllNotes(anchors, notes[..|notes| - 1], j);
      assert notes[..|notes| - 1][j] == notes[j];
    }
  }

  /** The anchors the pass began with keep their position, number and
      origin; every anchor it created sits right before a note with its number. */
  ghost predicate AnchorsKept(anchors: seq<Anchor>, notes: seq<Note>, out: seq<Anchor>) {
    && |anchors| <= |out|
    && (forall k :: 0 <= k < |anchors| ==> out[k].sn == anchors[k].sn && out[k].insertedBefore == anchors[k].insertedBefore)
    && (forall k :: |anchors| <= k < |out| ==>
          out[k].insertedBefore.Some? && out[k].insertedBefore.value < |notes|
          && NoteSn(notes[out[k].insertedBefore.value], out[k].insertedBefore.value) == out[k].sn)
    // an anchor no note refers to is left exactly as it was
    && (forall k :: 0 <= k < |anchors| && (forall j :: 0 <= j < |notes| ==> NoteSn(notes[j], j) != anchors[k].sn) ==>
          out[k] == anchors[k])
  }

  lemma {:induction false} DecorateAllKeeps(anchors: seq<Anchor>, notes: seq<Note>)
    ensures AnchorsKept(anchors, notes, DecorateAll(anchors, notes).0)
    decreases |notes|
  {
    if notes != [] {
      var m := |notes| - 1;
      var pre := notes[..m];
      DecorateAllKeeps(anchors, pre);
      var prev := DecorateAll(anchors, pre);
      var d := Decorate(prev.0, notes[m], m);
      var out := d.0;
      forall k | |anchors| <= k < |out|
        ensures out[k].insertedBefore.Some? && out[k].insertedBefore.value < |notes|
                && NoteSn(notes[out[k].insertedBefore.value], out[k].insertedBefore.value) == out[k].sn
      {
        if k < |prev.0| {
          var b := prev.0[k].insertedBefore.value;
          assert pre[b] == notes[b];
        }
      }
      forall k | 0 <= k < |anchors| && (forall j :: 0 <= j < |notes| ==> NoteSn(notes[j], j) != anchors[k].sn)
        ensures out[k] == anchors[k]
      {
        forall j | 0 <= j < |pre| ensures NoteSn(pre[j], j) != anchors[k].sn {
          assert pre[j] == notes[j];
        }
        assert NoteSn(notes[m], m) != prev.0[k].sn;
      }
    }
  }

  /** After the pass, every note's anchor exists and carries the noteref role,
      `aria-describedby` naming the note, and a marker. */
  ghost predicate AnchorsDecorated(notes: seq<Note>, out: seq<Anchor>) {
    forall j :: 0 <= j < |notes| ==> AnchorDecorated(out, NoteSn(notes[j], j))
  }

  /** The anchor of one number is decorated. */
  ghost predicate AnchorDecorated(out: seq<Anchor>, sn: string) {
    var f := FindAnchor(out, sn);
    && f.Some?
    && out[f.value].role == "doc-noteref"
    && out[f.value].describedBy == "sn-" + sn
    && out[f.value].marker.Some?
  }

  /** Decorating a further note keeps every decorated anchor decorated. */
  lemma DecorateKeepsDecorated(a: seq<Anchor>, note: Note, i: nat, sn: string)
    requires AnchorDecorated(a, sn)
    ensures AnchorDecorated(DecorateStep(a, note, i).0, sn)
  {
    var b := Decorate(a, note, i).0;
    FindAnchorStable(a, b, sn);
    var k := FindAnchor(a, sn).value;
    if FindAnchor(a, NoteSn(note, i)) == Some(k) {
      assert NoteSn(note, i) == sn;
    }
  }

  lemma {:induction false} DecorateAllAnchors(anchors: seq<Anchor>, notes: seq<Note>)
    ensures AnchorsDecorated(notes, DecorateAll(anchors, notes).0)
    decreases |notes|
  {
    if notes != [] {
      DecorateAllAnchors(anchors, notes[..|notes| - 1]);
      AnchorsStep(DecorateAll(anchors, notes[..|notes| - 1]).0, notes, DecorateAll(anchors, notes).0);
    }
  }

  /** One more decorated note keeps the earlier notes' anchors decorated. */
  lemma AnchorsStep(a: seq<Anchor>, notes: seq<Note>, out: seq<Anchor>)
    requires notes != [] && AnchorsDecorated(notes[..|notes| - 1], a)
    requires out == DecorateStep(a, notes[|notes| - 1], |notes| - 1).0
    ensures AnchorsDecorated(notes, out)
  {
    var m := |notes| - 1;
    DecoratesOwn(a, notes[m], m);
    forall j | 0 <= j < |notes| ensures AnchorDecorated(out, NoteSn(notes[j], j)) {
      if j < m {
        assert notes[..m][j] == notes[j];
        DecorateKeepsDecorated(a, notes[m], m, NoteSn(notes[j], j));
      }
    }
  }

  /** The note's own anchor is decorated and labelled with the note's place. */
  lemma DecoratesOwn(a: seq<Anchor>, note: Note, i: nat)
    ensures var b := DecorateStep(a, note, i).0;
            && AnchorDecorated(b, NoteSn(note, i))
            && b[FindAnchor(b, NoteSn(note, i)).value].ariaLabel == "Note " + NatToString(i + 1)
  {
    var r := Decorate(a, note, i);
  }

  /** Decorating a note with another number leaves an anchor's label alone. */
  lemma DecorateKeepsLabel(a: seq<Anchor>, note: Note, i: nat, sn: string, text: string)
    requires FindAnchor(a, sn).Some? && a[FindAnchor(a, sn).value].ariaLabel == text
    requires NoteSn(note, i) != sn
    ensures var b := DecorateStep(a, note, i).0;
            FindAnchor(b, sn).Some? && b[FindAnchor(b, sn).value].ariaLabel == text
  {
    FindAnchorStable(a, Decorate(a, note, i).0, sn);
  }

  /** A note whose number no later note shares is announced as `Note j+1`:
      a later note with the same number relabels the shared anchor. */
  lemma {:induction false} DecorateAllLabel(anchors: seq<Anchor>, notes: seq<Note>, j: nat)
    requires j < |notes|
    requires forall i :: j < i < |notes| ==> NoteSn(notes[i], i) != NoteSn(notes[j], j)
    ensures var out := DecorateAll(anchors, notes).0;
            var f := FindAnchor(out, NoteSn(notes[j], j));
            f.Some? && out[f.value].ariaLabel == "Note " + NatToString(j + 1)
    decreases |notes|
  {
    var m := |notes| - 1;
    var pre := notes[..m];
    DecorateAllSnoc(anchors, notes, m);
    assert notes[..m + 1] == notes;
    var prev := DecorateAll(anchors, pre);
    if j == m {
      DecoratesOwn(prev.0, notes[m], m);
    } else {
      assert pre[j] == notes[j];
      DecorateAllLabel(anchors, pre, j);
      DecorateKeepsLabel(prev.0, notes[m], m, NoteSn(notes[j], j), "Note " + NatToString(j + 1));
    }
  }

  /** One more note extends the pass by one step. */
  lemma DecorateAllSnoc(anchors: seq<Anchor>, notes: seq<Note>, i: nat)
    requires i < |notes|
    ensures var prev := DecorateAll(anchors, notes[..i]);
            var d := DecorateStep(prev.0, notes[i], i);
            DecorateAll(anchors, notes[..i + 1]) == (d.0, prev.1 + [d.1])
  {
    assert notes[..i + 1][..i] == notes[..i];
  }

  /** The index of the first note, from `from` on, whose anchor selector is
      rejected, or the number of notes. */
  function FirstRejected(notes: seq<Note>, rejects: string -> bool, from: nat): (k: nat)
    requires from <= |notes|
    ensures from <= k <= |notes|
    ensures forall j :: from <= j < k ==> !rejects(NoteSn(notes[j], j))
    ensures k < |notes| ==> rejects(NoteSn(notes[k], k))
    decreases |notes| - from
  {
    if from == |notes| then from
    else if rejects(NoteSn(notes[from], from)) then from
    else FirstRejected(notes, rejects, from + 1)
  }

  /** `initSidenotes()` numbering pass over the note array; returns the anchors
      and whether the pass threw. `rejects` is the page's selector parser, a
      `SelectorCheck` (the lemmas after it say what that implies). Nothing happens without the content and
      sidebar or without notes. A rejected selector throws out of
      `initSidenotes` after that note got its `data-sn` and id, so later notes
      are untouched and no layout is set up. */
  method NumberNotes(present: bool, notes: array<Note>, anchors: seq<Anchor>, rejects: string -> bool)
    returns (out: seq<Anchor>, threw: bool)
    modifies notes
    ensures !present || notes.Length == 0 ==> out == anchors && notes[..] == old(notes[..]) && !threw
    ensures present ==> var t := FirstRejected(old(notes[..]), rejects, 0);
              && (threw <==> t < notes.Length)
              // the notes before `t` went through the whole decoration
              && (out, notes[..t]) == DecorateAll(anchors, old(notes[..])[..t])
              && Linked(out, notes[..t])
              && NumberedUpTo(notes[..], old(notes[..]), t)
  {
    out, threw := anchors, false;
    if !present || notes.Length == 0 {
      return;
    }
    out, threw := NumberPass(notes, anchors, rejects);
  }

  /** The notes up to and including `t` carry their number and id, the note
      at `t` (the one whose selector threw, if any) no label of its own
      making, and the notes after it are untouched. */
  ghost predicate NumberedUpTo(now: seq<Note>, orig: seq<Note>, t: nat)
    requires |now| == |orig|
  {
    && (forall i :: 0 <= i < |now| && i <= t ==>
          now[i].id == "sn-" + now[i].sn && now[i].sn == NoteSn(orig[i], i))
    && (t < |now| ==> now[t].numberLabel == orig[t].numberLabel)
    && (forall i :: t < i < |now| ==> now[i] == orig[i])
  }

  /** The pass has handled the notes before `i`: none was rejected, each
      carries its number and id, and the rest are untouched. */
  ghost predicate PassedUpTo(now: seq<Note>, orig: seq<Note>, i: nat, rejects: string -> bool)
    requires |now| == |orig| && i <= |now|
  {
    && (forall j :: 0 <= j < i ==>
          !rejects(NoteSn(orig[j], j)) && now[j].id == "sn-" + now[j].sn && now[j].sn == NoteSn(orig[j], j))
    && (forall j :: i <= j < |now| ==> now[j] == orig[j])
  }

  lemma PassStep(now: seq<Note>, orig: seq<Note>, i: nat, rejects: string -> bool, n: Note)
    requires |now| == |orig| && i < |now| && PassedUpTo(now, orig, i, rejects)
    requires !rejects(NoteSn(orig[i], i)) && n.sn == NoteSn(orig[i], i) && n.id == "sn-" + n.sn
    ensures PassedUpTo(now[i := n], orig, i + 1, rejects)
  {
  }

  lemma PassThrow(now: seq<Note>, orig: seq<Note>, i: nat, rejects: string -> bool)
    requires |now| == |orig| && i < |now| && PassedUpTo(now, orig, i, rejects)
    requires rejects(NoteSn(orig[i], i))
    ensures var sn := NoteSn(now[i], i);
            var now' := now[i := now[i].(sn := sn, id := "sn-" + sn)];
            && FirstRejected(orig, rejects, 0) == i
            && now'[..i] == now[..i]
            && NumberedUpTo(now', orig, i)
  {
    FirstRejectedAt(orig, rejects, i);
    var sn := NoteSn(now[i], i);
    var now' := now[i := now[i].(sn := sn, id := "sn-" + sn)];
    assert now'[..i] == now[..i];
  }

  lemma PassDone(now: seq<Note>, orig: seq<Note>, rejects: string -> bool)
    requires |now| == |orig| && PassedUpTo(now, orig, |now|, rejects)
    ensures FirstRejected(orig, rejects, 0) == |now|
    ensures NumberedUpTo(now, orig, |now|)
    ensures now[..|now|] == now
  {
    FirstRejectedAt(orig, rejects, |now|);
  }

  /** One note decorated: the loop's invariants carry over to the next note. */
  lemma PassAdvance(anchors: seq<Anchor>, out: seq<Anchor>, now: seq<Note>, orig: seq<Note>, i: nat,
                    rejects: string -> bool)
    requires |now| == |orig| && i < |now|
    requires Linked(out, now[..i]) && PassedUpTo(now, orig, i, rejects)
    requires (out, now[..i]) == DecorateAll(anchors, orig[..i])
    requires !rejects(NoteSn(orig[i], i))
    ensures var d := DecorateStep(out, now[i], i);
            var now' := now[i := d.1];
            && Linked(d.0, now'[..i + 1])
            && PassedUpTo(now', orig, i + 1, rejects)
            && (d.0, now'[..i + 1]) == DecorateAll(anchors, orig[..i + 1])
  {
    var d := DecorateStep(out, now[i], i);
    var now' := now[i := d.1];
    assert now[i] == orig[i];
    DecorateAllSnoc(anchors, orig, i);
    DecorateKeepsLinks(out, now[..i], now[i], i);
    PassStep(now, orig, i, rejects, d.1);
    assert now'[..i + 1] == now[..i] + [d.1];
  }

  /** The loop of the numbering pass, over every note in order until a
      selector is rejected. */
  method NumberPass(notes: array<Note>, anchors: seq<Anchor>, rejects: string -> bool)
    returns (out: seq<Anchor>, threw: bool)
    modifies notes
    ensures var t := FirstRejected(old(notes[..]), rejects, 0);
              && (threw <==> t < notes.Length)
              && (out, notes[..t]) == DecorateAll(anchors, old(notes[..])[..t])
              && Linked(out, notes[..t])
              && NumberedUpTo(notes[..], old(notes[..]), t)
  {
    out, threw := anchors, false;
    ghost var orig := notes[..];
    for i := 0 to notes.Length
      invariant Linked(out, notes[..i])
      invariant PassedUpTo(notes[..], orig, i, rejects)
      invariant (out, notes[..i]) == DecorateAll(anchors, orig[..i])
    {
      ghost var now := notes[..];
      var sn := NoteSn(notes[i], i);
      if rejects(sn) {
        PassThrow(now, orig, i, rejects);
        notes[i] := notes[i].(sn := sn, id := "sn-" + sn);
        assert notes[..] == now[i := now[i].(sn := sn, id := "sn-" + sn)];
        assert notes[..i] == now[..i];
        threw := true;
        return;
      }
      var (a, n) := DecorateStep(out, notes[i], i);
      PassAdvance(anchors, out, now, orig, i, rejects);
      out := a;
      notes[i] := n;
      assert notes[..] == now[i := n];
    }
    PassDone(notes[..], orig, rejects);
    assert orig[..notes.Length] == orig;
  }

  /** With a browser's selector parser, notes whose numbers are all safe ids
      never throw: every note is numbered and linked. */
  lemma SafeNumbersNeverThrow(notes: seq<Note>, rejects: SelectorCheck)
    requires forall j :: 0 <= j < |notes| ==> SafeId(NoteSn(notes[j], j))
    ensures FirstRejected(notes, rejects, 0) == |notes|
  {
  }

  /** A note numbered `a"b` (a quote, and no `]`, `/` or backslash) throws
      as soon as the pass reaches it. */
  lemma QuotedNumberThrows(notes: seq<Note>, rejects: SelectorCheck, t: nat)
    requires t < |notes| && Breaks(NoteSn(notes[t], t))
    requires forall j :: 0 <= j < t ==> SafeId(NoteSn(notes[j], j))
    ensures FirstRejected(notes, rejects, 0) == t
  {
    FirstRejectedAt(notes, rejects, t);
  }

  /** The first rejected note is the one every earlier note passes and that
      is itself rejected (or the end). */
  lemma FirstRejectedAt(notes: seq<Note>, rejects: string -> bool, i: nat)
    requires i <= |notes|
    requires forall j :: 0 <= j < i ==> !rejects(NoteSn(notes[j], j))
    requires i < |notes| ==> rejects(NoteSn(notes[i], i))
    ensures FirstRejected(notes, rejects, 0) == i
  {
  }

  /** Running the decoration a second time adds no anchor, marker or label:
      once numbered, a note finds its anchor and keeps its label. */
  lemma DecorateTwice(anchors: seq<Anchor>, note: Note, i: nat)
    ensures var (a1, n1) := Decorate(anchors, note, i);
            var (a2, n2) := Decorate(a1, n1, i);
            a2 == a1 && n2 == n1
  {
  }

  // ── Layout ─────────────────────────────────────────────────────────────────

  /** Where a note sits and its inline style (`top` in pixels when set). */
  datatype Placement = Placement(inSidebar: bool, absolute: bool, top: Option<real>)

  /** The notes' placements and the sidebar's inline `min-height` (None when unset). */
  datatype Column = Column(notes: seq<Placement>, minHeight: Option<real>)

  /** The mobile branch: a note in the sidebar goes back after its anchor when
      that anchor exists (`anc?.parentNode?.insertBefore`); every note's inline
      style and the sidebar's `min-height` are cleared. The selectors here use
      numbers the numbering pass already accepted, so they do not throw. */
  function MobileLayout(c: Column, hasAnchor: seq<bool>): (r: Column)
    requires |hasAnchor| == |c.notes|
    ensures |r.notes| == |c.notes| && r.minHeight.None?
    ensures forall k :: 0 <= k < |c.notes| ==> !r.notes[k].absolute && r.notes[k].top.None?
    // an anchored note ends up inline; one without an anchor stays where it was
    ensures forall k :: 0 <= k < |c.notes| ==>
              (hasAnchor[k] ==> !r.notes[k].inSidebar) && (!hasAnchor[k] ==> r.notes[k].inSidebar == c.notes[k].inSidebar)
  {
    Column(seq(|c.notes|, k requires 0 <= k < |c.notes| =>
                 Placement(c.notes[k].inSidebar && !hasAnchor[k], false, None)),
           None)
  }

  /** The desktop branch before measuring: every note in the sidebar,
      absolutely positioned; the sidebar's height is left to the frame. */
  function DesktopMove(c: Column): (r: Column)
    ensures |r.notes| == |c.notes| && r.minHeight == c.minHeight
    ensures forall k :: 0 <= k < |c.notes| ==> r.notes[k].inSidebar && r.notes[k].absolute && r.notes[k].top == c.notes[k].top
  {
    Column(seq(|c.notes|, k requires 0 <= k < |c.notes| => c.notes[k].(inSidebar := true, absolute := true)), c.minHeight)
  }

  /** The animation frame's writes: each placed note's `top`, and the
      sidebar's `min-height` from the final bottom. */
  function Place(c: Column, s: Stacked): (r: Column)
    requires |s.tops| == |c.notes|
    ensures |r.notes| == |c.notes| && r.minHeight == Some(s.bottom + 16.0)
    ensures forall k :: 0 <= k < |c.notes| ==>
              r.notes[k].inSidebar == c.notes[k].inSidebar && r.notes[k].absolute == c.notes[k].absolute
              && r.notes[k].top == (if s.tops[k].Some? then s.tops[k] else c.notes[k].top)
  {
    Column(seq(|c.notes|, k requires 0 <= k < |c.notes| =>
                 if s.tops[k].Some? then c.notes[k].(top := s.tops[k]) else c.notes[k]),
           Some(s.bottom + 16.0))
  }

  /** Returning to mobile after a desktop layout undoes it: each anchored
      note is back inline, no note keeps a position, the sidebar has no
      minimum height, and only notes without an anchor stay in the sidebar. */
  lemma MobileAfterDesktop(c: Column, ideals: seq<Option<real>>, heights: seq<real>, hasAnchor: seq<bool>)
    requires |ideals| == |heights| == |hasAnchor| == |c.notes|
    requires forall k :: 0 <= k < |c.notes| ==> (hasAnchor[k] <==> ideals[k].Some?)
    ensures var r := MobileLayout(Place(DesktopMove(c), Stack(ideals, heights, 0.0)), hasAnchor);
            && r.minHeight.None?
            && forall k :: 0 <= k < |c.notes| ==>
                 r.notes[k] == Placement(!hasAnchor[k], false, None)
  {
  }

  /** The mobile layout is stable: running it again changes nothing. */
  lemma MobileLayoutTwice(c: Column, hasAnchor: seq<bool>)
    requires |hasAnchor| == |c.notes|
    ensures MobileLayout(MobileLayout(c, hasAnchor), hasAnchor) == MobileLayout(c, hasAnchor)
  {
  }

  /** `Math.max(prevBottom + 8, ideal)` */
  function Max(a: real, b: real): real {
    if a >= b then a else b
  }

  /** The tops set and the final `prevBottom`. */
  datatype Stacked = Stacked(tops: seq<Option<real>>, bottom: real)

  /** The tops the stacking loop sets, given each note's ideal top (None when
      its anchor is missing: the note is skipped) and height, from `prevBottom`. */
  function Stack(ideals: seq<Option<real>>, heights: seq<real>, prevBottom: real): (r: Stacked)
    requires |ideals| == |heights|
    ensures |r.tops| == |ideals|
    decreases |ideals|
  {
    if ideals == [] then Stacked([], prevBottom)
    else if ideals[0].None? then
      var rest := Stack(ideals[1..], heights[1..], prevBottom);
      Stacked([None] + rest.tops, rest.bottom)
    else
      var top := Max(prevBottom + 8.0, ideals[0].value);
      var rest := Stack(ideals[1..], heights[1..], top + heights[0]);
      Stacked([Some(top)] + rest.tops, rest.bottom)
  }

  /** Exactly the notes with an anchor are placed, each no higher than its ideal top. */
  lemma {:induction false} StackPlaced(ideals: seq<Option<real>>, heights: seq<real>, prevBottom: real)
    requires |ideals| == |heights|
    ensures var tops := Stack(ideals, heights, prevBottom).tops;
            forall k :: 0 <= k < |ideals| ==>
              (tops[k].Some? <==> ideals[k].Some?) && (ideals[k].Some? ==> tops[k].value >= ideals[k].value)
    decreases |ideals|
  {
    if ideals != [] {
      if ideals[0].None? {
        StackPlaced(ideals[1..], heights[1..], prevBottom);
      } else {
        var top := Max(prevBottom + 8.0, ideals[0].value);
        StackPlaced(ideals[1..], heights[1..], top + heights[0]);
      }
    }
  }

  /** Every placed note starts at least 8px below the starting `prevBottom`. */
  lemma {:induction false} StackAbove(ideals: seq<Option<real>>, heights: seq<real>, prevBottom: real, k: nat)
    requires |ideals| == |heights| && k < |ideals|
    requires forall k :: 0 <= k < |heights| ==> heights[k] >= 0.0
    requires Stack(ideals, heights, prevBottom).tops[k].Some?
    ensures Stack(ideals, heights, prevBottom).tops[k].value >= prevBottom + 8.0
    decreases k
  {
    if k > 0 {
      if ideals[0].None? {
        StackAbove(ideals[1..], heights[1..], prevBottom, k - 1);
      } else {
        var top := Max(prevBottom + 8.0, ideals[0].value);
        StackAbove(ideals[1..], heights[1..], top + heights[0], k - 1);
      }
    }
  }

  /** Placed notes do not overlap: each starts at least 8px below the bottom
      of every earlier placed note (heights are non-negative). */
  lemma {:induction false} StackNoOverlap(ideals: seq<Option<real>>, heights: seq<real>, prevBottom: real, i: nat, j: nat)
    requires |ideals| == |heights| && i < j < |ideals|
    requires forall k :: 0 <= k < |heights| ==> heights[k] >= 0.0
    requires Stack(ideals, heights, prevBottom).tops[i].Some? && Stack(ideals, heights, prevBottom).tops[j].Some?
    ensures var tops := Stack(ideals, heights, prevBottom).tops;
            tops[j].value >= tops[i].value + heights[i] + 8.0
    decreases i
  {
    var tops := Stack(ideals, heights, prevBottom).tops;
    if i == 0 {
      var top := Max(prevBottom + 8.0, ideals[0].value);
      var rest := Stack(ideals[1..], heights[1..], top + heights[0]);
      StackAbove(ideals[1..], heights[1..], top + heights[0], j - 1);
    } else if ideals[0].None? {
      StackNoOverlap(ideals[1..], heights[1..], prevBottom, i - 1, j - 1);
    } else {
      var top := Max(prevBottom + 8.0, ideals[0].value);
      StackNoOverlap(ideals[1..], heights[1..], top + heights[0], i - 1, j - 1);
    }
  }

  /** The final `prevBottom` is at least the bottom of every placed note and
      at least the start value. */
  lemma {:induction false} StackBottom(ideals: seq<Option<real>>, heights: seq<real>, prevBottom: real)
    requires |ideals| == |heights|
    requires forall k :: 0 <= k < |heights| ==> heights[k] >= 0.0
    ensures var r := Stack(ideals, heights, prevBottom);
            r.bottom >= prevBottom
            && forall k :: 0 <= k < |ideals| && r.tops[k].Some? ==> r.bottom >= r.tops[k].value + heights[k]
    decreases |ideals|
  {
    if ideals != [] {
      if ideals[0].None? {
        StackBottom(ideals[1..], heights[1..], prevBottom);
      } else {
        var top := Max(prevBottom + 8.0, ideals[0].value);
        StackBottom(ideals[1..], heights[1..], top + heights[0]);
      }
    }
  }

  /** One step of `Stack`, seen from a loop that has already produced `pre`. */
  lemma StackCons(pre: seq<Option<real>>, ideals: seq<Option<real>>, heights: seq<real>, prevBottom: real)
    requires |ideals| == |heights| && ideals != []
    ensures var top := if ideals[0].None? then None else Some(Max(prevBottom + 8.0, ideals[0].value));
            var bottom := if ideals[0].None? then prevBottom else top.value + heights[0];
            var rest := Stack(ideals[1..], heights[1..], bottom);
            pre + Stack(ideals, heights, prevBottom).tops == (pre + [top]) + rest.tops
            && Stack(ideals, heights, prevBottom).bottom == rest.bottom
  {
  }

  /** The `requestAnimationFrame` callback: set each placed note's top and the
      sidebar's `minHeight` (the final `prevBottom` + 16). */
  method PositionNotes(ideals: seq<Option<real>>, heights: seq<real>) returns (tops: seq<Option<real>>, minHeight: real)
    requires |ideals| == |heights|
    ensures Stacked(tops, minHeight - 16.0) == Stack(ideals, heights, 0.0)
  {
    var prevBottom := 0.0;
    tops := [];
    var i := 0;
    assert ideals[0..] == ideals && heights[0..] == heights;
    ghost var total := Stack(ideals, heights, 0.0);
    while i < |ideals|
      invariant 0 <= i <= |ideals|
      invariant total.tops == tops + Stack(ideals[i..], heights[i..], prevBottom).tops
      invariant total.bottom == Stack(ideals[i..], heights[i..], prevBottom).bottom
    {
      assert ideals[i..][1..] == ideals[i + 1..];
      assert heights[i..][1..] == heights[i + 1..];
      assert heights[i..][0] == heights[i];
      StackCons(tops, ideals[i..], heights[i..], prevBottom);
      if ideals[i].None? {
        tops := tops + [None];
      } else {
        var top := Max(prevBottom + 8.0, ideals[i].value);
        tops := tops + [Some(top)];
        prevBottom := top + heights[i];
      }
      i := i + 1;
    }
    assert ideals[i..] == [] && heights[i..] == [];
    assert tops + [] == tops;
    minHeight := prevBottom + 16.0;
  }
}
