/** The scrollytelling controller of assets/js/essay/narrative.js: id and
    ARIA decoration of `.story-section`s and their steps, the step enter/exit
    rule, and the `story:step` event detail. Scrollama itself (threshold
    crossing, resize) is outside the model: its callbacks are the methods. */
module Narrative {
  import opened Wrappers
  import opened Strings

  /** A `.story-step`: its id, `data-step`, `aria-label`, and whether it has
      `data-active` and `aria-hidden`. */
  datatype Step = Step(id: string, dataStep: Option<string>, ariaLabel: string, active: bool, hidden: bool)

  /** A `.story-section`: its id, whether it holds a `.story-graphic`, its steps,
      and whether a scroller was set up for it. */
  datatype Section = Section(id: string, hasGraphic: bool, steps: seq<Step>, scrolled: bool)

  /** `` `story-${sectionIdx}` `` */
  function SectionId(idx: nat): string {
    "story-" + NatToString(idx)
  }

  /** `` `${section.id}-step-${i}` `` */
  function StepId(sectionId: string, i: nat): string {
    sectionId + "-step-" + NatToString(i)
  }

  /** `` `Step ${i + 1} of ${stepEls.length}` `` */
  function StepLabel(i: nat, n: nat): string {
    "Step " + NatToString(i + 1) + " of " + NatToString(n)
  }

  /** Default step ids within one section never collide. */
  lemma StepIdsDistinct(sectionId: string, i: nat, j: nat)
    requires i != j
    ensures StepId(sectionId, i) != StepId(sectionId, j)
  {
    PrefixedNatInjective(sectionId + "-step-", i, j);
  }

  /** Default section ids never collide. */
  lemma SectionIdsDistinct(i: nat, j: nat)
    requires i != j
    ensures SectionId(i) != SectionId(j)
  {
    PrefixedNatInjective("story-", i, j);
  }

  /** The body of `sections.forEach((section, sectionIdx) => …)`. */
  function SetUpSection(s: Section, idx: nat): (r: Section)
    // sections lacking a graphic or steps are skipped untouched
    ensures !s.hasGraphic || s.steps == [] ==> r == s
    ensures s.hasGraphic && s.steps != [] ==>
              && r.scrolled && r.hasGraphic
              && r.id == (if s.id == "" then SectionId(idx) else s.id)
              && |r.steps| == |s.steps|
              && forall i :: 0 <= i < |s.steps| ==>
                   && r.steps[i].id == (if s.steps[i].id == "" then StepId(r.id, i) else s.steps[i].id)
                   && r.steps[i].ariaLabel == StepLabel(i, |s.steps|)
                   && r.steps[i].dataStep == s.steps[i].dataStep
                   && r.steps[i].active == s.steps[i].active && r.steps[i].hidden == s.steps[i].hidden
  {
    if !s.hasGraphic || s.steps == [] then s
    else
      var sid := if s.id == "" then SectionId(idx) else s.id;
      var n := |s.steps|;
      var steps := seq(n, i requires 0 <= i < n =>
        s.steps[i].(id := if s.steps[i].id == "" then StepId(sid, i) else s.steps[i].id,
                    ariaLabel := StepLabel(i, n)));
      s.(id := sid, steps := steps, scrolled := true)
  }

  /** `initNarrative()`: nothing without `window.scrollama` or without sections. */
  function InitNarrative(hasScrollama: bool, secs: seq<Section>): (r: seq<Section>)
    ensures !hasScrollama || secs == [] ==> r == secs
    ensures |r| == |secs|
    ensures hasScrollama ==> forall k :: 0 <= k < |secs| ==> r[k] == SetUpSection(secs[k], k)
  {
    if !hasScrollama || secs == [] then secs
    else seq(|secs|, k requires 0 <= k < |secs| => SetUpSection(secs[k], k))
  }

  /** The steps of a section after `onStepEnter` for step `k`. */
  function Entered(steps: seq<Step>, k: nat): (r: seq<Step>)
    requires k < |steps|
    ensures |r| == |steps|
    // exactly one active step, and every other step hidden
    ensures forall j :: 0 <= j < |r| ==> (r[j].active <==> j == k) && (r[j].hidden <==> j != k)
    ensures forall j :: 0 <= j < |r| ==>
              r[j].(active := steps[j].active, hidden := steps[j].hidden) == steps[j]
  {
    seq(|steps|, j requires 0 <= j < |steps| => steps[j].(active := j == k, hidden := j != k))
  }

  /** `onStepExit` for step `k`: only that step changes. */
  function Exited(steps: seq<Step>, k: nat): (r: seq<Step>)
    requires k < |steps|
    ensures |r| == |steps| && !r[k].active && r[k].hidden
    ensures r[k].(active := steps[k].active, hidden := steps[k].hidden) == steps[k]
    ensures forall j :: 0 <= j < |r| && j != k ==> r[j] == steps[j]
  {
    steps[k := steps[k].(active := false, hidden := true)]
  }

  /** Entering step `k` and then exiting it leaves no step active. */
  lemma EnterThenExit(steps: seq<Step>, k: nat)
    requires k < |steps|
    ensures forall j :: 0 <= j < |steps| ==> !Exited(Entered(steps, k), k)[j].active
  {
  }

  datatype Direction = Up | Down

  /** `detail` of the `story:step` CustomEvent; the event always bubbles. */
  datatype StepEvent = StepEvent(bubbles: bool, index: nat, step: string, direction: Direction, element: nat)

  /** `element.dataset.step ?? String(index)` */
  function StepDetail(index: nat, dataStep: Option<string>, direction: Direction, el: nat): (ev: StepEvent)
    ensures ev.bubbles && ev.index == index && ev.direction == direction && ev.element == el
    ensures dataStep.Some? ==> ev.step == dataStep.value
    ensures dataStep.None? ==> ev.step == NatToString(index)
  {
    StepEvent(true, index, dataStep.GetOr(NatToString(index)), direction, el)
  }

  /** The scroller of one set-up section; `graphicEvents` are the events
      dispatched on its graphic. */
  class Scroller {
    var steps: array<Step>
    var graphicEvents: seq<StepEvent>

    constructor (s: seq<Step>)
      ensures steps[..] == s && graphicEvents == [] && fresh(steps)
    {
      steps := new Step[|s|](i requires 0 <= i < |s| => s[i]);
      graphicEvents := [];
    }

    /** `onStepEnter({ element, index, direction })` with `element` step `index`
        (the element is handle `index` of the section's steps). */
    method OnStepEnter(index: nat, direction: Direction)
      requires index < steps.Length
      modifies steps, this`graphicEvents
      ensures steps[..] == Entered(old(steps[..]), index)
      ensures graphicEvents == old(graphicEvents) + [StepDetail(index, old(steps[index].dataStep), direction, index)]
    {
      ghost var before := steps[..];
      for j := 0 to steps.Length
        invariant forall i :: 0 <= i < j ==> steps[i] == before[i].(active := false, hidden := true)
        invariant forall i :: j <= i < steps.Length ==> steps[i] == before[i]
        invariant graphicEvents == old(graphicEvents)
      {
        steps[j] := steps[j].(active := false, hidden := true);
      }
      steps[index] := steps[index].(active := true, hidden := false);
      assert steps[index].dataStep == before[index].dataStep;
      graphicEvents := graphicEvents + [StepDetail(index, steps[index].dataStep, direction, index)];
      assert forall i :: 0 <= i < steps.Length ==> steps[i] == Entered(before, index)[i];

    }

    method OnStepExit(index: nat)
      requires index < steps.Length
      modifies steps
      ensures steps[..] == Exited(old(steps[..]), index)
    {
      ghost var before := steps[..];
      steps[index] := steps[index].(active := false, hidden := true);
      assert steps[..] == before[index := before[index].(active := false, hidden := true)];
    }
  }
}
