/** The "Copy" button decoration that assets/js/core.js (regular posts) and
    assets/js/essay/core.js (essays) both run over `pre > code` blocks. */
module CopyButtons {

  /** What the decoration should leave: a `pre` that is the parent of some
      matched `code` block and has no `.copy-btn` gets exactly one; every
      other `pre` keeps what it had. `buttons[p]` counts the `.copy-btn`
      elements inside `pre` number `p`; `codeParents` lists the parent `pre`
      of each matched `code` block in document order. */
  function Decorated(buttons: seq<nat>, codeParents: seq<nat>): (r: seq<nat>)
    ensures |r| == |buttons|
  {
    seq(|buttons|, p requires 0 <= p < |buttons| =>
      if buttons[p] == 0 && p in codeParents then 1 else buttons[p])
  }

  /** The `forEach` over the matched `code` blocks: skip a `pre` that already
      holds a `.copy-btn`, otherwise append one. */
  method AddCopyButtons(buttons: array<nat>, codeParents: seq<nat>)
    requires forall k :: 0 <= k < |codeParents| ==> codeParents[k] < buttons.Length
    modifies buttons
    ensures buttons[..] == Decorated(old(buttons[..]), codeParents)
  {
    ghost var before := buttons[..];
    for k := 0 to |codeParents|
      invariant buttons[..] == Decorated(before, codeParents[..k])
    {
      var pre := codeParents[k];
      assert codeParents[..k + 1] == codeParents[..k] + [pre];
      if buttons[pre] == 0 {
        buttons[pre] := 1;
      }
      assert buttons[..] == Decorated(before, codeParents[..k + 1]) by {
        forall p | 0 <= p < buttons.Length
          ensures buttons[p] == Decorated(before, codeParents[..k + 1])[p]
        {
          assert (p in codeParents[..k + 1]) == (p in codeParents[..k] || p == pre);
        }
      }
    }
    assert codeParents[..|codeParents|] == codeParents;
  }

  /** Buttons are never duplicated: a `pre` ends with at most one more than
      nothing, and running the decoration again changes nothing. */
  lemma NeverDuplicated(buttons: seq<nat>, codeParents: seq<nat>)
    ensures forall p :: 0 <= p < |buttons| ==>
              Decorated(buttons, codeParents)[p] == (if buttons[p] == 0 && p in codeParents then 1 else buttons[p])
    ensures Decorated(Decorated(buttons, codeParents), codeParents) == Decorated(buttons, codeParents)
    ensures forall k :: 0 <= k < |codeParents| && codeParents[k] < |buttons| ==>
              Decorated(buttons, codeParents)[codeParents[k]] >= 1
  {
  }
}
