/**
 * Full-screen presentation of client/src/components/PresentationMode.tsx:
 * the presentation comes from the editor target, a slide index moves with
 * the keyboard and with clicks, clamped to the slides, and a flag shows the
 * speaker notes.
 */
module PresentationMode {
  import opened Common
  import opened Types

  /** The presentation the editor target shows: a resource's content, if it has one. */
  function PresentationOf(t: EditorTarget): (r: Option<PresentationData>)
    ensures r.Some? <==> t.ResourceTarget? && t.resource.contentJson.Some?
    ensures r.Some? ==> r == t.resource.contentJson
  {
    if t.ResourceTarget? then t.resource.contentJson else None
  }

  /** `Math.min(i + 1, n - 1)`: the next slide, stopping at the last. */
  function Advance(i: int, n: int): (r: int)
    ensures r <= n - 1 && r <= i + 1
    ensures r == i + 1 || r == n - 1
  {
    if i + 1 < n - 1 then i + 1 else n - 1
  }

  /** `Math.max(i - 1, 0)`: the previous slide, stopping at the first. */
  function Back(i: int): (r: int)
    ensures r >= 0 && r >= i - 1
    ensures r == i - 1 || r == 0
  {
    if i - 1 > 0 then i - 1 else 0
  }

  /** `k` presses of a forward key. */
  function AdvanceTimes(i: int, n: int, k: nat): int
    decreases k
  {
    if k == 0 then i else AdvanceTimes(Advance(i, n), n, k - 1)
  }

  /** `k` presses of a backward key. */
  function BackTimes(i: int, k: nat): int
    decreases k
  {
    if k == 0 then i else BackTimes(Back(i), k - 1)
  }

  /** Forward presses walk through the slides and then stay on the last one. */
  lemma {:induction false} AdvanceTimesValue(i: int, n: int, k: nat)
    requires 0 <= i < n
    ensures AdvanceTimes(i, n, k) == if i + k < n - 1 then i + k else n - 1
    decreases k
  {
    if k > 0 {
      AdvanceTimesValue(Advance(i, n), n, k - 1);
    }
  }

  /** Backward presses walk back and then stay on the first slide. */
  lemma {:induction false} BackTimesValue(i: int, k: nat)
    requires 0 <= i
    ensures BackTimes(i, k) == if i - k > 0 then i - k else 0
    decreases k
  {
    if k > 0 {
      BackTimesValue(Back(i), k - 1);
    }
  }

  class Presenter {
    /** The presentation shown, fixed while presenting. */
    var presentation: Option<PresentationData>
    var slideIndex: int
    var showNotes: bool
    /** The store's `presentationMode` flag; `Escape` clears it. */
    var presenting: bool

    /** The index points at a slide whenever there is one. */
    predicate Valid()
      reads this
    {
      presentation.Some? && |presentation.value.slides| > 0 ==> 0 <= slideIndex < |presentation.value.slides|
    }

    /**
     * Entering presentation mode for the current editor target; without a
     * presentation the first render leaves the mode again.
     */
    constructor(target: EditorTarget)
      ensures Valid()
      ensures presentation == PresentationOf(target) && slideIndex == 0 && !showNotes
      ensures presenting <==> presentation.Some?
    {
      presentation := PresentationOf(target);
      slideIndex := 0;
      showNotes := false;
      presenting := PresentationOf(target).Some?;
    }

    function SlideCount(): nat
      reads this
      requires presentation.Some?
    {
      |presentation.value.slides|
    }

    /** The slide on screen; none (nothing rendered) when the index is outside the slides. */
    function CurrentSlide(): (r: Option<Slide>)
      reads this
      ensures r.Some? <==> presentation.Some? && 0 <= slideIndex < |presentation.value.slides|
      ensures r.Some? ==> r.value == presentation.value.slides[slideIndex]
    {
      if presentation.Some? && 0 <= slideIndex < |presentation.value.slides| then
        Some(presentation.value.slides[slideIndex])
      else None
    }

    /**
     * `handleKeyDown`: nothing without a presentation; the right and down
     * arrows and space advance, the left and up arrows go back, `Escape`
     * leaves presentation mode and `n`/`N` toggle the notes.
     */
    method KeyDown(key: string)
      requires Valid()
      modifies this
      ensures Valid()
      ensures presentation == old(presentation)
      ensures old(presentation).None? ==> slideIndex == old(slideIndex) && showNotes == old(showNotes) && presenting == old(presenting)
      ensures old(presentation).Some? ==>
        slideIndex == (if key in {"ArrowRight", "ArrowDown", " "} then Advance(old(slideIndex), SlideCount())
          else if key in {"ArrowLeft", "ArrowUp"} then Back(old(slideIndex))
          else old(slideIndex)) &&
        showNotes == (if key in {"n", "N"} then !old(showNotes) else old(showNotes)) &&
        presenting == (if key == "Escape" then false else old(presenting))
    {
      if presentation.None? {
        return;
      }
      if key == "ArrowRight" || key == "ArrowDown" || key == " " {
        slideIndex := Advance(slideIndex, |presentation.value.slides|);
      } else if key == "ArrowLeft" || key == "ArrowUp" {
        slideIndex := Back(slideIndex);
      } else if key == "Escape" {
        presenting := false;
      } else if key == "n" || key == "N" {
        showNotes := !showNotes;
      }
    }

    /** A click anywhere but on a button advances; presenting needs a presentation, so there is one. */
    method Click(onButton: bool)
      requires Valid() && presentation.Some?
      modifies this
      ensures Valid()
      ensures presentation == old(presentation) && showNotes == old(showNotes) && presenting == old(presenting)
      ensures slideIndex == if onButton then old(slideIndex) else Advance(old(slideIndex), SlideCount())
    {
      if !onButton {
        slideIndex := Advance(slideIndex, |presentation.value.slides|);
      }
    }
  }
}
