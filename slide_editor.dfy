/**
 * The slide editor of client/src/components/SlideEditor.tsx: the
 * presentation being edited and the selected slide index, updated together
 * by the toolbar's slide operations. The editor shows nothing when the
 * selected slide does not exist, so the operations are only reachable while
 * it does (`Showing`).
 */
module SlideEditor {
  import opened Common
  import opened Types
  import opened SeqOps
  import opened SlideCanvas

  /** The updaters `updateSlide(selectedSlideIndex, updater)` receives: the canvas's, and the notes field's. */
  datatype SlideUpdate = Canvas(op: SlideOp) | Notes(text: string)

  predicate UpdateAllowed(s: Slide, u: SlideUpdate) {
    u.Canvas? ==> OpAllowed(s, u.op)
  }

  function ApplyUpdate(s: Slide, u: SlideUpdate): Slide
    requires UpdateAllowed(s, u)
  {
    match u
    case Canvas(op) => ApplySlideOp(s, op)
    case Notes(text) => s.(notes := text)
  }

  /** The slide `addSlide` creates under the id the browser draws. */
  function NewSlide(id: string): Slide {
    Slide(id, "New Slide", [Text("Click to edit")], "")
  }

  /** `prev.slides.map((s, i) => (i === slideIndex ? updater(s) : s))`. */
  function UpdateSlides(slides: seq<Slide>, k: int, u: SlideUpdate): (r: seq<Slide>)
    requires 0 <= k < |slides| ==> UpdateAllowed(slides[k], u)
    ensures |r| == |slides|
    ensures forall i :: 0 <= i < |slides| && i != k ==> r[i] == slides[i]
    ensures 0 <= k < |slides| ==> r[k] == ApplyUpdate(slides[k], u)
    ensures !(0 <= k < |slides|) ==> r == slides
  {
    if 0 <= k < |slides| then ReplaceAt(slides, k, ApplyUpdate(slides[k], u)) else slides
  }

  class Editor {
    var presentation: PresentationData
    var selected: int

    /** The selection is never negative and points at a slide whenever there is one. */
    predicate Valid()
      reads this
    {
      0 <= selected && (|presentation.slides| > 0 ==> selected < |presentation.slides|)
    }

    /** The selected slide exists, so the editor and its toolbar are shown. */
    predicate Showing()
      reads this
    {
      0 <= selected < |presentation.slides|
    }

    constructor(data: PresentationData)
      ensures Valid()
      ensures presentation == data && selected == 0
    {
      presentation := data;
      selected := 0;
    }

    /** A different resource is opened: its data replaces the presentation and the first slide is selected. */
    method Load(data: PresentationData)
      modifies this
      ensures Valid()
      ensures presentation == data && selected == 0
    {
      presentation := data;
      selected := 0;
    }

    /** `updateSlide(slideIndex, updater)`: only the slide at `slideIndex` changes; the selection stays. */
    method UpdateSlide(slideIndex: int, u: SlideUpdate)
      requires Valid()
      requires 0 <= slideIndex < |presentation.slides| ==> UpdateAllowed(presentation.slides[slideIndex], u)
      modifies this
      ensures Valid()
      ensures presentation == old(presentation).(slides := UpdateSlides(old(presentation.slides), slideIndex, u))
      ensures selected == old(selected)
    {
      presentation := presentation.(slides := UpdateSlides(presentation.slides, slideIndex, u));
    }

    /** `addSlide`: a new slide right after the selected one, which becomes the selection. */
    method AddSlide(newId: string)
      requires Showing()
      modifies this
      ensures Showing()
      ensures presentation == old(presentation).(slides := InsertAfter(old(presentation.slides), old(selected), NewSlide(newId)))
      ensures selected == old(selected) + 1
      ensures presentation.slides[selected] == NewSlide(newId)
      ensures RemoveAt(presentation.slides, selected) == old(presentation.slides)
    {
      InsertAfterInRange(presentation.slides, selected, NewSlide(newId));
      RemoveAfterInsert(presentation.slides, selected, NewSlide(newId));
      presentation := presentation.(slides := InsertAfter(presentation.slides, selected, NewSlide(newId)));
      selected := selected + 1;
    }

    /**
     * `deleteSlide`: nothing with one slide left; otherwise the selected slide
     * goes and the selection moves to the one before it (or stays at 0).
     */
    method DeleteSlide()
      requires Showing()
      modifies this
      ensures Showing()
      ensures |old(presentation.slides)| <= 1 ==> presentation == old(presentation) && selected == old(selected)
      ensures |old(presentation.slides)| > 1 ==>
        presentation == old(presentation).(slides := RemoveAt(old(presentation.slides), old(selected))) &&
        selected == if old(selected) > 0 then old(selected) - 1 else 0
      ensures |presentation.slides| >= 1
    {
      if |presentation.slides| <= 1 {
        return;
      }
      presentation := presentation.(slides := RemoveAt(presentation.slides, selected));
      selected := if selected - 1 > 0 then selected - 1 else 0;
    }

    /** `duplicateSlide`: a copy of the selected slide under a new id, right after it and selected. */
    method DuplicateSlide(newId: string)
      requires Showing()
      modifies this
      ensures Showing()
      ensures presentation == old(presentation).(slides :=
        InsertAfter(old(presentation.slides), old(selected), old(presentation.slides[selected]).(id := newId)))
      ensures selected == old(selected) + 1
      ensures presentation.slides[selected] == presentation.slides[selected - 1].(id := newId)
    {
      var dup := presentation.slides[selected].(id := newId);
      InsertAfterInRange(presentation.slides, selected, dup);
      presentation := presentation.(slides := InsertAfter(presentation.slides, selected, dup));
      selected := selected + 1;
    }

    /**
     * `moveSlide(from, to)` with `from` the selected slide: nothing when `to`
     * is outside the presentation; otherwise the slides are permuted with the
     * moved one at `to`, which becomes the selection.
     */
    method MoveSlide(from: int, to: int)
      requires Showing() && 0 <= from < |presentation.slides|
      modifies this
      ensures Showing()
      ensures (to < 0 || to >= |old(presentation.slides)|) ==> presentation == old(presentation) && selected == old(selected)
      ensures 0 <= to < |old(presentation.slides)| ==>
        presentation == old(presentation).(slides := Move(old(presentation.slides), from, to)) &&
        selected == to && presentation.slides[to] == old(presentation.slides[from]) &&
        multiset(presentation.slides) == multiset(old(presentation.slides))
    {
      if to < 0 || to >= |presentation.slides| {
        return;
      }
      MoveIsPermutation(presentation.slides, from, to);
      presentation := presentation.(slides := Move(presentation.slides, from, to));
      selected := to;
    }

    /** `setTheme`: the theme is replaced and nothing else. */
    method SetTheme(theme: Theme)
      requires Valid()
      modifies this
      ensures Valid()
      ensures presentation == old(presentation).(theme := theme) && selected == old(selected)
    {
      presentation := presentation.(theme := theme);
    }

    /** A click on a thumbnail selects that slide. */
    method Select(i: int)
      requires Valid() && 0 <= i < |presentation.slides|
      modifies this
      ensures Showing()
      ensures presentation == old(presentation) && selected == i
    {
      selected := i;
    }
  }

  /** The slide operations keep at least one slide and a selection that points at one. */
  lemma DeleteKeepsSelection(slides: seq<Slide>, sel: int)
    requires 1 < |slides| && 0 <= sel < |slides|
    ensures var r := RemoveAt(slides, sel);
      var s := if sel > 0 then sel - 1 else 0;
      1 <= |r| && 0 <= s < |r| &&
      (sel > 0 ==> r[s] == slides[sel - 1]) &&
      (sel == 0 ==> r[s] == slides[1])
  {
  }

  /** A notes edit on the selected slide changes nothing but that slide's notes. */
  lemma NotesEditEffect(slides: seq<Slide>, k: int, text: string)
    requires 0 <= k < |slides|
    ensures var r := UpdateSlides(slides, k, Notes(text));
      r[k].notes == text && r[k].id == slides[k].id && r[k].title == slides[k].title &&
      r[k].blocks == slides[k].blocks && RemoveAt(r, k) == RemoveAt(slides, k)
  {
    var r := UpdateSlides(slides, k, Notes(text));
    assert r[..k] == slides[..k];
    assert r[k + 1..] == slides[k + 1..];
  }
}
