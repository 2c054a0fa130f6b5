/** The before/after comparison slider: a dragging flag and the current
    percentage kept by `initSlider`'s closure, plus the two style values the
    handlers write (the slider's `left` and the right inset of the "after"
    image's clip path), all in percent. */
module Compare {

  /** The horizontal extent of the comparison area's bounding box. */
  datatype Rect = Rect(left: real, width: real)

  /** `applyPercent`'s clamp to [0, 100]. */
  function Clamp(percent: real): (r: real)
    ensures 0.0 <= r <= 100.0
    ensures 0.0 <= percent <= 100.0 ==> r == percent
    ensures percent < 0.0 ==> r == 0.0
    ensures percent > 100.0 ==> r == 100.0
  {
    var p := if percent < 0.0 then 0.0 else percent;
    if p > 100.0 then 100.0 else p
  }

  /** The percentage `updateFromClientX` computes for a pointer position:
      the offset into the area, clamped to [0, width], as a share of the
      width. */
  function PercentAt(clientX: real, rect: Rect): (r: real)
    requires rect.width != 0.0
    ensures 0.0 <= r <= 100.0
    ensures rect.width > 0.0 && clientX <= rect.left ==> r == 0.0
    ensures rect.width > 0.0 && clientX >= rect.left + rect.width ==> r == 100.0
    ensures rect.width > 0.0 && rect.left <= clientX <= rect.left + rect.width ==>
              r * rect.width == (clientX - rect.left) * 100.0
    ensures rect.width < 0.0 ==> r == 100.0
  {
    var x := clientX - rect.left;
    var x := if x < 0.0 then 0.0 else x;
    var x := if x > rect.width then rect.width else x;
    (x / rect.width) * 100.0
  }

  /** Moving the pointer to the right never moves the split to the left. */
  lemma PercentMonotone(x1: real, x2: real, rect: Rect)
    requires rect.width > 0.0 && x1 <= x2
    ensures PercentAt(x1, rect) <= PercentAt(x2, rect)
  {
    var w := rect.width;
    var c1 := if x1 - rect.left < 0.0 then 0.0 else if x1 - rect.left > w then w else x1 - rect.left;
    var c2 := if x2 - rect.left < 0.0 then 0.0 else if x2 - rect.left > w then w else x2 - rect.left;
    assert c1 <= c2;
    assert c1 / w <= c2 / w by {
      assert c2 / w - c1 / w == (c2 - c1) / w;
    }
  }

  /** The slider's observable state. */
  datatype SliderState = SliderState(dragging: bool, percent: real, left: real, insetRight: real)

  /** The position after the page's `load` handler applied 50%. */
  const Initial := SliderState(false, 50.0, 50.0, 50.0)

  /** Every percentage lies in [0, 100] and the "after" image is revealed
      exactly to the right of the slider. */
  ghost predicate WellFormed(s: SliderState) {
    0.0 <= s.percent <= 100.0 && 0.0 <= s.left <= 100.0 && s.insetRight == 100.0 - s.left
  }

  /** Input events; mouse and touch handlers behave alike. `StylesReset` is
      `resetSlider`, run when a new original image is selected. */
  datatype SliderEvent =
    | PointerDown(clientX: real, rect: Rect)
    | PointerMove(clientX: real, rect: Rect)
    | PointerUp
    | AreaClick(clientX: real, rect: Rect)
    | StylesReset

  /** `applyPercent`: the clamped percentage becomes current and positions
      both the slider and the clip. */
  function Applied(s: SliderState, percent: real): (r: SliderState)
    ensures WellFormed(r)
    ensures r.dragging == s.dragging
    ensures r.percent == Clamp(percent) && r.left == r.percent
  {
    var p := Clamp(percent);
    s.(percent := p, left := p, insetRight := 100.0 - p)
  }

  /** `updateFromClientX`: a zero-width area changes nothing. */
  function Pointed(s: SliderState, clientX: real, rect: Rect): (r: SliderState)
    requires WellFormed(s)
    ensures WellFormed(r)
    ensures rect.width == 0.0 ==> r == s
    ensures rect.width != 0.0 ==> r == Applied(s, PercentAt(clientX, rect)) && r.percent == PercentAt(clientX, rect)
  {
    if rect.width == 0.0 then s else Applied(s, PercentAt(clientX, rect))
  }

  function OnEvent(s: SliderState, e: SliderEvent): (r: SliderState)
    requires WellFormed(s)
    ensures WellFormed(r)
    ensures e.PointerDown? ==> r.dragging
    ensures e.PointerUp? ==> r == s.(dragging := false)
    ensures e.PointerMove? && !s.dragging ==> r == s
    ensures !e.PointerDown? && !e.PointerUp? ==> r.dragging == s.dragging
    ensures e.StylesReset? ==> r.left == 50.0 && r.percent == s.percent
    ensures (e.PointerDown? || e.AreaClick? || (e.PointerMove? && s.dragging)) ==>
              && (e.rect.width != 0.0 ==> r.percent == PercentAt(e.clientX, e.rect) && r.left == r.percent)
              && (e.rect.width == 0.0 ==> r.percent == s.percent && r.left == s.left)
  {
    match e
    case PointerDown(x, rect) => Pointed(s.(dragging := true), x, rect)
    case PointerMove(x, rect) => if s.dragging then Pointed(s, x, rect) else s
    case PointerUp => s.(dragging := false)
    case AreaClick(x, rect) => Pointed(s, x, rect)
    case StylesReset => s.(left := 50.0, insetRight := 50.0)
  }

  function Replay(s: SliderState, es: seq<SliderEvent>): (r: SliderState)
    requires WellFormed(s)
    ensures WellFormed(r)
    decreases |es|
  {
    if es == [] then s else Replay(OnEvent(s, es[0]), es[1..])
  }

  /** While the slider is not being dragged, pointer movement has no effect,
      however long it goes on. */
  lemma {:induction false} IdleIgnoresMoves(s: SliderState, es: seq<SliderEvent>)
    requires WellFormed(s) && !s.dragging
    requires forall j :: 0 <= j < |es| ==> es[j].PointerMove?
    ensures Replay(s, es) == s
    decreases |es|
  {
    if es != [] {
      IdleIgnoresMoves(OnEvent(s, es[0]), es[1..]);
    }
  }

  /** Once the pointer is released, the flag stays clear until the next
      press on the slider. */
  lemma {:induction false} ReleasedStaysIdle(s: SliderState, es: seq<SliderEvent>)
    requires WellFormed(s) && !s.dragging
    requires forall j :: 0 <= j < |es| ==> !es[j].PointerDown?
    ensures !Replay(s, es).dragging
    decreases |es|
  {
    if es != [] {
      ReleasedStaysIdle(OnEvent(s, es[0]), es[1..]);
    }
  }

  /** The closure state of `initSlider` and the styles its handlers write. */
  class CompareSlider {
    var isDragging: bool
    var currentPercent: real
    var sliderLeft: real
    var afterInsetRight: real

    function State(): SliderState
      reads this
    {
      SliderState(isDragging, currentPercent, sliderLeft, afterInsetRight)
    }

    ghost predicate Valid()
      reads this
    {
      WellFormed(State())
    }

    /** `initSlider` followed by the `load` handler's `applyPercent(50)`. */
    constructor ()
      ensures Valid() && State() == Initial
    {
      isDragging := false;
      currentPercent := 50.0;
      sliderLeft := 50.0;
      afterInsetRight := 50.0;
    }

    method ApplyPercent(percent: real)
      modifies this
      ensures Valid()
      ensures State() == Applied(old(State()), percent)
    {
      var p := percent;
      if p < 0.0 {
        p := 0.0;
      }
      if p > 100.0 {
        p := 100.0;
      }
      currentPercent := p;
      sliderLeft := p;
      afterInsetRight := 100.0 - p;
    }

    method UpdateFromClientX(clientX: real, rect: Rect)
      requires Valid()
      modifies this
      ensures Valid()
      ensures State() == Pointed(old(State()), clientX, rect)
    {
      if rect.width == 0.0 {
        return;
      }
      var x := clientX - rect.left;
      if x < 0.0 {
        x := 0.0;
      }
      if x > rect.width {
        x := rect.width;
      }
      var percent := (x / rect.width) * 100.0;
      ApplyPercent(percent);
    }

    /** `mousedown` / `touchstart` on the slider handle. */
    method PointerDown(clientX: real, rect: Rect)
      requires Valid()
      modifies this
      ensures Valid()
      ensures State() == OnEvent(old(State()), SliderEvent.PointerDown(clientX, rect))
    {
      isDragging := true;
      UpdateFromClientX(clientX, rect);
    }

    /** `mousemove` / `touchmove` anywhere in the window. */
    method PointerMove(clientX: real, rect: Rect)
      requires Valid()
      modifies this
      ensures Valid()
      ensures State() == OnEvent(old(State()), SliderEvent.PointerMove(clientX, rect))
    {
      if !isDragging {
        return;
      }
      UpdateFromClientX(clientX, rect);
    }

    /** `mouseup` / `touchend` anywhere in the window. */
    method PointerUp()
      requires Valid()
      modifies this
      ensures Valid()
      ensures State() == OnEvent(old(State()), SliderEvent.PointerUp)
    {
      isDragging := false;
    }

    /** A click anywhere in the comparison area. */
    method AreaClick(clientX: real, rect: Rect)
      requires Valid()
      modifies this
      ensures Valid()
      ensures State() == OnEvent(old(State()), SliderEvent.AreaClick(clientX, rect))
    {
      UpdateFromClientX(clientX, rect);
    }

    /** `resetSlider`: only the two styles return to 50%; the closure's
        percentage and the dragging flag are left as they were. */
    method ResetStyles()
      requires Valid()
      modifies this
      ensures Valid()
      ensures State() == OnEvent(old(State()), SliderEvent.StylesReset)
    {
      sliderLeft := 50.0;
      afterInsetRight := 50.0;
    }
  }
}
