/**
 * A horizontally scrollable screenshot strip (`.project-screenshots` inside a
 * `.screenshot-gallery`): its left/right scroll buttons, their visibility,
 * and dragging the strip by touch or by mouse.
 */
module Gallery {

  /** Distance one button click scrolls: a screenshot plus the gap. */
  const ScrollAmount := 300

  /** A drag moves the strip this many times the pointer's travel. */
  const DragMultiplier := 2

  /** The left button is hidden at the start of the strip. */
  predicate LeftButtonHidden(scrollLeft: int) {
    scrollLeft <= 0
  }

  /** The right button is hidden at the end of the strip, with one pixel of tolerance. */
  predicate RightButtonHidden(scrollLeft: int, scrollWidth: int, clientWidth: int) {
    scrollLeft + clientWidth >= scrollWidth - 1
  }

  /** The offset a drag that started at `startX` over offset `startScroll` asks for at pointer `x`. */
  function DragTarget(startScroll: int, startX: int, x: int): int {
    startScroll - (x - startX) * DragMultiplier
  }

  /**
   * The buttons describe where the strip is: once scrolled past the start
   * the left button shows, and it stays shown further on; short of the end
   * (beyond the tolerance) the right button shows, and it stays shown further
   * back.
   */
  lemma ButtonsTrackPosition(s: int, t: int, scrollWidth: int, clientWidth: int)
    requires s <= t
    ensures LeftButtonHidden(t) ==> LeftButtonHidden(s)
    ensures RightButtonHidden(s, scrollWidth, clientWidth) ==> RightButtonHidden(t, scrollWidth, clientWidth)
  {
  }

  /**
   * A strip whose content is wider than its viewport by more than the
   * tolerance shows only the right button at the start and only the left
   * button at the end; a strip whose content fits shows no right button.
   */
  lemma ButtonsAtEnds(scrollWidth: int, clientWidth: int)
    ensures scrollWidth - clientWidth > 1 ==>
      LeftButtonHidden(0) && !RightButtonHidden(0, scrollWidth, clientWidth)
    ensures scrollWidth - clientWidth > 1 ==>
      !LeftButtonHidden(scrollWidth - clientWidth) &&
      RightButtonHidden(scrollWidth - clientWidth, scrollWidth, clientWidth)
    ensures scrollWidth - clientWidth <= 1 ==>
      forall s :: s >= 0 ==> RightButtonHidden(s, scrollWidth, clientWidth)
  {
  }

  /**
   * A drag follows the pointer: returning to the start position restores
   * the start offset, and each pixel of pointer travel moves the strip two
   * pixels the other way. Positions are measured from the strip's left
   * edge, but only their difference counts, so that edge drops out.
   */
  lemma DragFollowsPointer(startScroll: int, startX: int, x: int, y: int, offsetLeft: int)
    ensures DragTarget(startScroll, startX, startX) == startScroll
    ensures DragTarget(startScroll, startX - offsetLeft, x - offsetLeft) == DragTarget(startScroll, startX, x)
    ensures DragTarget(startScroll, startX, x) - DragTarget(startScroll, startX, y) == DragMultiplier * (y - x)
    ensures x > startX ==> DragTarget(startScroll, startX, x) < startScroll
    ensures x < startX ==> DragTarget(startScroll, startX, x) > startScroll
  {
  }

  /** Two strips: 300 pixels shown of 900, at the start and at the end. */
  lemma ButtonsExamples()
    ensures LeftButtonHidden(0) && !RightButtonHidden(0, 900, 300)
    ensures !LeftButtonHidden(600) && RightButtonHidden(600, 900, 300)
    ensures !LeftButtonHidden(599) && RightButtonHidden(599, 900, 300)
    ensures !LeftButtonHidden(598) && !RightButtonHidden(598, 900, 300)
  {
  }

  datatype Cursor = Grab | Grabbing

  class Strip {
    var scrollLeft: int
    const scrollWidth: int
    const clientWidth: int
    const offsetLeft: int
    var leftHidden: bool        // `hidden` class on the left button
    var rightHidden: bool       // `hidden` class on the right button
    var cursor: Cursor
    // closure variables of setupTouchScrolling
    var touchActive: bool       // isScrolling
    var touchStartX: int
    var touchStartScroll: int
    var mouseDown: bool         // isDown
    var mouseStartX: int
    var mouseStartScroll: int

    /** Both buttons agree with the current offset. */
    ghost predicate ButtonsCurrent()
      reads this
    {
      && leftHidden == LeftButtonHidden(scrollLeft)
      && rightHidden == RightButtonHidden(scrollLeft, scrollWidth, clientWidth)
    }

    /**
     * Wiring a strip: the buttons are brought up to date once and the
     * cursor is set to `grab`; no drag is in progress.
     */
    constructor (scrollLeft0: int, scrollWidth0: int, clientWidth0: int, offsetLeft0: int)
      ensures scrollLeft == scrollLeft0 && scrollWidth == scrollWidth0
      ensures clientWidth == clientWidth0 && offsetLeft == offsetLeft0
      ensures ButtonsCurrent() && cursor == Grab
      ensures !touchActive && touchStartX == 0 && touchStartScroll == 0
      ensures !mouseDown && mouseStartX == 0 && mouseStartScroll == 0
    {
      scrollLeft, scrollWidth, clientWidth, offsetLeft := scrollLeft0, scrollWidth0, clientWidth0, offsetLeft0;
      touchActive, touchStartX, touchStartScroll := false, 0, 0;
      mouseDown, mouseStartX, mouseStartScroll := false, 0, 0;
      new;
      UpdateScrollButtons();
      cursor := Grab;
    }

    /** `updateScrollButtons`: recomputes both buttons from the current offset. */
    method UpdateScrollButtons()
      modifies this`leftHidden, this`rightHidden
      ensures ButtonsCurrent()
    {
      if scrollLeft <= 0 {
        leftHidden := true;
      } else {
        leftHidden := false;
      }
      if scrollLeft + clientWidth >= scrollWidth - 1 {
        rightHidden := true;
      } else {
        rightHidden := false;
      }
    }

    /** The left button asks to scroll one screenshot back (not clamped here). */
    method ScrollLeftClicked()
      modifies this`scrollLeft
      ensures scrollLeft == old(scrollLeft) - ScrollAmount
    {
      scrollLeft := scrollLeft - ScrollAmount;
    }

    /** The right button asks to scroll one screenshot on (not clamped here). */
    method ScrollRightClicked()
      modifies this`scrollLeft
      ensures scrollLeft == old(scrollLeft) + ScrollAmount
    {
      scrollLeft := scrollLeft + ScrollAmount;
    }

    /** `touchstart`: a touch drag begins at page position `pageX`. */
    method TouchStart(pageX: int)
      modifies this`touchActive, this`touchStartX, this`touchStartScroll
      ensures touchActive && touchStartX == pageX - offsetLeft && touchStartScroll == scrollLeft
    {
      touchActive := true;
      touchStartX := pageX - offsetLeft;
      touchStartScroll := scrollLeft;
    }

    /** `touchmove`: while a touch drag is active, the strip follows the finger; otherwise nothing happens. */
    method TouchMove(pageX: int)
      modifies this`scrollLeft
      ensures touchActive ==> scrollLeft == DragTarget(touchStartScroll, touchStartX, pageX - offsetLeft)
      ensures !touchActive ==> scrollLeft == old(scrollLeft)
    {
      if !touchActive {
        return;
      }
      var x := pageX - offsetLeft;
      var walk := (x - touchStartX) * DragMultiplier;
      scrollLeft := touchStartScroll - walk;
    }

    /** `touchend`: the touch drag is over. */
    method TouchEnd()
      modifies this`touchActive
      ensures !touchActive
    {
      touchActive := false;
    }

    /** `mousedown`: a mouse drag begins at page position `pageX`. */
    method MouseDown(pageX: int)
      modifies this`mouseDown, this`mouseStartX, this`mouseStartScroll, this`cursor
      ensures mouseDown && mouseStartX == pageX - offsetLeft && mouseStartScroll == scrollLeft
      ensures cursor == Grabbing
    {
      mouseDown := true;
      cursor := Grabbing;
      mouseStartX := pageX - offsetLeft;
      mouseStartScroll := scrollLeft;
    }

    /** `mouseleave`: the mouse drag is over. */
    method MouseLeave()
      modifies this`mouseDown, this`cursor
      ensures !mouseDown && cursor == Grab
    {
      mouseDown := false;
      cursor := Grab;
    }

    /** `mouseup`: the mouse drag is over. */
    method MouseUp()
      modifies this`mouseDown, this`cursor
      ensures !mouseDown && cursor == Grab
    {
      mouseDown := false;
      cursor := Grab;
    }

    /** `mousemove`: while the button is down, the strip follows the pointer; otherwise nothing happens. */
    method MouseMove(pageX: int)
      modifies this`scrollLeft
      ensures mouseDown ==> scrollLeft == DragTarget(mouseStartScroll, mouseStartX, pageX - offsetLeft)
      ensures !mouseDown ==> scrollLeft == old(scrollLeft)
    {
      if !mouseDown {
        return;
      }
      var x := pageX - offsetLeft;
      var walk := (x - mouseStartX) * DragMultiplier;
      scrollLeft := mouseStartScroll - walk;
    }
  }
}
