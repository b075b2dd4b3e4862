/**
 * The navigation bar's reaction to page scrolling: a `scrolled` style past
 * a small offset, and hiding while the page scrolls down past a larger one.
 */
module Navbar {

  /** Past this offset the bar gets the `scrolled` class. */
  const ScrolledOffset := 50

  /** Past this offset a downward scroll hides the bar. */
  const HideOffset := 100

  predicate IsScrolled(scrollTop: int) {
    scrollTop > ScrolledOffset
  }

  /** The bar is hidden after a scroll event that moved down from `last` to `scrollTop` past the offset. */
  predicate IsHidden(last: int, scrollTop: int) {
    scrollTop > last && scrollTop > HideOffset
  }

  /**
   * A hidden bar is always also in its `scrolled` style; scrolling up, or
   * staying in place, always shows the bar; near the top it is never hidden.
   */
  lemma HidingRules(last: int, scrollTop: int)
    ensures IsHidden(last, scrollTop) ==> IsScrolled(scrollTop)
    ensures scrollTop <= last ==> !IsHidden(last, scrollTop)
    ensures scrollTop <= HideOffset ==> !IsHidden(last, scrollTop)
  {
  }

  class NavbarState {
    var lastScrollTop: int
    var scrolled: bool    // `scrolled` class on the bar
    var hidden: bool      // transform translateY(-100%) rather than translateY(0)

    constructor ()
      ensures lastScrollTop == 0 && !scrolled && !hidden
    {
      lastScrollTop, scrolled, hidden := 0, false, false;
    }

    /** The window `scroll` handler, given the page's vertical offset. */
    method OnScroll(scrollTop: int)
      modifies this
      ensures scrolled == IsScrolled(scrollTop)
      ensures hidden == IsHidden(old(lastScrollTop), scrollTop)
      ensures lastScrollTop == scrollTop
    {
      if scrollTop > ScrolledOffset {
        scrolled := true;
      } else {
        scrolled := false;
      }
      if scrollTop > lastScrollTop && scrollTop > HideOffset {
        hidden := true;
      } else {
        hidden := false;
      }
      lastScrollTop := scrollTop;
    }
  }
}
