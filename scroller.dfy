/** The scroll-position bookkeeping of `Scroller` (src/scroller.py).

    Reading the page's vertical offset goes through the browser; here every
    such read is a parameter, `pageOffset`, holding the value the browser
    returned. Scrolling the page itself is browser I/O and changes no field. */
module Scrolling {

  class Scroller {
    var currentPosition: int
    var lastPosition: int
    var scrolling: bool
    var scrollCount: nat

    /** `Scroller.__init__`: position and count start at zero, the last
        position is the page's offset, and scrolling is on. */
    constructor (pageOffset: int)
      ensures currentPosition == 0 && lastPosition == pageOffset
      ensures scrolling && scrollCount == 0
    {
      currentPosition := 0;
      lastPosition := pageOffset;
      scrolling := true;
      scrollCount := 0;
    }

    /** `reset`: position and count back to zero, the last position re-read;
        the scrolling flag is left as it was. */
    method Reset(pageOffset: int)
      modifies this
      ensures currentPosition == 0 && lastPosition == pageOffset && scrollCount == 0
      ensures scrolling == old(scrolling)
    {
      currentPosition := 0;
      lastPosition := pageOffset;
      scrollCount := 0;
    }

    /** `scroll_to_top`: a browser action only; no field changes. */
    method ScrollToTop()
      ensures unchanged(this)
    {
    }

    /** `scroll_to_bottom`: a browser action only; no field changes. */
    method ScrollToBottom()
      ensures unchanged(this)
    {
    }

    /** `update_scroll_position`: a new offset different from the current
        position becomes the current position and counts one scroll; an
        equal offset changes nothing. */
    method UpdateScrollPosition(newPosition: int)
      modifies this
      ensures newPosition != old(currentPosition) ==>
        currentPosition == newPosition && scrollCount == old(scrollCount) + 1
      ensures newPosition == old(currentPosition) ==>
        currentPosition == old(currentPosition) && scrollCount == old(scrollCount)
      ensures scrollCount >= old(scrollCount)
      ensures lastPosition == old(lastPosition) && scrolling == old(scrolling)
    {
      if newPosition != currentPosition {
        currentPosition := newPosition;
        scrollCount := scrollCount + 1;
      }
    }
  }
}
