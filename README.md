# Portfolio page interaction core, modelled in Dafny

The portfolio site's `script.js` wires a static page: project cards that
expand and collapse, an image lightbox with button, keyboard and swipe
navigation, horizontally scrollable screenshot strips with scroll buttons and
drag-to-scroll, and a navigation bar that reacts to page scrolling. This
project models the interaction logic of `PortfolioApp` behind those features
and proves what it guarantees:

- **Lightbox** (`modal.dfy`, module `Modal`): class `Lightbox` holds
  `currentImages`, `currentImageIndex`, `currentProjectName`, the modal's
  `active` flag, what the modal displays, and the touch-start coordinates of
  the swipe handler. `openModal`, `closeModal`, `updateModalContent`,
  `previousImage`, `nextImage`, the keyboard handler and the swipe handler are
  its methods. Its invariant: the index is never negative, points into the
  gallery once there is one, and an open modal has a gallery.
- **Index arithmetic** (`index_math.dfy`, module `IndexMath`): JavaScript's
  truncating `%`, the wrap-around steps, their inverse relation and the full
  cycle.
- **Counter text** (`counter_text.dfy`, module `CounterText`): the decimal
  rendering of `${i + 1} / ${n}` and a parser that reads it back, so the
  counter is shown to name the position and the total.
- **Swipe test** (`swipe.dfy`, module `Swipe`): the pure decision between
  previous, next and nothing.
- **Screenshot strip** (`gallery.dfy`, module `Gallery`): the scroll-button
  visibility predicates, and class `Strip` with the scroll buttons and the
  touch and mouse drag state machines.
- **Accordion** (`projects.dfy`, module `Projects`): the cards as an array of
  values (expanded flag, `aria-expanded`, `aria-hidden`), class `Accordion`
  with `closeAllProjects` as a loop over the array, `expandProject` and
  `toggleProject`, and the lemmas that at most one card is open afterwards.
- **Navigation bar** (`navbar.dfy`, module `Navbar`): the `scrolled` and
  hide rules and `lastScrollTop`.
- `keys.dfy` (the keys the handlers distinguish) and `wrappers.dfy` (`Option`)
  are shared helpers.

Three points of the code's behaviour shape the model:

- The code clamps nothing. A drag writes `scrollLeft - (x - startX) * 2` and
  a scroll button asks for `scrollBy(±300)`; the model keeps these requested
  values.
- The index comes from `findIndex`. A clicked image that is not in its card
  changes nothing.
- Only the keyboard handler checks `active`. The buttons and the swipe
  handler navigate directly.

## Model

| member | source | states |
|---|---|---|
| `IndexMath.JsRemainder` | script.js:354 | JavaScript `%` by a positive length: the remainder has the sign of the dividend, is smaller than the divisor in magnitude, and differs from the dividend by a multiple of the divisor, which fixes it uniquely |
| `IndexMath.NextIndexWraps` | script.js:362 | from an index in `[0, n)`, `nextImage`'s step goes to `i + 1`, or wraps from the last index to 0, and stays in `[0, n)` |
| `IndexMath.PrevIndexWraps` | script.js:354 | from an index in `[0, n)`, `previousImage`'s step goes to `i - 1`, or wraps from 0 to `n - 1`, and stays in `[0, n)` |
| `IndexMath.PrevUndoesNext` | script.js:351-365 | a previous step after a next step restores the index |
| `IndexMath.NextUndoesPrev` | script.js:351-365 | a next step after a previous step restores the index |
| `IndexMath.AdvanceTimesIsShift` | script.js:362 | `k` next steps from `i` land on `(i + k) mod n` |
| `IndexMath.FullCycleReturns` | script.js:362 | `n` next steps in a gallery of `n` images return to the starting image |
| `CounterText.Decimal` | script.js:344 | the rendering of a number is a non-empty string of digits with no leading zero unless the number is 0 |
| `CounterText.ValueOfDecimal` | script.js:344 | the decimal rendering of `n` reads back as `n` |
| `CounterText.CounterRoundTrip` | script.js:344 | the counter text `p / t` parses back to exactly `(p, t)` |
| `CounterText.CounterInjective` | script.js:344 | two counters read the same only for the same position and total |
| `Swipe.Classify` | script.js:393-403 | a touch navigates exactly when `abs(dx) > abs(dy)` and `abs(dx) > 50`; then `dx > 0` means previous and `dx < 0` means next |
| `Swipe.VerticalNeverNavigates` | script.js:396-397 | a touch that moves at least as far vertically as horizontally never navigates |
| `Swipe.ClassifyMirrored` | script.js:397-402 | reflecting a touch horizontally swaps previous and next; reflecting it vertically changes nothing |
| `Swipe.ClassifyExamples` | script.js:397 | worked examples: a long leftward swipe shows the next image, a rightward one the previous, short or vertical touches nothing, and 50 pixels is not yet a swipe |
| `Modal.FindIndex` | script.js:284-290 | the result is -1 exactly when the image is absent, and otherwise the first position holding it |
| `Modal.RenderedShows` | script.js:340-348 | the display shows image `i`'s source, its alt text as alt and description, the project name as title, a counter that parses to `(i + 1, n)`, and both arrows exactly when `n > 1` |
| `Modal.Lightbox.constructor` | script.js:5-8 | starts with no images, index 0, empty project name and the modal closed |
| `Modal.Lightbox.OpenModal` | script.js:266-313 | with no enclosing card or an image not among its screenshots nothing changes; otherwise the card's gallery and name are stored, the index is the clicked image's first position, the display renders it and the modal is active |
| `Modal.Lightbox.CloseModal` | script.js:315-321 | only the active flag is cleared; gallery, index, name and display stay |
| `Modal.Lightbox.UpdateModalContent` | script.js:323-349 | with no images or an index outside `[0, n)` the display is unchanged; otherwise it renders the current image |
| `Modal.Lightbox.PreviousImage` | script.js:351-357 | with at most one image nothing changes; otherwise the index takes the wrap-around previous step and the display is re-rendered; the invariant is kept |
| `Modal.Lightbox.NextImage` | script.js:359-365 | with at most one image nothing changes; otherwise the index takes the wrap-around next step and the display is re-rendered; the invariant is kept |
| `Modal.Lightbox.HandleKeyDown` | script.js:246-260 | ignored while the modal is not active; otherwise Escape closes, ArrowLeft steps back, ArrowRight steps forward and other keys change nothing |
| `Modal.Lightbox.TouchStart` | script.js:384-387 | records where the touch began |
| `Modal.Lightbox.TouchEnd` | script.js:389-404 | navigates as `Classify` of the displacement from the last touch start says, without consulting the active flag; an ignored touch changes nothing |
| `Gallery.ButtonsTrackPosition` | script.js:438-453 | the left button, hidden at an offset, is hidden at every smaller offset; the right button, once hidden, stays hidden further along |
| `Gallery.ButtonsAtEnds` | script.js:438-453 | on a strip wider than its viewport by more than the tolerance, only the right button shows at the start and only the left at the end; a strip that fits never shows the right button at any offset of 0 or more |
| `Gallery.ButtonsExamples` | script.js:442-449 | a 300-pixel viewport on 900 pixels of content: right button only at offset 0, left only at 600 and 599, both at 598 |
| `Gallery.DragFollowsPointer` | script.js:485-487 | returning the pointer to its start restores the start offset, the strip's left edge drops out, and every pixel of travel moves the strip two pixels the other way |
| `Gallery.Strip.constructor` | script.js:412-457 | the buttons start in agreement with the offset, the cursor is `grab` and no drag is active |
| `Gallery.Strip.UpdateScrollButtons` | script.js:438-454 | the left button is hidden exactly when `scrollLeft <= 0`, the right exactly when `scrollLeft + clientWidth >= scrollWidth - 1` |
| `Gallery.Strip.ScrollLeftClicked` | script.js:422-427 | the requested offset is 300 less |
| `Gallery.Strip.ScrollRightClicked` | script.js:430-435 | the requested offset is 300 more |
| `Gallery.Strip.TouchStart` | script.js:475-479 | a touch drag becomes active and remembers its start position and offset |
| `Gallery.Strip.TouchMove` | script.js:481-488 | while a touch drag is active the offset is the start offset minus twice the travel; otherwise nothing changes |
| `Gallery.Strip.TouchEnd` | script.js:490-492 | the touch drag ends |
| `Gallery.Strip.MouseDown` | script.js:499-504 | a mouse drag becomes active, the cursor becomes `grabbing`, and the start position and offset are remembered |
| `Gallery.Strip.MouseLeave` | script.js:506-509 | the mouse drag ends and the cursor returns to `grab` |
| `Gallery.Strip.MouseUp` | script.js:511-514 | the mouse drag ends and the cursor returns to `grab` |
| `Gallery.Strip.MouseMove` | script.js:516-522 | while the button is down the offset is the start offset minus twice the travel; otherwise nothing changes |
| `Projects.CollapseAllAt` | script.js:94-105 | closing all cards collapses each card in place and keeps their number |
| `Projects.CollapseAllClosesEverything` | script.js:94-105 | afterwards no card is expanded, and closing again changes nothing |
| `Projects.CollapseAllKeepsMirror` | script.js:96-103 | every card it touches ends with ARIA attributes matching its class; mirrored cards stay mirrored |
| `Projects.ToggleExpandedCloses` | script.js:56-67 | toggling the expanded card leaves every card collapsed |
| `Projects.ToggleCollapsedOpensOnlyIt` | script.js:56-76 | toggling a collapsed card makes it the only expanded card |
| `Projects.ToggleAtMostOne` | script.js:56-67 | from any state, at most one card is expanded after a toggle |
| `Projects.ToggleKeepsMirror` | script.js:56-105 | a toggle keeps every card's ARIA attributes matching its class |
| `Projects.ToggleTwice` | script.js:56-67 | toggling one card twice restores whether it was expanded and leaves every other card collapsed |
| `Projects.Accordion.constructor` | script.js:23-26 | the accordion holds the page's cards as given |
| `Projects.Accordion.CloseAllProjects` | script.js:94-105 | every expanded card is collapsed with its ARIA attributes set; other cards are untouched |
| `Projects.Accordion.ExpandProject` | script.js:69-76 | the card gets the class, `aria-expanded` true and `aria-hidden` false; no other card changes |
| `Projects.Accordion.ToggleProject` | script.js:56-67 | the cards become the toggled state, in which at most one card is expanded |
| `Projects.Accordion.HeaderKeyDown` | script.js:29-35 | Enter or Space on a header toggles its card; other keys change nothing |
| `Projects.Accordion.DocumentClick` | script.js:42-46 | a click outside every card closes them all; a click inside changes nothing here |
| `Projects.Accordion.DocumentKeyDown` | script.js:49-53 | Escape closes every card; other keys change nothing here |
| `Navbar.HidingRules` | script.js:171-182 | a hidden bar is always in its scrolled style; scrolling up or staying put shows the bar; at an offset of 100 or less it is never hidden |
| `Navbar.NavbarState.constructor` | script.js:164 | `lastScrollTop` starts at 0 |
| `Navbar.NavbarState.OnScroll` | script.js:167-185 | `scrolled` holds exactly when the offset exceeds 50; the bar is hidden exactly when the offset grew and exceeds 100; `lastScrollTop` becomes the offset |

## Left out

- DOM queries, listener registration and `console` output (script.js:21-54,
  188-264) are wiring. The handlers are the methods above. `setupImageModal`
  gives up wiring when a modal element is missing (script.js:200-212); the
  model assumes every element is present.
- Timers. The 10 ms and 300 ms modal timers, the delayed scroll after
  expanding a card, the staggered screenshot animation and
  `animateImageChange` are presentation. Opening and closing are immediate
  flag changes. `display: flex/none` on the modal and the `overflow` lock on
  the page body are not modelled.
- `PerformanceUtils.throttle` and `debounce` depend on timer timing. Only the
  updates they schedule are modelled (`UpdateScrollButtons`).
- Layout changes. A strip's `scrollWidth`, `clientWidth` and `offsetLeft` are
  constants of the model, so a window resize is not modelled.
- Gallery.Strip.ScrollLeftClicked: the offset is the one requested. The
  browser's clamping to the scrollable range and its smooth animation are
  outside the script.
- Gallery.Strip.ScrollRightClicked: the offset is the one requested, for the
  same reason.
- Gallery.Strip.TouchStart: the script reads back the browser's clamped
  `scrollLeft` when a drag starts, when the mouse goes down and when it
  updates the buttons. The model has only the requested offset. Once a
  request falls outside `[0, scrollWidth - clientWidth]`, drag origins
  (`TouchStart`, `MouseDown`) and button visibility (`UpdateScrollButtons`)
  are computed from the requested offset, not the page's.
- Gallery.Strip.MouseDown: its start offset is the requested offset, as
  above.
- Gallery.Strip.UpdateScrollButtons: it tests the requested offset, as above.
- Gallery.Strip.TouchMove: the written `scrollLeft` is the unclamped request,
  for the same reason.
- Gallery.Strip.MouseMove: the written `scrollLeft` is the unclamped request,
  for the same reason.
- `preventDefault` calls only stop the browser's default actions.
- `updateModalContent` checks whether `currentImages` is null and whether the
  current image is undefined. Neither can happen in the model: the gallery is
  a sequence and every image is a value.
- Pointer coordinates, scroll offsets and `scrollTop` are integers. CSS pixel
  values can be fractional, but the code only compares them and combines them
  linearly. `scrollTop` (`pageYOffset || documentElement.scrollTop`) is a
  parameter.
- ARIA attributes are booleans. An attribute absent from the markup is not
  represented; a card's initial attributes are whatever the constructor is
  given.
- An image element's identity (`===`) is the `node` field of `Image`.
- IntersectionObserver use, `ScrollAnimations`, hover, parallax and the
  typewriter effect, smooth scrolling of anchor links, `ThemeUtils`, image
  preloading and the visibility and error handlers are cosmetic, or thin
  wrappers over browser APIs.
