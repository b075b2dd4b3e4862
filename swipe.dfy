/**
 * The swipe test of the lightbox's touch navigation: a touch that ends
 * `dx` to the right and `dy` below where it started navigates only when it
 * is mostly horizontal and longer than the threshold.
 */
module Swipe {
  /** Minimum horizontal travel of a swipe, in CSS pixels. */
  const SwipeThreshold := 50

  function Abs(x: int): nat {
    if x < 0 then -x else x
  }

  /** What a finished touch asks the lightbox to do. */
  datatype Intent = ShowPrevious | ShowNext | Ignore

  function Mirror(a: Intent): Intent {
    match a
    case ShowPrevious => ShowNext
    case ShowNext => ShowPrevious
    case Ignore => Ignore
  }

  /**
   * Classifies a touch by its displacement: a rightward swipe shows the
   * previous image, a leftward one the next, anything else is ignored.
   */
  function Classify(dx: int, dy: int): (a: Intent)
    ensures a != Ignore <==> Abs(dx) > Abs(dy) && Abs(dx) > SwipeThreshold
    ensures a == ShowPrevious <==> a != Ignore && dx > 0
    ensures a == ShowNext <==> a != Ignore && dx < 0
  {
    if Abs(dx) > Abs(dy) && Abs(dx) > SwipeThreshold then
      if dx > 0 then ShowPrevious else ShowNext
    else
      Ignore
  }

  /** A vertical-dominant touch never navigates, so page scrolling is not read as a swipe. */
  lemma VerticalNeverNavigates(dx: int, dy: int)
    requires Abs(dy) >= Abs(dx)
    ensures Classify(dx, dy) == Ignore
  {
  }

  /** Reflecting a swipe left-to-right reverses its direction and nothing else. */
  lemma ClassifyMirrored(dx: int, dy: int)
    ensures Classify(-dx, dy) == Mirror(Classify(dx, dy))
    ensures Classify(dx, -dy) == Classify(dx, dy)
  {
  }

  /** Worked examples of the classifier. */
  lemma ClassifyExamples()
    ensures Classify(-80, 5) == ShowNext
    ensures Classify(80, 5) == ShowPrevious
    ensures Classify(10, 5) == Ignore
    ensures Classify(5, 80) == Ignore
    ensures Classify(50, 0) == Ignore && Classify(51, 0) == ShowPrevious
  {
  }
}
