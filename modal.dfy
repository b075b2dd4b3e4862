/**
 * The image lightbox of `PortfolioApp`: the gallery of the project whose
 * screenshot was clicked, the index of the image on show, the project name,
 * the modal's `active` flag, and what the modal currently displays.
 */
module Modal {
  import opened Wrappers
  import opened IndexMath
  import opened CounterText
  import opened Swipe
  import opened Keys

  /** A screenshot `<img>` element: `node` stands for the element's identity. */
  datatype Image = Image(node: nat, src: string, alt: string)

  /** The `.project-card` enclosing a clicked image: its name and its screenshots in document order. */
  datatype ProjectCard = ProjectCard(name: string, images: seq<Image>)

  /** What the modal's elements show; `prevShown`/`nextShown` is `display: flex` versus `none`. */
  datatype Display = Display(
    imageSrc: string,
    imageAlt: string,
    title: string,
    description: string,
    counter: string,
    prevShown: bool,
    nextShown: bool)

  /** `Array.prototype.findIndex` with `===`: the first position of `x` in `s`, or -1. */
  function FindIndex(s: seq<Image>, x: Image): (r: int)
    ensures -1 <= r < |s|
    ensures r == -1 <==> x !in s
    ensures 0 <= r ==> s[r] == x && x !in s[..r]
  {
    if s == [] then -1
    else if s[0] == x then 0
    else
      var r := FindIndex(s[1..], x);
      if r == -1 then -1
      else
        assert s[..r + 1] == [s[0]] + s[1..][..r];
        r + 1
  }

  /** The display `updateModalContent` produces for image `i` of `images`. */
  function Rendered(images: seq<Image>, name: string, i: int): Display
    requires 0 <= i < |images|
  {
    var image := images[i];
    Display(image.src, image.alt, name, image.alt, Counter(i + 1, |images|),
            |images| > 1, |images| > 1)
  }

  /**
   * The rendered display shows image `i`, titled by the project, with a
   * counter that reads position `i + 1` of `|images|`, and arrows exactly
   * when there is more than one image.
   */
  lemma RenderedShows(images: seq<Image>, name: string, i: int)
    requires 0 <= i < |images|
    ensures Rendered(images, name, i).imageSrc == images[i].src
    ensures Rendered(images, name, i).imageAlt == images[i].alt
    ensures Rendered(images, name, i).description == images[i].alt
    ensures Rendered(images, name, i).title == name
    ensures ParseCounter(Rendered(images, name, i).counter) == Some((i + 1, |images|))
    ensures Rendered(images, name, i).prevShown <==> |images| > 1
    ensures Rendered(images, name, i).nextShown <==> |images| > 1
  {
    CounterRoundTrip(i + 1, |images|);
  }

  class Lightbox {
    var images: seq<Image>      // currentImages
    var index: int              // currentImageIndex
    var projectName: string     // currentProjectName
    var isOpen: bool            // the modal has the `active` class
    var display: Display
    var touchStartX: int        // closure variables of setupTouchNavigation
    var touchStartY: int

    /** Once a gallery is stored the index points into it, and an open modal has a gallery. */
    ghost predicate Valid()
      reads this
    {
      && 0 <= index
      && (images != [] ==> index < |images|)
      && (isOpen ==> images != [])
    }

    /** The application starts with no gallery, index 0 and the modal closed. */
    constructor (initial: Display)
      ensures Valid()
      ensures images == [] && index == 0 && projectName == "" && !isOpen
      ensures display == initial && touchStartX == 0 && touchStartY == 0
    {
      images, index, projectName := [], 0, "";
      isOpen := false;
      display := initial;
      touchStartX, touchStartY := 0, 0;
    }

    /**
     * Opens the modal on `clicked`. `card` is the enclosing project card,
     * if any. Nothing changes when there is no card or the image is not
     * among its screenshots.
     */
    method OpenModal(clicked: Image, card: Option<ProjectCard>)
      requires Valid()
      modifies this
      ensures Valid()
      ensures card.None? || clicked !in card.value.images ==> unchanged(this)
      ensures card.Some? && clicked in card.value.images ==>
        && images == card.value.images
        && projectName == card.value.name
        && index == FindIndex(images, clicked)
        && images[index] == clicked
        && isOpen
        && display == Rendered(images, projectName, index)
        && touchStartX == old(touchStartX) && touchStartY == old(touchStartY)
    {
      if card.None? {
        return;
      }
      var projectImages := card.value.images;
      var clickedIndex := FindIndex(projectImages, clicked);
      if clickedIndex == -1 {
        return;
      }
      images := projectImages;
      projectName := card.value.name;
      index := clickedIndex;
      UpdateModalContent();
      isOpen := true;
    }

    /** Closes the modal: only the `active` flag changes; gallery and index stay. */
    method CloseModal()
      requires Valid()
      modifies this
      ensures Valid()
      ensures !isOpen
      ensures images == old(images) && index == old(index) && projectName == old(projectName)
      ensures display == old(display)
      ensures touchStartX == old(touchStartX) && touchStartY == old(touchStartY)
    {
      isOpen := false;
    }

    /**
     * Renders the current image. With no images or an index out of range
     * the display is left as it was.
     */
    method UpdateModalContent()
      modifies this`display
      ensures images == [] || index < 0 || index >= |images| ==> display == old(display)
      ensures images != [] && 0 <= index < |images| ==>
        display == Rendered(images, projectName, index)
    {
      if |images| == 0 {
        return;
      }
      if index < 0 || index >= |images| {
        return;
      }
      display := Rendered(images, projectName, index);
    }

    /** Steps back one image, wrapping from the first to the last; a no-op for one image or none. */
    method PreviousImage()
      requires Valid()
      modifies this
      ensures Valid()
      ensures index == if |images| <= 1 then old(index) else PrevIndex(old(index), |images|)
      ensures images == old(images) && projectName == old(projectName) && isOpen == old(isOpen)
      ensures |images| <= 1 ==> display == old(display)
      ensures |images| > 1 ==> display == Rendered(images, projectName, index)
      ensures touchStartX == old(touchStartX) && touchStartY == old(touchStartY)
    {
      if |images| <= 1 {
        return;
      }
      PrevIndexWraps(index, |images|);
      index := PrevIndex(index, |images|);
      UpdateModalContent();
    }

    /** Steps forward one image, wrapping from the last to the first; a no-op for one image or none. */
    method NextImage()
      requires Valid()
      modifies this
      ensures Valid()
      ensures index == if |images| <= 1 then old(index) else NextIndex(old(index), |images|)
      ensures images == old(images) && projectName == old(projectName) && isOpen == old(isOpen)
      ensures |images| <= 1 ==> display == old(display)
      ensures |images| > 1 ==> display == Rendered(images, projectName, index)
      ensures touchStartX == old(touchStartX) && touchStartY == old(touchStartY)
    {
      if |images| <= 1 {
        return;
      }
      NextIndexWraps(index, |images|);
      index := NextIndex(index, |images|);
      UpdateModalContent();
    }

    /** The document `keydown` handler: ignored unless the modal is active. */
    method HandleKeyDown(key: Key)
      requires Valid()
      modifies this
      ensures Valid()
      ensures !old(isOpen) || key !in {Escape, ArrowLeft, ArrowRight} ==> unchanged(this)
      ensures images == old(images) && projectName == old(projectName)
      ensures touchStartX == old(touchStartX) && touchStartY == old(touchStartY)
      ensures old(isOpen) && key == Escape ==>
        !isOpen && index == old(index) && display == old(display)
      ensures old(isOpen) && key == ArrowLeft ==>
        isOpen && index == (if |images| <= 1 then old(index) else PrevIndex(old(index), |images|))
      ensures old(isOpen) && key == ArrowRight ==>
        isOpen && index == (if |images| <= 1 then old(index) else NextIndex(old(index), |images|))
      ensures old(isOpen) && key in {ArrowLeft, ArrowRight} ==>
        display == if |images| <= 1 then old(display) else Rendered(images, projectName, index)
    {
      if !isOpen {
        return;
      }
      match key {
        case Escape => CloseModal();
        case ArrowLeft => PreviousImage();
        case ArrowRight => NextImage();
        case _ =>
      }
    }

    /** `touchstart` on the modal image: remembers where the touch began. */
    method TouchStart(x: int, y: int)
      modifies this`touchStartX, this`touchStartY
      ensures touchStartX == x && touchStartY == y
    {
      touchStartX, touchStartY := x, y;
    }

    /**
     * `touchend` on the modal image: classifies the touch against the last
     * `touchstart` and navigates. The handler does not consult `isOpen`.
     */
    method TouchEnd(x: int, y: int)
      requires Valid()
      modifies this
      ensures Valid()
      ensures images == old(images) && projectName == old(projectName) && isOpen == old(isOpen)
      ensures touchStartX == old(touchStartX) && touchStartY == old(touchStartY)
      ensures index == match Classify(x - old(touchStartX), y - old(touchStartY))
        case ShowPrevious => if |images| <= 1 then old(index) else PrevIndex(old(index), |images|)
        case ShowNext => if |images| <= 1 then old(index) else NextIndex(old(index), |images|)
        case Ignore => old(index)
      ensures display ==
        if Classify(x - old(touchStartX), y - old(touchStartY)) == Ignore || |images| <= 1
        then old(display) else Rendered(images, projectName, index)
    {
      match Classify(x - touchStartX, y - touchStartY) {
        case ShowPrevious => PreviousImage();
        case ShowNext => NextImage();
        case Ignore =>
      }
    }
  }
}
