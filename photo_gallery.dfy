/**
 * The property-wide photo gallery overlay (`PhotoGallery`): a current index into the combined
 * image list and a view mode, `single` (one large image with arrows and a thumbnail strip) or
 * `grid` (every image as a thumbnail).
 */
module Gallery {
  import opened Wrappers
  import opened ImageUrl
  import opened Carousel

  datatype ViewMode = Single | Grid

  /**
   * What the overlay shows: the header counter `(currentIndex + 1, images.length)`, the mode,
   * the large image of the single view, the grid thumbnails and the strip thumbnails.
   */
  datatype Screen = Screen(
    counter: (nat, nat),
    mode: ViewMode,
    main: Option<string>,
    grid: seq<string>,
    strip: seq<string>)

  class PhotoGallery {
    const images: seq<ImagePath>
    var currentIndex: nat
    var viewMode: ViewMode

    /** The index points at an image. */
    ghost predicate Valid()
      reads this
    {
      currentIndex < |images|
    }

    /** Mounting with `initialIndex` (0 unless the host passes one) in the single view. */
    constructor (images: seq<ImagePath>, initialIndex: nat := 0)
      ensures this.images == images
      ensures currentIndex == initialIndex && viewMode == Single
      ensures Valid() <==> initialIndex < |images|
    {
      this.images := images;
      currentIndex := initialIndex;
      viewMode := Single;
    }

    /** `goNext` (next arrow, ArrowRight): one image forward, wrapping to the first. */
    method GoNext()
      requires |images| > 0
      modifies this
      ensures currentIndex == NextIndex(old(currentIndex), |images|)
      ensures viewMode == old(viewMode)
      ensures Valid()
    {
      currentIndex := (currentIndex + 1) % |images|;
    }

    /** `goPrev` (previous arrow, ArrowLeft): one image back, wrapping to the last. */
    method GoPrev()
      requires |images| > 0
      modifies this
      ensures currentIndex == PrevIndex(old(currentIndex), |images|)
      ensures viewMode == old(viewMode)
      ensures Valid()
    {
      currentIndex := (currentIndex - 1 + |images|) % |images|;
    }

    /** The single-view mode button: switches the mode and keeps the index. */
    method ShowSingle()
      modifies this
      ensures viewMode == Single && currentIndex == old(currentIndex)
    {
      viewMode := Single;
    }

    /** The grid mode button: switches the mode and keeps the index. */
    method ShowGrid()
      modifies this
      ensures viewMode == Grid && currentIndex == old(currentIndex)
    {
      viewMode := Grid;
    }

    /** Activating grid thumbnail `k`: shows image `k` in the single view, whatever was shown before. */
    method SelectGridImage(k: nat)
      requires viewMode == Grid && k < |images|
      modifies this
      ensures currentIndex == k && viewMode == Single
      ensures Valid()
    {
      currentIndex := k;
      viewMode := Single;
    }

    /** Clicking strip thumbnail `k` (the strip exists only in the single view): jumps to `k`, mode unchanged. */
    method SelectStripImage(k: nat)
      requires viewMode == Single && k < |images|
      modifies this
      ensures currentIndex == k && viewMode == old(viewMode)
      ensures Valid()
    {
      currentIndex := k;
    }

    /**
     * The `keydown` listener, active in both modes: Escape asks the host to close the gallery
     * (the result), ArrowRight and ArrowLeft step the index even while the grid is shown, any
     * other key does nothing. The mode never changes.
     */
    method HandleKey(key: Key) returns (close: bool)
      requires key == ArrowRight || key == ArrowLeft ==> |images| > 0
      modifies this
      ensures close <==> key == Escape
      ensures key == ArrowRight ==> currentIndex == NextIndex(old(currentIndex), |images|)
      ensures key == ArrowLeft ==> currentIndex == PrevIndex(old(currentIndex), |images|)
      ensures key == Escape || key == OtherKey ==> currentIndex == old(currentIndex)
      ensures viewMode == old(viewMode)
      ensures old(Valid()) ==> Valid()
    {
      close := key == Escape;
      if key == ArrowRight {
        GoNext();
      }
      if key == ArrowLeft {
        GoPrev();
      }
    }

    /**
     * The rendered overlay. The counter sits outside the mode conditional, so it is shown in
     * both modes and for a single image too; the large image and the strip exist only in the
     * single view, the grid only in the grid view.
     */
    function View(): (s: Screen)
      requires Valid()
      reads this
      ensures s.counter.0 == currentIndex + 1 && s.counter.1 == |images|
      ensures s.mode == viewMode
      ensures s.main.Some? <==> viewMode == Single
      ensures s.main.Some? ==> s.main.value == Resolve(images[currentIndex])
      ensures |s.strip| == (if viewMode == Single then |images| else 0)
      ensures |s.grid| == (if viewMode == Grid then |images| else 0)
      ensures forall k :: 0 <= k < |s.strip| ==> s.strip[k] == Resolve(images[k])
      ensures forall k :: 0 <= k < |s.grid| ==> s.grid[k] == Resolve(images[k])
    {
      var all := ResolveAll(images);
      match viewMode
      case Single => Screen((currentIndex + 1, |images|), Single, Some(Resolve(images[currentIndex])), [], all)
      case Grid => Screen((currentIndex + 1, |images|), Grid, None, all, [])
    }
  }
}
