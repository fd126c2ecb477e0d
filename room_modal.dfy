/**
 * The per-room photo overlay (`RoomModal`): one room's images with a current index that starts
 * at 0 and returns to 0 whenever a different room is passed in. Arrows, thumbnails and the
 * counter exist only when the room has more than one image.
 */
module RoomViewer {
  import opened Wrappers
  import opened ImageUrl
  import opened Carousel
  import opened Listing

  /**
   * What the overlay shows for a room: the large image (when the room has any), whether the
   * arrows are drawn, the thumbnail strip and the counter `(currentImageIndex + 1, images.length)`.
   */
  datatype Screen = Screen(
    main: Option<string>,
    arrows: bool,
    strip: seq<string>,
    counter: Option<(nat, nat)>)

  class RoomModal {
    var room: Option<Room>
    var currentImageIndex: nat
    /** The room the `[room]` effect last ran for: the dependency React compares after each render. */
    var effectRoom: Option<Room>

    /** `room.images || []`, or nothing while no room is given. */
    function Images(): seq<ImagePath>
      reads this
    {
      if room.Some? then RoomImages(room.value) else []
    }

    /** `images.length > 1`: the condition for arrows, strip and counter. */
    predicate HasMultipleImages()
      reads this
    {
      |Images()| > 1
    }

    /**
     * The overlay can be rendered: the index points at an image, or the room has none and the
     * large image is not drawn. Otherwise `images[currentImageIndex]` is undefined and
     * `getImageUrl` throws while rendering.
     */
    predicate Valid()
      reads this
    {
      currentImageIndex < |Images()| || |Images()| == 0
    }

    /** The `[room]` effect has run for the current room, so no reset is pending. */
    predicate Settled()
      reads this
    {
      effectRoom == room
    }

    /** Mounting with `room`: the index starts at 0 and the effect runs for that room. */
    constructor (room: Option<Room>)
      ensures this.room == room && currentImageIndex == 0 && Settled()
      ensures Valid()
    {
      this.room := room;
      currentImageIndex := 0;
      effectRoom := room;
    }

    /**
     * The host passes a (possibly different) room. The state is kept as it is: the next render
     * uses the new room with the old index, and the reset waits for the effect.
     */
    method ReceiveRoom(r: Option<Room>)
      modifies this
      ensures room == r
      ensures currentImageIndex == old(currentImageIndex) && effectRoom == old(effectRoom)
    {
      room := r;
    }

    /**
     * The effects that follow a successful render (which needs `Valid()`): the effect on `[room]`
     * resets the index to 0 when the room differs from the one it last ran for.
     */
    method RunEffects()
      requires Valid()
      modifies this
      ensures room == old(room) && Settled()
      ensures currentImageIndex == if old(room) != old(effectRoom) then 0 else old(currentImageIndex)
      ensures Valid()
    {
      if room != effectRoom {
        currentImageIndex := 0;
      }
      effectRoom := room;
    }

    /** `nextImage`, reachable only through the arrow that exists when there are several images. */
    method NextImage()
      requires HasMultipleImages()
      modifies this
      ensures room == old(room) && effectRoom == old(effectRoom)
      ensures currentImageIndex == NextIndex(old(currentImageIndex), |Images()|)
      ensures Valid()
    {
      currentImageIndex := (currentImageIndex + 1) % |Images()|;
    }

    /** `prevImage`, reachable only through the arrow that exists when there are several images. */
    method PrevImage()
      requires HasMultipleImages()
      modifies this
      ensures room == old(room) && effectRoom == old(effectRoom)
      ensures currentImageIndex == PrevIndex(old(currentImageIndex), |Images()|)
      ensures Valid()
    {
      currentImageIndex := (currentImageIndex - 1 + |Images()|) % |Images()|;
    }

    /** Clicking thumbnail `k` of the strip (drawn only for several images) shows image `k`. */
    method SelectThumbnail(k: nat)
      requires HasMultipleImages() && k < |Images()|
      modifies this
      ensures room == old(room) && effectRoom == old(effectRoom) && currentImageIndex == k
      ensures Valid()
    {
      currentImageIndex := k;
    }

    /** The `keydown` listener: only Escape is bound, and it asks the host to close; nothing changes. */
    method HandleKey(key: Key) returns (close: bool)
      ensures close <==> key == Escape
    {
      close := key == Escape;
    }

    /**
     * The rendered overlay: nothing without a room; the large image only when the room has an
     * image; arrows, strip and counter exactly when it has more than one.
     */
    function View(): (s: Option<Screen>)
      requires Valid()
      reads this
      ensures s.Some? <==> room.Some?
      ensures s.Some? ==> (s.value.main.Some? <==> |Images()| > 0)
      ensures s.Some? && s.value.main.Some? ==> s.value.main.value == Resolve(Images()[currentImageIndex])
      ensures s.Some? ==> (s.value.arrows <==> HasMultipleImages())
      ensures s.Some? ==> (s.value.counter.Some? <==> HasMultipleImages())
      ensures s.Some? && s.value.counter.Some? ==> s.value.counter.value == (currentImageIndex + 1, |Images()|)
      ensures s.Some? ==> |s.value.strip| == (if HasMultipleImages() then |Images()| else 0)
      ensures s.Some? ==> forall k :: 0 <= k < |s.value.strip| ==> s.value.strip[k] == Resolve(Images()[k])
    {
      if room.None? then None
      else
        var images := Images();
        var multiple := |images| > 1;
        Some(Screen(
          if |images| > 0 then Some(Resolve(images[currentImageIndex])) else None,
          multiple,
          if multiple then ResolveAll(images) else [],
          if multiple then Some((currentImageIndex + 1, |images|)) else None))
    }
  }

  /** Three images from index 0: next, next, next visits 1, 2 and wraps to 0. */
  method ThreeImageTour(r: Room) returns (visited: seq<nat>)
    requires |RoomImages(r)| == 3
    ensures visited == [1, 2, 0]
  {
    var m := new RoomModal(Some(r));
    visited := [];
    m.NextImage();
    visited := visited + [m.currentImageIndex];
    m.NextImage();
    visited := visited + [m.currentImageIndex];
    m.NextImage();
    visited := visited + [m.currentImageIndex];
  }

  /**
   * Swapping from room A at image 2 to a different room B that has no images or at least three:
   * the render in between succeeds and the effect then resets the index to 0.
   */
  method SwapRoomResets(a: Room, b: Room) returns (before: nat, after: nat)
    requires |RoomImages(a)| == 3 && a != b
    requires |RoomImages(b)| == 0 || |RoomImages(b)| > 2
    ensures before == 2 && after == 0
  {
    var m := new RoomModal(Some(a));
    m.SelectThumbnail(2);
    before := m.currentImageIndex;
    m.ReceiveRoom(Some(b));
    m.RunEffects();
    after := m.currentImageIndex;
  }

  /**
   * Swapping from room A at image 2 to a room B with one or two images: the render that follows
   * still uses index 2, which B does not have, so it throws before the reset can run.
   */
  method SwapToSmallRoomCannotRender(a: Room, b: Room) returns (renders: bool)
    requires |RoomImages(a)| == 3
    requires 1 <= |RoomImages(b)| <= 2
    ensures !renders
  {
    var m := new RoomModal(Some(a));
    m.SelectThumbnail(2);
    m.ReceiveRoom(Some(b));
    renders := m.Valid();
  }
}
