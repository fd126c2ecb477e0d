/**
 * The room grid (`RoomGrid`): one card per room and the room modal, mounted while a room is
 * selected. Selecting a card sets `selectedRoom`; the modal's close clears it.
 */
module Grid {
  import opened Wrappers
  import opened Listing
  import opened RoomViewer

  class RoomGrid {
    const rooms: Option<seq<Room>>
    var selectedRoom: Option<Room>
    /** The mounted room modal, present exactly while a room is selected. */
    var modal: RoomModal?

    ghost predicate Valid()
      reads this, modal
    {
      && (modal == null <==> selectedRoom.None?)
      && (modal != null ==> modal.room == selectedRoom)
      && (selectedRoom.Some? ==> Rendered() && selectedRoom.value in rooms.value)
    }

    /** `!rooms || rooms.length === 0` renders nothing: no heading, no cards, no modal. */
    predicate Rendered() {
      rooms.Some? && |rooms.value| > 0
    }

    /** The heading's count: `rooms.length`. */
    function RoomCount(): (n: nat)
      requires Rendered()
      ensures n == |rooms.value| && n > 0
    {
      |rooms.value|
    }

    constructor (rooms: Option<seq<Room>>)
      ensures this.rooms == rooms && selectedRoom == None && modal == null
      ensures Valid()
    {
      this.rooms := rooms;
      selectedRoom := None;
      modal := null;
    }

    /**
     * A card's click passes that card's room to `setSelectedRoom`. A newly mounted modal starts
     * at image 0; a modal already mounted receives the room with its index as it was, so its
     * next render can fail (`modal.Valid()` false) before its reset effect runs.
     */
    method SelectRoom(r: Room)
      requires Valid() && Rendered() && r in rooms.value
      modifies this, modal
      ensures selectedRoom == Some(r) && Valid()
      ensures old(modal) == null ==> fresh(modal) && modal.currentImageIndex == 0 && modal.Settled() && modal.Valid()
      ensures old(modal) != null ==>
        && modal == old(modal)
        && modal.currentImageIndex == old(modal.currentImageIndex)
        && modal.effectRoom == old(modal.effectRoom)
    {
      if modal == null {
        modal := new RoomModal(Some(r));
      } else {
        modal.ReceiveRoom(Some(r));
      }
      selectedRoom := Some(r);
    }

    /** The modal's `onClose`: clears the selection, which unmounts the modal. */
    method CloseModal()
      modifies this
      ensures selectedRoom == None && modal == null && Valid()
    {
      selectedRoom := None;
      modal := null;
    }

    /** The modal is drawn iff a room is selected (and the grid itself is drawn). */
    predicate ModalShown()
      reads this
    {
      Rendered() && selectedRoom.Some?
    }
  }

  /** Closing and reopening a room always starts its images from the first one. */
  method ReopenStartsAtFirstImage(rooms: seq<Room>, a: Room) returns (beforeClose: nat, afterReopen: nat)
    requires a in rooms && |RoomImages(a)| > 1
    ensures beforeClose == 1 && afterReopen == 0
  {
    var g := new RoomGrid(Some(rooms));
    g.SelectRoom(a);
    g.modal.NextImage();
    beforeClose := g.modal.currentImageIndex;
    g.CloseModal();
    g.SelectRoom(a);
    afterReopen := g.modal.currentImageIndex;
  }

  /**
   * With room A open at its third image, activating the card of a room B with one or two images
   * leaves the mounted modal at index 2, which B's images do not reach: that render throws.
   */
  method SwitchToSmallRoomCannotRender(rooms: seq<Room>, a: Room, b: Room) returns (renders: bool)
    requires a in rooms && b in rooms
    requires |RoomImages(a)| == 3 && 1 <= |RoomImages(b)| <= 2
    ensures !renders
  {
    var g := new RoomGrid(Some(rooms));
    g.SelectRoom(a);
    g.modal.SelectThumbnail(2);
    g.SelectRoom(b);
    renders := g.modal.Valid();
  }

  /**
   * Switching to a room B with no images or at least three renders, and the effect that follows
   * shows B from its first image.
   */
  method SwitchRoomThenReset(rooms: seq<Room>, a: Room, b: Room) returns (after: nat)
    requires a in rooms && b in rooms && a != b
    requires |RoomImages(a)| == 3 && (|RoomImages(b)| == 0 || |RoomImages(b)| > 2)
    ensures after == 0
  {
    var g := new RoomGrid(Some(rooms));
    g.SelectRoom(a);
    g.modal.SelectThumbnail(2);
    g.SelectRoom(b);
    g.modal.RunEffects();
    after := g.modal.currentImageIndex;
  }
}
