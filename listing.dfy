/**
 * The listing records as the frontend receives them, and the combined image list that the
 * hero and the gallery both build: the property's own images followed by every room's images,
 * room by room.
 */
module Listing {
  import opened Wrappers
  import opened ImageUrl

  /** A room as delivered to the page. A field the record lacks is `None`. */
  datatype Room = Room(
    id: int,
    name: string,
    roomType: Option<string>,
    dimensions: Option<string>,
    description: string,
    features: Option<seq<string>>,
    images: Option<seq<ImagePath>>,
    displayOrder: int)

  /** A property as delivered to the page, with only the fields the core reads. */
  datatype Property = Property(
    id: int,
    address: string,
    images: Option<seq<ImagePath>>,
    rooms: Option<seq<Room>>)

  /** `room.images || []`. */
  function RoomImages(room: Room): seq<ImagePath> {
    room.images.GetOr([])
  }

  /** `rooms.flatMap(room => room.images)`, a missing list contributing nothing. */
  function FlatImages(rooms: seq<Room>): (r: seq<ImagePath>)
    ensures rooms == [] ==> r == []
  {
    if rooms == [] then [] else FlatImages(rooms[..|rooms| - 1]) + RoomImages(rooms[|rooms| - 1])
  }

  /** The combined list: `[...(property.images || []), ...(property.rooms?.flatMap(...) || [])]`. */
  function CombinedImages(p: Property): (r: seq<ImagePath>)
    ensures |r| == |p.images.GetOr([])| + |FlatImages(p.rooms.GetOr([]))|
    ensures r[..|p.images.GetOr([])|] == p.images.GetOr([])
  {
    p.images.GetOr([]) + FlatImages(p.rooms.GetOr([]))
  }

  /** The number of images all the rooms hold together. */
  function TotalRoomImages(rooms: seq<Room>): nat {
    if rooms == [] then 0 else |RoomImages(rooms[0])| + TotalRoomImages(rooms[1..])
  }

  /** Flattening distributes over joining room lists. */
  lemma {:induction false} FlatImagesAppend(a: seq<Room>, b: seq<Room>)
    ensures FlatImages(a + b) == FlatImages(a) + FlatImages(b)
  {
    if b != [] {
      var c := a + b;
      assert c[..|c| - 1] == a + b[..|b| - 1];
      assert c[|c| - 1] == b[|b| - 1];
      FlatImagesAppend(a, b[..|b| - 1]);
    } else {
      assert a + b == a;
    }
  }

  /** The combined room part is as long as all the rooms' lists together. */
  lemma {:induction false} FlatImagesLength(rooms: seq<Room>)
    ensures |FlatImages(rooms)| == TotalRoomImages(rooms)
  {
    if rooms != [] {
      FlatImagesAppend([rooms[0]], rooms[1..]);
      assert [rooms[0]] + rooms[1..] == rooms;
      assert [rooms[0]][..0] == [];
      FlatImagesLength(rooms[1..]);
    }
  }

  /** Where the images of room `k` begin in the flattened list. */
  function RoomOffset(rooms: seq<Room>, k: nat): nat
    requires k <= |rooms|
  {
    |FlatImages(rooms[..k])|
  }

  /** Image `j` of room `k` sits at `RoomOffset(rooms, k) + j`: rooms keep their order and each keeps its own. */
  lemma FlatImagesAt(rooms: seq<Room>, k: nat, j: nat)
    requires k < |rooms| && j < |RoomImages(rooms[k])|
    ensures RoomOffset(rooms, k) + j < |FlatImages(rooms)|
    ensures FlatImages(rooms)[RoomOffset(rooms, k) + j] == RoomImages(rooms[k])[j]
  {
    assert rooms == rooms[..k] + [rooms[k]] + rooms[k + 1..];
    FlatImagesAppend(rooms[..k] + [rooms[k]], rooms[k + 1..]);
    FlatImagesAppend(rooms[..k], [rooms[k]]);
    assert [rooms[k]][..0] == [];
  }

  /** In the combined list, image `j` of room `k` follows the property's own images and rooms `0..k-1`. */
  lemma CombinedImagesAt(p: Property, k: nat, j: nat)
    requires p.rooms.Some? && k < |p.rooms.value| && j < |RoomImages(p.rooms.value[k])|
    ensures var at := |p.images.GetOr([])| + RoomOffset(p.rooms.value, k) + j;
      at < |CombinedImages(p)| && CombinedImages(p)[at] == RoomImages(p.rooms.value[k])[j]
  {
    FlatImagesAt(p.rooms.value, k, j);
  }

  /** The combined list is as long as the property's list plus every room's list. */
  lemma CombinedImagesLength(p: Property)
    ensures |CombinedImages(p)| == |p.images.GetOr([])| + TotalRoomImages(p.rooms.GetOr([]))
  {
    FlatImagesLength(p.rooms.GetOr([]));
  }
}
