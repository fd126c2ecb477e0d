/**
 * A room card (`RoomCard`): the thumbnail or, lacking one, the room-type icon, the image count
 * badge and a preview of the first two features.
 */
module Card {
  import opened Wrappers
  import opened ImageUrl
  import opened Listing

  /** The seven icons of the `icons` table. */
  datatype RoomIcon = LivingIcon | BedroomIcon | KitchenIcon | BathroomIcon | HallwayIcon | BalconyIcon | StorageIcon

  /**
   * The separator of the feature preview as the source file holds it: the bytes C3 82 C2 B7,
   * which decode to "Â·", the UTF-8 middle dot read once as Latin-1 and encoded again.
   */
  const FeatureSeparatorAsWritten: string := " \U{00C2}\U{00B7} "

  /** The intended separator: a middle dot between spaces, as the hero's facts line uses. */
  const FeatureSeparator: string := " \U{00B7} "

  /** The key under which the `icons` table holds `icon`. */
  function TypeName(icon: RoomIcon): string {
    match icon
    case LivingIcon => "living"
    case BedroomIcon => "bedroom"
    case KitchenIcon => "kitchen"
    case BathroomIcon => "bathroom"
    case HallwayIcon => "hallway"
    case BalconyIcon => "balcony"
    case StorageIcon => "storage"
  }

  /** True when `t` is one of the seven keys of the table. */
  predicate IsKnownType(t: string) {
    t in {"living", "bedroom", "kitchen", "bathroom", "hallway", "balcony", "storage"}
  }

  /** `getRoomIcon(type)`: `icons[type] || icons.living`. */
  function IconFor(roomType: Option<string>): (r: RoomIcon)
    ensures roomType.Some? && IsKnownType(roomType.value) ==> TypeName(r) == roomType.value
    ensures roomType.None? || !IsKnownType(roomType.value) ==> r == LivingIcon
  {
    match roomType
    case None => LivingIcon
    case Some(t) =>
      if t == "bedroom" then BedroomIcon
      else if t == "kitchen" then KitchenIcon
      else if t == "bathroom" then BathroomIcon
      else if t == "hallway" then HallwayIcon
      else if t == "balcony" then BalconyIcon
      else if t == "storage" then StorageIcon
      else LivingIcon
  }

  /** Every icon is found under its own key: the table and its keys are a bijection. */
  lemma IconForTypeName(icon: RoomIcon)
    ensures IsKnownType(TypeName(icon)) && IconFor(Some(TypeName(icon))) == icon
  {
  }

  /** `room.images?.[0] ? getImageUrl(room.images[0]) : null`: a truthy (non-empty) first path. */
  function Thumbnail(room: Room): (r: Option<string>)
    ensures r.Some? <==> room.images.Some? && |room.images.value| > 0 && room.images.value[0] != ""
    ensures r.Some? ==> r.value == Resolve(room.images.value[0])
  {
    match room.images
    case None => None
    case Some(imgs) => if |imgs| > 0 && imgs[0] != "" then Some(Resolve(imgs[0])) else None
  }

  /** `room.images?.length || 0`. */
  function ImageCount(room: Room): (n: nat)
    ensures n == |RoomImages(room)|
  {
    match room.images
    case None => 0
    case Some(imgs) => |imgs|
  }

  /** The count badge is drawn iff the room has more than one image. */
  predicate ShowsCountBadge(room: Room) {
    ImageCount(room) > 1
  }

  /** `list.join(sep)`. */
  function Join(list: seq<string>, sep: string): (r: string)
    ensures list == [] ==> r == ""
    ensures |list| == 1 ==> r == list[0]
    ensures |list| == 2 ==> r == list[0] + sep + list[1]
  {
    if list == [] then ""
    else if |list| == 1 then list[0]
    else Join(list[..|list| - 1], sep) + sep + list[|list| - 1]
  }

  /**
   * `room.features.slice(0, 2).join(sep)`, shown only when the feature list is present and
   * non-empty: the first feature alone, or the first two around the separator.
   */
  function PreviewWith(room: Room, sep: string): (r: Option<string>)
    ensures r.Some? <==> room.features.Some? && |room.features.value| > 0
    ensures r.Some? && |room.features.value| == 1 ==> r.value == room.features.value[0]
    ensures r.Some? && |room.features.value| >= 2 ==>
      r.value == room.features.value[0] + sep + room.features.value[1]
  {
    match room.features
    case None => None
    case Some(fs) =>
      if |fs| == 0 then None
      else
        var firstTwo := if |fs| < 2 then fs else fs[..2];
        assert |firstTwo| == 2 ==> firstTwo[..1] == [fs[0]];
        Some(Join(firstTwo, sep))
  }

  /** The preview as the card draws it, with the garbled separator. */
  function FeaturePreviewAsWritten(room: Room): Option<string>
  {
    PreviewWith(room, FeatureSeparatorAsWritten)
  }

  /** Two features come out with a stray 'Â' before the dot. */
  lemma GarbledSeparatorShows(room: Room)
    requires room.features == Some(["Oak floor", "Fireplace"])
    ensures FeaturePreviewAsWritten(room) == Some("Oak floor \U{00C2}\U{00B7} Fireplace")
    ensures '\U{00C2}' in FeaturePreviewAsWritten(room).value
  {
    assert "Oak floor" + FeatureSeparatorAsWritten + "Fireplace" == "Oak floor \U{00C2}\U{00B7} Fireplace";
    assert FeaturePreviewAsWritten(room).value[10] == '\U{00C2}';
  }

  /** The preview with the intended separator. */
  function FeaturePreview(room: Room): Option<string>
  {
    PreviewWith(room, FeatureSeparator)
  }

  /** With the intended separator, two features are joined by exactly one middle dot and no 'Â'. */
  lemma FeaturePreviewSeparator(room: Room)
    requires room.features.Some? && |room.features.value| >= 2
    requires '\U{00B7}' !in room.features.value[0] && '\U{00C2}' !in room.features.value[0]
    ensures var r := FeaturePreview(room).value; var f0 := room.features.value[0];
      && r[..|f0|] == f0
      && r[|f0|..|f0| + 3] == [' ', '\U{00B7}', ' ']
      && r[|f0|..|f0| + 3] == FeatureSeparator
      && '\U{00C2}' !in r[..|f0| + 3]
  {
    var r := FeaturePreview(room).value;
    var f0 := room.features.value[0];
    assert r == f0 + FeatureSeparator + room.features.value[1];
    assert r[..|f0| + 3] == f0 + FeatureSeparator;
  }

  /** What the card shows in its image area: the thumbnail, or the room-type icon when there is none. */
  datatype Cover = Photo(url: string) | Icon(icon: RoomIcon)

  function CardCover(room: Room): (c: Cover)
    ensures c.Photo? <==> Thumbnail(room).Some?
    ensures c.Photo? ==> c.url == Resolve(room.images.value[0])
    ensures c.Icon? ==> c.icon == IconFor(room.roomType)
  {
    match Thumbnail(room)
    case Some(url) => Photo(url)
    case None => Icon(IconFor(room.roomType))
  }
}
