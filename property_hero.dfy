/**
 * The hero section (`PropertyHero`): the first five images of the combined list, one large and
 * up to four small ones, and the "show all photos" button, the only way to open the gallery.
 */
module Hero {
  import opened Wrappers
  import opened ImageUrl
  import opened Listing

  /** How many images the hero shows at most. */
  const MaxShown: nat := 5

  /** A small image: its locator and its position label (`index + 2`). */
  datatype SideImage = SideImage(url: string, position: nat)

  datatype HeroView = HeroView(main: Option<string>, side: seq<SideImage>, showAllButton: bool)

  /** `allImages`: the same combined list the gallery receives. */
  function AllImages(p: Property): seq<ImagePath> {
    CombinedImages(p)
  }

  /** `allImages.slice(0, 5)`: the first `min(5, |allImages|)` images. */
  function DisplayImages(p: Property): (r: seq<ImagePath>)
    ensures |r| == if |AllImages(p)| < MaxShown then |AllImages(p)| else MaxShown
    ensures forall k :: 0 <= k < |r| ==> r[k] == AllImages(p)[k]
  {
    var all := AllImages(p);
    if |all| < MaxShown then all else all[..MaxShown]
  }

  /** The "show all photos" button is drawn iff there are more than five images. */
  predicate ShowsAllPhotosButton(p: Property) {
    |AllImages(p)| > MaxShown
  }

  /** The large image: drawn only for a truthy first image (`displayImages[0] && ...`), so an empty path shows none. */
  function MainImage(p: Property): (r: Option<string>)
    ensures r.Some? <==> |AllImages(p)| > 0 && AllImages(p)[0] != ""
    ensures r.Some? ==> r.value == Resolve(AllImages(p)[0])
  {
    var shown := DisplayImages(p);
    if |shown| > 0 && shown[0] != "" then Some(Resolve(shown[0])) else None
  }

  /** Every shown image after the first, resolved and labelled with its position `index + 2`. */
  function SideOf(shown: seq<ImagePath>): (r: seq<SideImage>)
    ensures |r| == if |shown| > 0 then |shown| - 1 else 0
    ensures forall k :: 0 <= k < |r| ==> r[k] == SideImage(Resolve(shown[k + 1]), k + 2)
  {
    if |shown| == 0 then []
    else
      var urls := ResolveAll(shown[1..]);
      var r := seq(|urls|, k requires 0 <= k < |urls| => SideImage(urls[k], k + 2));
      assert forall k :: 0 <= k < |r| ==> r[k] == SideImage(Resolve(shown[k + 1]), k + 2) by {
        forall k | 0 <= k < |r|
          ensures r[k] == SideImage(Resolve(shown[k + 1]), k + 2)
        {
          assert shown[1..][k] == shown[k + 1];
        }
      }
      r
  }

  /** `displayImages.slice(1, 5)`, each labelled with its position `index + 2`. */
  function SideImages(p: Property): (r: seq<SideImage>)
    ensures |r| == if |DisplayImages(p)| > 0 then |DisplayImages(p)| - 1 else 0
    ensures forall k :: 0 <= k < |r| ==> r[k] == SideImage(Resolve(AllImages(p)[k + 1]), k + 2)
  {
    SideOf(DisplayImages(p))
  }

  /** The rendered hero; nothing without a property. */
  function View(p: Option<Property>): (v: Option<HeroView>)
    ensures v.Some? <==> p.Some?
    ensures v.Some? ==> v.value == HeroView(MainImage(p.value), SideImages(p.value), ShowsAllPhotosButton(p.value))
  {
    match p
    case None => None
    case Some(prop) => Some(HeroView(MainImage(prop), SideImages(prop), ShowsAllPhotosButton(prop)))
  }

  /** At most four small images beside the large one. */
  lemma SideImagesAtMostFour(p: Property)
    ensures |SideImages(p)| <= MaxShown - 1
  {
  }

  /** The button that opens the gallery is drawn exactly when the hero leaves some photo unshown. */
  lemma ButtonIffPhotosHidden(p: Property)
    ensures ShowsAllPhotosButton(p) <==> |DisplayImages(p)| < |CombinedImages(p)|
  {
  }
}
