/**
 * The page host (`App`): which screen the page shows for the state of the property fetch, and
 * the `showGallery` flag that mounts the photo gallery over the combined image list.
 */
module Host {
  import opened Wrappers
  import opened Listing
  import opened Hero
  import opened Gallery

  /** The state of the property fetch as the page receives it: `{ data, loading, error }`. */
  datatype Fetch = Fetch(data: Option<Property>, loading: bool, error: Option<string>)

  /** The screens of the page, in the order the guards test them. */
  datatype Page = LoadingPage | ErrorPage(message: string) | NoPropertyPage | ListingPage(property: Property)

  /** JavaScript truthiness of the error: absent and the empty message are both false. */
  predicate ErrorShown(error: Option<string>) {
    error.Some? && error.value != ""
  }

  /** Render precedence: loading, then error, then no property, then the full page. */
  function RenderPage(f: Fetch): (r: Page)
    ensures r.LoadingPage? <==> f.loading
    ensures r.ErrorPage? <==> !f.loading && ErrorShown(f.error)
    ensures r.ErrorPage? ==> r.message == f.error.value
    ensures r.NoPropertyPage? <==> !f.loading && !ErrorShown(f.error) && f.data.None?
    ensures r.ListingPage? ==> f.data == Some(r.property)
  {
    if f.loading then LoadingPage
    else if ErrorShown(f.error) then ErrorPage(f.error.value)
    else if f.data.None? then NoPropertyPage
    else ListingPage(f.data.value)
  }

  class App {
    var fetch: Fetch
    var showGallery: bool
    /** The mounted photo gallery, present exactly while `showGallery` is set. */
    var gallery: PhotoGallery?

    /**
     * The gallery is mounted only over the full page, with the page's combined image list,
     * which then holds more than five images.
     */
    ghost predicate Valid()
      reads this
    {
      && (gallery == null <==> !showGallery)
      && (showGallery ==>
            && RenderPage(fetch).ListingPage?
            && gallery.images == CombinedImages(RenderPage(fetch).property)
            && |gallery.images| > MaxShown)
    }

    /** Mounting: the fetch is under way and `showGallery` starts false. */
    constructor ()
      ensures fetch == Fetch(None, true, None) && !showGallery && gallery == null
      ensures Valid()
    {
      fetch := Fetch(None, true, None);
      showGallery := false;
      gallery := null;
    }

    /** The fetch settles (data or error, loading cleared); the gallery is not open yet. */
    method FetchSettled(data: Option<Property>, error: Option<string>)
      requires fetch.loading && !showGallery
      modifies this
      ensures fetch == Fetch(data, false, error) && !showGallery && gallery == null
      ensures Valid()
    {
      fetch := Fetch(data, false, error);
      gallery := null;
    }

    /**
     * The hero's show-all callback, `setShowGallery(true)`, reachable only through the button the
     * hero draws for more than five images. A newly mounted gallery starts at image 0 in the
     * single view; an open one is left as it is.
     */
    method ShowAllPhotos()
      requires Valid()
      requires RenderPage(fetch).ListingPage? && ShowsAllPhotosButton(RenderPage(fetch).property)
      modifies this
      ensures showGallery && fetch == old(fetch) && Valid()
      ensures old(gallery) == null ==> fresh(gallery) && gallery.currentIndex == 0 && gallery.viewMode == Single
      ensures old(gallery) != null ==> gallery == old(gallery)
    {
      if gallery == null {
        gallery := new PhotoGallery(CombinedImages(RenderPage(fetch).property));
      }
      showGallery := true;
    }

    /** The gallery's `onClose`, `setShowGallery(false)`: unmounts it. */
    method CloseGallery()
      modifies this
      ensures !showGallery && gallery == null && fetch == old(fetch)
      ensures old(Valid()) ==> Valid()
    {
      showGallery := false;
      gallery := null;
    }

    /** The gallery is drawn iff `showGallery` is set, and only over the full page. */
    predicate GalleryShown()
      reads this
    {
      RenderPage(fetch).ListingPage? && showGallery
    }
  }

  /** An open gallery always has images, so its arrows and arrow keys are well defined. */
  lemma OpenGalleryCanNavigate(app: App)
    requires app.Valid() && app.showGallery
    ensures app.gallery != null && |app.gallery.images| > 0
  {
  }

  /** Opening the gallery, pressing Escape and closing leaves the page without a gallery. */
  method OpenAndEscape(p: Property) returns (close: bool, shownAfter: bool)
    requires ShowsAllPhotosButton(p)
    ensures close && !shownAfter
  {
    var app := new App();
    app.FetchSettled(Some(p), None);
    app.ShowAllPhotos();
    var g := app.gallery;
    g.GoNext();
    close := g.HandleKey(Carousel.Escape);
    app.CloseGallery();
    shownAfter := app.GalleryShown();
  }
}
