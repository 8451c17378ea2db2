/**
 * The destination gallery of the home page and the destinations page: the
 * same category filter over the destinations, and a lightbox that a click
 * opens and either close action shuts.
 */
module Gallery {
  import opened Js
  import opened Seqs
  import opened Catalog

  /** The values of the filter buttons. */
  const FILTER_OPTIONS: seq<string> := ["all", "heritage", "nature", "spiritual"]

  /** "all" lists every destination; any other value those of exactly that category, in order. */
  function FilterDestinations(ds: seq<Destination>, filter: string): (r: seq<Destination>)
    ensures filter == "all" ==> r == ds
    ensures SubSeq(r, ds)
    ensures filter != "all" ==> forall d :: d in r <==> d in ds && d.category == filter
  {
    if filter == "all" then
      SubSeqRefl(ds);
      ds
    else
      var p := (d: Destination) => d.category == filter;
      FilterIsSubSeq(ds, p);
      forall d ensures d in Filter(ds, p) <==> d in ds && p(d) {
        FilterKeeps(ds, p, d);
      }
      Filter(ds, p)
  }

  /** A filter value that no destination carries lists nothing. */
  lemma UnmatchedFilterIsEmpty(ds: seq<Destination>, filter: string)
    requires filter != "all"
    requires forall d :: d in ds ==> d.category != filter
    ensures FilterDestinations(ds, filter) == []
  {
    FilterNone(ds, (d: Destination) => d.category == filter);
  }

  /** Filtering by the category every destination shares lists them all, the same as "all". */
  lemma SharedCategoryListsAll(ds: seq<Destination>, filter: string)
    requires forall d :: d in ds ==> d.category == filter
    ensures FilterDestinations(ds, filter) == ds
  {
    if filter != "all" {
      FilterAll(ds, (d: Destination) => d.category == filter);
    }
  }

  /** A destination is listed under a specific filter iff the filter is its category. */
  lemma ListedUnderOwnCategory(ds: seq<Destination>, d: Destination, o: string)
    requires d in ds && o != "all"
    ensures d in FilterDestinations(ds, o) <==> o == d.category
  {
  }

  /** Every destination's category is offered by one of the specific filter buttons. */
  lemma CategoriesOffered()
    ensures forall d :: d in DESTINATIONS ==> d.category in FILTER_OPTIONS && d.category != "all"
  {
  }

  /** The home page gallery: the active filter and the image shown enlarged, if any. */
  datatype GalleryState = GalleryState(activeFilter: string, lightboxImage: Option<string>)

  /** The gallery starts unfiltered with the lightbox closed. */
  const INITIAL_GALLERY: GalleryState := GalleryState("all", None)

  /** The destinations the gallery shows in state `s`. */
  function GalleryShown(s: GalleryState): (r: seq<Destination>)
    ensures SubSeq(r, DESTINATIONS)
  {
    FilterDestinations(DESTINATIONS, s.activeFilter)
  }

  /** Initially every destination is shown and nothing is enlarged. */
  lemma InitialGalleryShowsAll()
    ensures GalleryShown(INITIAL_GALLERY) == DESTINATIONS && INITIAL_GALLERY.lightboxImage.None?
  {
  }

  /** Clicking a filter button changes the filter and nothing else. */
  function SelectFilter(s: GalleryState, filter: string): (r: GalleryState)
    ensures r.lightboxImage == s.lightboxImage
    ensures GalleryShown(r) == FilterDestinations(DESTINATIONS, filter)
  {
    s.(activeFilter := filter)
  }

  /** Clicking a destination enlarges its image. */
  function ClickDestination(s: GalleryState, d: Destination): (r: GalleryState)
    ensures r.lightboxImage == Some(d.image)
    ensures GalleryShown(r) == GalleryShown(s)
  {
    s.(lightboxImage := Some(d.image))
  }

  /** The backdrop and the close button both shut the lightbox. */
  function CloseGalleryLightbox(s: GalleryState): (r: GalleryState)
    ensures r.lightboxImage.None?
    ensures GalleryShown(r) == GalleryShown(s)
  {
    s.(lightboxImage := None)
  }

  /** Opening and then closing the lightbox returns the gallery to where it was. */
  lemma OpenThenCloseGallery(s: GalleryState, d: Destination)
    requires s.lightboxImage.None?
    ensures CloseGalleryLightbox(ClickDestination(s, d)) == s
  {
  }

  /** What the destinations page's lightbox shows: the image with its caption. */
  datatype LightboxImage = LightboxImage(src: string, title: string, location: string)

  /** The destinations page: the active filter and the open lightbox, if any. */
  datatype DestinationsState = DestinationsState(activeFilter: string, lightbox: Option<LightboxImage>)

  const INITIAL_DESTINATIONS: DestinationsState := DestinationsState("all", None)

  /**
   * The destinations listed, both in the photo grid and in the detail list
   * below it: the same list the home page gallery shows under the same filter.
   */
  function DestinationsShown(s: DestinationsState): (r: seq<Destination>)
    ensures SubSeq(r, DESTINATIONS)
    ensures forall g: GalleryState :: g.activeFilter == s.activeFilter ==> r == GalleryShown(g)
  {
    FilterDestinations(DESTINATIONS, s.activeFilter)
  }

  /** `openLightbox`: the clicked destination's image, name and location. */
  function OpenLightbox(s: DestinationsState, d: Destination): (r: DestinationsState)
    ensures r.lightbox == Some(LightboxImage(d.image, d.name, d.location))
    ensures DestinationsShown(r) == DestinationsShown(s)
  {
    s.(lightbox := Some(LightboxImage(d.image, d.name, d.location)))
  }

  /** Both close actions of the destinations page. */
  function CloseLightbox(s: DestinationsState): (r: DestinationsState)
    ensures r.lightbox.None?
    ensures DestinationsShown(r) == DestinationsShown(s)
  {
    s.(lightbox := None)
  }

  /** Opening and then closing the lightbox returns the page to where it was. */
  lemma OpenThenClose(s: DestinationsState, d: Destination)
    requires s.lightbox.None?
    ensures CloseLightbox(OpenLightbox(s, d)) == s
  {
  }

  /** The destination whose name is `name`, if any. */
  function FindByName(ds: seq<Destination>, name: string): (r: Option<Destination>)
    ensures r.Some? ==> r.value in ds && r.value.name == name
    ensures r.None? ==> forall d :: d in ds ==> d.name != name
  {
    if ds == [] then None
    else if ds[0].name == name then Some(ds[0])
    else FindByName(ds[1..], name)
  }

  /** Destination names are pairwise distinct. */
  lemma DestinationNamesDistinct()
    ensures forall i, j :: 0 <= i < j < |DESTINATIONS| ==> DESTINATIONS[i].name != DESTINATIONS[j].name
  {
  }

  /** With distinct names, lookup by name finds exactly the destination that carries it. */
  lemma {:induction false} FindByNameUnique(ds: seq<Destination>, d: Destination)
    requires forall i, j :: 0 <= i < j < |ds| ==> ds[i].name != ds[j].name
    requires d in ds
    ensures FindByName(ds, d.name) == Some(d)
  {
    if ds[0] != d {
      assert ds[0].name != d.name by {
        var k :| 0 <= k < |ds| && ds[k] == d;
        assert k != 0;
      }
      assert d in ds[1..];
      FindByNameUnique(ds[1..], d);
    }
  }

  /** The lightbox caption identifies the clicked destination of the site. */
  lemma LightboxIdentifiesDestination(s: DestinationsState, d: Destination)
    requires d in DESTINATIONS
    ensures FindByName(DESTINATIONS, OpenLightbox(s, d).lightbox.value.title) == Some(d)
  {
    DestinationNamesDistinct();
    FindByNameUnique(DESTINATIONS, d);
  }
}
