/**
 * The static site's tour detail page: the tour named by the `id` query
 * parameter is looked up in the tours file and either shown, with the page
 * title set, or replaced by an error message.
 */
module TourDetail {
  import opened Js
  import opened StaticSite

  /** Why no tour is shown. */
  datatype LoadError =
    | MissingId     // no `id` parameter, or an empty one
    | UnknownId     // no tour has that id
    | LoadFailed    // reading the tours file threw

  /** The message the page shows for each error. */
  function ErrorMessage(e: LoadError): (m: string)
    ensures m != []
  {
    match e
    case MissingId => "Tour not found. Please select a tour from our homepage."
    case UnknownId => "Tour not found. Please select a valid tour."
    case LoadFailed => "Failed to load tour details. Please try again."
  }

  /** The result of `loadTourDetail`'s decisions. */
  datatype LoadResult = Found(tour: SiteTour) | NotFound(error: LoadError)

  /**
   * The lookup: `idParam` is what the query string holds for `id`, `file`
   * the tours file's contents, `None` when reading it throws. The file is
   * not read when the id is missing.
   */
  function Lookup(idParam: Option<string>, file: Option<seq<SiteTour>>): (r: LoadResult)
    ensures idParam.None? || idParam.value == [] ==> r == NotFound(MissingId)
    ensures idParam.Some? && idParam.value != [] && file.None? ==> r == NotFound(LoadFailed)
    ensures idParam.Some? && idParam.value != [] && file.Some? ==>
      (r == NotFound(UnknownId) <==> forall t :: t in file.value ==> t.id != idParam.value)
    ensures r.Found? ==> idParam.Some? && file.Some? && r.tour in file.value && r.tour.id == idParam.value
  {
    if idParam.None? || !Truthy(idParam.value) then NotFound(MissingId)
    else if file.None? then NotFound(LoadFailed)
    else
      match FindById(file.value, idParam.value)
      case None => NotFound(UnknownId)
      case Some(t) => Found(t)
  }

  /** With distinct ids in the file, a present id always finds its own tour. */
  lemma LookupFindsListedTour(tours: seq<SiteTour>, t: SiteTour)
    requires forall i, j :: 0 <= i < j < |tours| ==> tours[i].id != tours[j].id
    requires t in tours && t.id != []
    ensures Lookup(Some(t.id), Some(tours)) == Found(t)
  {
    var k :| 0 <= k < |tours| && tours[k] == t;
    FindByIdFirst(tours, t.id, k);
  }

  /** The suffix of every tour page's title. */
  const TITLE_SUFFIX := " - Taj India Tours"

  /** What the page's content area shows. */
  datatype DetailView = Blank | ErrorShown(message: string) | TourShown(tour: SiteTour)

  /** The detail page's state. */
  class TourDetailPage {
    /** The tour on display, which the booking modal fills in. */
    var currentTour: Option<SiteTour>
    var content: DetailView
    var documentTitle: string

    constructor(title: string)
      ensures currentTour == None && content == Blank && documentTitle == title
    {
      currentTour := None;
      content := Blank;
      documentTitle := title;
    }

    /**
     * `loadTourDetail`: on a found tour, it becomes the current tour, is
     * shown, and the title becomes "<title> - Taj India Tours"; otherwise
     * the error's message is shown and nothing else changes.
     */
    method LoadTourDetail(idParam: Option<string>, file: Option<seq<SiteTour>>)
      modifies this
      ensures match Lookup(idParam, file)
        case Found(t) =>
          currentTour == Some(t) && content == TourShown(t) && documentTitle == t.title + TITLE_SUFFIX
        case NotFound(e) =>
          currentTour == old(currentTour) && content == ErrorShown(ErrorMessage(e)) &&
          documentTitle == old(documentTitle)
    {
      if idParam.None? || !Truthy(idParam.value) {
        content := ErrorShown(ErrorMessage(MissingId));
        return;
      }
      if file.None? {
        content := ErrorShown(ErrorMessage(LoadFailed));
        return;
      }
      var tour := FindById(file.value, idParam.value);
      if tour.None? {
        content := ErrorShown(ErrorMessage(UnknownId));
        return;
      }
      currentTour := tour;
      content := TourShown(tour.value);
      documentTitle := tour.value.title + TITLE_SUFFIX;
    }
  }
}
