/**
 * What the two scripts of the static site share, written identically in
 * both: the tour records read from the tours file, the lookup by id, the
 * star-rating row, and the booking modal with its submit handler.
 */
module StaticSite {
  import opened Js

  /** A tour of the static site's tours file, with the fields the scripts decide on. */
  datatype SiteTour = SiteTour(id: string, title: string, category: string, price: int, rating: real)

  /** `tours.find(t => t.id === id)`. */
  function FindById(tours: seq<SiteTour>, id: string): (r: Option<SiteTour>)
    ensures r.None? <==> forall t :: t in tours ==> t.id != id
    ensures r.Some? ==> r.value in tours && r.value.id == id
  {
    if tours == [] then None
    else if tours[0].id == id then Some(tours[0])
    else
      assert tours == [tours[0]] + tours[1..];
      FindById(tours[1..], id)
  }

  /** The tour found is the first one with the id. */
  lemma {:induction false} FindByIdFirst(tours: seq<SiteTour>, id: string, k: nat)
    requires k < |tours| && tours[k].id == id
    requires forall j :: 0 <= j < k ==> tours[j].id != id
    ensures FindById(tours, id) == Some(tours[k])
  {
    if k > 0 {
      FindByIdFirst(tours[1..], id, k - 1);
    }
  }

  // ---------------------------------------------------------------------
  // The star-rating row
  // ---------------------------------------------------------------------

  /** One icon of the rating row. */
  datatype StarIcon = FullStar | HalfStar | EmptyStar

  /** JavaScript's `x % 1`: the fractional part, carrying the sign of `x`. */
  function FractionOf(x: real): (f: real)
    ensures x >= 0.0 ==> 0.0 <= f < 1.0 && x == x.Floor as real + f
    ensures x < 0.0 ==> -1.0 < f <= 0.0
  {
    if x >= 0.0 then x - x.Floor as real else x + (-x).Floor as real
  }

  /** `Math.floor(rating)`. */
  function FullCount(rating: real): int { rating.Floor }

  /** `rating % 1 >= 0.5`. */
  predicate HasHalf(rating: real) { FractionOf(rating) >= 0.5 }

  /** `5 - fullStars - (halfStar ? 1 : 0)`. */
  function EmptyCount(rating: real): int
  {
    5 - FullCount(rating) - (if HasHalf(rating) then 1 else 0)
  }

  /** `n` copies of `icon`; a `for` loop up to a count below one runs no times. */
  function Repeat(icon: StarIcon, n: int): (r: seq<StarIcon>)
    ensures |r| == if n > 0 then n else 0
    ensures forall i :: 0 <= i < |r| ==> r[i] == icon
  {
    if n <= 0 then [] else Repeat(icon, n - 1) + [icon]
  }

  /** The row for `rating`: the full icons, then the half icon if any, then the empty icons. */
  function Stars(rating: real): seq<StarIcon>
  {
    Repeat(FullStar, FullCount(rating)) + (if HasHalf(rating) then [HalfStar] else []) +
      Repeat(EmptyStar, EmptyCount(rating))
  }

  /** `generateStars`: the three counts, then the icons appended one loop at a time. */
  method GenerateStars(rating: real) returns (stars: seq<StarIcon>)
    ensures stars == Stars(rating)
  {
    var fullStars := rating.Floor;
    var halfStar := FractionOf(rating) >= 0.5;
    var emptyStars := 5 - fullStars - (if halfStar then 1 else 0);
    stars := [];
    var i := 0;
    while i < fullStars
      invariant 0 <= i <= (if fullStars > 0 then fullStars else 0)
      invariant stars == Repeat(FullStar, i)
    {
      stars := stars + [FullStar];
      i := i + 1;
    }
    assert stars == Repeat(FullStar, fullStars);
    if halfStar {
      stars := stars + [HalfStar];
    }
    var head := stars;
    i := 0;
    while i < emptyStars
      invariant 0 <= i <= (if emptyStars > 0 then emptyStars else 0)
      invariant stars == head + Repeat(EmptyStar, i)
    {
      stars := stars + [EmptyStar];
      i := i + 1;
    }
  }

  /** The position of an icon kind in the row. */
  function Rank(icon: StarIcon): nat
  {
    match icon
    case FullStar => 0
    case HalfStar => 1
    case EmptyStar => 2
  }

  /** A rating between 0 and 5 always shows exactly five icons. */
  lemma StarsFiveIcons(rating: real)
    requires 0.0 <= rating <= 5.0
    ensures |Stars(rating)| == 5
  {
    var f := FractionOf(rating);
    if rating.Floor == 5 {
      assert f == 0.0;
    }
  }

  /** Where each kind of icon sits in the row. */
  lemma StarsLayout(rating: real)
    ensures forall i :: 0 <= i < |Stars(rating)| ==>
      var full := if FullCount(rating) > 0 then FullCount(rating) else 0;
      var half := if HasHalf(rating) then 1 else 0;
      (i < full ==> Stars(rating)[i] == FullStar) &&
      (full <= i < full + half ==> Stars(rating)[i] == HalfStar) &&
      (full + half <= i ==> Stars(rating)[i] == EmptyStar)
    ensures |Stars(rating)| == (if FullCount(rating) > 0 then FullCount(rating) else 0) +
      (if HasHalf(rating) then 1 else 0) + (if EmptyCount(rating) > 0 then EmptyCount(rating) else 0)
  {
    var full := Repeat(FullStar, FullCount(rating));
    var half := if HasHalf(rating) then [HalfStar] else [];
    var empty := Repeat(EmptyStar, EmptyCount(rating));
    var s := Stars(rating);
    forall i | 0 <= i < |s|
      ensures i < |full| ==> s[i] == FullStar
      ensures |full| <= i < |full| + |half| ==> s[i] == HalfStar
      ensures |full| + |half| <= i ==> s[i] == EmptyStar
    {
      if i < |full| {
        assert s[i] == full[i];
      } else if i < |full| + |half| {
        assert s[i] == half[i - |full|];
      } else {
        assert s[i] == empty[i - |full| - |half|];
      }
    }
  }

  /** Full icons come first, then the half icon, then the empty ones. */
  lemma StarsOrdered(rating: real)
    ensures forall i, j :: 0 <= i < j < |Stars(rating)| ==> Rank(Stars(rating)[i]) <= Rank(Stars(rating)[j])
  {
    StarsLayout(rating);
  }

  /**
   * For a non-negative rating the row has `Math.floor(rating)` full icons,
   * and a half icon exactly when the fraction is at least one half.
   */
  lemma StarsCounts(rating: real)
    requires rating >= 0.0
    ensures forall i :: 0 <= i < |Stars(rating)| ==> (Stars(rating)[i] == FullStar <==> i < rating.Floor)
    ensures HalfStar in Stars(rating) <==> rating - rating.Floor as real >= 0.5
  {
    StarsLayout(rating);
    var s := Stars(rating);
    if HasHalf(rating) {
      assert s[FullCount(rating)] == HalfStar;
    }
  }

  /**
   * The row is five icons long exactly for ratings in [0, 5.5). Below 0 it
   * has `5 - Math.floor(rating)` empty icons; from 5.5 up, the full icons and
   * the half icon alone make six or more.
   */
  lemma StarsRowLength(rating: real)
    ensures |Stars(rating)| == 5 <==> 0.0 <= rating < 5.5
    ensures rating < 0.0 ==> |Stars(rating)| == 5 - rating.Floor
    ensures rating >= 5.5 ==> |Stars(rating)| == rating.Floor + (if HasHalf(rating) then 1 else 0) >= 6
  {
    StarsLayout(rating);
    var n, f := rating.Floor, FractionOf(rating);
    if rating < 0.0 {
      assert n <= -1 && !HasHalf(rating);
    } else if rating < 5.5 {
      assert 0 <= n <= 5;
      if n == 5 {
        assert f == rating - 5.0 < 0.5;
      }
    } else {
      assert n >= 5;
      if n == 5 {
        assert f == rating - 5.0 >= 0.5;
      }
    }
  }

  /** Two ratings outside the range: 6 shows six full icons, -1 six empty ones. */
  lemma StarsOutOfRange()
    ensures Stars(6.0) == Repeat(FullStar, 6)
    ensures Stars(-1.0) == Repeat(EmptyStar, 6)
  {
    assert FractionOf(6.0) == 0.0;
    assert FractionOf(-1.0) == 0.0;
  }

  // ---------------------------------------------------------------------
  // The booking modal
  // ---------------------------------------------------------------------

  /** The modal's fields as the submit handler reads them; DOM values are always strings. */
  datatype SiteBooking = SiteBooking(
    customerName: string,
    customerEmail: string,
    tourPackage: string,
    travelDate: string,
    travelers: string,
    message: string)

  /** Name, email, tour and date must all be non-empty; travelers and message are not checked. */
  predicate RequiredFilled(f: SiteBooking)
  {
    Truthy(f.customerName) && Truthy(f.customerEmail) && Truthy(f.tourPackage) && Truthy(f.travelDate)
  }

  /** The error thrown when a required field is empty. */
  const REQUIRED_MESSAGE := "Please fill in all required fields."

  /** What the alert shows for an error without a message. */
  const FALLBACK_MESSAGE := "Failed to send booking request. Please try again or contact us directly."

  /** `error.message || fallback`. */
  function AlertText(message: string): (r: string)
    ensures r != []
    ensures message != [] ==> r == message
    ensures message == [] ==> r == FALLBACK_MESSAGE
  {
    if Truthy(message) then message else FALLBACK_MESSAGE
  }

  /** How an awaited email call ended. */
  datatype Attempt = Returned | Threw(message: string)

  /** The label the submit button shows while the booking is being sent. */
  const SENDING_LABEL := "Sending..."

  /** The booking modal of either page, with the form inside it and the thank-you modal. */
  class BookingModal {
    /** What the form's reset restores. */
    const defaults: SiteBooking
    /** What the fields hold. */
    var fields: SiteBooking
    var bookingOpen: bool
    var thankYouOpen: bool
    var buttonLabel: string
    var buttonDisabled: bool
    /** The bookings handed to the operator email, in order. */
    var bookingEmails: seq<SiteBooking>
    /** The bookings whose customer confirmation was attempted. */
    var confirmations: seq<SiteBooking>
    /** The alerts shown. */
    var alerts: seq<string>

    constructor(defaults: SiteBooking, initialLabel: string)
      ensures this.defaults == defaults && fields == defaults
      ensures !bookingOpen && !thankYouOpen && buttonLabel == initialLabel && !buttonDisabled
      ensures bookingEmails == [] && confirmations == [] && alerts == []
    {
      this.defaults := defaults;
      fields := defaults;
      bookingOpen := false;
      thankYouOpen := false;
      buttonLabel := initialLabel;
      buttonDisabled := false;
      bookingEmails := [];
      confirmations := [];
      alerts := [];
    }

    /** A user edit: the fields now hold `f`. */
    method Edit(f: SiteBooking)
      modifies this
      ensures fields == f
      ensures bookingOpen == old(bookingOpen) && thankYouOpen == old(thankYouOpen)
      ensures buttonLabel == old(buttonLabel) && buttonDisabled == old(buttonDisabled)
      ensures bookingEmails == old(bookingEmails) && confirmations == old(confirmations) && alerts == old(alerts)
    {
      fields := f;
    }

    /**
     * The tour list's `openBookingModal`: a non-empty id that names a tour
     * puts that tour's title in the tour field; the modal opens either way.
     */
    method OpenFromList(tours: seq<SiteTour>, tourId: Option<string>)
      modifies this
      ensures bookingOpen
      ensures fields == if tourId.Some? && tourId.value != [] && FindById(tours, tourId.value).Some?
        then old(fields).(tourPackage := FindById(tours, tourId.value).value.title)
        else old(fields)
      ensures thankYouOpen == old(thankYouOpen)
      ensures buttonLabel == old(buttonLabel) && buttonDisabled == old(buttonDisabled)
      ensures bookingEmails == old(bookingEmails) && confirmations == old(confirmations) && alerts == old(alerts)
    {
      if tourId.Some? && Truthy(tourId.value) {
        var tour := FindById(tours, tourId.value);
        if tour.Some? {
          fields := fields.(tourPackage := tour.value.title);
        }
      }
      bookingOpen := true;
    }

    /**
     * The detail page's `openBookingModal`: the tour field gets the title of
     * the tour on display, whatever id was passed; the modal opens either way.
     */
    method OpenForCurrentTour(currentTour: Option<SiteTour>, tourId: Option<string>)
      modifies this
      ensures bookingOpen
      ensures fields == if currentTour.Some? then old(fields).(tourPackage := currentTour.value.title) else old(fields)
      ensures thankYouOpen == old(thankYouOpen)
      ensures buttonLabel == old(buttonLabel) && buttonDisabled == old(buttonDisabled)
      ensures bookingEmails == old(bookingEmails) && confirmations == old(confirmations) && alerts == old(alerts)
    {
      if currentTour.Some? {
        fields := fields.(tourPackage := currentTour.value.title);
      }
      bookingOpen := true;
    }

    /**
     * `handleBookingSubmission`. The button shows the sending label and is
     * disabled; an empty required field throws before anything is sent; the
     * operator email is sent (`send` is how that call ended) and, when it
     * did not throw, the customer confirmation is attempted, whose failure
     * is swallowed (`confirmation` is how it ended), the modals give way to
     * the thank-you modal and the form is reset. A throw shows an alert
     * instead. The button's label and enabled state are restored on every path.
     */
    method HandleSubmission(send: Attempt, confirmation: Attempt)
      modifies this
      ensures buttonLabel == old(buttonLabel) && !buttonDisabled
      ensures bookingEmails == old(bookingEmails) + (if RequiredFilled(old(fields)) then [old(fields)] else [])
      ensures if RequiredFilled(old(fields)) && send.Returned? then
          fields == defaults && !bookingOpen && thankYouOpen && alerts == old(alerts) &&
          confirmations == old(confirmations) + [old(fields)]
        else
          fields == old(fields) && bookingOpen == old(bookingOpen) && thankYouOpen == old(thankYouOpen) &&
          confirmations == old(confirmations) &&
          alerts == old(alerts) + [if !RequiredFilled(old(fields)) then REQUIRED_MESSAGE else AlertText(send.message)]
    {
      var originalText := buttonLabel;
      buttonLabel := SENDING_LABEL;
      buttonDisabled := true;
      var formData := fields;
      if !RequiredFilled(formData) {
        alerts := alerts + [AlertText(REQUIRED_MESSAGE)];
      } else {
        bookingEmails := bookingEmails + [formData];
        match send
        case Threw(m) =>
          alerts := alerts + [AlertText(m)];
        case Returned =>
          confirmations := confirmations + [formData];
          bookingOpen := false;
          thankYouOpen := true;
          fields := defaults;
      }
      buttonLabel := originalText;
      buttonDisabled := false;
    }
  }
}
