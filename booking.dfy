/**
 * The booking form: its validation schema, the price total, the record it
 * saves, the email it sends to the operator, and the submit sequence that
 * ties them together.
 */
module Booking {
  import opened Js
  import opened Seqs
  import opened Catalog
  import opened EmailService
  import opened Schema

  /** The form's fields as the user fills them in; the special requests may be absent. */
  datatype BookingValues = BookingValues(
    firstName: string,
    lastName: string,
    email: string,
    phone: string,
    tourPackage: string,
    checkIn: string,
    travelers: string,
    specialRequests: Option<string>)

  datatype BookingField = FirstName | LastName | Email | Phone | PackageField | CheckIn | Travelers

  /** The message the schema shows under a field whose rule fails. */
  function Message(field: BookingField): string
  {
    match field
    case FirstName => "First name must be at least 2 characters"
    case LastName => "Last name must be at least 2 characters"
    case Email => "Please enter a valid email address"
    case Phone => "Please enter a valid phone number"
    case PackageField => "Please select a tour package"
    case CheckIn => "Please select a check-in date"
    case Travelers => "Please select number of travelers"
  }

  /**
   * `bookingSchema`'s rules in form order, evaluated on `v`; `isEmail` is
   * the email format check of the schema library. The special requests have
   * no rule.
   */
  function BookingRules(v: BookingValues, isEmail: string -> bool): seq<Rule<BookingField>>
  {
    [Rule(FirstName, CodeUnitLength(v.firstName) >= 2, Message(FirstName)),
     Rule(LastName, CodeUnitLength(v.lastName) >= 2, Message(LastName)),
     Rule(Email, isEmail(v.email), Message(Email)),
     Rule(Phone, CodeUnitLength(v.phone) >= 10, Message(Phone)),
     Rule(PackageField, CodeUnitLength(v.tourPackage) >= 1, Message(PackageField)),
     Rule(CheckIn, CodeUnitLength(v.checkIn) >= 1, Message(CheckIn)),
     Rule(Travelers, CodeUnitLength(v.travelers) >= 1, Message(Travelers))]
  }

  /** `bookingSchema` over the whole form. */
  function ValidateBooking(v: BookingValues, isEmail: string -> bool): (errors: seq<FieldError<BookingField>>)
    ensures errors == [] <==>
      CodeUnitLength(v.firstName) >= 2 && CodeUnitLength(v.lastName) >= 2 && isEmail(v.email) && CodeUnitLength(v.phone) >= 10 &&
      CodeUnitLength(v.tourPackage) >= 1 && CodeUnitLength(v.checkIn) >= 1 && CodeUnitLength(v.travelers) >= 1
  {
    Errors(BookingRules(v, isEmail))
  }

  /** A first name made of one emoji has `length` 2, so it passes the two-character rule. */
  lemma EmojiFirstNameAccepted(v: BookingValues, isEmail: string -> bool)
    requires v.firstName == "\U{1F600}"
    ensures FieldError(FirstName, Message(FirstName)) !in ValidateBooking(v, isEmail)
  {
    EmojiHasLengthTwo();
    var r := BookingRules(v, isEmail);
    ValidateBookingFields(v, isEmail, r[0]);
  }

  /** The error messages appear in form order, one for each field whose rule fails. */
  lemma ValidateBookingOrder(v: BookingValues, isEmail: string -> bool)
    ensures ValidateBooking(v, isEmail) == ErrorsOf(Filter(BookingRules(v, isEmail), Failing))
  {
    ErrorsAreFailingRules(BookingRules(v, isEmail));
  }

  /** Each field is flagged, with its message, exactly when its own rule fails; no other message ever shows. */
  lemma ValidateBookingFields(v: BookingValues, isEmail: string -> bool, rule: Rule<BookingField>)
    requires rule in BookingRules(v, isEmail)
    ensures FieldError(rule.field, rule.message) in ValidateBooking(v, isEmail) <==> !rule.ok
    ensures forall e :: e in ValidateBooking(v, isEmail) ==> e.message == Message(e.field)
  {
    BookingRulesByField(v, isEmail);
    ErrorsExactly(BookingRules(v, isEmail), rule);
  }

  /** There is one rule per field, and it carries that field's message. */
  lemma BookingRulesByField(v: BookingValues, isEmail: string -> bool)
    ensures forall i, j :: 0 <= i < j < |BookingRules(v, isEmail)| ==>
      BookingRules(v, isEmail)[i].field != BookingRules(v, isEmail)[j].field
    ensures forall a :: a in BookingRules(v, isEmail) ==> a.message == Message(a.field)
  {
    var r := BookingRules(v, isEmail);
    forall i | 0 <= i < |r| ensures FieldRank(r[i].field) == i && r[i].message == Message(r[i].field) {
      if i == 0 {} else if i == 1 {} else if i == 2 {} else if i == 3 {}
      else if i == 4 {} else if i == 5 {} else {}
    }
  }

  /** The position of each field's rule in the schema. */
  function FieldRank(f: BookingField): nat
  {
    match f
    case FirstName => 0
    case LastName => 1
    case Email => 2
    case Phone => 3
    case PackageField => 4
    case CheckIn => 5
    case Travelers => 6
  }

  /** A JS product: NaN if either side is NaN. */
  function Times(a: Number, b: Number): (r: Number)
    ensures r.Num? <==> a.Num? && b.Num?
    ensures r.Num? ==> r.value == a.value * b.value
  {
    if a.Num? && b.Num? then Num(a.value * b.value) else NaN
  }

  /** The total as the form computes it: the price times the travelers as text, or "0" when no package matched. */
  function TotalText(selected: Option<TourPackage>, travelers: string): string
  {
    match selected
    case Some(t) => NumberToString(Times(Num(t.price), ParseInt(travelers)))
    case None => "0"
  }

  /** `parseInt(totalAmount)`: the total saved and mailed, for the package looked up in `tours`. */
  function TotalAmount(tours: seq<TourPackage>, tourPackage: string, travelers: string): (r: Number)
    ensures FindTour(tours, tourPackage).None? ==> r == Num(0)
    ensures FindTour(tours, tourPackage).Some? ==>
      r == Times(Num(FindTour(tours, tourPackage).value.price), ParseInt(travelers))
  {
    var selected := FindTour(tours, tourPackage);
    match selected
    case Some(t) =>
      ParseIntOfNumberToString(Times(Num(t.price), ParseInt(travelers)));
      ParseInt(TotalText(selected, travelers))
    case None =>
      ParseIntOfIntToString(0);
      ParseInt(TotalText(selected, travelers))
  }

  /** The choices of the travelers select: "1" to "10". */
  const TRAVELER_OPTIONS: seq<string> := seq(10, i requires 0 <= i < 10 => NatToString(i + 1))

  /** The travelers select offers "1" first and "10" last. */
  lemma TravelerOptionsText()
    ensures |TRAVELER_OPTIONS| == 10 && TRAVELER_OPTIONS[0] == "1" && TRAVELER_OPTIONS[9] == "10"
  {
    assert NatToString(10) == NatToString(1) + [DigitChar(0)];
  }

  /** Every choice reads as a traveler count from 1 to 10. */
  lemma TravelerOptionsParse(i: int)
    requires 0 <= i < |TRAVELER_OPTIONS|
    ensures ParseInt(TRAVELER_OPTIONS[i]) == Num(i + 1)
    ensures 1 <= ParseInt(TRAVELER_OPTIONS[i]).value <= 10
  {
    assert TRAVELER_OPTIONS[i] == NatToString(i + 1);
    ParseIntOfNatToString(i + 1);
  }

  /** The package select's choices: the catalog ids, then "custom". */
  function PackageOptions(): (r: seq<string>)
    ensures |r| == |TOUR_PACKAGES| + 1 && r[|r| - 1] == "custom"
    ensures forall i :: 0 <= i < |TOUR_PACKAGES| ==> r[i] == TOUR_PACKAGES[i].id
  {
    seq(|TOUR_PACKAGES|, i requires 0 <= i < |TOUR_PACKAGES| => TOUR_PACKAGES[i].id) + ["custom"]
  }

  /** "custom" is not a catalog id, so it is always priced at 0. */
  lemma CustomPackageTotal(travelers: string)
    ensures TotalAmount(TOUR_PACKAGES, "custom", travelers) == Num(0)
  {
    assert forall t :: t in TOUR_PACKAGES ==> t.id != "custom";
  }

  /** With a catalog package and a travelers choice the total is the price times the count. */
  lemma TotalOfOption(t: TourPackage, i: int)
    requires t in TOUR_PACKAGES && 0 <= i < |TRAVELER_OPTIONS|
    ensures TotalAmount(TOUR_PACKAGES, t.id, TRAVELER_OPTIONS[i]) == Num(t.price * (i + 1))
  {
    TourIdsDistinct();
    FindTourUnique(TOUR_PACKAGES, t);
    TravelerOptionsParse(i);
  }

  /** The Golden Triangle Classic for two costs 25998. */
  lemma GoldenTriangleForTwo()
    ensures TotalAmount(TOUR_PACKAGES, "golden-triangle-3d", TRAVELER_OPTIONS[1]) == Num(25998)
  {
    var t := TOUR_PACKAGES[0];
    assert t in TOUR_PACKAGES;
    TotalOfOption(t, 1);
  }

  /** The id of a booking: "TIT-", the time in milliseconds, "-" and a random suffix. */
  function BookingId(now: nat, suffix: string): (r: string)
    ensures StartsWith(r, "TIT-")
  {
    var r := "TIT-" + NatToString(now) + "-" + suffix;
    assert r[..4] == "TIT-";
    r
  }

  /** The time stamp reads back from the id after its "TIT-" prefix. */
  lemma BookingIdTime(now: nat, suffix: string)
    ensures ParseInt(BookingId(now, suffix)[4..]) == Num(now)
  {
    var d := NatToString(now);
    assert BookingId(now, suffix)[4..] == d + ("-" + suffix);
    NatToStringValue(now);
    ParseIntBeforeText(d, "-" + suffix);
  }

  /** The row saved for a booking: the form values, the id, the numeric total and the status. */
  datatype BookingRecord = BookingRecord(
    values: BookingValues,
    bookingId: string,
    totalAmount: Number,
    status: string)

  /** The row `onSubmit` saves. */
  function MakeRecord(tours: seq<TourPackage>, v: BookingValues, bookingId: string): BookingRecord
  {
    BookingRecord(v, bookingId, TotalAmount(tours, v.tourPackage, v.travelers), "pending")
  }

  /** A saved row keeps the values and the id, holds the numeric total, and starts out pending. */
  lemma RecordContents(tours: seq<TourPackage>, v: BookingValues, bookingId: string)
    ensures MakeRecord(tours, v, bookingId).values == v
    ensures MakeRecord(tours, v, bookingId).bookingId == bookingId
    ensures MakeRecord(tours, v, bookingId).status == "pending"
    ensures FindTour(tours, v.tourPackage).None? ==> MakeRecord(tours, v, bookingId).totalAmount == Num(0)
    ensures FindTour(tours, v.tourPackage).Some? ==>
      MakeRecord(tours, v, bookingId).totalAmount ==
        Times(Num(FindTour(tours, v.tourPackage).value.price), ParseInt(v.travelers))
  {
  }

  /** The operator's copy of a booking. The total is the number before currency formatting. */
  datatype BookingEmail = BookingEmail(
    toEmail: string,
    fromName: string,
    fromEmail: string,
    phone: string,
    tourPackage: string,
    checkIn: string,
    travelers: string,
    message: string,
    bookingId: string,
    totalAmount: Number)

  /** `a || b` on strings. */
  function OrElse(a: string, b: string): (r: string)
    ensures r == (if a != [] then a else b)
  {
    if Truthy(a) then a else b
  }

  function EmailMessage(specialRequests: Option<string>): (r: string)
    ensures r != []
    ensures specialRequests.Some? && specialRequests.value != [] ==> r == specialRequests.value
    ensures specialRequests.None? || specialRequests.value == [] ==> r == "No special requests"
  {
    match specialRequests
    case None => "No special requests"
    case Some(s) => OrElse(s, "No special requests")
  }

  /** The operator's email for a booking. */
  function BookingEmailFor(tours: seq<TourPackage>, v: BookingValues, bookingId: string): BookingEmail
  {
    var selected := FindTour(tours, v.tourPackage);
    var name := if selected.Some? then selected.value.name else "";
    BookingEmail("bookings@tajindiatours.com", v.firstName + " " + v.lastName, v.email, v.phone,
      OrElse(name, v.tourPackage), v.checkIn, v.travelers, EmailMessage(v.specialRequests),
      bookingId, TotalAmount(tours, v.tourPackage, v.travelers))
  }

  /**
   * The email goes to the bookings address, from the customer's full name and
   * address, with the same id and total as the saved row.
   */
  lemma EmailContents(tours: seq<TourPackage>, v: BookingValues, bookingId: string)
    ensures BookingEmailFor(tours, v, bookingId).toEmail == "bookings@tajindiatours.com"
    ensures BookingEmailFor(tours, v, bookingId).fromName == v.firstName + " " + v.lastName
    ensures BookingEmailFor(tours, v, bookingId).fromEmail == v.email
    ensures BookingEmailFor(tours, v, bookingId).message == EmailMessage(v.specialRequests)
    ensures BookingEmailFor(tours, v, bookingId).bookingId == MakeRecord(tours, v, bookingId).bookingId
    ensures BookingEmailFor(tours, v, bookingId).totalAmount == MakeRecord(tours, v, bookingId).totalAmount
  {
  }

  /** The email names a catalog package by its name, anything else by the raw value. */
  lemma EmailTourPackage(v: BookingValues, bookingId: string)
    ensures v.tourPackage == "custom" ==> BookingEmailFor(TOUR_PACKAGES, v, bookingId).tourPackage == "custom"
    ensures forall t :: t in TOUR_PACKAGES && t.id == v.tourPackage ==>
      BookingEmailFor(TOUR_PACKAGES, v, bookingId).tourPackage == t.name
  {
    TourIdsDistinct();
    forall t | t in TOUR_PACKAGES && t.id == v.tourPackage
      ensures BookingEmailFor(TOUR_PACKAGES, v, bookingId).tourPackage == t.name
    {
      FindTourUnique(TOUR_PACKAGES, t);
      TourNamesNonEmpty();
    }
    assert forall t :: t in TOUR_PACKAGES ==> t.id != "custom";
  }

  /** Every package has a name, so the email never falls back to the id for a catalog package. */
  lemma TourNamesNonEmpty()
    ensures forall t :: t in TOUR_PACKAGES ==> t.name != []
  {
  }

  /** The default values: all empty, except the package, which a tour card may preselect. */
  function BookingDefaults(selectedTour: string): (r: BookingValues)
    ensures r.tourPackage == selectedTour
    ensures r.firstName == [] && r.lastName == [] && r.email == [] && r.phone == []
    ensures r.checkIn == [] && r.travelers == [] && r.specialRequests == Some([])
  {
    BookingValues("", "", "", "", OrElse(selectedTour, ""), "", "", Some(""))
  }

  /** Whether `onSubmit` as written resets the form and calls back: it ignores what `sendBooking` returns. */
  function ResetsAsWritten(saveOk: bool, o: SendOutcome): bool
  {
    saveOk
  }

  /**
   * The form as written resets and calls back although `sendBooking`
   * reported that the operator's email failed.
   */
  lemma ResetDespiteFailedEmail()
    ensures ResetsAsWritten(true, Failed) && !SendReported(Failed)
  {
  }

  /**
   * Whether the submit completes, as `onSubmit` evidently means it to: only
   * when the save succeeds and `sendBooking` reports success.
   */
  function Completes(saveOk: bool, o: SendOutcome): (r: bool)
    ensures r <==> saveOk && !o.Failed?
  {
    saveOk && SendReported(o)
  }

  /** The corrected handler resets exactly when the as-written one does and the email did not fail. */
  lemma CompletesRefinesAsWritten(saveOk: bool, o: SendOutcome)
    ensures Completes(saveOk, o) <==> ResetsAsWritten(saveOk, o) && SendReported(o)
    ensures Completes(true, Failed) != ResetsAsWritten(true, Failed)
  {
  }

  /** The booking form component. */
  class BookingForm {
    /** The package a tour card preselected, or "". */
    const selectedTour: string
    /** The packages the form looks totals and names up in. */
    const catalog: seq<TourPackage>
    /** What the fields hold. */
    var values: BookingValues
    var isSubmitting: bool
    /** The bookings saved so far. */
    var saved: seq<BookingRecord>
    /** The operator emails whose sending was attempted so far. */
    var sentEmails: seq<BookingEmail>
    /** How often the `onSuccess` callback ran. */
    var successCalls: nat

    constructor(catalog: seq<TourPackage>, selectedTour: string)
      ensures this.catalog == catalog && this.selectedTour == selectedTour
      ensures values == BookingDefaults(selectedTour) && !isSubmitting
      ensures saved == [] && sentEmails == [] && successCalls == 0
    {
      this.catalog := catalog;
      this.selectedTour := selectedTour;
      values := BookingDefaults(selectedTour);
      isSubmitting := false;
      saved := [];
      sentEmails := [];
      successCalls := 0;
    }

    /** A user edit: the fields now hold `v`. */
    method Edit(v: BookingValues)
      modifies this
      ensures values == v
      ensures isSubmitting == old(isSubmitting) && saved == old(saved)
      ensures sentEmails == old(sentEmails) && successCalls == old(successCalls)
    {
      values := v;
    }

    /**
     * Submitting the form. The schema is checked first; on errors nothing
     * else happens. Otherwise the form is busy while the booking is stored
     * and sent, and no longer busy afterwards, whatever the outcome. `now`
     * and `suffix` are the clock and the random part of the id.
     */
    method Submit(isEmail: string -> bool, now: nat, suffix: string, saveOk: bool, email: SendOutcome)
      returns (errors: seq<FieldError<BookingField>>)
      modifies this
      ensures errors == ValidateBooking(old(values), isEmail)
      ensures isSubmitting == (old(isSubmitting) && errors != [])
      ensures saved == old(saved) +
        (if errors == [] && saveOk then [MakeRecord(catalog, old(values), BookingId(now, suffix))] else [])
      ensures sentEmails == old(sentEmails) +
        (if errors == [] && saveOk then [BookingEmailFor(catalog, old(values), BookingId(now, suffix))] else [])
      ensures if errors == [] && Completes(saveOk, email)
        then values == BookingDefaults(selectedTour) && successCalls == old(successCalls) + 1
        else values == old(values) && successCalls == old(successCalls)
    {
      errors := ValidateBooking(values, isEmail);
      if errors != [] {
        assert saved + [] == saved && sentEmails + [] == sentEmails;
        return;
      }
      isSubmitting := true;
      Store(values, BookingId(now, suffix), saveOk, email);
      isSubmitting := false;
    }

    /**
     * The body of the submit handler once the schema passed: the record is
     * saved (`saveOk` tells whether the server accepted it), then the
     * operator's email is sent (`email` is how the service handled it); the
     * form is reset and `onSuccess` runs only when both reported success.
     */
    method Store(data: BookingValues, bookingId: string, saveOk: bool, email: SendOutcome)
      modifies this
      ensures isSubmitting == old(isSubmitting)
      ensures saved == old(saved) + (if saveOk then [MakeRecord(catalog, data, bookingId)] else [])
      ensures sentEmails == old(sentEmails) + (if saveOk then [BookingEmailFor(catalog, data, bookingId)] else [])
      ensures if Completes(saveOk, email)
        then values == BookingDefaults(selectedTour) && successCalls == old(successCalls) + 1
        else values == old(values) && successCalls == old(successCalls)
    {
      if !saveOk {
        assert saved + [] == saved && sentEmails + [] == sentEmails;
        return;
      }
      SaveAndNotify(data, bookingId);
      if SendReported(email) {
        Reset();
      }
    }

    /** The saved row and the operator email, both appended; the fields stay as they are. */
    method SaveAndNotify(data: BookingValues, bookingId: string)
      modifies this
      ensures saved == old(saved) + [MakeRecord(catalog, data, bookingId)]
      ensures sentEmails == old(sentEmails) + [BookingEmailFor(catalog, data, bookingId)]
      ensures values == old(values) && isSubmitting == old(isSubmitting) && successCalls == old(successCalls)
    {
      var record, mail := MakeRecord(catalog, data, bookingId), BookingEmailFor(catalog, data, bookingId);
      saved, sentEmails := saved + [record], sentEmails + [mail];
    }

    /** `form.reset()` and then `onSuccess`. */
    method Reset()
      modifies this
      ensures values == BookingDefaults(selectedTour) && successCalls == old(successCalls) + 1
      ensures saved == old(saved) && sentEmails == old(sentEmails) && isSubmitting == old(isSubmitting)
    {
      values := BookingDefaults(selectedTour);
      successCalls := successCalls + 1;
    }
  }
}
