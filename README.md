# Taj India Tours — a verified model of the site's decision rules

Taj India Tours is a travel agency web site. It has two front ends and a
small server:

- a React client: a tour catalog with search and filters, a destination
  gallery, an FAQ accordion, a booking form and a contact form;
- an older static site of two scripts: a tour grid with a category filter
  and a price slider, a tour detail page, and a booking modal;
- an Express server, of which the model covers the request log line and
  the error handler.

Almost everything on the site is markup. This project models the rules
underneath it in Dafny and proves what they promise.

The model is organised by module:

- `Seqs` (seqs.dfy): order-preserving `filter` and the sub-sequence relation.
- `Js` (js.dfy): the JavaScript semantics the rules rely on:
  - `parseInt`, with white space, sign, `0x` and NaN;
  - integer `toString`;
  - ASCII `toLowerCase`;
  - `includes` and `startsWith`;
  - string truthiness.
- `Catalog` (catalog.dfy): the tour packages and the destinations, and their data invariants.
- `ToursPage` (tours.dfy): the four-way tour filter, Clear Filters, and the result heading.
- `Gallery` (destinations.dfy): the category filter and lightbox state of the gallery and of the destinations page.
- `Faq` (faq.dfy): the accordion's open-item list.
- `Site` and `Header` (site.dfy): the WhatsApp link, the constant lists, and the active-link test.
- `Schema` (schema.dfy): how a field schema turns failing rules into error messages.
- `EmailService` (email.dfy): what the forms can observe of an email send.
- `Booking` (booking.dfy): the booking schema, the total, the saved record, the operator email, and the submit handler as a class.
- `ContactForm` (contact.dfy): the contact schema, the email payload, and the submit handler as a class.
- `StaticSite` (static_site.dfy): the star-rating row, the lookup by id, and the booking modal that both static scripts share.
- `ListingPage` (listing.dfy): the static tour grid, its filter state, and the tour select.
- `TourDetail` (tour_detail.dfy): the tour detail page's lookup and state.
- `ServerLog` (server_log.dfy): the API log line and the error response.

Some inputs are parameters rather than computed values:

- the time, and the random part of a booking id;
- the schema library's email check (`isEmail`);
- the outcome of each save and each email;
- the contents of the static site's tours file.

Handlers that update state in place are classes. Their methods state the
whole new state: `BookingForm`, `ContactPage`, `BookingModal`, `TourGrid`,
`TourDetailPage` and `RequestLog`.

## Model

| member | source | states |
|---|---|---|
| Seqs.Filter | client/src/pages/tours.tsx:46-74 | `filter` keeps only elements that pass, never lengthens, and never invents an element |
| Seqs.FilterKeeps | client/src/pages/tours.tsx:46-74 | an element is kept iff it is in the input and passes |
| Seqs.FilterMultiset | client/src/pages/tours.tsx:46-74 | each passing value keeps its multiplicity, and a failing value is gone |
| Seqs.FilterIsSubSeq | client/src/pages/tours.tsx:46-74 | the result keeps the input's relative order |
| Seqs.FilterMonotone | client/src/pages/tours.tsx:46-74 | a stricter predicate keeps a sub-sequence of what a weaker one keeps |
| Seqs.FilterIdempotent | client/src/components/faq.tsx:13 | filtering twice is filtering once |
| Seqs.FilterAppend | client/src/components/faq.tsx:13 | filtering distributes over concatenation |
| Seqs.FilterNoDup | client/src/components/faq.tsx:13 | filtering never creates a duplicate |
| Js.CodeUnitLength | client/src/components/booking-form.tsx:20 | a string's `length`, the number of UTF-16 code units the `.min` rules count, lies between its character count and twice that |
| Js.CodeUnitLengthOfBasicPlane | client/src/components/booking-form.tsx:20 | without characters outside the basic plane, `length` equals the character count |
| Js.EmojiHasLengthTwo | client/src/components/booking-form.tsx:20 | one emoji is one character but has `length` 2 |
| Js.IncludesAt | client/src/pages/tours.tsx:48-49 | `includes` holds iff the needle occurs at some position |
| Js.ToLower | client/src/pages/tours.tsx:48-49 | lower-casing keeps the length and maps each ASCII capital to its small letter |
| Js.ToLowerIdempotent | client/src/pages/tours.tsx:48-49 | lower-casing twice is lower-casing once |
| Js.ParseIntOfDigits | client/src/pages/tours.tsx:60 | `parseInt` of a run of digits is its decimal value |
| Js.ParseIntBeforeText | client/src/pages/tours.tsx:60 | digits followed by a non-digit (not `x`) read as the digits' value, e.g. "5 Days" is 5 |
| Js.ParseIntOfIntToString | client/src/components/booking-form.tsx:76-82 | an integer printed with `toString` reads back as the same integer |
| Js.ParseIntOfNumberToString | client/src/components/booking-form.tsx:76-82 | printing and re-reading a number, NaN included, gives it back |
| Catalog.FindTour | client/src/components/booking-form.tsx:74 | `find` returns a package with the id, and returns nothing iff no package has it |
| Catalog.FindTourUnique | client/src/lib/tour-data.ts:22-203 | with distinct ids, lookup returns exactly the package carrying the id |
| Catalog.TourIdsDistinct | client/src/lib/tour-data.ts:24-174 | the six package ids are pairwise distinct |
| Catalog.DestinationIdsDistinct | client/src/lib/tour-data.ts:205-270 | the destination ids are pairwise distinct |
| Catalog.DestinationCategories | client/src/lib/tour-data.ts:205-270 | every destination is heritage, nature or spiritual |
| Catalog.TourPricesPositive | client/src/lib/tour-data.ts:30-180 | every price is a positive integer |
| Catalog.TourRatingsInRange | client/src/lib/tour-data.ts:47-197 | every rating lies in 0..5 |
| Catalog.TourDurationTexts | client/src/lib/tour-data.ts:29-179 | every duration is "<n> Days" with n in 3..7 |
| Catalog.TourDurationsParse | client/src/lib/tour-data.ts:29-179 | every duration's leading integer parses to a value in 3..7 |
| ToursPage.AnyIncludesIff | client/src/pages/tours.tsx:49 | `some(... includes ...)` holds iff some destination contains the term |
| ToursPage.FilteredTours | client/src/pages/tours.tsx:46-74 | the result is the sub-sequence of the catalog passing all four conditions, in order |
| ToursPage.FilteredToursCount | client/src/pages/tours.tsx:46-74 | a shown package keeps its multiplicity, and a hidden one is absent |
| ToursPage.SearchOkIff | client/src/pages/tours.tsx:48-51 | the search passes iff the term is empty or occurs, ignoring case, in the name or in a destination |
| ToursPage.SearchIgnoresCase | client/src/pages/tours.tsx:48-49 | the term's case never matters |
| ToursPage.DefaultsShowAll | client/src/pages/tours.tsx:37-40 | with the initial filters every package is listed, in order |
| ToursPage.ClearFilters | client/src/pages/tours.tsx:176-181 | Clear Filters empties the search and sets the three selects to "all" |
| ToursPage.ClearFiltersShowsAll | client/src/pages/tours.tsx:176-181 | after Clear Filters the whole catalog is listed |
| ToursPage.CategoryOkIff | client/src/pages/tours.tsx:54-56 | "all" passes everything, and any other category passes only equal categories, case-sensitively |
| ToursPage.DurationBuckets | client/src/pages/tours.tsx:59-64 | "1-3", "4-6" and "7+" keep exactly the durations in 1..3, 4..6 and ≥7 |
| ToursPage.NaNDurationNeverExcluded | client/src/pages/tours.tsx:59-64 | a duration without a leading integer passes every bucket |
| ToursPage.DurationBucketsPartition | client/src/pages/tours.tsx:59-64 | a duration of at least one day passes exactly one bucket |
| ToursPage.FiveDays | client/src/pages/tours.tsx:59-64 | "5 Days" passes only "all" and "4-6" |
| ToursPage.UnofferedValuesPass | client/src/pages/tours.tsx:59-71 | a duration or price value not offered by a select excludes nothing |
| ToursPage.PriceBuckets | client/src/pages/tours.tsx:67-71 | the price buckets are inclusive at both ends |
| ToursPage.PriceBucketsOverlap | client/src/pages/tours.tsx:67-71 | 20000 and 40000 each fall in two buckets |
| ToursPage.PriceBelowTwentyThousand | client/src/pages/tours.tsx:67-71 | 18999 falls only in "all" and "0-20000" |
| ToursPage.Narrowing | client/src/pages/tours.tsx:46-74 | stricter conditions list a sub-sequence of what weaker ones list |
| ToursPage.NarrowCategory | client/src/pages/tours.tsx:54-56 | choosing a category instead of "all" never adds a package |
| ToursPage.NarrowDuration | client/src/pages/tours.tsx:59-64 | choosing a duration bucket never adds a package |
| ToursPage.NarrowPrice | client/src/pages/tours.tsx:67-71 | choosing a price bucket never adds a package |
| ToursPage.NarrowSearch | client/src/pages/tours.tsx:48-51 | typing a search term never adds a package |
| ToursPage.HeadingSingular | client/src/pages/tours.tsx:196 | the heading says "Tour" iff the count is 1 |
| ToursPage.HeadingCount | client/src/pages/tours.tsx:196 | the heading starts with the count, which reads back exactly |
| ToursPage.CatalogCategoriesOffered | client/src/pages/tours.tsx:13-19 | every catalog category is a specific value of the category select |
| ToursPage.CatalogDurationsBucketed | client/src/pages/tours.tsx:21-26 | every catalog package falls in exactly one duration bucket |
| Gallery.FilterDestinations | client/src/components/gallery.tsx:18-20 | "all" lists every destination, and any other value lists that category's destinations, in order |
| Gallery.UnmatchedFilterIsEmpty | client/src/components/gallery.tsx:20 | a value matching no category lists nothing |
| Gallery.SharedCategoryListsAll | client/src/components/gallery.tsx:20 | filtering by a category every destination shares lists them all |
| Gallery.ListedUnderOwnCategory | client/src/pages/destinations.tsx:20-22 | a destination is listed under a specific filter iff it is its category |
| Gallery.CategoriesOffered | client/src/components/gallery.tsx:7-12 | every destination's category has its own filter button |
| Gallery.GalleryShown | client/src/components/gallery.tsx:18-20 | the gallery always shows a sub-sequence of the destinations |
| Gallery.InitialGalleryShowsAll | client/src/components/gallery.tsx:15-16 | the gallery starts unfiltered with the lightbox closed |
| Gallery.SelectFilter | client/src/components/gallery.tsx:57 | a filter button changes the listed destinations and not the lightbox |
| Gallery.ClickDestination | client/src/components/gallery.tsx:79 | clicking a destination enlarges its image |
| Gallery.CloseGalleryLightbox | client/src/components/gallery.tsx:104-113 | both close actions shut the lightbox and keep the filter |
| Gallery.OpenThenCloseGallery | client/src/components/gallery.tsx:79-113 | opening then closing the lightbox restores the gallery |
| Gallery.DestinationsShown | client/src/pages/destinations.tsx:95-147 | the photo grid and the detail list show one sub-sequence of the destinations, the same one the home page gallery shows under the same filter |
| Gallery.OpenLightbox | client/src/pages/destinations.tsx:24-30 | `openLightbox` records the clicked destination's image, name and location |
| Gallery.CloseLightbox | client/src/pages/destinations.tsx:215-225 | both close actions reset the lightbox |
| Gallery.OpenThenClose | client/src/pages/destinations.tsx:24-225 | opening then closing the lightbox restores the page |
| Gallery.DestinationNamesDistinct | client/src/lib/tour-data.ts:205-270 | the destination names are pairwise distinct |
| Gallery.LightboxIdentifiesDestination | client/src/pages/destinations.tsx:24-30 | the lightbox caption names exactly the destination clicked |
| Faq.Toggle | client/src/components/faq.tsx:10-16 | a toggle flips the id's membership and leaves every other id's unchanged |
| Faq.ToggleOpens | client/src/components/faq.tsx:14 | toggling a closed item appends it at the end |
| Faq.ToggleKeepsOthersInOrder | client/src/components/faq.tsx:10-16 | the other ids keep their relative order |
| Faq.OpeningKeepsOthersOpen | client/src/components/faq.tsx:14 | opening an item never closes another |
| Faq.ToggleNoDup | client/src/components/faq.tsx:12-14 | a toggle never introduces a duplicate |
| Faq.ToggleTwiceRestores | client/src/components/faq.tsx:12-14 | toggling a closed item twice restores the list |
| Faq.ClicksKeepNoDup | client/src/components/faq.tsx:10-16 | no sequence of clicks creates a duplicate |
| Faq.InitiallyNoDuplicates | client/src/components/faq.tsx:8 | starting from the empty list, the open list never holds a duplicate |
| Site.StripKeepsExactlyDigits | client/src/lib/constants.ts:20 | stripping keeps exactly the decimal digits, in order |
| Site.StripKeepsDigitCounts | client/src/lib/constants.ts:20 | each digit is kept as often as it occurs |
| Site.StripAllDigits | client/src/lib/constants.ts:20 | an all-digit text is unchanged |
| Site.StripIdempotent | client/src/lib/constants.ts:20 | stripping twice is stripping once |
| Site.StripAppend | client/src/lib/constants.ts:20 | stripping distributes over concatenation |
| Site.WhatsAppLink | client/src/lib/constants.ts:20 | the link is "https://wa.me/" followed by the number's digits |
| Site.CompanyWhatsAppLink | client/src/lib/constants.ts:5-20 | the company's link is https://wa.me/919876543210 |
| Site.CompanyWhatsAppDigits | client/src/lib/constants.ts:5-20 | "+91 98765 43210" strips to "919876543210" |
| Site.NavHrefsDistinct | client/src/lib/constants.ts:23-30 | the navigation hrefs are pairwise distinct |
| Site.TestimonialRatings | client/src/lib/constants.ts:37-77 | every testimonial rating is 5 |
| Site.FaqIdsDistinct | client/src/lib/constants.ts:85-110 | the FAQ ids are the distinct numbers 1 to 6 |
| Header.RootActiveIff | client/src/components/header.tsx:13 | "/" is active iff the location is exactly "/" |
| Header.OtherActiveIff | client/src/components/header.tsx:14 | any other href is active iff the location starts with it |
| Header.PlainPrefix | client/src/components/header.tsx:13-14 | "/tours" is active at "/tours/x" and at "/toursX", and "/" is not active at "/tours" |
| Header.AtMostOneActive | client/src/components/header.tsx:12-15 | at every location at most one navigation item is active |
| Schema.Errors | client/src/components/booking-form.tsx:19-28 | there are no errors iff every rule passes, and every error is a failing rule's message |
| Schema.ErrorsComplete | client/src/components/booking-form.tsx:19-28 | every failing rule gets its message |
| Schema.ErrorsExactly | client/src/components/booking-form.tsx:19-28 | with one rule per field, a field is flagged iff its rule fails |
| Schema.ErrorsAreFailingRules | client/src/components/booking-form.tsx:19-28 | the errors are those of the failing rules, in field order |
| EmailService.ReportIgnoresStatus | client/src/hooks/use-emailjs.ts:9-59 | `sendBooking` and `sendContact` report a failure exactly when the helper threw: every answered send counts as a success whatever its status, while the helper itself returns true only for status 200 (client/src/lib/emailjs.ts:51) |
| Booking.ValidateBooking | client/src/components/booking-form.tsx:19-28 | the form passes iff both names have `length` ≥2, the email passes the check, the phone has `length` ≥10, and package, date and travelers are non-empty, each `length` counted in UTF-16 code units |
| Booking.EmojiFirstNameAccepted | client/src/components/booking-form.tsx:20 | a first name of one emoji has `length` 2 and is not flagged |
| Booking.ValidateBookingOrder | client/src/components/booking-form.tsx:19-28 | the messages appear in field order, one per failing field |
| Booking.ValidateBookingFields | client/src/components/booking-form.tsx:19-28 | each field shows its own message exactly when its rule fails |
| Booking.BookingRulesByField | client/src/components/booking-form.tsx:19-28 | there is one rule per field, and it carries that field's message |
| Booking.Times | client/src/components/booking-form.tsx:76 | the product is NaN iff a factor is NaN, and is otherwise the product of the values |
| Booking.TotalAmount | client/src/components/booking-form.tsx:74-82 | the total is price × parsed travelers for a catalog package, and 0 otherwise |
| Booking.TravelerOptionsText | client/src/components/booking-form.tsx:263-272 | the travelers select offers "1" to "10" |
| Booking.TravelerOptionsParse | client/src/components/booking-form.tsx:263-272 | every travelers choice parses to a count in 1..10 |
| Booking.PackageOptions | client/src/components/booking-form.tsx:216-221 | the package select offers the catalog ids in order, then "custom" |
| Booking.CustomPackageTotal | client/src/components/booking-form.tsx:76 | "custom" is always priced at 0 |
| Booking.TotalOfOption | client/src/components/booking-form.tsx:74-76 | a catalog package with a travelers choice costs its price times the count |
| Booking.GoldenTriangleForTwo | client/src/components/booking-form.tsx:74-76 | 12999 × "2" is 25998 |
| Booking.BookingId | client/src/components/booking-form.tsx:71 | a booking id always starts with "TIT-" |
| Booking.BookingIdTime | client/src/components/booking-form.tsx:71 | the timestamp reads back from the id after the prefix |
| Booking.RecordContents | client/src/components/booking-form.tsx:79-84 | the saved row holds the form values, the id, the numeric total and status "pending" |
| Booking.OrElse | client/src/components/booking-form.tsx:94-97 | `a \|\| b` on strings is `a` when non-empty, and `b` otherwise |
| Booking.EmailMessage | client/src/components/booking-form.tsx:97 | the message is the special requests, or "No special requests" when they are empty |
| Booking.EmailContents | client/src/components/booking-form.tsx:89-104 | the email goes to bookings@tajindiatours.com from the full name, and its id and total match the saved row |
| Booking.EmailTourPackage | client/src/components/booking-form.tsx:94 | the email names a catalog package by its name, and anything else by the raw value |
| Booking.TourNamesNonEmpty | client/src/lib/tour-data.ts:25-175 | every package has a name, so the email never falls back to the id for one |
| Booking.BookingDefaults | client/src/components/booking-form.tsx:44-53 | the defaults are empty except the preselected package |
| Booking.ResetsAsWritten | client/src/components/booking-form.tsx:106-110 | as written, the form resets whenever the save succeeded |
| Booking.ResetDespiteFailedEmail | client/src/components/booking-form.tsx:106-110 | as written, the form resets although the operator email failed |
| Booking.Completes | client/src/components/booking-form.tsx:86-110 | the corrected handler completes iff the save succeeded and the email did not fail |
| Booking.CompletesRefinesAsWritten | client/src/components/booking-form.tsx:86-110 | the corrected handler completes iff the as-written one does and the email was reported sent |
| Booking.BookingForm.constructor | client/src/components/booking-form.tsx:38-54 | the form starts with the defaults, not submitting, and nothing saved or sent |
| Booking.BookingForm.Edit | client/src/components/booking-form.tsx:42-54 | an edit changes the fields only |
| Booking.BookingForm.Submit | client/src/components/booking-form.tsx:66-117 | invalid input changes nothing; otherwise the row is saved and the email sent when the save succeeds, the form resets and calls back only when both succeed, and `isSubmitting` is false again |
| Booking.BookingForm.Store | client/src/components/booking-form.tsx:78-110 | the save, then the email, then the reset and the callback, each only when what precedes it succeeded |
| Booking.BookingForm.SaveAndNotify | client/src/components/booking-form.tsx:78-107 | the saved row and the operator email are each appended once, and the fields are left alone |
| Booking.BookingForm.Reset | client/src/components/booking-form.tsx:109-111 | the fields return to the defaults and `onSuccess` runs once more; nothing saved or sent changes |
| ContactForm.ValidateContact | client/src/components/contact-form.tsx:15-23 | the form passes iff both names have `length` ≥2, the email passes the check, the subject is non-empty and the message has `length` ≥10, each `length` counted in UTF-16 code units |
| ContactForm.ContactRulesByField | client/src/components/contact-form.tsx:15-23 | there is one rule per field, and it carries that field's message |
| ContactForm.ValidateContactFields | client/src/components/contact-form.tsx:15-23 | each field shows its own message exactly when its rule fails |
| ContactForm.ValidateContactOrder | client/src/components/contact-form.tsx:15-23 | the messages appear in field order |
| ContactForm.MessageLengthBoundary | client/src/components/contact-form.tsx:21 | a message of `length` 9 is refused and one of `length` 10 accepted |
| ContactForm.OptionalFieldsIgnored | client/src/components/contact-form.tsx:19-22 | phone and newsletter never decide validity |
| ContactForm.DefaultsInvalid | client/src/components/contact-form.tsx:32-40 | the empty form is never valid |
| ContactForm.PhoneOrDefault | client/src/components/contact-form.tsx:48 | a missing or empty phone becomes "Not provided" |
| ContactForm.PayloadContents | client/src/components/contact-form.tsx:44-51 | the email goes to info@tajindiatours.com from "first last" with the subject and message as entered |
| ContactForm.PayloadPhone | client/src/components/contact-form.tsx:48 | the payload phone is the entered phone, or "Not provided" |
| ContactForm.PayloadIgnoresNewsletter | client/src/components/contact-form.tsx:44-51 | the newsletter flag never reaches the email |
| ContactForm.SubjectOptionsValid | client/src/components/contact-form.tsx:156-160 | the five subject values are distinct and pass the subject rule |
| ContactForm.ContactPage.constructor | client/src/components/contact-form.tsx:30-41 | the form starts with the defaults and nothing sent |
| ContactForm.ContactPage.Edit | client/src/components/contact-form.tsx:30-41 | an edit changes the fields only |
| ContactForm.ContactPage.Submit | client/src/components/contact-form.tsx:43-57 | invalid input sends nothing; a valid form sends the payload and resets iff the send is reported successful |
| StaticSite.FindById | public/js/main.js:264 | `find` returns a tour with the id, and returns nothing iff no tour has it |
| StaticSite.FindByIdFirst | public/js/tour-detail.js:28 | the tour found is the first one with the id |
| StaticSite.FractionOf | public/js/main.js:114 | `rating % 1` lies in [0, 1) for a non-negative rating and carries the rating's sign |
| StaticSite.Repeat | public/js/main.js:118-126 | a count loop below one appends nothing, and otherwise appends that many icons |
| StaticSite.GenerateStars | public/js/main.js:112-128 | the loops build the full icons, the half icon when the fraction is ≥0.5, then 5 − full − half empty icons |
| StaticSite.StarsLayout | public/js/tour-detail.js:153-163 | each icon kind sits in its own segment of the row |
| StaticSite.StarsFiveIcons | public/js/tour-detail.js:148-164 | a rating in 0..5 shows exactly five icons |
| StaticSite.StarsOrdered | public/js/main.js:117-127 | full icons come first, then the half icon, then the empty ones |
| StaticSite.StarsCounts | public/js/main.js:113-114 | a non-negative rating shows floor(rating) full icons and a half icon iff its fraction is ≥0.5 |
| StaticSite.StarsRowLength | public/js/main.js:113-127 | the row is five icons long exactly for ratings in [0, 5.5); below 0 it is 5 − floor(rating) long, and from 5.5 up it is floor(rating) plus the half icon, at least six |
| StaticSite.StarsOutOfRange | public/js/main.js:113-127 | the rating 6 shows six full icons and −1 shows six empty ones |
| StaticSite.AlertText | public/js/main.js:349 | the alert shows the error's message, or the fallback when it is empty |
| StaticSite.BookingModal.constructor | public/js/main.js:12-14 | the modal starts closed with the button enabled and nothing sent |
| StaticSite.BookingModal.Edit | public/js/main.js:316-323 | an edit changes the fields only |
| StaticSite.BookingModal.OpenFromList | public/js/main.js:262-271 | a non-empty id naming a tour writes its title into the tour field, and the modal opens |
| StaticSite.BookingModal.OpenForCurrentTour | public/js/tour-detail.js:212-218 | the tour field gets the current tour's title whatever id is passed, and the modal opens |
| StaticSite.BookingModal.HandleSubmission | public/js/main.js:304-355 | an empty required field alerts before any send; a send that does not throw leads to success whatever the confirmation does; a throw alerts; the button is restored on every path |
| ListingPage.ShownToursExactly | public/js/main.js:62-66 | a tour is shown iff it matches the category filter and its price is at most the ceiling, in file order |
| ListingPage.NaNCeilingHidesAll | public/js/main.js:64 | an unparsable ceiling hides every tour |
| ListingPage.AllBelowCeilingShown | public/js/main.js:62-66 | with "all" and a high enough ceiling every tour is shown |
| ListingPage.NarrowingShowsLess | public/js/main.js:62-66 | choosing a category or lowering the ceiling never shows more |
| ListingPage.RenderTours | public/js/main.js:56-71 | no tours means loading, no match means the no-match message, and otherwise one card per shown tour |
| ListingPage.TourGrid.constructor | public/js/main.js:2-6 | the grid starts with no tours, filter "all" and ceiling 2000 |
| ListingPage.TourGrid.Load | public/js/main.js:29-31 | loading sets the tours only |
| ListingPage.TourGrid.SelectFilter | public/js/main.js:203 | a filter button sets the filter only |
| ListingPage.TourGrid.Slide | public/js/main.js:211 | the slider sets the ceiling to the parsed value, so slider text n gives ceiling n |
| ListingPage.InitialGrid | public/js/main.js:5-6 | before any input the grid shows the tours priced at most 2000 |
| ListingPage.TourOptions | public/js/main.js:291-299 | the select holds one option more than there are tours, and the placeholder comes first |
| ListingPage.TourOptionAt | public/js/main.js:294-299 | after the placeholder, the option at position i + 1 is that of the i-th tour, in file order |
| ListingPage.PopulateTourSelect | public/js/main.js:287-300 | with tours, the loop fills the select with the placeholder and the tour options; without tours the select is unchanged |
| ListingPage.TourOptionsAppend | public/js/main.js:294-299 | one more tour appends exactly its option |
| ListingPage.EveryTourSelectable | public/js/main.js:266-297 | every loaded tour's title is the value of an option, so opening the modal for it selects an option |
| ListingPage.PlaceholderSelectsNothing | public/js/main.js:291-297 | only the placeholder has the empty value |
| TourDetail.ErrorMessage | public/js/tour-detail.js:21-49 | every error shows a non-empty message |
| TourDetail.Lookup | public/js/tour-detail.js:17-33 | a missing or empty id, a failed load, and an unknown id each end in their own error, and a found tour carries the id |
| TourDetail.LookupFindsListedTour | public/js/tour-detail.js:28 | with distinct ids a listed tour is always found |
| TourDetail.TourDetailPage.constructor | public/js/tour-detail.js:2 | no tour is current at first |
| TourDetail.TourDetailPage.LoadTourDetail | public/js/tour-detail.js:15-51 | a found tour becomes current and is shown, and the title becomes "<title> - Taj India Tours"; an error shows its message and changes nothing else |
| ServerLog.Truncate | server/index.ts:28-30 | a line over 80 characters becomes its first 79 plus "…", exactly 80 long; a shorter line is unchanged |
| ServerLog.TruncateIdempotent | server/index.ts:28-30 | a truncated line is not cut again |
| ServerLog.TruncateKeepsPrefix | server/index.ts:28-30 | a line is changed iff it is longer than 80, and what is kept is its beginning |
| ServerLog.LogLine | server/index.ts:23-30 | every logged line has at most 80 characters |
| ServerLog.ShortLineIsWhole | server/index.ts:23-26 | a short line is "<method> <path> <status> in <n>ms", with " :: <json>" iff a truthy body was captured |
| ServerLog.RequestLog.constructor | server/index.ts:9-12 | nothing is captured or logged at first |
| ServerLog.RequestLog.Json | server/index.ts:15-18 | each `res.json` call overwrites the captured body |
| ServerLog.RequestLog.Finish | server/index.ts:20-33 | only paths starting with "/api" are logged, with the line for the captured body |
| ServerLog.ErrorResponse | server/index.ts:58-60 | the status is `status` if truthy, else `statusCode` if truthy, else 500; the message is the error's, or "Internal Server Error" |
| ServerLog.ErrorResponseDefined | server/index.ts:58-62 | the reply's status is never 0, its message never empty, and its status is one the error carried or 500 |

## Left out

- Display copy is not modelled: descriptions, images, highlights, itineraries, and the labels of select options and buttons. The records keep only the fields the rules read.
- The toasts of the email hook are not modelled. Neither are its fire-and-forget customer confirmation and the email service's internals. A send is an outcome parameter: delivered, not accepted, or thrown.
- The save to the server (`mutateAsync`) is a success/failure parameter. The database behind it (server/storage.ts) is not part of this model.
- The random part of a booking id and `Date.now()` are parameters.
- `Intl.NumberFormat` currency text is left out. The email carries the numeric total instead.
- Js.ParseInt: integers are unbounded, so values beyond 2^53 do not lose precision as JavaScript numbers do. `toString` never uses exponent form.
- Js.ToLower: maps only the ASCII letters A-Z. Other letters are left as they are.
- Catalog.TourRatingsInRange: ratings are exact decimals, not IEEE doubles, so `rating % 1` has no rounding error.
- StaticSite.GenerateStars: returns the icon kinds, not their HTML markup.
- StaticSite.BookingModal.HandleSubmission: the temporary "Sending..." label is not part of the final state, and `console` output is not modelled. The form reset restores a fixed set of default field values.
- ListingPage.RenderTours: returns the decision (loading, no match, or the cards), not the card HTML.
- ServerLog.Truncate: counts characters, whereas JavaScript counts UTF-16 code units. A line with characters outside the basic plane may be cut at a different point.
- ServerLog.RequestLog.Finish: the body is given as its JSON text and its truthiness. `JSON.stringify` itself is not modelled.
- ServerLog.ErrorResponse: the rethrow after replying, and the Express routing and listening code, are I/O plumbing and are not modelled.
- The static site loads its tours file with `fetch`. Its contents are a parameter, and a failed read is the `LoadFailed` case.
- The reviews and FAQ rendering of the static site, mobile menus, scrolling and animation are markup only.
- ContactForm.ContactPage.Submit is modelled as written. It also resets when the email service answered with a status other than 200, because the hook reports every send that did not throw as a success.

## Findings

| source | as written | input that shows it | evidently intended | confidence | as-written member | corrected member |
|---|---|---|---|---|---|---|
| client/src/components/booking-form.tsx:106-110 | `await sendBooking(emailData)` ignores the boolean it returns. The hook catches every email error and returns false (client/src/hooks/use-emailjs.ts:24-31), so the form resets and `onSuccess` runs although the operator email failed | a valid form, a successful save, and an email send that throws | reset and call back only when the save and the operator email both succeed | not executed | Booking.ResetDespiteFailedEmail | Booking.BookingForm.Submit |
