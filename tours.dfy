/**
 * The tours page: four filters narrow the catalog, each an independent
 * condition on one package, and the heading counts what is left.
 */
module ToursPage {
  import opened Js
  import opened Seqs
  import opened Catalog

  /** The values the three select boxes offer; "all" switches a filter off. */
  const CATEGORIES: seq<string> := ["all", "Heritage", "Spiritual", "Nature", "Beach"]
  const DURATIONS: seq<string> := ["all", "1-3", "4-6", "7+"]
  const PRICE_RANGES: seq<string> := ["all", "0-20000", "20000-40000", "40000+"]

  /** The page's filter state: the search box and the three selects. */
  datatype Filters = Filters(searchTerm: string, category: string, duration: string, price: string)

  /** The state the page starts in, and the one Clear Filters sets. */
  const DEFAULT_FILTERS: Filters := Filters("", "all", "all", "all")

  /** `names.some(n => n.toLowerCase().includes(term))`. */
  predicate AnyIncludes(names: seq<string>, term: string)
  {
    names != [] && (Includes(ToLower(names[0]), term) || AnyIncludes(names[1..], term))
  }

  /** `some` holds iff one of the names contains the term. */
  lemma {:induction false} AnyIncludesIff(names: seq<string>, term: string)
    ensures AnyIncludes(names, term) <==> exists n :: n in names && Includes(ToLower(n), term)
  {
    if names != [] {
      AnyIncludesIff(names[1..], term);
      if Includes(ToLower(names[0]), term) {
        assert names[0] in names;
      }
      if exists n :: n in names && Includes(ToLower(n), term) {
        var n :| n in names && Includes(ToLower(n), term);
        if n != names[0] {
          assert n in names[1..];
        }
      }
      forall n | n in names[1..] ensures n in names { }
    }
  }

  /** A non-empty term must occur, ignoring case, in the name or in a destination. */
  predicate SearchOk(t: TourPackage, term: string)
  {
    !(Truthy(term) && !Includes(ToLower(t.name), ToLower(term)) &&
      !AnyIncludes(t.destinations, ToLower(term)))
  }

  /** Any category but "all" must equal the package's exactly. */
  predicate CategoryOk(t: TourPackage, category: string)
  {
    !(category != "all" && t.category != category)
  }

  /** `x < k` on a JS number: false when `x` is NaN. */
  predicate Below(x: Number, k: int) { x.Num? && x.value < k }

  /** `x > k` on a JS number: false when `x` is NaN. */
  predicate Above(x: Number, k: int) { x.Num? && x.value > k }

  /** The duration bucket tests the leading integer of the duration text. */
  predicate DurationOk(t: TourPackage, duration: string)
  {
    var days := ParseInt(t.duration);
    duration == "all" ||
    (!(duration == "1-3" && (Below(days, 1) || Above(days, 3))) &&
     !(duration == "4-6" && (Below(days, 4) || Above(days, 6))) &&
     !(duration == "7+" && Below(days, 7)))
  }

  /** The price buckets, inclusive at both ends. */
  predicate PriceOk(t: TourPackage, price: string)
  {
    price == "all" ||
    (!(price == "0-20000" && t.price > 20000) &&
     !(price == "20000-40000" && (t.price < 20000 || t.price > 40000)) &&
     !(price == "40000+" && t.price < 40000))
  }

  /** The callback of `filter`: all four conditions together. */
  predicate Shown(f: Filters, t: TourPackage)
  {
    SearchOk(t, f.searchTerm) && CategoryOk(t, f.category) &&
    DurationOk(t, f.duration) && PriceOk(t, f.price)
  }

  /** The packages the page lists under the filters `f`. */
  function FilteredTours(tours: seq<TourPackage>, f: Filters): (r: seq<TourPackage>)
    ensures SubSeq(r, tours)
    ensures forall t :: t in r <==> t in tours && Shown(f, t)
  {
    var p := (t: TourPackage) => Shown(f, t);
    FilterIsSubSeq(tours, p);
    forall t ensures t in Filter(tours, p) <==> t in tours && p(t) {
      FilterKeeps(tours, p, t);
    }
    Filter(tours, p)
  }

  /** Every package occurs in the result exactly as often as in the catalog if shown, and not at all otherwise. */
  lemma FilteredToursCount(tours: seq<TourPackage>, f: Filters, t: TourPackage)
    ensures multiset(FilteredTours(tours, f))[t] == if Shown(f, t) then multiset(tours)[t] else 0
  {
    FilterMultiset(tours, (t: TourPackage) => Shown(f, t), t);
  }

  /** The search condition in words: empty, or found in the name or in some destination. */
  lemma SearchOkIff(t: TourPackage, term: string)
    ensures SearchOk(t, term) <==>
      term == [] ||
      (exists i :: OccursAt(ToLower(t.name), ToLower(term), i)) ||
      (exists d :: d in t.destinations && Includes(ToLower(d), ToLower(term)))
  {
    var lower := ToLower(term);
    IncludesAt(ToLower(t.name), lower);
    AnyIncludesIff(t.destinations, lower);
    assert Includes(ToLower(t.name), lower) <==> exists i :: OccursAt(ToLower(t.name), lower, i);
    assert AnyIncludes(t.destinations, lower) <==> exists d :: d in t.destinations && Includes(ToLower(d), lower);
    assert SearchOk(t, term) <==>
      term == [] || Includes(ToLower(t.name), lower) || AnyIncludes(t.destinations, lower);
  }

  /** The search ignores case on both sides. */
  lemma SearchIgnoresCase(t: TourPackage, term: string)
    ensures SearchOk(t, ToLower(term)) <==> SearchOk(t, term)
  {
    ToLowerIdempotent(term);
  }

  /** The defaults show every package, in catalog order. */
  lemma DefaultsShowAll(tours: seq<TourPackage>)
    ensures FilteredTours(tours, DEFAULT_FILTERS) == tours
  {
    FilterAll(tours, (t: TourPackage) => Shown(DEFAULT_FILTERS, t));
  }

  /** Clear Filters: the search and the three selects go back to their defaults. */
  function ClearFilters(f: Filters): (r: Filters)
    ensures r.searchTerm == [] && r.category == "all" && r.duration == "all" && r.price == "all"
  {
    DEFAULT_FILTERS
  }

  /** After Clear Filters the whole catalog is listed. */
  lemma ClearFiltersShowsAll(tours: seq<TourPackage>, f: Filters)
    ensures FilteredTours(tours, ClearFilters(f)) == tours
  {
    DefaultsShowAll(tours);
  }

  /** A specific category keeps exactly the packages of that category, case-sensitively. */
  lemma CategoryOkIff(t: TourPackage, category: string)
    ensures CategoryOk(t, category) <==> category == "all" || t.category == category
  {
  }

  /** The three duration buckets on a duration that reads as `n` days. */
  lemma DurationBuckets(t: TourPackage, n: int)
    requires ParseInt(t.duration) == Num(n)
    ensures DurationOk(t, "1-3") <==> 1 <= n <= 3
    ensures DurationOk(t, "4-6") <==> 4 <= n <= 6
    ensures DurationOk(t, "7+") <==> n >= 7
  {
    assert "1-3"[0] == '1' && "4-6"[0] == '4' && "7+"[0] == '7' && "all"[0] == 'a';
    assert "1-3" != "all" && "1-3" != "4-6" && "1-3" != "7+";
    assert "4-6" != "all" && "4-6" != "7+" && "7+" != "all";
  }

  /** A duration with no leading integer passes every bucket: comparisons with NaN are false. */
  lemma NaNDurationNeverExcluded(t: TourPackage, duration: string)
    requires ParseInt(t.duration) == NaN
    ensures DurationOk(t, duration)
  {
  }

  /** For a duration of at least one day, exactly one bucket other than "all" keeps the package. */
  lemma DurationBucketsPartition(t: TourPackage, n: int)
    requires ParseInt(t.duration) == Num(n) && n >= 1
    ensures (DurationOk(t, "1-3") ==> !DurationOk(t, "4-6") && !DurationOk(t, "7+"))
    ensures (DurationOk(t, "4-6") ==> !DurationOk(t, "7+"))
    ensures DurationOk(t, "1-3") || DurationOk(t, "4-6") || DurationOk(t, "7+")
  {
    DurationBuckets(t, n);
  }

  /** "5 Days" passes "all" and "4-6" and no other offered bucket. */
  lemma FiveDays(t: TourPackage, duration: string)
    requires t.duration == DaysText(5)
    requires duration in DURATIONS
    ensures DurationOk(t, duration) <==> duration == "all" || duration == "4-6"
  {
    DaysParse(5);
    DurationBuckets(t, 5);
  }

  /** Every filter value outside the offered sets passes every package. */
  lemma UnofferedValuesPass(t: TourPackage, duration: string, price: string)
    requires duration !in DURATIONS && price !in PRICE_RANGES
    ensures DurationOk(t, duration) && PriceOk(t, price)
  {
  }

  /** The price buckets, both ends inclusive. */
  lemma PriceBuckets(t: TourPackage)
    ensures PriceOk(t, "0-20000") <==> t.price <= 20000
    ensures PriceOk(t, "20000-40000") <==> 20000 <= t.price <= 40000
    ensures PriceOk(t, "40000+") <==> t.price >= 40000
  {
  }

  /** 20000 and 40000 each fall in two buckets. */
  lemma PriceBucketsOverlap(t: TourPackage)
    ensures t.price == 20000 ==> PriceOk(t, "0-20000") && PriceOk(t, "20000-40000")
    ensures t.price == 40000 ==> PriceOk(t, "20000-40000") && PriceOk(t, "40000+")
  {
  }

  /** A price of 18999 falls in "0-20000" only. */
  lemma PriceBelowTwentyThousand(t: TourPackage, price: string)
    requires t.price == 18999 && price in PRICE_RANGES
    ensures PriceOk(t, price) <==> price == "all" || price == "0-20000"
  {
  }

  /** Conditions that are at least as strict on every package list no more packages. */
  lemma Narrowing(tours: seq<TourPackage>, f: Filters, g: Filters)
    requires forall t :: Shown(g, t) ==> Shown(f, t)
    ensures SubSeq(FilteredTours(tours, g), FilteredTours(tours, f))
    ensures |FilteredTours(tours, g)| <= |FilteredTours(tours, f)|
  {
    FilterMonotone(tours, (t: TourPackage) => Shown(g, t), (t: TourPackage) => Shown(f, t));
  }

  /** Choosing a category instead of "all" never adds a package. */
  lemma NarrowCategory(tours: seq<TourPackage>, f: Filters, category: string)
    requires f.category == "all"
    ensures SubSeq(FilteredTours(tours, f.(category := category)), FilteredTours(tours, f))
  {
    Narrowing(tours, f, f.(category := category));
  }

  /** Choosing a duration bucket instead of "all" never adds a package. */
  lemma NarrowDuration(tours: seq<TourPackage>, f: Filters, duration: string)
    requires f.duration == "all"
    ensures SubSeq(FilteredTours(tours, f.(duration := duration)), FilteredTours(tours, f))
  {
    Narrowing(tours, f, f.(duration := duration));
  }

  /** Choosing a price bucket instead of "all" never adds a package. */
  lemma NarrowPrice(tours: seq<TourPackage>, f: Filters, price: string)
    requires f.price == "all"
    ensures SubSeq(FilteredTours(tours, f.(price := price)), FilteredTours(tours, f))
  {
    Narrowing(tours, f, f.(price := price));
  }

  /** Typing a term into an empty search box never adds a package. */
  lemma NarrowSearch(tours: seq<TourPackage>, f: Filters, term: string)
    requires f.searchTerm == []
    ensures SubSeq(FilteredTours(tours, f.(searchTerm := term)), FilteredTours(tours, f))
  {
    Narrowing(tours, f, f.(searchTerm := term));
  }

  /** The heading above the results: "<n> Tour Found" or "<n> Tours Found". */
  function Heading(count: nat): string
  {
    NatToString(count) + " Tour" + (if count != 1 then "s" else "") + " Found"
  }

  /** The singular is used iff the count is 1. */
  lemma HeadingSingular(count: nat)
    ensures Heading(count) == NatToString(count) + " Tour Found" <==> count == 1
  {
    var n := NatToString(count);
    if count != 1 {
      assert |Heading(count)| == |n| + 12;
    }
  }

  /** The heading starts with the count, which reads back exactly. */
  lemma HeadingCount(count: nat)
    ensures ParseInt(Heading(count)) == Num(count)
  {
    var rest := " Tour" + (if count != 1 then "s" else "") + " Found";
    assert Heading(count) == NatToString(count) + rest;
    NatToStringValue(count);
    ParseIntBeforeText(NatToString(count), rest);
  }

  /** Every catalog category is one of the specific values the category select offers. */
  lemma CatalogCategoriesOffered()
    ensures forall t :: t in TOUR_PACKAGES ==> t.category in CATEGORIES && t.category != "all"
  {
  }

  /** Every catalog package reads as a whole number of days, so no duration bucket is vacuous for it. */
  lemma CatalogDurationsBucketed(t: TourPackage)
    requires t in TOUR_PACKAGES
    ensures DurationOk(t, "1-3") || DurationOk(t, "4-6") || DurationOk(t, "7+")
    ensures !(DurationOk(t, "1-3") && DurationOk(t, "4-6"))
  {
    TourDurationsParse();
    DurationBucketsPartition(t, ParseInt(t.duration).value);
  }
}
