/**
 * The static tour catalog: the `TourPackage` record, the six packages and
 * the eight destinations the site is built around, lookup by id, and the
 * invariants of the data that the filters and the booking total rely on.
 */
module Catalog {
  import opened Js
  import opened Seqs

  datatype Difficulty = Easy | Moderate | Challenging

  /**
   * A tour package, with the fields that the site's rules read. The display
   * copy of the source record (short and long description, image, highlight,
   * inclusion and best-time lists) is read by no rule and is not modelled.
   */
  datatype TourPackage = TourPackage(
    id: string,
    name: string,
    destinations: seq<string>,
    duration: string,
    price: int,
    originalPrice: Option<int>,
    category: string,
    badge: Option<string>,
    rating: real,
    reviewCount: int,
    maxGroupSize: int,
    difficulty: Difficulty)

  /** A destination of the gallery; its description text is not modelled. */
  datatype Destination = Destination(
    id: string,
    name: string,
    location: string,
    category: string,
    image: string)

  const TOUR_PACKAGES: seq<TourPackage> := [
    TourPackage("golden-triangle-3d", "Golden Triangle Classic", ["Delhi", "Agra", "Jaipur"], "3 Days",
      12999, None, "Heritage", Some("Popular"), 4.9, 247, 12, Easy),
    TourPackage("golden-triangle-5d", "Golden Triangle Deluxe", ["Delhi", "Agra", "Jaipur", "Fatehpur Sikri"], "5 Days",
      24999, None, "Heritage", Some("Extended"), 4.8, 189, 8, Easy),
    TourPackage("rajasthan-heritage", "Rajasthan Heritage Tour", ["Jaipur", "Jodhpur", "Udaipur", "Pushkar"], "7 Days",
      45999, None, "Heritage", Some("Heritage"), 4.9, 156, 10, Moderate),
    TourPackage("spiritual-journey", "Spiritual Journey", ["Varanasi", "Bodhgaya", "Sarnath", "Rishikesh"], "6 Days",
      32999, None, "Spiritual", Some("Spiritual"), 4.8, 198, 15, Easy),
    TourPackage("kerala-backwaters", "Kerala Backwaters", ["Alleppey", "Kumarakom", "Cochin", "Munnar"], "5 Days",
      28999, None, "Nature", Some("Nature"), 4.7, 167, 8, Easy),
    TourPackage("goa-beach", "Goa Beach Experience", ["North Goa", "South Goa", "Old Goa"], "4 Days",
      18999, None, "Beach", Some("Beach"), 4.6, 134, 12, Easy)
  ]

  const DESTINATIONS: seq<Destination> := [
    Destination("taj-mahal", "Taj Mahal", "Agra, Uttar Pradesh", "heritage",
      "https://images.unsplash.com/photo-1548013146-72479768bada?ixlib=rb-4.0.3&auto=format&fit=crop&w=800&h=800"),
    Destination("red-fort", "Red Fort", "Delhi", "heritage",
      "https://images.unsplash.com/photo-1587474260584-136574528ed5?ixlib=rb-4.0.3&auto=format&fit=crop&w=800&h=800"),
    Destination("hawa-mahal", "Hawa Mahal", "Jaipur, Rajasthan", "heritage",
      "https://images.unsplash.com/photo-1599661046827-dacde6199834?ixlib=rb-4.0.3&auto=format&fit=crop&w=800&h=800"),
    Destination("kerala-backwaters", "Kerala Backwaters", "Alleppey, Kerala", "nature",
      "https://images.unsplash.com/photo-1602216056096-3b40cc0c9944?ixlib=rb-4.0.3&auto=format&fit=crop&w=800&h=800"),
    Destination("ganga-aarti", "Ganga Aarti", "Varanasi, Uttar Pradesh", "spiritual",
      "https://images.unsplash.com/photo-1561361513-2d000a50f0dc?ixlib=rb-4.0.3&auto=format&fit=crop&w=800&h=800"),
    Destination("himalayas", "Himalayas", "Uttarakhand", "nature",
      "https://images.unsplash.com/photo-1506905925346-21bda4d32df4?ixlib=rb-4.0.3&auto=format&fit=crop&w=800&h=800"),
    Destination("lotus-temple", "Lotus Temple", "Delhi", "spiritual",
      "https://images.unsplash.com/photo-1587474260584-136574528ed5?ixlib=rb-4.0.3&auto=format&fit=crop&w=800&h=800"),
    Destination("goa-beaches", "Goa Beaches", "Goa", "nature",
      "https://images.unsplash.com/photo-1512343879784-a960bf40e7f2?ixlib=rb-4.0.3&auto=format&fit=crop&w=800&h=800")
  ]

  /** `tours.find(tour => tour.id === id)`: the first package with that id. */
  function FindTour(tours: seq<TourPackage>, id: string): (r: Option<TourPackage>)
    ensures r.Some? ==> r.value in tours && r.value.id == id
    ensures r.None? <==> forall t :: t in tours ==> t.id != id
  {
    if tours == [] then None
    else if tours[0].id == id then Some(tours[0])
    else FindTour(tours[1..], id)
  }

  /** Ids are pairwise distinct. */
  predicate DistinctIds(tours: seq<TourPackage>)
  {
    forall i, j :: 0 <= i < j < |tours| ==> tours[i].id != tours[j].id
  }

  /** With distinct ids, lookup returns exactly the package that carries the id. */
  lemma {:induction false} FindTourUnique(tours: seq<TourPackage>, t: TourPackage)
    requires DistinctIds(tours)
    requires t in tours
    ensures FindTour(tours, t.id) == Some(t)
  {
    if tours[0] != t {
      assert tours[0].id != t.id by {
        var k :| 0 <= k < |tours| && tours[k] == t;
        assert k != 0;
      }
      assert t in tours[1..];
      FindTourUnique(tours[1..], t);
    }
  }

  /** Tour package ids are pairwise distinct. */
  lemma TourIdsDistinct()
    ensures DistinctIds(TOUR_PACKAGES)
  {
  }

  /** Destination ids are pairwise distinct. */
  lemma DestinationIdsDistinct()
    ensures forall i, j :: 0 <= i < j < |DESTINATIONS| ==> DESTINATIONS[i].id != DESTINATIONS[j].id
  {
  }

  /** Every destination is a heritage, nature or spiritual site. */
  lemma DestinationCategories()
    ensures forall d :: d in DESTINATIONS ==> d.category in {"heritage", "nature", "spiritual"}
  {
  }

  /** Every price is a positive integer. */
  lemma TourPricesPositive()
    ensures forall t :: t in TOUR_PACKAGES ==> t.price > 0
  {
  }

  /** Every rating lies within the five-star scale. */
  lemma TourRatingsInRange()
    ensures forall t :: t in TOUR_PACKAGES ==> 0.0 <= t.rating <= 5.0
  {
  }

  /** "<n> Days" with a one-digit n reads as n. */
  lemma DaysParse(n: nat)
    requires 1 <= n <= 9
    ensures ParseInt([DigitChar(n)] + " Days") == Num(n)
  {
    ParseIntBeforeText([DigitChar(n)], " Days");
    assert [DigitChar(n)][..0] == [];
  }

  /** The text of a duration of `n` days. */
  function DaysText(n: nat): string
    requires n < 10
  {
    [DigitChar(n)] + " Days"
  }

  /** Every duration is a one-digit number of days between 3 and 7. */
  lemma TourDurationTexts()
    ensures forall t :: t in TOUR_PACKAGES ==> exists n :: 3 <= n <= 7 && t.duration == DaysText(n)
  {
    assert DaysText(3) == "3 Days";
    assert DaysText(4) == "4 Days";
    assert DaysText(5) == "5 Days";
    assert DaysText(6) == "6 Days";
    assert DaysText(7) == "7 Days";
  }

  /** Every duration reads as a whole number of days between 3 and 7. */
  lemma TourDurationsParse()
    ensures forall t :: t in TOUR_PACKAGES ==>
      ParseInt(t.duration).Num? && 3 <= ParseInt(t.duration).value <= 7
  {
    TourDurationTexts();
    forall t | t in TOUR_PACKAGES
      ensures ParseInt(t.duration).Num? && 3 <= ParseInt(t.duration).value <= 7
    {
      var n :| 3 <= n <= 7 && t.duration == DaysText(n);
      DaysParse(n);
    }
  }
}
