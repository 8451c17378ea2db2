/**
 * The static site's home page script: the tour grid narrowed by a category
 * button and a price slider, and the tour select of the booking modal.
 */
module ListingPage {
  import opened Js
  import opened Seqs
  import opened StaticSite

  /** A tour is shown when the category filter is "all" or equals its category, and its price is at most the ceiling. */
  predicate Shown(filter: string, maxPrice: Number, t: SiteTour)
  {
    (filter == "all" || t.category == filter) && maxPrice.Num? && t.price <= maxPrice.value
  }

  /** The tours the grid shows, in the file's order. */
  function ShownTours(tours: seq<SiteTour>, filter: string, maxPrice: Number): seq<SiteTour>
  {
    Filter(tours, t => Shown(filter, maxPrice, t))
  }

  /** A tour is shown iff it is in the file and passes both filters; the file's order is kept. */
  lemma ShownToursExactly(tours: seq<SiteTour>, filter: string, maxPrice: Number, t: SiteTour)
    ensures t in ShownTours(tours, filter, maxPrice) <==>
      t in tours && (filter == "all" || t.category == filter) && maxPrice.Num? && t.price <= maxPrice.value
    ensures SubSeq(ShownTours(tours, filter, maxPrice), tours)
  {
    FilterKeeps(tours, t => Shown(filter, maxPrice, t), t);
    FilterIsSubSeq(tours, t => Shown(filter, maxPrice, t));
  }

  /** A slider value that does not parse (NaN) hides every tour: no comparison with NaN holds. */
  lemma NaNCeilingHidesAll(tours: seq<SiteTour>, filter: string)
    ensures ShownTours(tours, filter, NaN) == []
  {
    FilterNone(tours, t => Shown(filter, NaN, t));
  }

  /** With filter "all" and a ceiling no price exceeds, the whole file is shown. */
  lemma AllBelowCeilingShown(tours: seq<SiteTour>, ceiling: int)
    requires forall t :: t in tours ==> t.price <= ceiling
    ensures ShownTours(tours, "all", Num(ceiling)) == tours
  {
    FilterAll(tours, t => Shown("all", Num(ceiling), t));
  }

  /** Choosing a category, or lowering the ceiling, never shows more. */
  lemma NarrowingShowsLess(tours: seq<SiteTour>, filter: string, low: int, high: int)
    requires low <= high
    ensures SubSeq(ShownTours(tours, filter, Num(high)), ShownTours(tours, "all", Num(high)))
    ensures SubSeq(ShownTours(tours, filter, Num(low)), ShownTours(tours, filter, Num(high)))
  {
    FilterMonotone(tours, t => Shown(filter, Num(high), t), t => Shown("all", Num(high), t));
    FilterMonotone(tours, t => Shown(filter, Num(low), t), t => Shown(filter, Num(high), t));
  }

  /** What the tour grid shows. */
  datatype GridView =
    | Loading                          // no tours loaded yet
    | NoMatch                          // tours loaded, none passes the filters
    | Cards(shown: seq<SiteTour>)      // one card per tour shown

  /** `renderTours`. */
  function RenderTours(tours: seq<SiteTour>, filter: string, maxPrice: Number): (v: GridView)
    ensures v.Loading? <==> tours == []
    ensures v.NoMatch? <==> tours != [] && ShownTours(tours, filter, maxPrice) == []
    ensures v.Cards? ==> v.shown != [] && v.shown == ShownTours(tours, filter, maxPrice)
  {
    if tours == [] then Loading
    else
      var shown := ShownTours(tours, filter, maxPrice);
      if shown == [] then NoMatch else Cards(shown)
  }

  /** The home page's filter state and the tours loaded from the tours file. */
  class TourGrid {
    var tours: seq<SiteTour>
    var currentFilter: string
    var maxPrice: Number

    /** The page starts with no tours, the "all" filter and a ceiling of 2000. */
    constructor()
      ensures tours == [] && currentFilter == "all" && maxPrice == Num(2000)
    {
      tours := [];
      currentFilter := "all";
      maxPrice := Num(2000);
    }

    /** What the grid shows now. */
    function View(): GridView
      reads this
    {
      RenderTours(tours, currentFilter, maxPrice)
    }

    /** The tours file has been read. */
    method Load(data: seq<SiteTour>)
      modifies this
      ensures tours == data && currentFilter == old(currentFilter) && maxPrice == old(maxPrice)
    {
      tours := data;
    }

    /** A category button was clicked; its `data-filter` becomes the filter. */
    method SelectFilter(filter: string)
      modifies this
      ensures currentFilter == filter && tours == old(tours) && maxPrice == old(maxPrice)
    {
      currentFilter := filter;
    }

    /** The slider moved; its text is read with `parseInt`, so a slider value `n` sets the ceiling to `n`. */
    method Slide(value: string)
      modifies this
      ensures maxPrice == ParseInt(value) && tours == old(tours) && currentFilter == old(currentFilter)
      ensures forall n: nat :: value == NatToString(n) ==> maxPrice == Num(n)
    {
      maxPrice := ParseInt(value);
      forall n: nat | value == NatToString(n) ensures ParseInt(value) == Num(n) {
        ParseIntOfNatToString(n);
      }
    }
  }

  /** Before any button or slider is touched, the grid shows the tours priced at most 2000, in order. */
  lemma InitialGrid(tours: seq<SiteTour>, t: SiteTour)
    requires tours != []
    ensures RenderTours(tours, "all", Num(2000)).Cards? ==>
      (t in RenderTours(tours, "all", Num(2000)).shown <==> t in tours && t.price <= 2000)
    ensures RenderTours(tours, "all", Num(2000)).NoMatch? <==> forall u :: u in tours ==> u.price > 2000
  {
    ShownToursExactly(tours, "all", Num(2000), t);
    if forall u :: u in tours ==> u.price > 2000 {
      FilterNone(tours, u => Shown("all", Num(2000), u));
    } else {
      var u :| u in tours && u.price <= 2000;
      ShownToursExactly(tours, "all", Num(2000), u);
    }
  }

  // ---------------------------------------------------------------------
  // The tour select
  // ---------------------------------------------------------------------

  /** An `<option>` of a select box. */
  datatype SelectOption = SelectOption(value: string, text: string)

  /** The first option, which selects nothing. */
  const PLACEHOLDER: SelectOption := SelectOption("", "Choose a tour...")

  /** A tour's option: its value is the title, its text the title and the price. */
  function TourOption(t: SiteTour): SelectOption
  {
    SelectOption(t.title, t.title + " - $" + IntToString(t.price))
  }

  /** The options the select holds after being filled from `tours`. */
  function TourOptions(tours: seq<SiteTour>): (r: seq<SelectOption>)
    ensures |r| == |tours| + 1 && r[0] == PLACEHOLDER
  {
    if tours == [] then [PLACEHOLDER]
    else TourOptions(tours[..|tours| - 1]) + [TourOption(tours[|tours| - 1])]
  }

  /** The option after the placeholder at position `i + 1` is that of the `i`-th tour. */
  lemma {:induction false} TourOptionAt(tours: seq<SiteTour>, i: nat)
    requires i < |tours|
    ensures TourOptions(tours)[i + 1] == TourOption(tours[i])
  {
    var n := |tours| - 1;
    if i < n {
      TourOptionAt(tours[..n], i);
    }
  }

  /**
   * `populateTourSelect`: with tours loaded, the select is emptied down to
   * the placeholder and one option per tour is appended in the file's
   * order; without tours it is left as it was.
   */
  method PopulateTourSelect(select: seq<SelectOption>, tours: seq<SiteTour>) returns (r: seq<SelectOption>)
    ensures r == if tours == [] then select else TourOptions(tours)
  {
    if tours == [] {
      return select;
    }
    r := [PLACEHOLDER];
    assert r == TourOptions(tours[..0]);
    for i := 0 to |tours|
      invariant r == TourOptions(tours[..i])
    {
      TourOptionsAppend(tours, i);
      r := r + [TourOption(tours[i])];
    }
    assert tours[..|tours|] == tours;
  }

  /** Filling from one more tour appends that tour's option. */
  lemma TourOptionsAppend(tours: seq<SiteTour>, i: nat)
    requires i < |tours|
    ensures TourOptions(tours[..i + 1]) == TourOptions(tours[..i]) + [TourOption(tours[i])]
  {
    assert tours[..i + 1][..i] == tours[..i];
  }

  /**
   * Every loaded tour can be selected: some option after the placeholder has
   * its title as value, so the tour list's `openBookingModal`, which writes
   * the title into the select, picks an existing option.
   */
  lemma EveryTourSelectable(tours: seq<SiteTour>, t: SiteTour)
    requires t in tours
    ensures exists i :: 1 <= i < |TourOptions(tours)| && TourOptions(tours)[i].value == t.title
  {
    var k :| 0 <= k < |tours| && tours[k] == t;
    TourOptionAt(tours, k);
    assert TourOptions(tours)[k + 1].value == t.title;
  }

  /** Only the placeholder has the empty value when no title is empty. */
  lemma PlaceholderSelectsNothing(tours: seq<SiteTour>)
    requires forall t :: t in tours ==> t.title != []
    ensures forall i :: 0 <= i < |TourOptions(tours)| ==> (TourOptions(tours)[i].value == [] <==> i == 0)
  {
    forall i | 1 <= i < |TourOptions(tours)| ensures TourOptions(tours)[i].value != [] {
      TourOptionAt(tours, i - 1);
      assert tours[i - 1] in tours;
    }
  }
}
