/**
 * The FAQ accordion: the list of open item ids, which a click on an item
 * toggles, and the open test each item renders with.
 */
module Faq {
  import opened Seqs

  /**
   * `toggleItem`: an open id is removed, keeping the others in order; a
   * closed id is appended at the end.
   */
  function Toggle(openItems: seq<int>, id: int): (r: seq<int>)
    ensures id in r <==> id !in openItems
    ensures forall x :: x != id ==> (x in r <==> x in openItems)
  {
    if id in openItems then
      var p := (x: int) => x != id;
      forall x ensures x in Filter(openItems, p) <==> x in openItems && p(x) {
        FilterKeeps(openItems, p, x);
      }
      Filter(openItems, p)
    else
      openItems + [id]
  }

  /** An item is rendered open iff its id is in the list. */
  predicate IsOpen(openItems: seq<int>, id: int)
  {
    id in openItems
  }

  /** Toggling a closed item opens it by appending it at the end. */
  lemma ToggleOpens(openItems: seq<int>, id: int)
    requires id !in openItems
    ensures Toggle(openItems, id) == openItems + [id]
    ensures IsOpen(Toggle(openItems, id), id)
  {
  }

  /** The ids other than the toggled one keep their relative order. */
  lemma ToggleKeepsOthersInOrder(openItems: seq<int>, id: int)
    ensures Filter(Toggle(openItems, id), x => x != id) == Filter(openItems, x => x != id)
  {
    var p := (x: int) => x != id;
    if id in openItems {
      FilterIdempotent(openItems, p);
    } else {
      FilterAppend(openItems, [id], p);
      assert Filter([id], p) == [] by {
        FilterCons(id, [], p);
      }
      assert Filter(openItems, p) + [] == Filter(openItems, p);
    }
  }

  /** Opening an item never closes another: several items may be open at once. */
  lemma OpeningKeepsOthersOpen(openItems: seq<int>, id: int, other: int)
    requires id !in openItems && IsOpen(openItems, other)
    ensures IsOpen(Toggle(openItems, id), other) && IsOpen(Toggle(openItems, id), id)
  {
  }

  /** A toggle never introduces a duplicate id. */
  lemma ToggleNoDup(openItems: seq<int>, id: int)
    requires NoDup(openItems)
    ensures NoDup(Toggle(openItems, id))
  {
    if id in openItems {
      FilterNoDup(openItems, x => x != id);
    } else {
      var r := openItems + [id];
      forall i, j | 0 <= i < j < |r| ensures r[i] != r[j] {
        if j == |openItems| {
          assert r[i] == openItems[i];
        } else {
          assert r[i] == openItems[i] && r[j] == openItems[j];
        }
      }
    }
  }

  /** Toggling a closed item twice restores the list exactly. */
  lemma ToggleTwiceRestores(openItems: seq<int>, id: int)
    requires id !in openItems
    ensures Toggle(Toggle(openItems, id), id) == openItems
  {
    var p := (x: int) => x != id;
    FilterAppend(openItems, [id], p);
    FilterCons(id, [], p);
    FilterAll(openItems, p);
    assert openItems + [] == openItems;
  }

  /** The list after a sequence of clicks, starting from `openItems`. */
  function ToggleAll(openItems: seq<int>, clicks: seq<int>): seq<int>
    decreases |clicks|
  {
    if clicks == [] then openItems else ToggleAll(Toggle(openItems, clicks[0]), clicks[1..])
  }

  /** Starting from no open items, no sequence of clicks ever produces a duplicate. */
  lemma {:induction false} ClicksKeepNoDup(openItems: seq<int>, clicks: seq<int>)
    requires NoDup(openItems)
    ensures NoDup(ToggleAll(openItems, clicks))
    decreases |clicks|
  {
    if clicks != [] {
      ToggleNoDup(openItems, clicks[0]);
      ClicksKeepNoDup(Toggle(openItems, clicks[0]), clicks[1..]);
    }
  }

  /** The accordion starts with every item closed. */
  lemma InitiallyNoDuplicates(clicks: seq<int>)
    ensures NoDup(ToggleAll([], clicks))
  {
    ClicksKeepNoDup([], clicks);
  }
}
