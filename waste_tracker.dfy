/**
 * The waste-tracker page (app/waste-tracker/page.tsx): a case-insensitive
 * search over the tracked plastic items, and a selected item whose details
 * and lifecycle timeline are shown below the list.
 */
module WasteTracker {
  import opened Wrappers
  import Text
  import Seqs
  import opened PlasticTimeline

  /** The page's sample data, `plasticItems`. */
  const PlasticItems: seq<PlasticItem> := [
    PlasticItem("1", "PLASTIC-QR-2025-0042", "Bottle", 0.15, Collected, "2025-08-05T10:30:00",
      Location(28.6139, 77.209, "Connaught Place, New Delhi"), "2025-08-05T10:30:00"),
    PlasticItem("2", "PLASTIC-QR-2025-0041", "Container", 0.25, Sorted, "2025-08-04T15:45:00",
      Location(28.6129, 77.2295, "Lajpat Nagar, New Delhi"), "2025-08-04T18:20:00"),
    PlasticItem("3", "PLASTIC-QR-2025-0040", "Bag", 0.05, Recycled, "2025-08-02T14:20:00",
      Location(28.5355, 77.241, "Saket, New Delhi"), "2025-08-03T09:15:00")
  ]

  /** An item matches when its QR code, type or address includes the query, ignoring case. */
  predicate MatchesSearch(item: PlasticItem, query: string) {
    Text.Includes(item.qrCode, query) || Text.Includes(item.itemType, query) || Text.Includes(item.location.address, query)
  }

  /** `filteredItems`. */
  function FilteredItems(items: seq<PlasticItem>, query: string): seq<PlasticItem> {
    Seqs.Filter(items, (item: PlasticItem) => MatchesSearch(item, query))
  }

  /**
   * The filter keeps exactly the matching items, in their original order, with
   * nothing added or repeated.
   */
  lemma FilteredItemsSpec(items: seq<PlasticItem>, query: string)
    ensures forall i :: 0 <= i < |items| ==> (items[i] in FilteredItems(items, query) <==> MatchesSearch(items[i], query))
    ensures forall x :: x in FilteredItems(items, query) ==> x in items && MatchesSearch(x, query)
    ensures Seqs.IsSubsequence(FilteredItems(items, query), items)
  {
    Seqs.FilterIsSubsequence(items, (item: PlasticItem) => MatchesSearch(item, query));
  }

  /** An empty query lists every item; the query's own letter case never matters. */
  lemma {:induction false} SearchDefaults(items: seq<PlasticItem>, query: string)
    ensures FilteredItems(items, "") == items
    ensures FilteredItems(items, query) == FilteredItems(items, Text.Lower(query))
  {
    forall i | 0 <= i < |items|
      ensures MatchesSearch(items[i], "")
      ensures MatchesSearch(items[i], query) == MatchesSearch(items[i], Text.Lower(query))
    {
      Text.IncludesEmptyAndCaseBlind(items[i].qrCode, query);
      Text.IncludesEmptyAndCaseBlind(items[i].itemType, query);
      Text.IncludesEmptyAndCaseBlind(items[i].location.address, query);
    }
    Seqs.FilterKeepsAll(items, (item: PlasticItem) => MatchesSearch(item, ""));
    Seqs.FilterAgrees(items, (item: PlasticItem) => MatchesSearch(item, query),
      (item: PlasticItem) => MatchesSearch(item, Text.Lower(query)));
  }

  /** What the list tab shows: the matching cards, or the "No items found" card. */
  datatype ListArea = Cards(items: seq<PlasticItem>) | NoItemsFound

  function ListAreaFor(items: seq<PlasticItem>, query: string): ListArea {
    var shown := FilteredItems(items, query);
    if |shown| > 0 then Cards(shown) else NoItemsFound
  }

  /** "No items found" appears exactly when no item matches the query. */
  lemma NoItemsIffNoneMatch(items: seq<PlasticItem>, query: string)
    ensures ListAreaFor(items, query) == NoItemsFound <==> forall i :: 0 <= i < |items| ==> !MatchesSearch(items[i], query)
  {
    var shown := FilteredItems(items, query);
    if |shown| > 0 {
      assert shown[0] in shown;
    }
  }

  /** Item ids are pairwise distinct. */
  predicate DistinctIds(items: seq<PlasticItem>) {
    forall i, j :: 0 <= i < j < |items| ==> items[i].id != items[j].id
  }

  lemma SampleIdsDistinct()
    ensures DistinctIds(PlasticItems)
  {
  }

  /** The page's state: the search box and the selected item. */
  class WasteTrackerPage {
    var searchQuery: string
    var selectedItem: Option<PlasticItem>

    constructor ()
      ensures searchQuery == "" && selectedItem == None
    {
      searchQuery := "";
      selectedItem := None;
    }

    function Filtered(): seq<PlasticItem>
      reads this
    {
      FilteredItems(PlasticItems, searchQuery)
    }

    /** The map tab is always given the whole list, whatever the search. */
    function MapItems(): seq<PlasticItem>
      reads this
    {
      PlasticItems
    }

    /** A card is highlighted when its id is the selected item's id. */
    predicate Highlighted(item: PlasticItem)
      reads this
    {
      selectedItem.Some? && selectedItem.value.id == item.id
    }

    /** The details panel (and its timeline) is shown while an item is selected. */
    function Details(): Option<seq<TimelineEvent>>
      reads this
    {
      if selectedItem.Some? then Some(Events(selectedItem.value)) else None
    }

    /** Typing in the search box: only the query changes; the selection and its details persist. */
    method OnSearchChange(query: string)
      modifies this`searchQuery
      ensures searchQuery == query && selectedItem == old(selectedItem)
    {
      searchQuery := query;
    }

    /** Clicking a card or a map marker selects that item; the query is untouched. */
    method OnSelectItem(item: PlasticItem)
      modifies this`selectedItem
      ensures selectedItem == Some(item) && searchQuery == old(searchQuery)
    {
      selectedItem := Some(item);
    }
  }

  /** After selecting a listed item, exactly that item's card is highlighted, since ids are distinct. */
  lemma HighlightAfterSelect(page: WasteTrackerPage, k: nat)
    requires k < |PlasticItems| && page.selectedItem == Some(PlasticItems[k])
    ensures forall i :: 0 <= i < |PlasticItems| ==> (page.Highlighted(PlasticItems[i]) <==> i == k)
  {
    SampleIdsDistinct();
  }

  /**
   * A client run: a search that hides every card keeps the selected item
   * selected, with its details shown, and the map still shows every item.
   */
  method SelectionSurvivesSearch() returns (shownCount: nat, mapItems: seq<PlasticItem>, details: Option<seq<TimelineEvent>>)
    ensures shownCount == 0 && mapItems == PlasticItems
    ensures details.Some? && |details.value| == 3
  {
    var page := new WasteTrackerPage();
    page.OnSelectItem(PlasticItems[2]);
    var query := "a query longer than any item field";
    page.OnSearchChange(query);
    forall i | 0 <= i < |PlasticItems|
      ensures !MatchesSearch(PlasticItems[i], query)
    {
      var item := PlasticItems[i];
      Text.ContainsNotLonger(Text.Lower(item.qrCode), Text.Lower(query));
      Text.ContainsNotLonger(Text.Lower(item.itemType), Text.Lower(query));
      Text.ContainsNotLonger(Text.Lower(item.location.address), Text.Lower(query));
    }
    NoItemsIffNoneMatch(PlasticItems, query);
    shownCount := |page.Filtered()|;
    mapItems := page.MapItems();
    details := page.Details();
  }
}
