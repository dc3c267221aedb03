/**
 * The `filteredItems` predicate of the lost-items and found-items pages: an item is
 * shown when the search text occurs in its title or description, its category is
 * the selected one (or "All Categories" is selected), and the location text occurs
 * in its location (or is empty). Text comparisons ignore case; the category
 * comparison does not.
 */
module SearchFilter {
  import opened Strings
  import opened Arrays
  import opened Listings

  /** The selection that switches the category condition off. */
  const AllCategories := "All Categories"

  predicate MatchesSearch(item: Listing, query: string)
  {
    || Includes(LowerCase(item.title), LowerCase(query))
    || Includes(LowerCase(item.description), LowerCase(query))
  }

  predicate MatchesCategory(item: Listing, selected: string)
  {
    selected == AllCategories || item.category == selected
  }

  predicate MatchesLocation(item: Listing, locationFilter: string)
  {
    locationFilter == "" || Includes(LowerCase(item.location), LowerCase(locationFilter))
  }

  predicate Matches(item: Listing, query: string, selected: string, locationFilter: string)
  {
    MatchesSearch(item, query) && MatchesCategory(item, selected) && MatchesLocation(item, locationFilter)
  }

  /** The callback handed to `filter`. */
  function Matcher(query: string, selected: string, locationFilter: string): Listing -> bool
  {
    item => Matches(item, query, selected, locationFilter)
  }

  /** `filteredItems`: the items that pass all three conditions. */
  function FilteredItems(items: seq<Listing>, query: string, selected: string, locationFilter: string): (r: seq<Listing>)
    ensures |r| <= |items|
    ensures forall i :: 0 <= i < |r| ==> Matches(r[i], query, selected, locationFilter)
  {
    Filter(items, Matcher(query, selected, locationFilter))
  }

  /** An item is in the result exactly when it is in the input and passes, as often as it occurs in the input. */
  lemma FilteredMembers(items: seq<Listing>, query: string, selected: string, locationFilter: string)
    ensures forall x :: x in FilteredItems(items, query, selected, locationFilter) <==>
      x in items && Matches(x, query, selected, locationFilter)
    ensures forall x ::
      multiset(FilteredItems(items, query, selected, locationFilter))[x] ==
      (if Matches(x, query, selected, locationFilter) then multiset(items)[x] else 0)
  {
    FilterMembers(items, Matcher(query, selected, locationFilter));
    forall x {
      FilterCounts(items, Matcher(query, selected, locationFilter), x);
    }
  }

  /** One item of the list that passes is shown; one that fails is not. */
  lemma ShownExactlyWhenMatches(items: seq<Listing>, x: Listing, query: string, selected: string, locationFilter: string)
    requires x in items
    ensures x in FilteredItems(items, query, selected, locationFilter) <==> Matches(x, query, selected, locationFilter)
  {
    FilterMembers(items, Matcher(query, selected, locationFilter));
  }

  /** The result is the input with some items left out and the others in their original order. */
  lemma FilteredIsSubsequence(items: seq<Listing>, query: string, selected: string, locationFilter: string)
    ensures IsSubsequence(FilteredItems(items, query, selected, locationFilter), items)
  {
    FilterIsSubsequence(items, Matcher(query, selected, locationFilter));
  }

  /** The initial filter settings (empty search, "All Categories", empty location) show the whole list. */
  lemma EmptyFiltersKeepAll(items: seq<Listing>)
    ensures FilteredItems(items, "", AllCategories, "") == items
  {
    forall i | 0 <= i < |items| ensures Matcher("", AllCategories, "")(items[i]) {
      IncludesEmpty(LowerCase(items[i].title));
    }
    FilterKeepsAll(items, Matcher("", AllCategories, ""));
  }

  /** Filtering the result again with the same settings changes nothing. */
  lemma FilteredIdempotent(items: seq<Listing>, query: string, selected: string, locationFilter: string)
    ensures FilteredItems(FilteredItems(items, query, selected, locationFilter), query, selected, locationFilter) ==
      FilteredItems(items, query, selected, locationFilter)
  {
    FilterIdempotent(items, Matcher(query, selected, locationFilter));
  }

  /** Two search texts with the same lower-case form ("WALLET", "wallet") select the same items. */
  lemma QueryIgnoresCase(items: seq<Listing>, q1: string, q2: string, selected: string, locationFilter: string)
    requires LowerCase(q1) == LowerCase(q2)
    ensures FilteredItems(items, q1, selected, locationFilter) == FilteredItems(items, q2, selected, locationFilter)
  {
    FilterAgree(items, Matcher(q1, selected, locationFilter), Matcher(q2, selected, locationFilter));
  }

  /** Lower-casing the search text before typing it changes nothing: the filter already compares lower-cased text. */
  lemma QueryLowerCased(items: seq<Listing>, query: string, selected: string, locationFilter: string)
    ensures FilteredItems(items, LowerCase(query), selected, locationFilter) == FilteredItems(items, query, selected, locationFilter)
  {
    LowerCaseIdempotent(query);
    QueryIgnoresCase(items, LowerCase(query), query, selected, locationFilter);
  }

  /** Two location texts with the same lower-case form select the same items. */
  lemma LocationIgnoresCase(items: seq<Listing>, query: string, selected: string, l1: string, l2: string)
    requires LowerCase(l1) == LowerCase(l2)
    ensures FilteredItems(items, query, selected, l1) == FilteredItems(items, query, selected, l2)
  {
    assert |l1| == |LowerCase(l1)| == |LowerCase(l2)| == |l2|;
    FilterAgree(items, Matcher(query, selected, l1), Matcher(query, selected, l2));
  }

  /** The search alone keeps exactly the items whose lower-cased title or description includes the lower-cased text; the location plays no part. */
  lemma SearchOnly(items: seq<Listing>, query: string)
    ensures forall x :: x in FilteredItems(items, query, AllCategories, "") <==>
      x in items && (Includes(LowerCase(x.title), LowerCase(query)) || Includes(LowerCase(x.description), LowerCase(query)))
  {
    FilteredMembers(items, query, AllCategories, "");
  }

  /** A selected category other than "All Categories" keeps exactly the items whose category is that very string, case included. */
  lemma CategoryOnly(items: seq<Listing>, selected: string)
    requires selected != AllCategories
    ensures FilteredItems(items, "", selected, "") == Filter(items, (x: Listing) => x.category == selected)
  {
    forall i | 0 <= i < |items|
      ensures Matcher("", selected, "")(items[i]) == (items[i].category == selected)
    {
      IncludesEmpty(LowerCase(items[i].title));
    }
    FilterAgree(items, Matcher("", selected, ""), (x: Listing) => x.category == selected);
  }

  /** An empty location text is skipped; a non-empty one keeps exactly the items whose lower-cased location includes it lower-cased. */
  lemma LocationOnly(items: seq<Listing>, locationFilter: string)
    ensures locationFilter == "" ==> FilteredItems(items, "", AllCategories, locationFilter) == items
    ensures forall x :: x in FilteredItems(items, "", AllCategories, locationFilter) <==>
      x in items && (locationFilter == "" || Includes(LowerCase(x.location), LowerCase(locationFilter)))
  {
    EmptyFiltersKeepAll(items);
    FilteredMembers(items, "", AllCategories, locationFilter);
    forall x | x in items {
      IncludesEmpty(LowerCase(x.title));
    }
  }

  /**
   * The three conditions are independent: applying them one after the other, each
   * alone, gives the combined result, so its members are those in all three
   * single-condition results.
   */
  lemma ConditionsCompose(items: seq<Listing>, query: string, selected: string, locationFilter: string)
    ensures FilteredItems(items, query, selected, locationFilter) ==
      FilteredItems(FilteredItems(FilteredItems(items, query, AllCategories, ""), "", selected, ""), "", AllCategories, locationFilter)
    ensures forall x :: x in FilteredItems(items, query, selected, locationFilter) <==>
      && x in FilteredItems(items, query, AllCategories, "")
      && x in FilteredItems(items, "", selected, "")
      && x in FilteredItems(items, "", AllCategories, locationFilter)
  {
    var s := FilteredItems(items, query, AllCategories, "");
    var sc := FilteredItems(s, "", selected, "");
    forall x | x in items {
      IncludesEmpty(LowerCase(x.title));
    }
    FilteredMembers(items, query, AllCategories, "");
    FilteredMembers(s, "", selected, "");
    forall x | x in s {
      IncludesEmpty(LowerCase(x.title));
    }
    var bothSC := (x: Listing) => Matches(x, query, AllCategories, "") && Matches(x, "", selected, "");
    FilterFilter(items, Matcher(query, AllCategories, ""), Matcher("", selected, ""), bothSC);
    var sc' := Filter(items, bothSC);
    FilterFilter(items, bothSC, Matcher("", AllCategories, locationFilter), Matcher(query, selected, locationFilter));
    FilteredMembers(items, query, selected, locationFilter);
    FilteredMembers(items, "", selected, "");
    FilteredMembers(items, "", AllCategories, locationFilter);
  }

  /** The results panel: the "Showing N" count, then the cards or the "No items found" message. */
  datatype ResultsPanel = ResultsPanel(shown: nat, body: ResultsBody)

  datatype ResultsBody = Cards(cards: seq<Listing>) | NoItemsFound

  function Panel(filtered: seq<Listing>): (p: ResultsPanel)
    ensures p.shown == |filtered|
    ensures p.body == NoItemsFound <==> filtered == []
    ensures p.body.Cards? ==> p.body.cards == filtered
  {
    ResultsPanel(|filtered|, if |filtered| > 0 then Cards(filtered) else NoItemsFound)
  }

  /** The empty-state message is shown exactly when no item of the list passes the filter. */
  lemma NoItemsFoundExactly(items: seq<Listing>, query: string, selected: string, locationFilter: string)
    ensures Panel(FilteredItems(items, query, selected, locationFilter)).body == NoItemsFound <==>
      forall i :: 0 <= i < |items| ==> !Matches(items[i], query, selected, locationFilter)
  {
    FilterEmpty(items, Matcher(query, selected, locationFilter));
  }
}
