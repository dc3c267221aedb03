/**
 * The found-items page: the same three filter inputs and the same filter as the
 * lost-items page (`SearchFilter.FilteredItems`), over its own fixed listings.
 */
module FoundItemsPage {
  import opened Strings
  import opened Arrays
  import opened Listings
  import opened SearchFilter

  const FoundWallet := Listing("2", "Blue Wallet",
    "Found a blue leather wallet with ID cards near Starbucks on 5th Avenue",
    "Personal Items", "Downtown Seattle", "1 day ago", "/placeholder.svg", Found)
  const FoundKeys := Listing("4", "Car Keys",
    "Found Honda car keys with red keychain in university parking lot",
    "Keys", "University Campus", "5 hours ago", "/placeholder.svg", Found)
  const Ring := Listing("9", "Wedding Ring",
    "Found gold wedding ring in Central Park restroom",
    "Jewelry", "Central Park, NYC", "3 days ago", "/placeholder.svg", Found)
  const Cat := Listing("10", "Black Cat",
    "Found friendly black cat, no collar, near subway station",
    "Pets", "Union Square", "1 day ago", "/placeholder.svg", Found)
  const Glasses := Listing("11", "Prescription Glasses",
    "Found prescription glasses in black frame at the library",
    "Personal Items", "Public Library", "6 hours ago", "/placeholder.svg", Found)
  const Toy := Listing("12", "Child's Toy",
    "Found stuffed elephant toy at the playground",
    "Other", "Riverside Park", "2 days ago", "/placeholder.svg", Found)

  /** The listings in the order the page lists them. */
  const MockFoundItems: seq<Listing> := [FoundWallet, FoundKeys, Ring, Cat, Glasses, Toy]

  /** The entries of the category drop-down, the same as on the lost-items page. */
  const Categories: seq<string> :=
    ["All Categories", "Electronics", "Pets", "Personal Items", "Keys", "Jewelry", "Bags", "Other"]

  /** Every listing on the page is a found one, and every category it uses is offered in the drop-down. */
  lemma ListingsWellFormed()
    ensures forall i :: 0 <= i < |MockFoundItems| ==> MockFoundItems[i].kind == Found
    ensures forall i :: 0 <= i < |MockFoundItems| ==> MockFoundItems[i].category in Categories[1..]
  {
  }

  /** On first render the page lists all six items and says "Showing 6". */
  lemma InitialPageShowsAll()
    ensures Panel(FilteredItems(MockFoundItems, "", AllCategories, "")) == ResultsPanel(6, Cards(MockFoundItems))
  {
    EmptyFiltersKeepAll(MockFoundItems);
  }

  /** Choosing "Personal Items" leaves the wallet and the glasses, in page order. */
  lemma PersonalItemsCategory()
    ensures Ids(FilteredItems(MockFoundItems, "", "Personal Items", "")) == ["2", "11"]
  {
    var p := (x: Listing) => x.category == "Personal Items";
    CategoryOnly(MockFoundItems, "Personal Items");
    var xs := MockFoundItems;
    assert Filter(xs[5..], p) == [];
    assert Filter(xs[4..], p) == [Glasses];
    assert Filter(xs[2..], p) == [Glasses];
    assert Filter(xs[1..], p) == [Glasses];
    assert Filter(xs, p) == [FoundWallet, Glasses];
  }

  /** Searching "keys", in any letter case, shows the Honda keys (their title includes the word). */
  lemma KeysSearchFindsKeys()
    ensures FoundKeys in FilteredItems(MockFoundItems, "keys", AllCategories, "")
    ensures FoundKeys in FilteredItems(MockFoundItems, "Keys", AllCategories, "")
  {
    ShownExactlyWhenMatches(MockFoundItems, FoundKeys, "keys", AllCategories, "");
    ShownExactlyWhenMatches(MockFoundItems, FoundKeys, "Keys", AllCategories, "");
    KeysTitleMatches();
  }

  lemma KeysTitleMatches()
    ensures Includes(LowerCase(FoundKeys.title), LowerCase("keys"))
    ensures Includes(LowerCase(FoundKeys.title), LowerCase("Keys"))
  {
    var t := LowerCase(FoundKeys.title);
    assert LowerCase("keys") == "keys" == LowerCase("Keys");
    assert t[4..8] == "keys";
    assert OccursAt(t, "keys", 4);
    IncludesMeaning(t, "keys");
  }
}
