/**
 * The lost-items page: its listings (fixed in the page), the category choices,
 * and what the page shows for a setting of its three filter inputs (the filter
 * itself is `SearchFilter.FilteredItems`, shared with the found-items page).
 */
module LostItemsPage {
  import opened Strings
  import opened Arrays
  import opened Listings
  import opened SearchFilter

  const Phone := Listing("1", "iPhone 14 Pro",
    "Black iPhone 14 Pro lost at Central Park near the fountain. Has a cracked screen protector.",
    "Electronics", "Central Park, NYC", "2 days ago", "/placeholder.svg", Lost)
  const Dog := Listing("3", "Golden Retriever - Max",
    "Lost golden retriever named Max, very friendly, wearing a blue collar",
    "Pets", "Brooklyn Heights", "3 hours ago", "/placeholder.svg", Lost)
  const Watch := Listing("5", "Silver Watch",
    "Lost my father's silver watch with brown leather strap",
    "Jewelry", "Madison Square Garden", "1 week ago", "/placeholder.svg", Lost)
  const Backpack := Listing("6", "Black Backpack",
    "Black Nike backpack with laptop and important documents",
    "Bags", "Times Square", "4 days ago", "/placeholder.svg", Lost)
  const CarKeys := Listing("7", "Car Keys - Toyota",
    "Toyota car keys with house keys on a red keychain",
    "Keys", "Brooklyn Bridge", "6 hours ago", "/placeholder.svg", Lost)
  const Wallet := Listing("8", "Blue Wallet",
    "Blue leather wallet with credit cards and driver's license",
    "Personal Items", "Central Station", "2 days ago", "/placeholder.svg", Lost)

  /** The listings in the order the page lists them. */
  const MockLostItems: seq<Listing> := [Phone, Dog, Watch, Backpack, CarKeys, Wallet]

  /** The entries of the category drop-down, "All Categories" first. */
  const Categories: seq<string> :=
    ["All Categories", "Electronics", "Pets", "Personal Items", "Keys", "Jewelry", "Bags", "Other"]

  /** Every listing on the page is a lost one, and every category it uses is offered in the drop-down. */
  lemma ListingsWellFormed()
    ensures forall i :: 0 <= i < |MockLostItems| ==> MockLostItems[i].kind == Lost
    ensures forall i :: 0 <= i < |MockLostItems| ==> MockLostItems[i].category in Categories[1..]
  {
  }

  /** On first render the page lists all six items and says "Showing 6". */
  lemma InitialPageShowsAll()
    ensures Panel(FilteredItems(MockLostItems, "", AllCategories, "")) == ResultsPanel(6, Cards(MockLostItems))
  {
    EmptyFiltersKeepAll(MockLostItems);
  }

  /** Choosing "Keys" leaves only the Toyota keys; "keys" (wrong case) leaves nothing. */
  lemma KeysCategory()
    ensures Ids(FilteredItems(MockLostItems, "", "Keys", "")) == ["7"]
    ensures Panel(FilteredItems(MockLostItems, "", "keys", "")).body == NoItemsFound
  {
    var p := (x: Listing) => x.category == "Keys";
    CategoryOnly(MockLostItems, "Keys");
    var xs := MockLostItems;
    assert Filter(xs[5..], p) == [];
    assert Filter(xs[4..], p) == [CarKeys];
    assert Filter(xs[2..], p) == [CarKeys];
    assert Filter(xs, p) == [CarKeys];
    NoItemsFoundExactly(MockLostItems, "", "keys", "");
  }

  /** Searching "wallet", in any letter case, shows the blue wallet (its title includes the word). */
  lemma WalletSearchFindsWallet()
    ensures Wallet in FilteredItems(MockLostItems, "wallet", AllCategories, "")
    ensures Wallet in FilteredItems(MockLostItems, "WALLET", AllCategories, "")
  {
    ShownExactlyWhenMatches(MockLostItems, Wallet, "wallet", AllCategories, "");
    ShownExactlyWhenMatches(MockLostItems, Wallet, "WALLET", AllCategories, "");
    WalletTitleMatches();
  }

  lemma WalletTitleMatches()
    ensures Includes(LowerCase(Wallet.title), LowerCase("wallet"))
    ensures Includes(LowerCase(Wallet.title), LowerCase("WALLET"))
  {
    var t := LowerCase(Wallet.title);
    assert LowerCase("wallet") == "wallet" == LowerCase("WALLET");
    assert t[5..11] == "wallet";
    assert OccursAt(t, "wallet", 5);
    IncludesMeaning(t, "wallet");
  }
}
