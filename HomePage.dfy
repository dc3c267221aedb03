/**
 * The home page: a fixed list of recent listings shown in two sections, lost and
 * found, and a search box whose text is kept in state but filters nothing.
 */
module HomePage {
  import opened Arrays
  import opened Listings

  const MockItems: seq<Listing> := [
    Listing("1", "iPhone 14 Pro", "Black iPhone 14 Pro lost at Central Park near the fountain",
      "Electronics", "Central Park, NYC", "2 days ago", "/placeholder.svg", Lost),
    Listing("2", "Blue Wallet", "Found a blue leather wallet with ID cards near Starbucks",
      "Personal Items", "Downtown Seattle", "1 day ago", "/placeholder.svg", Found),
    Listing("3", "Golden Retriever", "Lost golden retriever named Max, very friendly",
      "Pets", "Brooklyn Heights", "3 hours ago", "/placeholder.svg", Lost),
    Listing("4", "Car Keys", "Found Honda car keys with red keychain",
      "Keys", "University Campus", "5 hours ago", "/placeholder.svg", Found)
  ]

  function OfKind(items: seq<Listing>, k: Kind): (r: seq<Listing>)
    ensures forall i :: 0 <= i < |r| ==> r[i].kind == k
  {
    Filter(items, (x: Listing) => x.kind == k)
  }

  /** The two sections of the page, and the text in the search box. */
  datatype HomeView = HomeView(searchBox: string, recentLost: seq<Listing>, recentFound: seq<Listing>)

  function Home(items: seq<Listing>, searchQuery: string): (v: HomeView)
    ensures v.searchBox == searchQuery
    ensures v.recentLost == OfKind(items, Lost) && v.recentFound == OfKind(items, Found)
    ensures forall x :: x in v.recentLost <==> x in items && x.kind == Lost
    ensures forall x :: x in v.recentFound <==> x in items && x.kind == Found
    ensures |v.recentLost| + |v.recentFound| == |items|
  {
    OfKindPartition(items);
    HomeView(searchQuery, OfKind(items, Lost), OfKind(items, Found))
  }

  /** Every listing appears in exactly one of the two sections, in list order, as often as it occurs. */
  lemma OfKindPartition(items: seq<Listing>)
    ensures multiset(OfKind(items, Lost)) + multiset(OfKind(items, Found)) == multiset(items)
    ensures |OfKind(items, Lost)| + |OfKind(items, Found)| == |items|
    ensures forall x :: x in OfKind(items, Lost) <==> x in items && x.kind == Lost
    ensures forall x :: x in OfKind(items, Found) <==> x in items && x.kind == Found
    ensures IsSubsequence(OfKind(items, Lost), items) && IsSubsequence(OfKind(items, Found), items)
  {
    FilterPartition(items, (x: Listing) => x.kind == Lost, (x: Listing) => x.kind == Found);
    FilterMembers(items, (x: Listing) => x.kind == Lost);
    FilterMembers(items, (x: Listing) => x.kind == Found);
    FilterIsSubsequence(items, (x: Listing) => x.kind == Lost);
    FilterIsSubsequence(items, (x: Listing) => x.kind == Found);
  }

  /** Typing in the search box changes the box and nothing else: both sections stay as they are. */
  lemma SearchQueryUnused(items: seq<Listing>, q1: string, q2: string)
    ensures Home(items, q1).recentLost == Home(items, q2).recentLost
    ensures Home(items, q1).recentFound == Home(items, q2).recentFound
  {
  }

  /** For the fixed list: the lost section shows 1 and 3, the found section 2 and 4. */
  lemma MockSections()
    ensures Ids(Home(MockItems, "").recentLost) == ["1", "3"]
    ensures Ids(Home(MockItems, "").recentFound) == ["2", "4"]
  {
    var xs := MockItems;
    var lost := (x: Listing) => x.kind == Lost;
    var found := (x: Listing) => x.kind == Found;
    assert Filter(xs[3..], lost) == [];
    assert Filter(xs[2..], lost) == [xs[2]];
    assert Filter(xs[1..], lost) == [xs[2]];
    assert Filter(xs, lost) == [xs[0], xs[2]];
    assert Filter(xs[3..], found) == [xs[3]];
    assert Filter(xs[2..], found) == [xs[3]];
    assert Filter(xs[1..], found) == [xs[1], xs[3]];
  }
}
