/**
 * The user dashboard: the signed-in user's own listings split by status
 * ("active", "claimed") and by kind (lost, found), the counts shown on the stat
 * card and the tab labels, which sections the overview shows, and the avatar
 * fallback made of the initials of the user's name.
 */
module DashboardPage {
  import opened Strings
  import opened Arrays
  import opened Listings

  /** A listing of the user's together with its status string. */
  datatype UserItem = UserItem(card: Listing, status: string)

  /** The profile fields the dashboard shows; the two totals are fixed numbers of the profile, not counts of the list. */
  datatype Profile = Profile(
    name: string,
    email: string,
    avatar: string,
    joinDate: string,
    location: string,
    itemsPosted: nat,
    itemsReturned: nat)

  function ActiveItems(items: seq<UserItem>): (r: seq<UserItem>)
    ensures forall i :: 0 <= i < |r| ==> r[i].status == "active"
  {
    Filter(items, (x: UserItem) => x.status == "active")
  }

  function ClaimedItems(items: seq<UserItem>): (r: seq<UserItem>)
    ensures forall i :: 0 <= i < |r| ==> r[i].status == "claimed"
  {
    Filter(items, (x: UserItem) => x.status == "claimed")
  }

  function LostItems(items: seq<UserItem>): (r: seq<UserItem>)
    ensures forall i :: 0 <= i < |r| ==> r[i].card.kind == Lost
  {
    Filter(items, (x: UserItem) => x.card.kind == Lost)
  }

  function FoundItems(items: seq<UserItem>): (r: seq<UserItem>)
    ensures forall i :: 0 <= i < |r| ==> r[i].card.kind == Found
  {
    Filter(items, (x: UserItem) => x.card.kind == Found)
  }

  /** Each of the four lists holds exactly the user's items with that status or kind, each kept in list order (how often: `ListCounts`). */
  lemma ListsHoldExactly(items: seq<UserItem>)
    ensures forall x :: x in ActiveItems(items) <==> x in items && x.status == "active"
    ensures forall x :: x in ClaimedItems(items) <==> x in items && x.status == "claimed"
    ensures forall x :: x in LostItems(items) <==> x in items && x.card.kind == Lost
    ensures forall x :: x in FoundItems(items) <==> x in items && x.card.kind == Found
    ensures IsSubsequence(ActiveItems(items), items) && IsSubsequence(ClaimedItems(items), items)
    ensures IsSubsequence(LostItems(items), items) && IsSubsequence(FoundItems(items), items)
  {
    FilterMembers(items, (x: UserItem) => x.status == "active");
    FilterMembers(items, (x: UserItem) => x.status == "claimed");
    FilterMembers(items, (x: UserItem) => x.card.kind == Lost);
    FilterMembers(items, (x: UserItem) => x.card.kind == Found);
    FilterIsSubsequence(items, (x: UserItem) => x.status == "active");
    FilterIsSubsequence(items, (x: UserItem) => x.status == "claimed");
    FilterIsSubsequence(items, (x: UserItem) => x.card.kind == Lost);
    FilterIsSubsequence(items, (x: UserItem) => x.card.kind == Found);
  }

  /** Each list keeps every item with its status or kind as many times as it occurs among the user's items. */
  lemma ListCounts(items: seq<UserItem>)
    ensures forall x :: multiset(ActiveItems(items))[x] == (if x.status == "active" then multiset(items)[x] else 0)
    ensures forall x :: multiset(ClaimedItems(items))[x] == (if x.status == "claimed" then multiset(items)[x] else 0)
    ensures forall x :: multiset(LostItems(items))[x] == (if x.card.kind == Lost then multiset(items)[x] else 0)
    ensures forall x :: multiset(FoundItems(items))[x] == (if x.card.kind == Found then multiset(items)[x] else 0)
  {
    var active := (u: UserItem) => u.status == "active";
    var claimed := (u: UserItem) => u.status == "claimed";
    var lost := (u: UserItem) => u.card.kind == Lost;
    var found := (u: UserItem) => u.card.kind == Found;
    forall x ensures multiset(ActiveItems(items))[x] == (if x.status == "active" then multiset(items)[x] else 0) {
      FilterCounts(items, active, x);
    }
    forall x ensures multiset(ClaimedItems(items))[x] == (if x.status == "claimed" then multiset(items)[x] else 0) {
      FilterCounts(items, claimed, x);
    }
    forall x ensures multiset(LostItems(items))[x] == (if x.card.kind == Lost then multiset(items)[x] else 0) {
      FilterCounts(items, lost, x);
    }
    forall x ensures multiset(FoundItems(items))[x] == (if x.card.kind == Found then multiset(items)[x] else 0) {
      FilterCounts(items, found, x);
    }
  }

  /** The lost and found tabs split the user's items: every item is on exactly one of them. */
  lemma TabsPartition(items: seq<UserItem>)
    ensures |LostItems(items)| + |FoundItems(items)| == |items|
    ensures multiset(LostItems(items)) + multiset(FoundItems(items)) == multiset(items)
  {
    FilterPartition(items, (x: UserItem) => x.card.kind == Lost, (x: UserItem) => x.card.kind == Found);
  }

  /**
   * An item is never both active and claimed; a status other than these two
   * (the source does not rule one out) puts an item in neither list.
   */
  lemma StatusesDisjoint(items: seq<UserItem>)
    ensures forall x :: !(x in ActiveItems(items) && x in ClaimedItems(items))
    ensures |ActiveItems(items)| + |ClaimedItems(items)| <= |items|
  {
    ListsHoldExactly(items);
    var notActive := (x: UserItem) => x.status != "active";
    FilterPartition(items, (x: UserItem) => x.status == "active", notActive);
    FilterFilter(items, notActive, (x: UserItem) => x.status == "claimed", (x: UserItem) => x.status == "claimed");
    assert |Filter(Filter(items, notActive), (x: UserItem) => x.status == "claimed")| <= |Filter(items, notActive)|;
  }

  /** The overview's "Active Listings" section: the active cards, or the prompt to post one. */
  datatype ActiveSection = ActiveCards(cards: seq<UserItem>) | NoActiveListings

  /** What the dashboard renders. `recentlyClaimed` is absent when nothing is claimed. */
  datatype DashboardView = DashboardView(
    avatarFallback: string,
    itemsPostedStat: nat,
    itemsReturnedStat: nat,
    activeListingsStat: nat,
    lostTabCount: nat,
    foundTabCount: nat,
    activeSection: ActiveSection,
    recentlyClaimed: seq<UserItem>,
    showRecentlyClaimed: bool,
    lostTab: seq<UserItem>,
    foundTab: seq<UserItem>)

  function View(user: Profile, items: seq<UserItem>): (v: DashboardView)
    ensures v.avatarFallback == Initials(user.name)
    ensures v.itemsPostedStat == user.itemsPosted && v.itemsReturnedStat == user.itemsReturned
    ensures v.activeListingsStat == |ActiveItems(items)|
    ensures v.lostTab == LostItems(items) && v.foundTab == FoundItems(items)
    ensures v.lostTabCount == |LostItems(items)| && v.foundTabCount == |FoundItems(items)|
    ensures v.lostTabCount + v.foundTabCount == |items|
    ensures v.activeSection == NoActiveListings <==> forall i :: 0 <= i < |items| ==> items[i].status != "active"
    ensures v.activeSection.ActiveCards? ==> v.activeSection.cards == ActiveItems(items)
    ensures v.recentlyClaimed == ClaimedItems(items)
    ensures v.showRecentlyClaimed <==> exists i :: 0 <= i < |items| && items[i].status == "claimed"
  {
    var active := ActiveItems(items);
    var claimed := ClaimedItems(items);
    TabsPartition(items);
    FilterEmpty(items, (x: UserItem) => x.status == "active");
    FilterEmpty(items, (x: UserItem) => x.status == "claimed");
    DashboardView(
      Initials(user.name),
      user.itemsPosted,
      user.itemsReturned,
      |active|,
      |LostItems(items)|,
      |FoundItems(items)|,
      if |active| > 0 then ActiveCards(active) else NoActiveListings,
      claimed,
      |claimed| > 0,
      LostItems(items),
      FoundItems(items))
  }

  /** `n[0]` of one piece of the name; on an empty piece it is `undefined`, which `join` renders as nothing. */
  function FirstLetter(piece: string): (r: string)
    ensures |r| <= 1
    ensures r == [] <==> piece == []
    ensures r != [] ==> r[0] == piece[0]
  {
    if piece == [] then [] else [piece[0]]
  }

  /** `name.split(' ').map(n => n[0]).join('')`. */
  function Initials(name: string): string
  {
    Join(Map(Split(name, ' '), FirstLetter), "")
  }

  /** A single word contributes its first letter (nothing when it is empty). */
  lemma InitialsOfWord(w: string)
    requires ' ' !in w
    ensures Initials(w) == FirstLetter(w)
  {
    SplitWithoutSeparator(w, ' ');
  }

  /** The initials of two space-separated parts are the initials of each, in order. */
  lemma InitialsAppend(a: string, b: string)
    ensures Initials(a + " " + b) == Initials(a) + Initials(b)
  {
    assert a + " " + b == a + [' '] + b;
    SplitAppend(a, b, ' ');
    MapAppend(Split(a, ' '), Split(b, ' '), FirstLetter);
    JoinAppend(Map(Split(a, ' '), FirstLetter), Map(Split(b, ' '), FirstLetter), "");
  }

  /** A run of spaces opens empty pieces, and those add nothing: "John  Doe" has the initials of "John Doe". */
  lemma EmptyPiecesIgnored(a: string, b: string)
    ensures Initials(a + "  " + b) == Initials(a + " " + b)
  {
    InitialsAppend(a, " " + b);
    InitialsAppend("", b);
    InitialsAppend(a, b);
    InitialsOfWord("");
    assert a + "  " + b == a + " " + (" " + b);
    assert "" + " " + b == " " + b;
  }

  /** The initials of the pieces `ps`, one letter per non-empty piece. */
  lemma {:induction false} JoinFirstLetters(ps: seq<string>)
    ensures |Join(Map(ps, FirstLetter), "")| <= |ps|
    ensures forall i :: 0 <= i < |Join(Map(ps, FirstLetter), "")| ==>
      exists k :: 0 <= k < |ps| && ps[k] != [] && Join(Map(ps, FirstLetter), "")[i] == ps[k][0]
    decreases |ps|
  {
    if |ps| > 1 {
      JoinFirstLetters(ps[1..]);
      var tail := Join(Map(ps[1..], FirstLetter), "");
      assert Map(ps, FirstLetter)[1..] == Map(ps[1..], FirstLetter);
      var r := Join(Map(ps, FirstLetter), "");
      assert r == FirstLetter(ps[0]) + tail;
      forall i | 0 <= i < |r|
        ensures exists k :: 0 <= k < |ps| && ps[k] != [] && r[i] == ps[k][0]
      {
        if i < |FirstLetter(ps[0])| {
          assert r[i] == ps[0][0];
        } else {
          var k :| 0 <= k < |ps[1..]| && ps[1..][k] != [] && tail[i - |FirstLetter(ps[0])|] == ps[1..][k][0];
          assert r[i] == ps[k + 1][0];
        }
      }
    }
  }

  /** The initials have at most one letter per space-separated piece, and every letter is a letter of the name other than a space. */
  lemma InitialsComeFromName(name: string)
    ensures |Initials(name)| <= |Split(name, ' ')|
    ensures forall i :: 0 <= i < |Initials(name)| ==> Initials(name)[i] in name && Initials(name)[i] != ' '
  {
    var ps := Split(name, ' ');
    JoinFirstLetters(ps);
    SplitPieceChars(name, ' ');
    SplitPiecesClean(name, ' ');
    forall i | 0 <= i < |Initials(name)|
      ensures Initials(name)[i] in name && Initials(name)[i] != ' '
    {
      var k :| 0 <= k < |ps| && ps[k] != [] && Initials(name)[i] == ps[k][0];
      assert ps[k][0] in ps[k];
    }
  }

  const MockUser := Profile("John Doe", "john.doe@email.com", "/placeholder.svg", "March 2023", "New York, NY", 12, 8)

  const MockUserItems: seq<UserItem> := [
    UserItem(Listing("1", "iPhone 14 Pro", "Black iPhone 14 Pro lost at Central Park near the fountain",
      "Electronics", "Central Park, NYC", "2 days ago", "/placeholder.svg", Lost), "active"),
    UserItem(Listing("2", "Blue Wallet", "Found a blue leather wallet with ID cards near Starbucks",
      "Personal Items", "Downtown Seattle", "1 week ago", "/placeholder.svg", Found), "claimed"),
    UserItem(Listing("3", "Car Keys", "Found Honda car keys with red keychain",
      "Keys", "University Campus", "3 days ago", "/placeholder.svg", Found), "active")
  ]

  /** "John Doe" is shown as "JD". */
  lemma MockInitials()
    ensures Initials(MockUser.name) == "JD"
  {
    var first, last := "John", "Doe";
    InitialsAppend(first, last);
    InitialsOfWord(first);
    InitialsOfWord(last);
    assert first + " " + last == MockUser.name;
  }

  /** For the fixed items: two active, one claimed, one lost, two found, and so a "Recently Claimed" section. */
  lemma MockCounts()
    ensures |ActiveItems(MockUserItems)| == 2 && |ClaimedItems(MockUserItems)| == 1
    ensures |LostItems(MockUserItems)| == 1 && |FoundItems(MockUserItems)| == 2
    ensures View(MockUser, MockUserItems).showRecentlyClaimed
    ensures View(MockUser, MockUserItems).activeSection == ActiveCards(ActiveItems(MockUserItems))
  {
    var xs := MockUserItems;
    assert xs[1].status == "claimed";
    assert Filter(xs[2..], (x: UserItem) => x.status == "active") == [xs[2]];
    assert Filter(xs[1..], (x: UserItem) => x.status == "active") == [xs[2]];
    assert Filter(xs[2..], (x: UserItem) => x.status == "claimed") == [];
    assert Filter(xs[1..], (x: UserItem) => x.status == "claimed") == [xs[1]];
    assert Filter(xs[2..], (x: UserItem) => x.card.kind == Lost) == [];
    assert Filter(xs[1..], (x: UserItem) => x.card.kind == Lost) == [];
    assert Filter(xs[2..], (x: UserItem) => x.card.kind == Found) == [xs[2]];
    assert Filter(xs[1..], (x: UserItem) => x.card.kind == Found) == [xs[1], xs[2]];
  }
}
