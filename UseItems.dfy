/**
 * The items hooks: the shaping of database rows into `Item` records, and the
 * `loading` / `items` / `error` state of `useItems` and the `item` / `loading` /
 * `error` state of `useItem` as a fetch starts and settles. What the database
 * answers is passed in.
 */
module UseItems {
  import opened Arrays
  import opened Runtime
  import opened Listings

  /** The joined `profiles (full_name, email, phone)` record. */
  datatype ProfileRef = ProfileRef(fullName: Option<string>, email: string, phone: Option<string>)

  /** The joined `categories (name)` record. */
  datatype CategoryRef = CategoryRef(name: string)

  /** The `contact_info` column, as the post page writes it. */
  datatype ContactInfo = ContactInfo(email: Option<string>, phone: Option<string>)

  datatype Status = Active | Resolved | Inactive

  /**
   * One row of `items` with its joins, as `select('*, profiles (...), categories (name)')`
   * returns it. The columns are those the hooks read and the post page writes
   * (`category_id`); any other column of the table is not modelled.
   */
  datatype Row = Row(
    id: string,
    userId: string,
    title: string,
    description: string,
    categoryId: Option<string>,
    kind: Kind,
    status: Status,
    location: string,
    dateOccurred: string,
    imageUrl: Option<string>,
    contactInfo: ContactInfo,
    createdAt: string,
    profiles: Option<ProfileRef>,
    categories: Option<CategoryRef>)

  /** The `Item` interface the hooks hand to the pages. */
  datatype Item = Item(
    id: string,
    title: string,
    description: string,
    category: string,
    location: string,
    date: string,
    image: Option<string>,
    kind: Kind,
    status: Status,
    userId: string,
    contactInfo: ContactInfo,
    createdAt: string,
    profiles: Option<ProfileRef>,
    categories: Option<CategoryRef>)

  const OtherCategory := "Other"

  /** `row.categories?.name || 'Other'`. */
  function CategoryName(categories: Option<CategoryRef>): (name: string)
    ensures name != ""
    ensures categories.Some? && categories.value.name != "" ==> name == categories.value.name
    ensures categories.None? || categories.value.name == "" ==> name == OtherCategory
  {
    if categories.Some? && categories.value.name != "" then categories.value.name else OtherCategory
  }

  /** The object literal built for each row in `fetchItems` and for the single row in `useItem`. */
  function FormatRow(row: Row): Item
  {
    Item(row.id, row.title, row.description, CategoryName(row.categories), row.location,
      row.dateOccurred, row.imageUrl, row.kind, row.status, row.userId, row.contactInfo,
      row.createdAt, row.profiles, row.categories)
  }

  /** The row an item came from, given the one column the item does not keep. */
  function RowOf(item: Item, categoryId: Option<string>): Row
  {
    Row(item.id, item.userId, item.title, item.description, categoryId, item.kind, item.status,
      item.location, item.date, item.image, item.contactInfo, item.createdAt,
      item.profiles, item.categories)
  }

  /**
   * Formatting loses only `category_id`: the row comes back from the item and
   * that column; the date is `date_occurred`, the image `image_url`.
   */
  lemma FormatRowRoundTrip(row: Row)
    ensures RowOf(FormatRow(row), row.categoryId) == row
    ensures FormatRow(row).date == row.dateOccurred && FormatRow(row).image == row.imageUrl
  {
  }

  /** Two rows format alike exactly when they differ at most in `category_id`. */
  lemma FormatRowInjective(r1: Row, r2: Row)
    ensures FormatRow(r1) == FormatRow(r2) <==> r1.(categoryId := r2.categoryId) == r2
  {
    if FormatRow(r1) == FormatRow(r2) {
      FormatRowRoundTrip(r1);
      FormatRowRoundTrip(r2);
    }
  }

  /** The category shown is "Other" exactly when the join is missing, empty, or itself "Other". */
  lemma CategoryDefault(row: Row)
    ensures FormatRow(row).category == OtherCategory <==>
      row.categories.None? || row.categories.value.name in {"", OtherCategory}
  {
  }

  /** `data.map(...)`: one item per row, in the order of the rows. */
  function FormatRows(rows: seq<Row>): (items: seq<Item>)
    ensures |items| == |rows|
  {
    Map(rows, FormatRow)
  }

  lemma FormatRowsInOrder(rows: seq<Row>)
    ensures forall i :: 0 <= i < |rows| ==> FormatRows(rows)[i] == FormatRow(rows[i])
  {
    forall i | 0 <= i < |rows| ensures FormatRows(rows)[i] == FormatRow(rows[i]) {
      MapAt(rows, FormatRow, i);
    }
  }

  /** `err instanceof Error ? err.message : 'An error occurred'`. */
  function FetchErrorMessage(err: Thrown): string
  {
    if err.ErrorInstance? then err.message else "An error occurred"
  }

  /** Only an `Error` instance's own message reaches the state; anything else reads as the generic text, whatever it carries. */
  lemma FetchErrorMessageCases(m: string, field: Option<string>)
    ensures FetchErrorMessage(ErrorInstance(m)) == m
    ensures FetchErrorMessage(OtherValue(field)) == "An error occurred"
  {
  }

  /** What the query resolves to: the rows, or a thrown error (from `if (error) throw error`). */
  datatype ListAnswer = Rows(rows: seq<Row>) | ListFailed(err: Thrown)

  /** What the single-row query resolves to. */
  datatype OneAnswer = OneRow(row: Row) | OneFailed(err: Thrown)

  /** The state of `useItems(type)`. */
  class ItemsHook {
    var items: seq<Item>
    var loading: bool
    var error: Option<string>

    /** `useState([])`, `useState(true)`, `useState(null)`. */
    constructor()
      ensures items == [] && loading && error == None
    {
      items := [];
      loading := true;
      error := None;
    }

    /** The part of `fetchItems` before the query is awaited: `setLoading(true)`. */
    method StartFetch()
      modifies this
      ensures loading
      ensures items == old(items) && error == old(error)
    {
      loading := true;
    }

    /** The part after the query settles: the success or the catch branch, then `finally`. */
    method SettleFetch(answer: ListAnswer)
      modifies this
      ensures !loading
      ensures answer.Rows? ==> items == FormatRows(answer.rows) && error == None
      ensures answer.ListFailed? ==> items == old(items) && error == Some(FetchErrorMessage(answer.err))
    {
      match answer {
        case Rows(rows) =>
          items := FormatRows(rows);
          error := None;
        case ListFailed(err) =>
          error := Some(FetchErrorMessage(err));
      }
      loading := false;
    }

    /** One whole `fetchItems()` run (the mount effect and `refetch` both run it). */
    method FetchItems(answer: ListAnswer)
      modifies this
      ensures !loading
      ensures answer.Rows? ==> items == FormatRows(answer.rows) && error == None
      ensures answer.ListFailed? ==> items == old(items) && error == Some(FetchErrorMessage(answer.err))
    {
      StartFetch();
      SettleFetch(answer);
    }
  }

  /** The state of `useItem(id)`. */
  class ItemHook {
    var item: Option<Item>
    var loading: bool
    var error: Option<string>

    constructor()
      ensures item == None && loading && error == None
    {
      item := None;
      loading := true;
      error := None;
    }

    /**
     * The effect for `id`: an empty id starts no fetch, so the state stays as it
     * was (on first render that is `loading` true, for good); any other id fetches
     * the row and settles as `fetchItems` does.
     */
    method Effect(id: string, answer: OneAnswer)
      modifies this
      ensures id == "" ==> item == old(item) && loading == old(loading) && error == old(error)
      ensures id != "" ==> !loading
      ensures id != "" && answer.OneRow? ==> item == Some(FormatRow(answer.row)) && error == None
      ensures id != "" && answer.OneFailed? ==> item == old(item) && error == Some(FetchErrorMessage(answer.err))
    {
      if id != "" {
        loading := true;
        match answer {
          case OneRow(row) =>
            item := Some(FormatRow(row));
            error := None;
          case OneFailed(err) =>
            error := Some(FetchErrorMessage(err));
        }
        loading := false;
      }
    }
  }
}
