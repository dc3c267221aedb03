# Find & Reconnect: a Dafny model of the lost-and-found pages

This project models the logic of a small lost-and-found web app ("find-reconnect-joy")
and proves properties of that model in Dafny. The app is written in React with a Supabase
backend. Here is what its pages and hooks compute and in what order they act:

- **The Lost Items and Found Items pages** filter a fixed list of listings. The filters are a
  free-text search over title and description, a category selector, and a location text.
  Both search and location ignore case. The pages then show either a count and the matching
  cards, or a "No items found" panel (`SearchFilter`, `LostItemsPage`, `FoundItemsPage`).
- **The Dashboard** splits the user's listings four ways: by status (active, claimed) and by
  type (lost, found). It derives the stats, the tab counts, the conditional sections and the
  avatar initials from the user's name (`DashboardPage`).
- **The Home page** splits a fixed list into recent lost and found items. Its search box
  state does not affect either list (`HomePage`).
- **The item form** covers the form state and its handlers. Its image upload derives the
  storage key `userId/timestamp.ext` from the file name. Its submit handler checks the
  required fields, then uploads the image, then calls the page's `onSubmit` (`ItemForm`).
- **The items hooks** turn database rows into `Item` records and manage the
  `loading` / `items` / `error` state of a fetch (`UseItems`).
- **The post page's submit handler** covers the login check, the `loading` flag, the upload,
  the inserted row, the toasts and the redirect (`PostItemPage`).

Support modules:

- `Strings` holds ASCII case folding, `includes`, one-character `split`, `join` and decimal
  rendering.
- `Arrays` holds `filter` and `map` and their laws.
- `Listings` holds the card record.
- `Runtime` holds the values the handlers receive from the browser and the backend.

**Outside dependencies are parameters.** The clock (`Date.now()`), the date's
`toISOString()`, and the storage and database answers are all passed in. Storage and
database answers can be an error or a result. Each handler returns its observable steps
(toasts, uploads, inserts, `loading` changes, navigation) as a sequence of effects, and
that sequence is specified by a function. The form and the page are classes, and each
handler is proved equal to its function.

**The image is uploaded twice.** When the form holds an image, the form's submit handler
uploads it and checks that a URL came back. It then passes the original `File`, not the
URL, to `onSubmit`. The post page uploads the same file again under a fresh key and
stores that second URL. The model keeps both uploads (`ItemForm.SubmitsExactly`,
`PostItemPage.UploadsExactly`).

## Model

| member | source | states |
|---|---|---|
| SearchFilter.FilteredItems | src/pages/LostItems.tsx:80-88 | every listing shown passes the search, category and location conditions, and the result is never longer than the list |
| SearchFilter.FilteredMembers | src/pages/LostItems.tsx:80-88 | a listing is shown exactly when it is in the list and passes all three conditions, and it is shown as often as it occurs in the list |
| SearchFilter.ShownExactlyWhenMatches | src/pages/FoundItems.tsx:80-88 | for a listing of the list: shown if and only if it passes the three conditions |
| SearchFilter.FilteredIsSubsequence | src/pages/LostItems.tsx:80 | the result keeps the listings in their original relative order |
| SearchFilter.EmptyFiltersKeepAll | src/pages/LostItems.tsx:76-88 | with the initial settings (empty query, "All Categories", empty location) the whole list is shown unchanged, in order |
| SearchFilter.FilteredIdempotent | src/pages/FoundItems.tsx:80-88 | filtering the result again with the same settings changes nothing |
| SearchFilter.QueryIgnoresCase | src/pages/LostItems.tsx:81-82 | two queries with the same lower-case form give identical results |
| SearchFilter.QueryLowerCased | src/pages/LostItems.tsx:81-82 | typing the query already lower-cased gives the same result as typing it in any case |
| SearchFilter.LocationIgnoresCase | src/pages/FoundItems.tsx:84-85 | two location texts with the same lower-case form give identical results |
| SearchFilter.SearchOnly | src/pages/FoundItems.tsx:81-82 | the search alone keeps exactly the listings whose lower-cased title or description includes the lower-cased query; the location is not consulted |
| SearchFilter.CategoryOnly | src/pages/LostItems.tsx:83 | a selection other than "All Categories" keeps exactly the listings whose category equals the selected string (case-sensitive) |
| SearchFilter.LocationOnly | src/pages/FoundItems.tsx:84-85 | an empty location text keeps everything; otherwise exactly the listings whose lower-cased location includes it lower-cased |
| SearchFilter.ConditionsCompose | src/pages/LostItems.tsx:84-87 | the combined result equals the three single-condition filters applied in turn, and its members are those in all three single-condition results |
| SearchFilter.Panel | src/pages/LostItems.tsx:141-166 | the "Showing N" count is the result length; the "No items found" panel appears exactly when the result is empty, otherwise the cards are the result |
| SearchFilter.NoItemsFoundExactly | src/pages/FoundItems.tsx:152 | the empty-state panel appears exactly when no listing of the list passes the conditions |
| LostItemsPage.ListingsWellFormed | src/pages/LostItems.tsx:10-73 | every mock listing is of the lost kind and has one of the selectable categories |
| LostItemsPage.InitialPageShowsAll | src/pages/LostItems.tsx:10-88 | on first render the page shows "Showing 6" and all six mock listings in order |
| LostItemsPage.KeysCategory | src/pages/LostItems.tsx:10-88 | category "Keys" shows only id "7"; the lower-case "keys" shows the empty state |
| LostItemsPage.WalletSearchFindsWallet | src/pages/LostItems.tsx:10-88 | the query "wallet", in either case, shows the wallet listing (id "8") |
| LostItemsPage.WalletTitleMatches | src/pages/LostItems.tsx:81 | the lower-cased title "Blue Wallet" includes "wallet" and the lower-cased "WALLET" |
| FoundItemsPage.ListingsWellFormed | src/pages/FoundItems.tsx:10-73 | every mock listing is of the found kind and has one of the selectable categories |
| FoundItemsPage.InitialPageShowsAll | src/pages/FoundItems.tsx:10-88 | on first render the page shows "Showing 6" and all six mock listings in order |
| FoundItemsPage.PersonalItemsCategory | src/pages/FoundItems.tsx:10-88 | category "Personal Items" shows ids "2" and "11", in that order |
| FoundItemsPage.KeysSearchFindsKeys | src/pages/FoundItems.tsx:10-88 | the queries "keys" and "Keys" show the found car keys (id "4") |
| FoundItemsPage.KeysTitleMatches | src/pages/FoundItems.tsx:81 | the lower-cased title "Car Keys" includes "keys" and the lower-cased "Keys" |
| DashboardPage.ActiveItems | src/pages/Dashboard.tsx:63 | every listed item has status "active" |
| DashboardPage.ClaimedItems | src/pages/Dashboard.tsx:64 | every listed item has status "claimed" |
| DashboardPage.LostItems | src/pages/Dashboard.tsx:65 | every listed item is of the lost kind |
| DashboardPage.FoundItems | src/pages/Dashboard.tsx:66 | every listed item is of the found kind |
| DashboardPage.ListsHoldExactly | src/pages/Dashboard.tsx:63-66 | each of the four lists holds exactly the user's items with its status or type, in original order |
| DashboardPage.ListCounts | src/pages/Dashboard.tsx:63-66 | each of the four lists holds every item with its status or type as many times as it occurs in the user's items, and no other |
| DashboardPage.TabsPartition | src/pages/Dashboard.tsx:65-66 | the lost and found lists together hold every item exactly once: lengths sum to the total and the multisets add up |
| DashboardPage.StatusesDisjoint | src/pages/Dashboard.tsx:63-64 | no item is both active and claimed, so the two counts never exceed the total |
| DashboardPage.View | src/pages/Dashboard.tsx:79-216 | the avatar fallback is the initials of the user's name; the two profile stats are the profile's own numbers; "Active Listings" is the active count; the lost tab holds and counts the lost items and the found tab the found items, the counts summing to the total; the active cards are the active items, and the placeholder appears exactly when no item is active; the "Recently Claimed" list is the claimed items and appears exactly when some item is claimed |
| DashboardPage.FirstLetter | src/pages/Dashboard.tsx:82 | one piece contributes its first character, or nothing when it is empty |
| DashboardPage.InitialsOfWord | src/pages/Dashboard.tsx:82 | a name without spaces gives its first letter |
| DashboardPage.InitialsAppend | src/pages/Dashboard.tsx:82 | the initials of two space-separated parts are the initials of each, concatenated |
| DashboardPage.EmptyPiecesIgnored | src/pages/Dashboard.tsx:82 | a doubled space adds no initial |
| DashboardPage.JoinFirstLetters | src/pages/Dashboard.tsx:82 | joining the first letters of pieces gives at most one letter per piece, each the first letter of a non-empty piece |
| DashboardPage.InitialsComeFromName | src/pages/Dashboard.tsx:82 | the initials have at most one letter per space-separated piece, and each is a non-space character of the name |
| DashboardPage.MockInitials | src/pages/Dashboard.tsx:13-82 | the mock name "John Doe" gives "JD" |
| DashboardPage.MockCounts | src/pages/Dashboard.tsx:24-66 | the mock items give 2 active, 1 claimed, 1 lost and 2 found, so "Recently Claimed" and the active cards are shown |
| HomePage.OfKind | src/pages/Home.tsx:57-58 | every listed item has the requested type |
| HomePage.Home | src/pages/Home.tsx:55-58 | the search box shows the query; the lost section is the lost-type filter and holds exactly the lost items, the found section likewise the found items; together they hold as many items as the list |
| HomePage.OfKindPartition | src/pages/Home.tsx:57-58 | the lost and found sections hold exactly the items of each type, in order, and together every item exactly once |
| HomePage.SearchQueryUnused | src/pages/Home.tsx:55-97 | any two search-box contents give the same two sections |
| HomePage.MockSections | src/pages/Home.tsx:11-58 | the lost section shows ids "1","3" and the found section ids "2","4" |
| ItemForm.Updated | src/components/ItemForm.tsx:46-48 | writing a field sets that field to the value and leaves every other field as it was |
| ItemForm.UpdatedLaws | src/components/ItemForm.tsx:46-48 | writing back a field's own value changes nothing, and of two writes to one field the last wins |
| ItemForm.ExtensionHasNoDot | src/components/ItemForm.tsx:70 | the extension is the text after the last dot: it holds no dot, and a name without a dot is its own extension |
| ItemForm.NameEndsWithExtension | src/components/ItemForm.tsx:70 | a name with a dot is some stem, a dot and its extension |
| ItemForm.StorageKeyExtension | src/components/ItemForm.tsx:70-71 | the key `userId/now.ext` has the file's own extension |
| ItemForm.UploadImage | src/components/ItemForm.tsx:67-87 | no user means no upload and no URL; with a user the upload uses the derived key; a URL comes back exactly when there is a user and no upload error, and it is the storage's public URL |
| ItemForm.IncompleteFormStops | src/components/ItemForm.tsx:90-93 | an empty title, description or location, or no date, gives only the required-fields toast: no upload and no `onSubmit` |
| ItemForm.SubmitsExactly | src/components/ItemForm.tsx:89-108 | `onSubmit` is called exactly when the required fields are filled and either there is no image or the upload gave a non-empty URL; it is then the last step and receives the unchanged form and the type |
| ItemForm.UploadsExactly | src/components/ItemForm.tsx:95-102 | with no image there is no upload and exactly one `onSubmit`; with one, the upload happens exactly when a user is signed in, under the derived key |
| ItemForm.CategoryNotRequired | src/components/ItemForm.tsx:90 | an empty category does not change whether the form submits |
| ItemForm.Form.constructor | src/components/ItemForm.tsx:35-44 | the empty form record and no preview |
| ItemForm.Form.HandleInputChange | src/components/ItemForm.tsx:46-48 | only the named field changes, to the value; the preview stays |
| ItemForm.Form.HandleImageChange | src/components/ItemForm.tsx:50-60 | the first chosen file becomes the image; no file changes nothing |
| ItemForm.Form.RemoveImage | src/components/ItemForm.tsx:62-65 | image and preview become empty; the other fields stay |
| ItemForm.Form.HandleSubmit | src/components/ItemForm.tsx:89-109 | the steps taken equal the submit specification, which the lemmas above describe |
| UseItems.CategoryName | src/hooks/useItems.ts:57 | the joined category name when present and non-empty, otherwise "Other"; never empty |
| UseItems.FormatRowRoundTrip | src/hooks/useItems.ts:53-68 | the row comes back from its item plus `category_id`; `date` is `date_occurred` and `image` is `image_url` |
| UseItems.FormatRowInjective | src/hooks/useItems.ts:112-127 | two rows give the same item exactly when they differ at most in `category_id` |
| UseItems.CategoryDefault | src/hooks/useItems.ts:116 | the category shown is "Other" exactly when the join is missing, has an empty name, or is named "Other" |
| UseItems.FormatRows | src/hooks/useItems.ts:53 | one item per row |
| UseItems.FormatRowsInOrder | src/hooks/useItems.ts:53-68 | the i-th item is the i-th row formatted |
| UseItems.FetchErrorMessageCases | src/hooks/useItems.ts:73 | an `Error` gives its own message; any other thrown value gives "An error occurred" |
| UseItems.ItemsHook.constructor | src/hooks/useItems.ts:28-30 | no items, loading, no error |
| UseItems.ItemsHook.StartFetch | src/hooks/useItems.ts:34 | loading is raised; items and error stay |
| UseItems.ItemsHook.SettleFetch | src/hooks/useItems.ts:49-77 | loading ends on both paths; rows replace the items and clear the error; a failure sets the error message and keeps the old items |
| UseItems.ItemsHook.FetchItems | src/hooks/useItems.ts:32-78 | a whole fetch: the state after it is as for settling, whatever loading was before |
| UseItems.ItemHook.constructor | src/hooks/useItems.ts:92-94 | no item, loading, no error |
| UseItems.ItemHook.Effect | src/hooks/useItems.ts:96-142 | an empty id changes nothing (so loading stays as it was); otherwise the row becomes the item with no error, or the failure message is set with the item kept, and loading ends |
| PostItemPage.CategoryId | src/pages/PostItem.tsx:54 | `category_id` is null exactly for an empty category, otherwise the category itself |
| PostItemPage.DateOnlyIsPrefix | src/pages/PostItem.tsx:57 | the stored date is the part of the ISO string before the first "T": it holds no "T", is a prefix, and is the whole string or followed by "T" |
| PostItemPage.DateOnlyOfTimestamp | src/pages/PostItem.tsx:57 | a date without "T" followed by "T" and a time gives that date back |
| PostItemPage.DateOnlyExample | src/pages/PostItem.tsx:57 | "2024-03-15T09:30:00.000Z" is stored as "2024-03-15" |
| PostItemPage.FailureMessage | src/pages/PostItem.tsx:74 | the error's message when non-empty, otherwise "Failed to post item"; never empty |
| PostItemPage.Payload | src/pages/PostItem.tsx:50-63 | the contact info is the user's email with a null phone |
| PostItemPage.NoUserStops | src/pages/PostItem.tsx:17-20 | without a user: only the login toast, with no `loading` change, upload, insert or redirect |
| PostItemPage.OutcomeCases | src/pages/PostItem.tsx:28-67 | the insert is sent exactly when there is a date and no upload error; the item is posted exactly when the insert also reports no error; each failure carries its error's message |
| PostItemPage.OutcomeStepsFacts | src/pages/PostItem.tsx:48-74 | after the upload: no `loading` change and no upload; an insert exactly when one was sent; a redirect exactly when the item was posted |
| PostItemPage.LoadingBracket | src/pages/PostItem.tsx:22-77 | with a user, `loading` is raised first and lowered last on every path, and not touched in between |
| PostItemPage.UploadsExactly | src/pages/PostItem.tsx:28-34 | an upload happens exactly when there is a user and an image, as the step right after `loading` is raised, under `userId/now.ext` |
| PostItemPage.InsertsExactly | src/pages/PostItem.tsx:36-67 | the insert is sent exactly when there is a user, a date, and no image or an upload without error; an upload error therefore skips it |
| PostItemPage.InsertedPayload | src/pages/PostItem.tsx:50-63 | the inserted row is the user's id, the form's texts, the category id (null for empty), the type, the date part of the ISO string, the public URL or null without an image, and the user's email with a null phone |
| PostItemPage.RedirectsExactly | src/pages/PostItem.tsx:65-70 | the redirect happens exactly when the insert went out without error; it follows the success toast and goes to "/lost-items" for lost, "/found-items" otherwise |
| PostItemPage.FailureReported | src/pages/PostItem.tsx:72-74 | an upload error or an insert error is reported by one toast with `message || 'Failed to post item'` just before `loading` is lowered, and an upload error means no insert |
| PostItemPage.PostPage.constructor | src/pages/PostItem.tsx:12 | not loading |
| PostItemPage.PostPage.HandleSubmit | src/pages/PostItem.tsx:16-78 | the steps taken equal the post specification; `loading` is unchanged without a user and false afterwards with one |

## Left out

- The rendering: markup, styling, icons, the `Header`, `ItemCard` and `ItemDetail`
  components, and the dashboard's selected tab. The model keeps only what each page
  shows: counts, lists and which section appears.
- Toasts and the router's `navigate` are effects in the returned sequence; nothing is
  displayed. The `console.error` calls (ItemForm.tsx:78, useItems.ts:74 and 133,
  PostItem.tsx:73) are not modelled.
- Asynchrony. Each `await` is modelled as completing in order, with the answer given as a
  parameter. Interleaved renders, a `useItem` id that changes while its fetch is pending,
  and overlapping `refetch` calls are not modelled.
- The Supabase query itself. Filtering on `status = 'active'` and on the type, and ordering
  by `created_at` descending, happen in the database. The hooks' model takes the returned
  rows as they come.
- The authentication context and the `useCategories` hook. The user is a parameter, and
  the category is a plain string.
- The clock and dates. `Date.now()` is the `now` parameter. A `Date` is known only by its
  `toISOString()` text, so a time zone that shifts the calendar day in the UTC string is
  outside the model. The date picker's formatting is not modelled.
- `FileReader`. ItemForm.Form.HandleImageChange does not set the preview, because the data
  URL only arrives later, when the reader's `onload` callback runs.
- `toLowerCase`. Strings.LowerCase folds only ASCII letters 'A'..'Z'. The full Unicode
  case mapping and UTF-16 code units are not modelled.
- LostItemsPage.WalletSearchFindsWallet proves that the query "wallet" shows the wallet
  listing, not that it shows only that listing. To rule out the other five listings, the
  verifier would have to search every mock title and description for the query. As
  literal-string evaluation, that goes beyond the verifier's resource bound.
- FoundItemsPage.KeysSearchFindsKeys proves that "keys" shows id "4" but not that it shows
  only id "4", for the same reason.
- ItemForm.Form.HandleInputChange requires the value to have the field's type
  (`ItemForm.Fits`). The handler's signature would accept any value for any key, but every
  call site in the form passes the matching type.
- PostItemPage.MissingDateMessage is the text of the `TypeError` raised when `data.date`
  is undefined, in the wording of V8-based browsers. Other engines word the message
  differently. The form never submits without a date.
- `contact_info` and the joined `profiles` record are modelled with only the keys the
  code writes or reads.
- UseItems.Row holds only the `items` columns that the hooks read and the post page writes
  (`category_id`). The table's full schema is defined in the database, not in this code, so
  any other column is not modelled. Formatting drops only `category_id` among the modelled columns.
