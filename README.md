# Contacts: a verified model of the data layer and its decision rules

This project models the core of an Android contacts app in Dafny and proves properties of the model.
The app shows two lists: random-user contacts fetched from a web service and cached in a local Room
table, and the device's own contacts. An edit screen creates new records and edits cached ones.

The model covers:

- **The record and the payload** (`Entity`, `Model`): the seventeen-column `ContactsEntity`, every
  column nullable, and the random-user page (`ContactsModel`, `Info`, `Result`, `Name`, `Id`,
  `Picture`) with the two list projections `ContactsRandom` and `ContactsPhone`.
- **The DAO** (`Dao`): the `contacts` table as a map from key to row plus SQLite's AUTOINCREMENT
  counter.
  - The pure functions `Insert`, `InsertAll` and `Update` state what each DAO call does.
  - The class `ContactsDao` holds the table in place, and its methods are proved against those
    functions.
  - A keyless insert gets a key no row has ever used. A keyed insert replaces the whole row.
  - `@Update` rewrites the row with the record's key. A null or missing key changes nothing.
- **The repository** (`Repository`).
  - Fetching a page normalises it into one keyless record per profile and bulk-inserts them.
  - Offline reads: a full scan and a lookup by key.
  - Local inserts.
  - The field-level merge update.

  Each repository call is a cold flow that emits at most once and catches every exception. In the
  model it becomes a method returning `Option<T>`. The network outcome (`ServiceCall`) and whether
  a storage call throws (`daoThrows`) are inputs.
- **The list view model** (`ListViewModel`): two feeds, each with a `ContactsState` and a list
  replaced wholesale.
  - Each `fetch...` call is split in two. The synchronous part sets `Loading`. The launched
    coroutine is a separate `Collect...` method.
  - The device's contacts provider is an input: a cursor's rows, a null cursor or a thrown query.
  - The cursor loop keeps the rows with a non-empty display name.
- **The edit view model** (`EditViewModel`): four form fields, the loaded projection and the
  `updateCompleted` flag. Blank fields become null before a merge or an insert.
- **The two screens' pure rules** (`ListView`, `EditView`).
  - The list screen: the search filter, the navigation routes, the item text, and when the spinner
    and the "No Contacts" banner show.
  - The edit screen: the load on entry, the Save dispatch, and the header, button label and field
    visibility.
- **Kotlin library semantics** the rules depend on (`KotlinStdlib`, `Wrappers`): nullable values,
  `takeIf`, `?:`, `trim`, `contains(ignoreCase = true)`, `filter`, `Long` printing and parsing, and
  `toInt()`.

Source paths below are relative to the repository root. `P/` abbreviates
`app/src/main/java/com/example/contacts/`; in the table the full path is written out.

### Behaviour worth knowing

- **Updating a missing key changes nothing.** `updateContact` reads the row first and returns
  without emitting when no row has the key, so the DAO is never reached. Room's `@Update` on a key
  that matches no row also changes nothing. `Dao.Update` models that no-op.
- **A failed fetch still ends in `Success`.** The repository's fetch flow catches every exception
  and completes. `fetchContactsRandomNetwork` then sets `Success` whatever happened, so
  `CollectRandomNetwork` always ends in `Success`.
- **The random feed never errs.** Both random-feed repository flows catch every exception
  themselves, so the view model's `catch` that would set "Failed to fetch random contacts: ..."
  never runs. `ListViewModel.ReachableStates` records this as a kept invariant: the random feed is
  never in `Error`.

## Model

| member | source | states |
|---|---|---|
| Entity.NamedArgumentsLeaveTheRestNull | app/src/main/java/com/example/contacts/localsource/ContactsEntity.kt:7-26 | a record built from some named arguments holds exactly those values and has every other column null (every parameter defaults to null) |
| Model.ToContactsRandomKeepsShownColumns | app/src/main/java/com/example/contacts/viewmodel/CreateContactsViewModel.kt:107-116 | two records project to the same list entry iff they agree on key, first name, last name, email, phone and medium picture; no other column reaches the list |
| Model.ToContactsRandom | app/src/main/java/com/example/contacts/viewmodel/CreateContactsViewModel.kt:107-116 | the projection onto the six shown columns; `ToContactsRandomKeepsShownColumns` proves it keeps exactly those |
| Dao.Insert | app/src/main/java/com/example/contacts/localsource/ContactsDao.kt:14-15 | insert-or-replace writes the record under its own key, or under a fresh key no row has when the key is null; the keys grow by that one key; every other row is unchanged; the counter never decreases |
| Dao.InsertKeylessAddsOne | app/src/main/java/com/example/contacts/localsource/ContactsDao.kt:14-15 | a keyless insert adds exactly one row |
| Dao.InsertAll | app/src/main/java/com/example/contacts/localsource/ContactsDao.kt:11-12 | inserting a list keeps the table well formed, never removes a key and never lowers the counter |
| Dao.InsertAllKeylessKeys | app/src/main/java/com/example/contacts/localsource/ContactsDao.kt:11-12 | N keyless records add exactly N rows under the next N keys and leave every stored row as it was |
| Dao.InsertAllKeylessCounter | app/src/main/java/com/example/contacts/localsource/ContactsDao.kt:11-12 | N keyless records advance the counter by exactly N |
| Dao.InsertAllKeylessRow | app/src/main/java/com/example/contacts/localsource/ContactsDao.kt:11-12 | the i-th keyless record of the list is stored under the i-th new key, so list order is key order |
| Dao.InsertAllStoresLastWriter | app/src/main/java/com/example/contacts/localsource/ContactsDao.kt:11-12 | a keyed record with no later record of the same key is stored exactly as given, which is replace-on-conflict rather than a merge |
| Dao.Update | app/src/main/java/com/example/contacts/localsource/ContactsDao.kt:23-24 | only the row with the record's key is rewritten, to the record; keys and counter are unchanged; a null or missing key changes nothing |
| Dao.ContactsDao.InsertContacts | app/src/main/java/com/example/contacts/localsource/ContactsDao.kt:11-12 | the loop inserts the records one by one, and the new table is `InsertAll` of the old |
| Dao.ContactsDao.InsertContact | app/src/main/java/com/example/contacts/localsource/ContactsDao.kt:14-15 | the new table is `Insert` of the old |
| Dao.ContactsDao.GetContacts | app/src/main/java/com/example/contacts/localsource/ContactsDao.kt:17-18 | the scan returns each stored row exactly once, in no promised order, and changes nothing |
| Dao.ContactsDao.GetContactById | app/src/main/java/com/example/contacts/localsource/ContactsDao.kt:20-21 | the lookup is non-null iff a row has that key, and then it is that row, carrying that key |
| Dao.ContactsDao.UpdateContact | app/src/main/java/com/example/contacts/localsource/ContactsDao.kt:23-24 | the new table is `Update` of the old |
| Repository.FetchedPage | app/src/main/java/com/example/contacts/repository/ContactsRepository_Impl.kt:25-28 | a page is emitted iff the call returned a successful response with a body, and it is that body |
| Repository.ToEntityIsLossless | app/src/main/java/com/example/contacts/repository/ContactsRepository_Impl.kt:37-54 | the record built for a profile has no key, and both the profile and the page's `info` can be read back from it exactly |
| Repository.ToEntity | app/src/main/java/com/example/contacts/repository/ContactsRepository_Impl.kt:37-54 | one profile becomes one keyless record carrying the page info; `ToEntityIsLossless` proves the profile and the page info read back |
| Repository.Normalised | app/src/main/java/com/example/contacts/repository/ContactsRepository_Impl.kt:31-56 | a page of N profiles gives exactly N records, the i-th built from the i-th profile |
| Repository.NormalisedRecords | app/src/main/java/com/example/contacts/repository/ContactsRepository_Impl.kt:37-54 | every normalised record is keyless, carries the page's `info` as provenance and reads back as its profile |
| Repository.NormalisePage | app/src/main/java/com/example/contacts/repository/ContactsRepository_Impl.kt:31-56 | the `for` loop builds exactly `Normalised(page)` |
| Repository.IngestAddsOneRowPerProfile | app/src/main/java/com/example/contacts/repository/ContactsRepository_Impl.kt:31-60 | caching a page of N profiles adds exactly N rows under the next N keys, each holding its profile's record, and never replaces a stored row |
| Repository.RepeatedIngestsAccumulate | app/src/main/java/com/example/contacts/repository/ContactsRepository_Impl.kt:23-60 | two fetches add the rows of both pages and keep every earlier row |
| Repository.Merge | app/src/main/java/com/example/contacts/repository/ContactsRepository_Impl.kt:98-103 | each of first name, last name, email and phone is the incoming value if non-null, else the stored one; every other column and the key are the stored row's |
| Repository.MergeUpdate | app/src/main/java/com/example/contacts/repository/ContactsRepository_Impl.kt:96-103 | a merged row exists iff the record has a key and a row has that key; it is then the merge of that row, carrying the same key |
| Repository.AfterMergeUpdate | app/src/main/java/com/example/contacts/repository/ContactsRepository_Impl.kt:96-105 | after the update the row with that key is the emitted merge, every other row, the key set and the counter are unchanged, and a null or missing key leaves the table as it was |
| Repository.MergeIdempotent | app/src/main/java/com/example/contacts/repository/ContactsRepository_Impl.kt:98-103 | merging the same partial record twice equals merging it once |
| Repository.MergeAllNullIsIdentity | app/src/main/java/com/example/contacts/repository/ContactsRepository_Impl.kt:98-103 | a partial record with all four editable columns null leaves the stored row unchanged |
| Repository.MergeUpdateIdempotent | app/src/main/java/com/example/contacts/repository/ContactsRepository_Impl.kt:94-105 | applying the same update to the table twice equals applying it once |
| Repository.MergeExample | app/src/main/java/com/example/contacts/repository/ContactsRepository_Impl.kt:98-103 | a partial that sets only the first name changes only the first name of the stored row |
| Repository.ContactsRepositoryImpl.GetContacts | app/src/main/java/com/example/contacts/repository/ContactsRepository_Impl.kt:23-67 | emits the successful response's body, if any, then caches its normalised records; no body, no success or a thrown call emits nothing and changes nothing; a throwing insert changes nothing |
| Repository.ContactsRepositoryImpl.GetContactsOffline | app/src/main/java/com/example/contacts/repository/ContactsRepository_Impl.kt:69-79 | emits a full scan of the table unless the read throws |
| Repository.ContactsRepositoryImpl.GetContactById | app/src/main/java/com/example/contacts/repository/ContactsRepository_Impl.kt:81-92 | emits the row with that key, or null when there is none, unless the read throws |
| Repository.ContactsRepositoryImpl.UpdateContact | app/src/main/java/com/example/contacts/repository/ContactsRepository_Impl.kt:94-109 | emits and writes back the merge exactly when the key is present and stored and nothing throws; otherwise emits nothing and the table is unchanged |
| Repository.ContactsRepositoryImpl.InsertContact | app/src/main/java/com/example/contacts/repository/ContactsRepository_Impl.kt:111-118 | inserts the record and emits it exactly as passed, not the stored copy with its generated key |
| ListViewModel.PhoneError | app/src/main/java/com/example/contacts/viewmodel/ContactsViewModel.kt:97-100 | a device-feed error message is "Failed to fetch phone contacts: " followed by the exception's message |
| ListViewModel.ToRandomList | app/src/main/java/com/example/contacts/viewmodel/ContactsViewModel.kt:68-77 | the random list has one entry per scanned record, in the same order, each the record's projection |
| ListViewModel.RandomListShowsStoredRows | app/src/main/java/com/example/contacts/viewmodel/ContactsViewModel.kt:65-79 | after a scan, the random list has as many entries as rows, shows every stored row, and each entry carries a stored key |
| ListViewModel.Retrieve | app/src/main/java/com/example/contacts/viewmodel/ContactsViewModel.kt:115-133 | every contact the cursor loop builds has a non-empty name and " " as phone number and email |
| ListViewModel.ToPhone | app/src/main/java/com/example/contacts/viewmodel/ContactsViewModel.kt:122-129 | a named row becomes a contact with its parsed `_ID`, its display name and " " as phone and email; `RetrieveKeepsNamedRows` states it over the whole cursor |
| ListViewModel.RetrieveFailsIffBadId | app/src/main/java/com/example/contacts/viewmodel/ContactsViewModel.kt:116-131 | reading the provider fails iff some named row's `_ID` is not a `Long` |
| ListViewModel.RetrieveKeepsNamedRows | app/src/main/java/com/example/contacts/viewmodel/ContactsViewModel.kt:116-131 | a successful read keeps exactly the rows whose display name is non-null and non-empty, in cursor order, each as its contact |
| ListViewModel.FailureIsFinal | app/src/main/java/com/example/contacts/viewmodel/ContactsViewModel.kt:116-131 | once a row has thrown, later rows do not change the outcome |
| ListViewModel.RetrieveContactsFromProvider | app/src/main/java/com/example/contacts/viewmodel/ContactsViewModel.kt:104-137 | the `while` loop yields `Retrieve` of the cursor's rows; a null cursor yields no contacts, and a thrown query yields its message |
| ListViewModel.ContactsViewModel.constructor | app/src/main/java/com/example/contacts/viewmodel/ContactsViewModel.kt:38-42 | both feeds start in `None` with empty lists |
| ListViewModel.ContactsViewModel.FetchContactsRandomNetwork | app/src/main/java/com/example/contacts/viewmodel/ContactsViewModel.kt:44-45 | the random feed becomes `Loading` before any work, and nothing else changes |
| ListViewModel.ContactsViewModel.CollectRandomNetwork | app/src/main/java/com/example/contacts/viewmodel/ContactsViewModel.kt:46-57 | the fetch caches the page as `GetContacts` does, and the feed ends in `Success` whatever was emitted; the device feed is untouched |
| ListViewModel.ContactsViewModel.FetchContactsRandom | app/src/main/java/com/example/contacts/viewmodel/ContactsViewModel.kt:61-62 | the random feed becomes `Loading`, and nothing else changes |
| ListViewModel.ContactsViewModel.CollectRandomOffline | app/src/main/java/com/example/contacts/viewmodel/ContactsViewModel.kt:63-85 | on an emitted scan, the random list becomes its projection and the feed `Success`; with no emission, list and state stay as they were; the device feed is untouched |
| ListViewModel.ContactsViewModel.FetchContactsPhone | app/src/main/java/com/example/contacts/viewmodel/ContactsViewModel.kt:88-89 | the device feed becomes `Loading`, and nothing else changes |
| ListViewModel.ContactsViewModel.CollectPhone | app/src/main/java/com/example/contacts/viewmodel/ContactsViewModel.kt:90-101 | a successful read replaces the device list and sets `Success`; a failed one sets the prefixed `Error` and keeps the list; the random feed is untouched |
| EditViewModel.FormRecord | app/src/main/java/com/example/contacts/viewmodel/CreateContactsViewModel.kt:73-79 | the form record has the given key and no column besides the editable four; a field is null iff it was "", and showing the record gives the form back |
| EditViewModel.BlankedFieldKeepsStoredValue | app/src/main/java/com/example/contacts/viewmodel/CreateContactsViewModel.kt:72-82 | saving an edited form keeps the stored value of every blank field, replaces the value of every filled one, and keeps every other column |
| EditViewModel.LoadThenSaveChangesNothing | app/src/main/java/com/example/contacts/viewmodel/CreateContactsViewModel.kt:55-82 | loading a stored record into the form and saving it unedited leaves the table unchanged |
| EditViewModel.InsertThenLoadShowsForm | app/src/main/java/com/example/contacts/viewmodel/CreateContactsViewModel.kt:89-100 | saving a new contact adds one row under a fresh key; loading that row shows the form back, and every other column is null |
| EditViewModel.CreateContactsViewModel.constructor | app/src/main/java/com/example/contacts/viewmodel/CreateContactsViewModel.kt:33-40 | the form starts empty, with nothing loaded and the flag false |
| EditViewModel.CreateContactsViewModel.ResetUpdateCompleted | app/src/main/java/com/example/contacts/viewmodel/CreateContactsViewModel.kt:42-44 | clears `updateCompleted` and nothing else |
| EditViewModel.CreateContactsViewModel.ClearAllData | app/src/main/java/com/example/contacts/viewmodel/CreateContactsViewModel.kt:46-51 | empties the four fields and nothing else |
| EditViewModel.CreateContactsViewModel.GetContactById | app/src/main/java/com/example/contacts/viewmodel/CreateContactsViewModel.kt:52-67 | after the read, the form shows the stored row with null as "" and `contactById` is its projection; both are empty when no row has that key; a throwing read changes nothing |
| EditViewModel.CreateContactsViewModel.UpdateContact | app/src/main/java/com/example/contacts/viewmodel/CreateContactsViewModel.kt:69-87 | with nothing loaded or a null key it does nothing; otherwise it merges the form record and sets `updateCompleted` exactly when the merge emits |
| EditViewModel.CreateContactsViewModel.InsertContact | app/src/main/java/com/example/contacts/viewmodel/CreateContactsViewModel.kt:89-105 | inserts the keyless form record and sets `updateCompleted` exactly when the insert emits |
| ListView.FilteredList | app/src/main/java/com/example/contacts/view/Contacts.kt:126-134 | tab 0 shows the random contacts that match, every other tab the device contacts that match, each wrapped in its variant and in source order |
| ListView.FilteredListMembership | app/src/main/java/com/example/contacts/view/Contacts.kt:126-134 | a contact is listed iff it is in the selected tab's list and matches the query |
| ListView.FilteredListKeepsOrder | app/src/main/java/com/example/contacts/view/Contacts.kt:126-134 | filtering a concatenation concatenates the filtered parts, so the result is an order-preserving subsequence |
| ListView.EmptyQuery | app/src/main/java/com/example/contacts/view/Contacts.kt:127-133 | with an empty query every device contact is kept, but a random contact is kept only if its first or last name is non-null |
| ListView.RandomItemRoute | app/src/main/java/com/example/contacts/view/Contacts.kt:147 | a first-tab tap navigates to a route that starts with "CreateContact/" and ends with "?source=random"; `ItemRoutesRoundTrip` and `NullKeyRouteHasNoKey` state what the destination reads from it |
| ListView.PhoneItemRoute | app/src/main/java/com/example/contacts/view/Contacts.kt:158 | a second-tab tap navigates to a route that starts with "CreateContact/" and ends with "?source=phone"; `ItemRoutesRoundTrip` states what the destination reads from it |
| ListView.AddRoute | app/src/main/java/com/example/contacts/view/Contacts.kt:230 | the add button navigates to "CreateContact/" followed by the tab's decimal text |
| ListView.ParseItemRoute | app/src/main/java/com/example/contacts/MainActivity.kt:82-87 | the item destination reads a `Long` key and the source, only from a route that starts with "CreateContact/"; any other route yields nothing |
| ListView.ParseAddRoute | app/src/main/java/com/example/contacts/MainActivity.kt:91-95 | the add destination reads a `Long` tab, only from a route that starts with "CreateContact/" |
| ListView.RouteArguments | app/src/main/java/com/example/contacts/MainActivity.kt:82-87 | the route built from a `Long` key and a source reads back as exactly that key and source |
| ListView.RouteWithKey | app/src/main/java/com/example/contacts/MainActivity.kt:82-87 | a route `CreateContact/<key>?source=<source>` whose key holds no '?' yields that key read as a `Long` and the source, and yields nothing when the key is not a `Long` |
| ListView.ItemRoutesRoundTrip | app/src/main/java/com/example/contacts/view/Contacts.kt:146-158 | tapping a stored contact leads to the edit screen with its key and source "random"; a device contact leads there with its id and source "phone" |
| ListView.NullKeyRouteHasNoKey | app/src/main/java/com/example/contacts/view/Contacts.kt:147 | a random contact with a null key produces the route "CreateContact/null?source=random", whose key is not a number |
| ListView.AddRouteRoundTrip | app/src/main/java/com/example/contacts/view/Contacts.kt:228-231 | the add button leads to the edit screen with the selected tab |
| ListView.ItemTextOf | app/src/main/java/com/example/contacts/view/Contacts.kt:143-163 | a random item shows its medium picture, first name and last name with null as ""; a device item shows its name, no image and an empty last name |
| ListView.ListedItemsShowTheQuery | app/src/main/java/com/example/contacts/view/Contacts.kt:126-163 | every listed item shows the search query, up to case: a first-tab item in its name or last name, a second-tab item in its name |
| ListView.StoredRowItemText | app/src/main/java/com/example/contacts/view/Contacts.kt:143-152 | the i-th first-tab item shows the i-th stored row's first name, last name and medium picture, with null as "" |
| ListView.OnLoadMore | app/src/main/java/com/example/contacts/view/Contacts.kt:175-178 | tapping "Load More" puts the random feed in `Loading`, so the spinner shows, and leaves the device feed alone |
| ListView.OnTabSelected | app/src/main/java/com/example/contacts/view/Contacts.kt:119-124 | selecting the second tab puts the device feed in `Loading`, so the spinner shows; any other tab changes no feed |
| ListView.SpinnerAfterOfflineRead | app/src/main/java/com/example/contacts/view/Contacts.kt:192-194 | after a tap, once the offline read settles the spinner is off iff the read emitted and the device feed is not loading: a throwing read leaves it spinning |
| ListView.SpinnerAfterNetworkFetch | app/src/main/java/com/example/contacts/view/Contacts.kt:192-194 | once the network fetch settles, the spinner shows iff the device feed is still loading, whatever the call did |
| ListView.SpinnerAfterDeviceRead | app/src/main/java/com/example/contacts/view/Contacts.kt:192-194 | once the device read settles, in success or error, the spinner shows iff the random feed is still loading |
| ListView.ShowSpinner | app/src/main/java/com/example/contacts/view/Contacts.kt:192-194 | the spinner condition: either feed is `Loading`; the `OnLoadMore`, `OnTabSelected` and `SpinnerAfter...` rows state when it holds |
| ListView.ShowNoContacts | app/src/main/java/com/example/contacts/view/Contacts.kt:213-215 | the banner condition: either feed is `Error("No Contacts")`; `NoContactsNeverShown` proves it never holds |
| ListView.NoContactsNeverShown | app/src/main/java/com/example/contacts/view/Contacts.kt:213-215 | in every reachable state the "No Contacts" banner is hidden: no feed ever holds `Error("No Contacts")` |
| EditView.SourceArg | app/src/main/java/com/example/contacts/view/CreateContacts.kt:37 | the source argument is compared trimmed, and stays null when absent |
| EditView.PaddedSourceIsTrimmed | app/src/main/java/com/example/contacts/view/CreateContacts.kt:37 | a source with whitespace around a word compares as that word |
| EditView.OnEntry | app/src/main/java/com/example/contacts/view/CreateContacts.kt:57-68 | a non-null key loads from the store iff the source is "random" and from the provider iff it is "phone"; anything else loads nothing |
| EditView.ProviderLoadNamesTheKey | app/src/main/java/com/example/contacts/view/CreateContacts.kt:63-66 | the provider is asked for the id the key prints as, which parses back to the key |
| EditView.HeaderTitle | app/src/main/java/com/example/contacts/view/CreateContacts.kt:76 | the header reads "Edit Contacts" iff the key is not 0 (a null key is not 0), else "Add Contacts" |
| EditView.ButtonLabel | app/src/main/java/com/example/contacts/view/CreateContacts.kt:122 | the same `ShowsEditLabels` decision as the header (key not 0, a null key included), with the strings "Update" and "Save" |
| EditView.SaveActionAsWritten | app/src/main/java/com/example/contacts/view/CreateContacts.kt:127-138 | Save as written: a non-null key whose low 32 bits are not all zero updates, in the provider for source "phone" and in the store otherwise; any other key inserts, in the store on tab 0 and in the provider elsewhere |
| EditView.SaveAction | app/src/main/java/com/example/contacts/view/CreateContacts.kt:127-138 | corrected (see Findings): the Save decision table on the full `Long` key: a non-null, non-zero key updates, in the provider for source "phone" and in the store otherwise; any other key inserts, in the store on tab 0 and in the provider elsewhere |
| EditView.SaveUpdatesIffEditHeader | app/src/main/java/com/example/contacts/view/CreateContacts.kt:76-131 | corrected (see Findings): with a key present, the corrected Save updates iff the header reads "Edit Contacts"; as written this fails for keys such as 2^32 |
| EditView.NullKeyShowsEditButInserts | app/src/main/java/com/example/contacts/view/CreateContacts.kt:122-138 | with a null key the screen shows "Edit Contacts" and "Update", yet Save inserts |
| EditView.TruncatedKeyInsertsInsteadOfUpdating | app/src/main/java/com/example/contacts/view/CreateContacts.kt:127 | as written, the key 2^32 shows "Edit Contacts" but Save inserts a new record, while the corrected Save updates |
| EditView.SaveAgreesOnIntKeys | app/src/main/java/com/example/contacts/view/CreateContacts.kt:127 | for null keys and keys in the `Int` range the written and the corrected Save agree |
| EditView.FirstFieldLabel | app/src/main/java/com/example/contacts/view/CreateContacts.kt:86-91 | the first field is labelled "First Name" iff the last-name field shows (source not "phone" and tab 0), else "Name" |
| EditView.StoreInsertShowsLastName | app/src/main/java/com/example/contacts/view/CreateContacts.kt:86-135 | whenever Save as written inserts into the store with a source other than "phone", the last-name field is on screen |
| EditView.OnSaveClick | app/src/main/java/com/example/contacts/view/CreateContacts.kt:125-142 | Save runs the call the code as written picks, which is the corrected one for null keys and keys in the `Int` range. The store calls change the table and the flag as the view model's update and insert do; an update with nothing loaded changes neither. The provider calls leave the table alone: an update in the provider sets the flag, and an insert into the provider sets it iff the batch succeeds |
| EditViewModel.CreateContactsViewModel.UpdateContactInProvider | app/src/main/java/com/example/contacts/viewmodel/CreateContactsViewModel.kt:198-245 | after the provider writes the flag is set, so the screen pops back |
| EditViewModel.CreateContactsViewModel.InsertContactToPhone | app/src/main/java/com/example/contacts/viewmodel/CreateContactsViewModel.kt:248-295 | the flag is set iff the provider's batch insert succeeds, and cleared when it fails |
| EditView.OnUpdateCompleted | app/src/main/java/com/example/contacts/view/CreateContacts.kt:50-55 | the screen pops back iff a save has completed, and the flag is false afterwards |
| KotlinStdlib.OrEmptyUndoesTakeIfNotEmpty | app/src/main/java/com/example/contacts/viewmodel/CreateContactsViewModel.kt:75-78 | showing a form field's null-for-blank value gives the field back |
| KotlinStdlib.TakeIfNotEmptyUndoesOrEmpty | app/src/main/java/com/example/contacts/viewmodel/CreateContactsViewModel.kt:57-60 | reading back a shown column loses only the difference between null and "" |
| KotlinStdlib.Trim | app/src/main/java/com/example/contacts/view/CreateContacts.kt:37 | the trimmed string is no longer than the input and has no whitespace at either end |
| KotlinStdlib.TrimStripsPadding | app/src/main/java/com/example/contacts/view/CreateContacts.kt:37 | trimming removes exactly the whitespace around a string without padding |
| KotlinStdlib.TrimIdempotent | app/src/main/java/com/example/contacts/view/CreateContacts.kt:37 | trimming twice is trimming once |
| KotlinStdlib.ContainsIgnoreCaseIff | app/src/main/java/com/example/contacts/view/Contacts.kt:128 | the left-to-right search succeeds iff the query occurs at some index of the name, up to case |
| KotlinStdlib.ContainsEmpty | app/src/main/java/com/example/contacts/view/Contacts.kt:132 | every name contains the empty query |
| KotlinStdlib.FilterMembership | app/src/main/java/com/example/contacts/view/Contacts.kt:127-133 | `filter` keeps an element iff it is in the list and satisfies the condition |
| KotlinStdlib.FilterDistributes | app/src/main/java/com/example/contacts/view/Contacts.kt:127-133 | `filter` of a concatenation is the concatenation of the filtered parts |
| KotlinStdlib.FilterKeepsAll | app/src/main/java/com/example/contacts/view/Contacts.kt:131-133 | a condition every element satisfies keeps the whole list |
| KotlinStdlib.ParseLong | app/src/main/java/com/example/contacts/viewmodel/ContactsViewModel.kt:125 | `toLong()` yields a value only in the `Long` range |
| KotlinStdlib.LongToStringRoundTrip | app/src/main/java/com/example/contacts/view/Contacts.kt:147-158 | parsing the decimal text of a `Long` gives the number back |
| KotlinStdlib.LongToInt | app/src/main/java/com/example/contacts/view/CreateContacts.kt:127 | `toInt()` lands in the `Int` range and differs from the `Long` by a multiple of 2^32 |
| KotlinStdlib.LongToIntInRange | app/src/main/java/com/example/contacts/view/CreateContacts.kt:127 | `toInt()` leaves a value already in the `Int` range unchanged |

## Left out

- The device contacts provider: `retrieveContactsFromProviderById`, `updateContactInProvider` and `insertContactToPhone` (P/viewmodel/CreateContactsViewModel.kt:118-295) are platform I/O. The provider read of the list screen is kept only as its cursor loop over abstract rows. On the edit screen, loading from the provider is decided by the model but has no effect in it. Of the two provider Save calls, the model keeps only how they set `updateCompleted`.
- The network: the Retrofit service is replaced by its outcome as an input. The fixed page size of 25 appears only as the constant `Model.PageSize`.
- Coroutines: dispatchers, cold-flow laziness and `distinctUntilChanged` are not modelled. Each flow emits at most once, so deduplication has no effect. The race between the two fetches launched together (P/view/Contacts.kt:88-91) is also out: each launched block runs to completion, in the order the caller chooses.
- Room internals and the SQL engine. Only the table semantics are kept: insert-or-replace, the AUTOINCREMENT counter, the scan, the lookup and the update. Each DAO call is atomic, so a throwing call changes nothing.
- Dao.Insert: keys and the counter are unbounded integers, so SQLite's failure when the 64-bit counter is exhausted is not modelled.
- KotlinStdlib.ContainsIgnoreCase: case folding covers the ASCII letters only. Kotlin folds every Unicode letter.
- KotlinStdlib.ParseLong: accepts ASCII digits only. Kotlin's `toLong()` also accepts other Unicode decimal digits.
- The random feed's error message ("Failed to fetch random contacts: ...", P/viewmodel/ContactsViewModel.kt:53-56 and 81-84): no exception reaches that `catch` (see above), so the model has no path that sets it. Cancellation and JVM `Error`s are outside the model.
- Navigation: `ParseItemRoute` and `ParseAddRoute` model only how each destination reads its arguments. They do not model which destination the navigation host picks for a route, nor the crash when a "null" key is read as a `Long`. The navigation library's own argument parsing (URI decoding of the route, and the tab read as an `Int` at P/MainActivity.kt:92-97) differs from `ParseLong`: it also accepts a trailing `L` and a `0x` hexadecimal prefix, and it reads the tab as an `Int`. It is not modelled.
- EditViewModel.CreateContactsViewModel.UpdateContactInProvider: the key, name and phone Save passes (P/view/CreateContacts.kt:129) go only to the provider writes, which are not modelled; neither is the Boolean it returns, which Save ignores. A provider write that throws is caught neither here (P/viewmodel/CreateContactsViewModel.kt:198-245) nor by Save's coroutine (P/view/CreateContacts.kt:125-129), so it ends the app; the model has no such outcome and keeps only the path on which the writes return.
- EditView.OnSaveClick: a provider update that throws ends the app (see the line above); the contract covers only the update that returns, which sets the flag.
- Logging, `printStackTrace`, Compose layout, theming, permission dialogs and the `DisposableEffect` and back-button calls to `clearAllData`. `ClearAllData` itself is modelled; what triggers it is not.
- ContactsRepository.kt, AppDatabase.kt, ContactsService.kt, MainActivity.kt, CommonUI.kt and the theme files hold no behaviour beyond the above and are not part of this model.

## Findings

| source | as written | input that shows it | evidently intended | confidence | as-written member | corrected member |
|---|---|---|---|---|---|---|
| app/src/main/java/com/example/contacts/view/CreateContacts.kt:127 | Save tests `contactId.toInt() != 0`. That keeps only the low 32 bits of the `Long` key, while the header and the button label (lines 76 and 122) test the full key with `contactId != 0L`. | key 4294967296 (2^32), source "random", tab 0: the screen reads "Edit Contacts" and "Update", but Save inserts a new record instead of updating the stored one | Save tests the full `Long` key, as the labels do | not executed | EditView.SaveActionAsWritten | EditView.SaveAction |
