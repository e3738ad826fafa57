/** The pure rules of the edit screen, over its three navigation arguments: the key
  * `contactId` (a `Long`, null when the back-stack entry has no arguments), the trimmed `source`
  * and the tab (`Int`, null likewise). They decide what is loaded on entry, what Save does, and
  * the header, button label and fields shown. */
module EditView {
  import opened Wrappers
  import opened KotlinStdlib
  import opened Dao
  import opened Repository
  import EditViewModel

  /** The `source` argument as the screen compares it: trimmed, or null when absent. */
  function SourceArg(raw: Option<string>): (r: Option<string>)
    ensures r.Some? <==> raw.Some?
    ensures r.Some? ==> r.value == Trim(raw.value)
  {
    if raw.Some? then Some(Trim(raw.value)) else None
  }

  /** A `source` with whitespace around it compares as the bare word. */
  lemma PaddedSourceIsTrimmed(w1: string, word: string, w2: string)
    requires AllWhitespace(w1) && AllWhitespace(w2) && Unpadded(word)
    ensures SourceArg(Some(w1 + word + w2)) == Some(word)
  {
    TrimStripsPadding(w1, word, w2);
  }

  /** What the screen loads when it opens. */
  datatype EntryLoad =
    | LoadFromStore(id: int)           // `getContactById(contactId)`
    | LoadFromProvider(idText: string) // `retrieveContactsFromProviderById(contactId.toString())`
    | LoadNothing

  /** The load on entry: a non-null key loads from the store for source "random" and from the
    * device's provider for source "phone"; anything else loads nothing. */
  function OnEntry(contactId: Option<int>, source: Option<string>): (r: EntryLoad)
    ensures r.LoadFromStore? <==> contactId.Some? && source == Some("random")
    ensures r.LoadFromProvider? <==> contactId.Some? && source == Some("phone")
    ensures r.LoadFromStore? ==> r.id == contactId.value
  {
    if contactId.Some? && source == Some("random") then LoadFromStore(contactId.value)
    else if contactId.Some? && source == Some("phone") then LoadFromProvider(LongToString(contactId.value))
    else LoadNothing
  }

  /** The provider is asked for the contact whose id the key prints as. */
  lemma ProviderLoadNamesTheKey(contactId: int)
    requires IsLong(contactId)
    ensures OnEntry(Some(contactId), Some("phone")).LoadFromProvider?
    ensures ParseLong(OnEntry(Some(contactId), Some("phone")).idText) == Some(contactId)
  {
    LongToStringRoundTrip(contactId);
  }

  // ---------------------------------------------------------------------------------------------
  // Save

  /** What the Save button runs. */
  datatype SaveCall =
    | UpdateInProvider(id: int) // `updateContactInProvider(contactId, firstName, phone)`
    | UpdateInStore             // `updateContact()`
    | InsertInStore             // `insertContact()`
    | InsertInProvider          // `insertContactToPhone()`

  predicate IsUpdate(a: SaveCall) {
    a.UpdateInProvider? || a.UpdateInStore?
  }

  /** The header and the button label read as editing iff the key is not 0; a null key is not 0. */
  predicate ShowsEditLabels(contactId: Option<int>) {
    contactId != Some(0)
  }

  function HeaderTitle(contactId: Option<int>): (r: string)
    ensures r == "Edit Contacts" <==> ShowsEditLabels(contactId)
    ensures r == "Add Contacts" <==> !ShowsEditLabels(contactId)
  {
    if ShowsEditLabels(contactId) then "Edit Contacts" else "Add Contacts"
  }

  function ButtonLabel(contactId: Option<int>): (r: string)
    ensures r == "Update" <==> ShowsEditLabels(contactId)
    ensures r == "Save" <==> !ShowsEditLabels(contactId)
  {
    if ShowsEditLabels(contactId) then "Update" else "Save"
  }

  /** Save as written: the key is tested after `toInt()`, which keeps only its low 32 bits, so a
    * key whose low 32 bits are all zero is treated as no key. */
  function SaveActionAsWritten(contactId: Option<int>, source: Option<string>, tab: Option<int>): (r: SaveCall)
    ensures r.UpdateInProvider? <==> contactId.Some? && LongToInt(contactId.value) != 0 && source == Some("phone")
    ensures r.UpdateInProvider? ==> r.id == contactId.value
    ensures r.UpdateInStore? <==> contactId.Some? && LongToInt(contactId.value) != 0 && source != Some("phone")
    ensures r.InsertInStore? <==> (contactId.None? || LongToInt(contactId.value) == 0) && tab == Some(0)
    ensures r.InsertInProvider? <==> (contactId.None? || LongToInt(contactId.value) == 0) && tab != Some(0)
  {
    if contactId.Some? && LongToInt(contactId.value) != 0 then
      if source == Some("phone") then UpdateInProvider(contactId.value) else UpdateInStore
    else if tab == Some(0) then InsertInStore
    else InsertInProvider
  }

  /** Save with the key tested as a `Long`, as the header and the label test it: a non-null,
    * non-zero key updates (in the provider for source "phone", in the store otherwise); any
    * other key inserts (in the store on tab 0, in the provider on any other tab). */
  function SaveAction(contactId: Option<int>, source: Option<string>, tab: Option<int>): (r: SaveCall)
    ensures r.UpdateInProvider? <==> contactId.Some? && contactId.value != 0 && source == Some("phone")
    ensures r.UpdateInProvider? ==> r.id == contactId.value
    ensures r.UpdateInStore? <==> contactId.Some? && contactId.value != 0 && source != Some("phone")
    ensures r.InsertInStore? <==> (contactId.None? || contactId.value == 0) && tab == Some(0)
    ensures r.InsertInProvider? <==> (contactId.None? || contactId.value == 0) && tab != Some(0)
  {
    if contactId.Some? && contactId.value != 0 then
      if source == Some("phone") then UpdateInProvider(contactId.value) else UpdateInStore
    else if tab == Some(0) then InsertInStore
    else InsertInProvider
  }

  /** With a key present, Save updates exactly when the header reads "Edit Contacts". */
  lemma SaveUpdatesIffEditHeader(id: int, source: Option<string>, tab: Option<int>)
    ensures IsUpdate(SaveAction(Some(id), source, tab)) <==> HeaderTitle(Some(id)) == "Edit Contacts"
  {
  }

  /** Without arguments the key is null: the screen shows "Edit Contacts" and "Update", yet Save
    * inserts. */
  lemma NullKeyShowsEditButInserts(source: Option<string>, tab: Option<int>)
    ensures HeaderTitle(None) == "Edit Contacts" && ButtonLabel(None) == "Update"
    ensures !IsUpdate(SaveAction(None, source, tab))
  {
  }

  /** The key 2^32 shows "Edit Contacts" but, as written, Save inserts a new record in place of
    * updating the one being edited. */
  lemma TruncatedKeyInsertsInsteadOfUpdating()
    ensures HeaderTitle(Some(0x1_0000_0000)) == "Edit Contacts"
    ensures SaveActionAsWritten(Some(0x1_0000_0000), Some("random"), Some(0)) == InsertInStore
    ensures SaveAction(Some(0x1_0000_0000), Some("random"), Some(0)) == UpdateInStore
  {
  }

  /** For every key in the `Int` range the written and the intended Save agree. */
  lemma SaveAgreesOnIntKeys(contactId: Option<int>, source: Option<string>, tab: Option<int>)
    requires contactId.Some? ==> -0x8000_0000 <= contactId.value < 0x8000_0000
    ensures SaveActionAsWritten(contactId, source, tab) == SaveAction(contactId, source, tab)
  {
    if contactId.Some? {
      LongToIntInRange(contactId.value);
    }
  }

  // ---------------------------------------------------------------------------------------------
  // Fields

  /** The last-name field shows iff the source is not "phone" and the tab is 0. */
  predicate ShowsLastName(source: Option<string>, tab: Option<int>) {
    source != Some("phone") && tab == Some(0)
  }

  function FirstFieldLabel(source: Option<string>, tab: Option<int>): (r: string)
    ensures r == "First Name" <==> ShowsLastName(source, tab)
    ensures r == "Name" <==> !ShowsLastName(source, tab)
  {
    if ShowsLastName(source, tab) then "First Name" else "Name"
  }

  /** Whenever Save, as written, inserts into the store, the last-name field is on screen: an
    * insert into the store happens on tab 0, and on tab 0 only the source "phone" hides the
    * field. */
  lemma StoreInsertShowsLastName(contactId: Option<int>, source: Option<string>, tab: Option<int>)
    requires SaveActionAsWritten(contactId, source, tab) == InsertInStore && source != Some("phone")
    ensures ShowsLastName(source, tab) && FirstFieldLabel(source, tab) == "First Name"
  {
  }

  /** The Save button: runs the call the code as written picks (`SaveActionAsWritten`), which
    * is the intended `SaveAction` whenever the key is null or fits an `Int`. The two store calls
    * run the view model's update or insert; the two provider calls leave the store alone and
    * set the flag as the view model's provider methods do. `providerFails` is a batch insert
    * into the provider that fails; a provider update that throws ends the app and is not
    * represented. */
  method OnSaveClick(vm: EditViewModel.CreateContactsViewModel, contactId: Option<int>,
                     source: Option<string>, tab: Option<int>, daoThrows: bool, providerFails: bool)
    returns (call: SaveCall)
    requires vm.Valid()
    modifies vm`updateCompleted, vm.repository.dao
    ensures vm.Valid() && call == SaveActionAsWritten(contactId, source, tab)
    ensures (contactId.None? || -0x8000_0000 <= contactId.value < 0x8000_0000) ==>
      call == SaveAction(contactId, source, tab)
    ensures call.UpdateInProvider? ==>
      vm.repository.dao.State() == old(vm.repository.dao.State())
      && vm.updateCompleted
    ensures call.InsertInProvider? ==>
      vm.repository.dao.State() == old(vm.repository.dao.State()) && vm.updateCompleted == !providerFails
    ensures call.InsertInStore? ==>
      && vm.repository.dao.State() ==
           (if daoThrows then old(vm.repository.dao.State())
            else Insert(old(vm.repository.dao.State()),
                        EditViewModel.FormRecord(None, vm.firstName, vm.lastName, vm.email, vm.phone)))
      && vm.updateCompleted == (!daoThrows || old(vm.updateCompleted))
    ensures call.UpdateInStore? && (vm.contactById.None? || vm.contactById.value.id.None?) ==>
      vm.repository.dao.State() == old(vm.repository.dao.State()) && vm.updateCompleted == old(vm.updateCompleted)
    ensures call.UpdateInStore? && vm.contactById.Some? && vm.contactById.value.id.Some? ==>
      var partial := EditViewModel.FormRecord(vm.contactById.value.id, vm.firstName, vm.lastName, vm.email, vm.phone);
      var emits := !daoThrows && MergeUpdate(old(vm.repository.dao.State()), partial).Some?;
      && vm.repository.dao.State() == (if emits then AfterMergeUpdate(old(vm.repository.dao.State()), partial)
                                       else old(vm.repository.dao.State()))
      && vm.updateCompleted == (emits || old(vm.updateCompleted))
  {
    if contactId.None? || -0x8000_0000 <= contactId.value < 0x8000_0000 {
      SaveAgreesOnIntKeys(contactId, source, tab);
    }
    call := SaveActionAsWritten(contactId, source, tab);
    match call
    case UpdateInStore =>
      vm.UpdateContact(daoThrows);
    case InsertInStore =>
      vm.InsertContact(daoThrows);
    case UpdateInProvider(_) =>
      vm.UpdateContactInProvider();
    case InsertInProvider =>
      vm.InsertContactToPhone(providerFails);
  }

  // ---------------------------------------------------------------------------------------------
  // Leaving the screen

  /** The effect keyed on `updateCompleted`: once a save has completed, the screen pops back and
    * clears the flag; otherwise it stays. */
  method OnUpdateCompleted(vm: EditViewModel.CreateContactsViewModel) returns (popBack: bool)
    modifies vm`updateCompleted
    ensures popBack == old(vm.updateCompleted)
    ensures !vm.updateCompleted
  {
    popBack := vm.updateCompleted;
    if popBack {
      vm.ResetUpdateCompleted();
    }
  }
}
