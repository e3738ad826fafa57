/** The view model of the edit screen: four form fields, the projection of the loaded record and
  * an `updateCompleted` flag. Each operation's coroutine is run to completion in place; storage
  * failures are the `daoThrows` input of the repository calls. The provider reads and writes
  * (`retrieveContactsFromProviderById`, `updateContactInProvider`, `insertContactToPhone`) are
  * not part of this model; of the last two, the model keeps only how they set `updateCompleted`. */
module EditViewModel {
  import opened Wrappers
  import opened KotlinStdlib
  import opened Entity
  import opened Model
  import opened Dao
  import opened Repository

  /** The record built from the form: the given key, each field with "" read as null, and every
    * other column null. */
  function FormRecord(id: Option<int>, first: string, last: string, email: string, phone: string): (e: ContactsEntity)
    ensures OnlyEditableColumns(e) && e.id == id
    ensures e.firstName.None? <==> first == ""
    ensures e.lastName.None? <==> last == ""
    ensures e.email.None? <==> email == ""
    ensures e.phone.None? <==> phone == ""
    ensures OrEmpty(e.firstName) == first && OrEmpty(e.lastName) == last
    ensures OrEmpty(e.email) == email && OrEmpty(e.phone) == phone
  {
    OrEmptyUndoesTakeIfNotEmpty(first);
    OrEmptyUndoesTakeIfNotEmpty(last);
    OrEmptyUndoesTakeIfNotEmpty(email);
    OrEmptyUndoesTakeIfNotEmpty(phone);
    Blank.(id := id, firstName := TakeIfNotEmpty(first), lastName := TakeIfNotEmpty(last),
           email := TakeIfNotEmpty(email), phone := TakeIfNotEmpty(phone))
  }

  /** Saving an edited form changes exactly the fields the user filled in: a blank field keeps
    * the stored value, a filled one replaces it, and every other column stays as stored. */
  lemma BlankedFieldKeepsStoredValue(t: Table, id: int, first: string, last: string, email: string, phone: string)
    requires WellFormed(t) && id in t.rows
    ensures var saved := AfterMergeUpdate(t, FormRecord(Some(id), first, last, email, phone)).rows[id];
      var stored := t.rows[id];
      && SameFixedColumns(saved, stored)
      && saved.firstName == (if first == "" then stored.firstName else Some(first))
      && saved.lastName == (if last == "" then stored.lastName else Some(last))
      && saved.email == (if email == "" then stored.email else Some(email))
      && saved.phone == (if phone == "" then stored.phone else Some(phone))
  {
  }

  /** Loading a stored record into the form and saving it unedited leaves the table as it was. */
  lemma LoadThenSaveChangesNothing(t: Table, id: int)
    requires WellFormed(t) && id in t.rows
    ensures var e := t.rows[id];
      AfterMergeUpdate(t, FormRecord(Some(id), OrEmpty(e.firstName), OrEmpty(e.lastName),
                                     OrEmpty(e.email), OrEmpty(e.phone))) == t
  {
    var e := t.rows[id];
    var partial := FormRecord(Some(id), OrEmpty(e.firstName), OrEmpty(e.lastName),
                              OrEmpty(e.email), OrEmpty(e.phone));
    TakeIfNotEmptyUndoesOrEmpty(e.firstName);
    TakeIfNotEmptyUndoesOrEmpty(e.lastName);
    TakeIfNotEmptyUndoesOrEmpty(e.email);
    TakeIfNotEmptyUndoesOrEmpty(e.phone);
    assert Merge(e, partial) == e;
    assert t.rows[id := e] == t.rows;
  }

  /** Saving a new contact adds one row, under a fresh key, that shows the form back exactly
    * when loaded, with every column the form has no field for null. */
  lemma InsertThenLoadShowsForm(t: Table, first: string, last: string, email: string, phone: string)
    requires WellFormed(t)
    ensures var r := Insert(t, FormRecord(None, first, last, email, phone));
      && t.nextId !in t.rows && t.nextId in r.rows && |r.rows| == |t.rows| + 1
      && var e := r.rows[t.nextId];
      && OrEmpty(e.firstName) == first && OrEmpty(e.lastName) == last
      && OrEmpty(e.email) == email && OrEmpty(e.phone) == phone
      && e.(id := None) == FormRecord(None, first, last, email, phone)
  {
  }

  class CreateContactsViewModel {
    const repository: ContactsRepositoryImpl
    var contactById: Option<ContactsRandom>
    var firstName: string
    var lastName: string
    var email: string
    var phone: string
    var updateCompleted: bool

    ghost predicate Valid()
      reads this, repository, repository.dao
    {
      repository.Valid()
    }

    constructor (repository: ContactsRepositoryImpl)
      requires repository.Valid()
      ensures Valid() && this.repository == repository
      ensures contactById.None? && firstName == "" && lastName == "" && email == "" && phone == ""
      ensures !updateCompleted
    {
      this.repository := repository;
      contactById := None;
      firstName, lastName, email, phone := "", "", "", "";
      updateCompleted := false;
    }

    /** `resetUpdateCompleted`. */
    method ResetUpdateCompleted()
      modifies this`updateCompleted
      ensures !updateCompleted
    {
      updateCompleted := false;
    }

    /** `clearAllData`: empties the four form fields and nothing else. */
    method ClearAllData()
      modifies this`firstName, this`lastName, this`email, this`phone
      ensures firstName == "" && lastName == "" && email == "" && phone == ""
    {
      firstName, lastName, email, phone := "", "", "", "";
    }

    /** `getContactById`: when the read emits, the form shows the stored record with null as "",
      * and `contactById` is its projection, or null when no row has that key; a throwing read
      * changes nothing. */
    method GetContactById(contactId: int, daoThrows: bool)
      requires Valid()
      modifies this`contactById, this`firstName, this`lastName, this`email, this`phone
      ensures daoThrows ==> && contactById == old(contactById)
                            && firstName == old(firstName) && lastName == old(lastName)
                            && email == old(email) && phone == old(phone)
      ensures !daoThrows ==>
        && (contactById.Some? <==> contactId in repository.dao.rows)
        && (contactById.Some? ==> contactById.value == ToContactsRandom(repository.dao.rows[contactId]))
        && var shown := if contactId in repository.dao.rows then repository.dao.rows[contactId] else Blank;
          && firstName == OrEmpty(shown.firstName) && lastName == OrEmpty(shown.lastName)
          && email == OrEmpty(shown.email) && phone == OrEmpty(shown.phone)
    {
      var emitted := repository.GetContactById(contactId, daoThrows);
      if emitted.Some? {
        var entity := emitted.value;
        contactById := if entity.Some? then Some(ToContactsRandom(entity.value)) else None;
        var shown := entity.GetOr(Blank);
        firstName := OrEmpty(shown.firstName);
        lastName := OrEmpty(shown.lastName);
        email := OrEmpty(shown.email);
        phone := OrEmpty(shown.phone);
      }
    }

    /** `updateContact`: with a loaded contact that has a key, merges the form into the stored
      * row with that key and sets `updateCompleted` when the merge emits; with no loaded contact
      * or a null key it does nothing. */
    method UpdateContact(daoThrows: bool)
      requires Valid()
      modifies this`updateCompleted, repository.dao
      ensures Valid()
      ensures contactById.None? || contactById.value.id.None? ==>
        repository.dao.State() == old(repository.dao.State()) && updateCompleted == old(updateCompleted)
      ensures contactById.Some? && contactById.value.id.Some? ==>
        var partial := FormRecord(contactById.value.id, firstName, lastName, email, phone);
        var emits := !daoThrows && MergeUpdate(old(repository.dao.State()), partial).Some?;
        && repository.dao.State() == (if emits then AfterMergeUpdate(old(repository.dao.State()), partial)
                                      else old(repository.dao.State()))
        && updateCompleted == (emits || old(updateCompleted))
    {
      if contactById.None? || contactById.value.id.None? {
        return;
      }
      var partial := FormRecord(contactById.value.id, firstName, lastName, email, phone);
      var emitted := repository.UpdateContact(partial, daoThrows);
      if emitted.Some? {
        updateCompleted := true;
      }
    }

    /** `updateContactInProvider`: once the provider writes return, the flag is set, so the
      * screen pops back. A write that throws is caught nowhere and ends the app, which this
      * model does not represent. */
    method UpdateContactInProvider()
      modifies this`updateCompleted
      ensures updateCompleted
    {
      updateCompleted := true;
    }

    /** `insertContactToPhone`: the flag records whether the provider's batch insert succeeded;
      * a failing batch (`batchFails`) clears it. */
    method InsertContactToPhone(batchFails: bool)
      modifies this`updateCompleted
      ensures updateCompleted == !batchFails
    {
      if batchFails {
        updateCompleted := false;
      } else {
        updateCompleted := true;
      }
    }

    /** `insertContact`: inserts the form as a new keyless record and sets `updateCompleted` when
      * the insert emits. */
    method InsertContact(daoThrows: bool)
      requires Valid()
      modifies this`updateCompleted, repository.dao
      ensures Valid()
      ensures repository.dao.State() ==
        if daoThrows then old(repository.dao.State())
        else Insert(old(repository.dao.State()), FormRecord(None, firstName, lastName, email, phone))
      ensures updateCompleted == (!daoThrows || old(updateCompleted))
    {
      var newContact := FormRecord(None, firstName, lastName, email, phone);
      var emitted := repository.InsertContact(newContact, daoThrows);
      if emitted.Some? {
        updateCompleted := true;
      }
    }
  }
}
