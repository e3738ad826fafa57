/** The view model of the contact list: two independent feeds, the cached random-user contacts
  * and the device's contacts, each with a load state and a list replaced wholesale.
  *
  * Each `fetch...` call sets its feed to `Loading` and launches a coroutine; here the launched
  * block is a separate method (`Collect...`) that the caller runs after the synchronous part.
  * The device's contacts provider is an input: the rows its cursor yields, a null cursor, or a
  * query that throws. */
module ListViewModel {
  import opened Wrappers
  import opened KotlinStdlib
  import opened Entity
  import opened Model
  import opened Dao
  import opened Repository

  /** The load state of one feed. */
  datatype ContactsState = Loading | Success | Error(message: string) | None

  /** The prefix of every error message of the device-contacts feed. */
  const PhoneErrorPrefix := "Failed to fetch phone contacts: "

  /** The error state of the device-contacts feed for an exception with that message; a string
    * template renders a null message as "null". */
  function PhoneError(message: Option<string>): (s: ContactsState)
    ensures s.Error? && PhoneErrorPrefix <= s.message
    ensures message.Some? ==> s.message[|PhoneErrorPrefix|..] == message.value
  {
    Error(PhoneErrorPrefix + message.GetOr("null"))
  }

  /** The states the two feeds can be in: the random-contacts feed never reports an error, and
    * every error of the device-contacts feed carries its prefix. */
  predicate ReachableStates(random: ContactsState, phone: ContactsState) {
    !random.Error? && (phone.Error? ==> PhoneErrorPrefix <= phone.message)
  }

  /** The list the first tab shows for a scan of the table: one entry per scanned row, in scan
    * order. */
  function ToRandomList(list: seq<ContactsEntity>): (r: seq<ContactsRandom>)
    ensures |r| == |list|
    ensures forall i :: 0 <= i < |list| ==> r[i] == ToContactsRandom(list[i])
  {
    seq(|list|, i requires 0 <= i < |list| => ToContactsRandom(list[i]))
  }

  /** After a scan, the first tab lists every stored row exactly once: as many entries as rows,
    * each stored row's projection among them, and each entry naming a stored key. */
  lemma RandomListShowsStoredRows(t: Table, list: seq<ContactsEntity>)
    requires IsSnapshot(t, list)
    ensures var shown := ToRandomList(list);
      && |shown| == |t.rows|
      && (forall k :: k in t.rows ==> ToContactsRandom(t.rows[k]) in shown)
      && (forall i :: 0 <= i < |shown| ==> shown[i].id.Some? && shown[i].id.value in t.rows)
  {
    var shown := ToRandomList(list);
    forall k | k in t.rows
      ensures ToContactsRandom(t.rows[k]) in shown
    {
      var i :| 0 <= i < |list| && list[i] == t.rows[k];
      assert shown[i] == ToContactsRandom(t.rows[k]);
    }
  }

  // ---------------------------------------------------------------------------------------------
  // The device's contacts provider

  /** One row of the provider's cursor: the `_ID` column and the `DISPLAY_NAME` column. */
  datatype ProviderRow = ProviderRow(id: string, displayName: Option<string>)

  /** How the provider query ended: a cursor over rows, a null cursor, or an exception. */
  datatype ProviderQuery = Cursor(rows: seq<ProviderRow>) | NoCursor | QueryThrew(message: Option<string>)

  /** The outcome of reading the provider: the contacts, or the message of the exception that
    * ended the read. */
  datatype Retrieval = Retrieved(contacts: seq<ContactsPhone>) | Failed(message: Option<string>)

  /** A row is kept iff its display name is neither null nor empty. */
  predicate IsNamed(row: ProviderRow) {
    !IsNullOrEmpty(row.displayName)
  }

  /** The contact built for a named row whose `_ID` parses: the display name, and a single space
    * as phone number and email. */
  function ToPhone(row: ProviderRow): ContactsPhone {
    ContactsPhone(ParseLong(row.id).GetOr(0), OrEmpty(row.displayName), " ", " ")
  }

  /** The cursor loop: named rows are turned into contacts in cursor order, unnamed rows are
    * skipped, and the first named row whose `_ID` is not a `Long` throws. */
  function Retrieve(rows: seq<ProviderRow>): (r: Retrieval)
    ensures r.Retrieved? ==> forall i :: 0 <= i < |r.contacts| ==>
      r.contacts[i].name != "" && r.contacts[i].phoneNumber == " " && r.contacts[i].email == " "
    decreases |rows|
  {
    if rows == [] then Retrieved([])
    else
      var before := Retrieve(rows[..|rows| - 1]);
      var row := rows[|rows| - 1];
      if before.Failed? || !IsNamed(row) then before
      else if ParseLong(row.id).Some? then Retrieved(before.contacts + [ToPhone(row)])
      else Failed(Some(NumberFormatMessage(row.id)))
  }

  /** The read fails iff some named row has an `_ID` that is not a `Long`. */
  lemma {:induction false} RetrieveFailsIffBadId(rows: seq<ProviderRow>)
    ensures Retrieve(rows).Failed? <==>
      exists i :: 0 <= i < |rows| && IsNamed(rows[i]) && ParseLong(rows[i].id).None?
    decreases |rows|
  {
    if rows != [] {
      var front := rows[..|rows| - 1];
      RetrieveFailsIffBadId(front);
      if i :| 0 <= i < |front| && IsNamed(front[i]) && ParseLong(front[i].id).None? {
        assert rows[i] == front[i];
      }
      if i :| 0 <= i < |rows| && IsNamed(rows[i]) && ParseLong(rows[i].id).None? {
        if i < |front| {
          assert front[i] == rows[i];
        }
      }
    }
  }

  /** A successful read keeps exactly the named rows, in cursor order, each as its contact. */
  lemma {:induction false} RetrieveKeepsNamedRows(rows: seq<ProviderRow>)
    requires Retrieve(rows).Retrieved?
    ensures var named := Filter(rows, IsNamed);
      && |Retrieve(rows).contacts| == |named|
      && forall i :: 0 <= i < |named| ==> Retrieve(rows).contacts[i] == ToPhone(named[i])
    decreases |rows|
  {
    if rows != [] {
      RetrieveKeepsNamedRows(rows[..|rows| - 1]);
    }
  }

  /** Once the read has failed, later rows do not matter. */
  lemma {:induction false} FailureIsFinal(rows: seq<ProviderRow>, n: nat)
    requires n <= |rows| && Retrieve(rows[..n]).Failed?
    ensures Retrieve(rows) == Retrieve(rows[..n])
    decreases |rows|
  {
    if n < |rows| {
      var front := rows[..|rows| - 1];
      assert front[..n] == rows[..n];
      FailureIsFinal(front, n);
    } else {
      assert rows[..n] == rows;
    }
  }

  /** What reading the provider yields for each way the query can end. */
  function FromProvider(query: ProviderQuery): Retrieval {
    match query
    case Cursor(rows) => Retrieve(rows)
    case NoCursor => Retrieved([])
    case QueryThrew(message) => Failed(message)
  }

  /** `retrieveContactsFromProvider`: the `while (cursor.moveToNext())` loop. */
  method RetrieveContactsFromProvider(query: ProviderQuery) returns (r: Retrieval)
    ensures r == FromProvider(query)
  {
    match query
    case NoCursor =>
      return Retrieved([]);
    case QueryThrew(message) =>
      return Failed(message);
    case Cursor(rows) =>
      var contacts: seq<ContactsPhone> := [];
      var i := 0;
      while i < |rows|
        invariant 0 <= i <= |rows|
        invariant Retrieve(rows[..i]) == Retrieved(contacts)
      {
        var row := rows[i];
        assert rows[..i + 1][..i] == rows[..i];
        if IsNamed(row) {
          var id := ParseLong(row.id);
          if id.None? {
            r := Failed(Some(NumberFormatMessage(row.id)));
            FailureIsFinal(rows, i + 1);
            return;
          }
          contacts := contacts + [ContactsPhone(id.value, row.displayName.value, " ", " ")];
        }
        i := i + 1;
      }
      assert rows[..i] == rows;
      return Retrieved(contacts);
  }

  // ---------------------------------------------------------------------------------------------
  // The view model

  class ContactsViewModel {
    const repository: ContactsRepositoryImpl
    var randomContactsState: ContactsState
    var phoneContactsState: ContactsState
    var contactListRandom: seq<ContactsRandom>
    var contactListPhone: seq<ContactsPhone>

    ghost predicate Valid()
      reads this, repository, repository.dao
    {
      repository.Valid() && ReachableStates(randomContactsState, phoneContactsState)
    }

    /** Both feeds start in `None` with empty lists. */
    constructor (repository: ContactsRepositoryImpl)
      requires repository.Valid()
      ensures Valid() && this.repository == repository
      ensures randomContactsState == ContactsState.None && phoneContactsState == ContactsState.None
      ensures contactListRandom == [] && contactListPhone == []
    {
      this.repository := repository;
      randomContactsState := ContactsState.None;
      phoneContactsState := ContactsState.None;
      contactListRandom := [];
      contactListPhone := [];
    }

    /** `fetchContactsRandomNetwork`, before its coroutine runs. */
    method FetchContactsRandomNetwork()
      requires Valid()
      modifies this`randomContactsState
      ensures Valid() && randomContactsState == Loading
    {
      randomContactsState := Loading;
    }

    /** The coroutine of `fetchContactsRandomNetwork`: runs the fetch-and-cache flow and then
      * reports `Success` whatever the flow emitted, since the flow swallows every failure. */
    method CollectRandomNetwork(call: ServiceCall, daoThrows: bool)
      requires Valid()
      modifies this`randomContactsState, repository.dao
      ensures Valid() && randomContactsState == Success
      ensures repository.dao.State() ==
        if FetchedPage(call).Some? && !daoThrows
        then InsertAll(old(repository.dao.State()), Normalised(FetchedPage(call).value))
        else old(repository.dao.State())
    {
      var _ := repository.GetContacts(call, daoThrows);
      randomContactsState := Success;
    }

    /** `fetchContactsRandom`, before its coroutine runs. */
    method FetchContactsRandom()
      requires Valid()
      modifies this`randomContactsState
      ensures Valid() && randomContactsState == Loading
    {
      randomContactsState := Loading;
    }

    /** The coroutine of `fetchContactsRandom`: when the offline read emits a scan of the table,
      * the random list becomes its projection and the feed reports `Success`; when it emits
      * nothing, the list and the state stay as they were. `emitted` is the scan the read emitted. */
    method CollectRandomOffline(daoThrows: bool) returns (emitted: Option<seq<ContactsEntity>>)
      requires Valid()
      modifies this`randomContactsState, this`contactListRandom
      ensures Valid()
      ensures emitted.Some? <==> !daoThrows
      ensures emitted.Some? ==> && IsSnapshot(repository.dao.State(), emitted.value)
                                && contactListRandom == ToRandomList(emitted.value)
                                && randomContactsState == Success
      ensures emitted.None? ==> contactListRandom == old(contactListRandom)
                                && randomContactsState == old(randomContactsState)
    {
      emitted := repository.GetContactsOffline(daoThrows);
      if emitted.Some? {
        contactListRandom := ToRandomList(emitted.value);
        randomContactsState := Success;
      }
    }

    /** `fetchContactsPhone`, before its coroutine runs. */
    method FetchContactsPhone()
      requires Valid()
      modifies this`phoneContactsState
      ensures Valid() && phoneContactsState == Loading
    {
      phoneContactsState := Loading;
    }

    /** The coroutine of `fetchContactsPhone`: a successful read replaces the phone list and
      * reports `Success`; a failed one reports the prefixed error and keeps the list. */
    method CollectPhone(query: ProviderQuery)
      requires Valid()
      modifies this`phoneContactsState, this`contactListPhone
      ensures Valid()
      ensures FromProvider(query).Retrieved? ==>
        contactListPhone == FromProvider(query).contacts && phoneContactsState == Success
      ensures FromProvider(query).Failed? ==>
        contactListPhone == old(contactListPhone) && phoneContactsState == PhoneError(FromProvider(query).message)
    {
      var r := RetrieveContactsFromProvider(query);
      match r
      case Retrieved(contacts) =>
        contactListPhone := contacts;
        phoneContactsState := Success;
      case Failed(message) =>
        phoneContactsState := PhoneError(message);
    }
  }
}
