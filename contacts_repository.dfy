/** The repository: fetch a random-user page and cache it, serve offline reads, insert locally
  * created records, and merge field-level edits into stored rows.
  *
  * Every repository call is a cold flow that emits at most once and catches every exception
  * itself; here each call is a method returning `Option<T>`: `Some(x)` when the flow emits `x`,
  * `None` when it completes without emitting. The network response and the failures of the
  * storage layer are inputs: `call` says how the service call ended, `daoThrows` says whether
  * the DAO call throws (Room runs each DAO call atomically, so a throwing call changes nothing). */
module Repository {
  import opened Wrappers
  import opened Entity
  import opened Model
  import opened Dao

  /** A Retrofit response: whether the status was 2xx, and the parsed body (null when absent). */
  datatype Response = Response(successful: bool, body: Option<ContactsModel>)

  /** How the service call ended: with a response, or by throwing (no connection, time-out,
    * malformed JSON). */
  datatype ServiceCall = Returned(response: Response) | Threw

  /** The page `getContacts` emits: the body of a successful response, if there is one. */
  function FetchedPage(call: ServiceCall): (page: Option<ContactsModel>)
    ensures page.Some? <==> call.Returned? && call.response.successful && call.response.body.Some?
    ensures page.Some? ==> page == call.response.body
  {
    if call.Returned? && call.response.successful then call.response.body else None
  }

  // ---------------------------------------------------------------------------------------------
  // Normalising a page

  /** The record built for one profile of a page: no key, the page's `info` as provenance, and
    * the profile's fields column by column. */
  function ToEntity(info: Info, result: Result): ContactsEntity {
    ContactsEntity(
      id := None,
      infoSeed := Some(info.seed),
      infoResults := Some(info.results),
      infoPage := Some(info.page),
      infoVersion := Some(info.version),
      gender := Some(result.gender),
      nameTitle := Some(result.name.title),
      firstName := Some(result.name.first),
      lastName := Some(result.name.last),
      email := Some(result.email),
      phone := Some(result.phone),
      cell := Some(result.cell),
      idName := Some(result.id.name),
      idValue := Some(result.id.value),
      pictureLarge := Some(result.picture.large),
      pictureMedium := Some(result.picture.medium),
      pictureThumbnail := Some(result.picture.thumbnail))
  }

  /** Reads a profile back out of a record; null when a profile column is null. */
  function ProfileOf(e: ContactsEntity): Option<Result> {
    if && e.gender.Some? && e.nameTitle.Some? && e.firstName.Some? && e.lastName.Some?
       && e.email.Some? && e.phone.Some? && e.cell.Some? && e.idName.Some? && e.idValue.Some?
       && e.pictureLarge.Some? && e.pictureMedium.Some? && e.pictureThumbnail.Some?
    then
      Some(Result(e.cell.value, e.email.value, e.gender.value, Id(e.idName.value, e.idValue.value),
                  Name(e.firstName.value, e.lastName.value, e.nameTitle.value), e.phone.value,
                  Picture(e.pictureLarge.value, e.pictureMedium.value, e.pictureThumbnail.value)))
    else None
  }

  /** Reads the provenance back out of a record; null when a provenance column is null. */
  function ProvenanceOf(e: ContactsEntity): Option<Info> {
    if e.infoPage.Some? && e.infoResults.Some? && e.infoSeed.Some? && e.infoVersion.Some?
    then Some(Info(e.infoPage.value, e.infoResults.value, e.infoSeed.value, e.infoVersion.value))
    else None
  }

  /** Normalising loses nothing: the profile and the page's `info` can be read back exactly,
    * and the record carries no key. */
  lemma ToEntityIsLossless(info: Info, result: Result)
    ensures ToEntity(info, result).id.None?
    ensures ProfileOf(ToEntity(info, result)) == Some(result)
    ensures ProvenanceOf(ToEntity(info, result)) == Some(info)
  {
  }

  /** The records of a page, one per profile, in profile order. */
  function Normalised(page: ContactsModel): (es: seq<ContactsEntity>)
    ensures |es| == |page.results|
    ensures forall i :: 0 <= i < |es| ==> es[i] == ToEntity(page.info, page.results[i])
  {
    seq(|page.results|, i requires 0 <= i < |page.results| => ToEntity(page.info, page.results[i]))
  }

  /** Every normalised record is keyless, carries the page's `info` and reads back as its
    * profile. */
  lemma NormalisedRecords(page: ContactsModel)
    ensures Keyless(Normalised(page))
    ensures forall i :: 0 <= i < |page.results| ==>
      && ProvenanceOf(Normalised(page)[i]) == Some(page.info)
      && ProfileOf(Normalised(page)[i]) == Some(page.results[i])
  {
    forall i | 0 <= i < |page.results|
      ensures ProvenanceOf(Normalised(page)[i]) == Some(page.info)
      ensures ProfileOf(Normalised(page)[i]) == Some(page.results[i])
    {
      ToEntityIsLossless(page.info, page.results[i]);
    }
  }

  /** The loop in `getContacts` that fills the list of records. */
  method NormalisePage(page: ContactsModel) returns (entities: seq<ContactsEntity>)
    ensures entities == Normalised(page)
  {
    entities := [];
    for i := 0 to |page.results|
      invariant |entities| == i
      invariant forall j :: 0 <= j < i ==> entities[j] == ToEntity(page.info, page.results[j])
    {
      entities := entities + [ToEntity(page.info, page.results[i])];
    }
  }

  /** Caching a page of N profiles adds exactly N rows, under the next N keys, one per profile
    * in order, and never replaces a stored row. */
  lemma IngestAddsOneRowPerProfile(t: Table, page: ContactsModel)
    requires WellFormed(t)
    ensures var r := InsertAll(t, Normalised(page));
      && |r.rows| == |t.rows| + |page.results|
      && (forall k :: k in t.rows ==> k in r.rows && r.rows[k] == t.rows[k])
      && (forall i :: 0 <= i < |page.results| ==>
            && t.nextId + i in r.rows
            && r.rows[t.nextId + i] == ToEntity(page.info, page.results[i]).(id := Some(t.nextId + i)))
  {
    NormalisedRecords(page);
    InsertAllKeylessKeys(t, Normalised(page));
    forall i | 0 <= i < |page.results|
      ensures t.nextId + i in InsertAll(t, Normalised(page)).rows
      ensures InsertAll(t, Normalised(page)).rows[t.nextId + i]
              == ToEntity(page.info, page.results[i]).(id := Some(t.nextId + i))
    {
      InsertAllKeylessRow(t, Normalised(page), i);
    }
  }

  /** Fetching twice accumulates: the rows of both pages are added and nothing is replaced. */
  lemma RepeatedIngestsAccumulate(t: Table, first: ContactsModel, second: ContactsModel)
    requires WellFormed(t)
    ensures var r := InsertAll(InsertAll(t, Normalised(first)), Normalised(second));
      && |r.rows| == |t.rows| + |first.results| + |second.results|
      && (forall k :: k in t.rows ==> k in r.rows && r.rows[k] == t.rows[k])
  {
    IngestAddsOneRowPerProfile(t, first);
    IngestAddsOneRowPerProfile(InsertAll(t, Normalised(first)), second);
  }

  // ---------------------------------------------------------------------------------------------
  // Merge update

  /** The merged row of `updateContact`: each of first name, last name, email and phone is the
    * incoming value when it is non-null and the stored one otherwise; every other column,
    * the key included, is the stored row's. */
  function Merge(existing: ContactsEntity, contact: ContactsEntity): (r: ContactsEntity)
    ensures SameFixedColumns(r, existing) && r.id == existing.id
    ensures r.firstName == (if contact.firstName.Some? then contact.firstName else existing.firstName)
    ensures r.lastName == (if contact.lastName.Some? then contact.lastName else existing.lastName)
    ensures r.email == (if contact.email.Some? then contact.email else existing.email)
    ensures r.phone == (if contact.phone.Some? then contact.phone else existing.phone)
  {
    existing.(
      firstName := contact.firstName.OrElse(existing.firstName),
      lastName := contact.lastName.OrElse(existing.lastName),
      email := contact.email.OrElse(existing.email),
      phone := contact.phone.OrElse(existing.phone))
  }

  /** What `updateContact` emits: the merge of the record with the stored row of the same key;
    * nothing when the record has no key or no row has that key. */
  function MergeUpdate(t: Table, contact: ContactsEntity): (r: Option<ContactsEntity>)
    requires WellFormed(t)
    ensures r.Some? <==> contact.id.Some? && contact.id.value in t.rows
    ensures r.Some? ==> r.value == Merge(t.rows[contact.id.value], contact) && r.value.id == contact.id
  {
    if contact.id.Some? && contact.id.value in t.rows then
      var k := contact.id.value;
      assert t.rows[k].id == Some(k);
      var stored := t.rows[k];
      Some(Merge(stored, contact))
    else None
  }

  /** The table after `updateContact`: the emitted row written back, or the table unchanged. */
  function AfterMergeUpdate(t: Table, contact: ContactsEntity): (r: Table)
    requires WellFormed(t)
    ensures WellFormed(r) && r.nextId == t.nextId && r.rows.Keys == t.rows.Keys
    ensures MergeUpdate(t, contact).None? ==> r == t
    ensures MergeUpdate(t, contact).Some? ==>
      r.rows[contact.id.value] == MergeUpdate(t, contact).value
    ensures forall k :: k in t.rows && Some(k) != contact.id ==> r.rows[k] == t.rows[k]
  {
    match MergeUpdate(t, contact)
    case Some(merged) => Update(t, merged)
    case None => t
  }

  /** Merging the same partial record twice gives what merging it once gives. */
  lemma MergeIdempotent(existing: ContactsEntity, contact: ContactsEntity)
    ensures Merge(Merge(existing, contact), contact) == Merge(existing, contact)
  {
  }

  /** A partial record whose four editable columns are all null leaves the row as it was. */
  lemma MergeAllNullIsIdentity(existing: ContactsEntity, contact: ContactsEntity)
    requires contact.firstName.None? && contact.lastName.None?
    requires contact.email.None? && contact.phone.None?
    ensures Merge(existing, contact) == existing
  {
  }

  /** Applying the same update to the store twice leaves it as applying it once. */
  lemma MergeUpdateIdempotent(t: Table, contact: ContactsEntity)
    requires WellFormed(t)
    ensures AfterMergeUpdate(AfterMergeUpdate(t, contact), contact) == AfterMergeUpdate(t, contact)
  {
    var once := AfterMergeUpdate(t, contact);
    if MergeUpdate(t, contact).Some? {
      var k := contact.id.value;
      MergeIdempotent(t.rows[k], contact);
      assert once.rows[k := Merge(once.rows[k], contact)] == once.rows;
    }
  }

  /** The worked example of a merge: only the non-null incoming first name overrides. */
  lemma MergeExample(x: int)
    ensures var stored := Blank.(id := Some(x), firstName := Some("old"), lastName := Some("Smith"),
                                 email := Some("e@x.com"), phone := Some("123"));
      Merge(stored, Blank.(id := Some(x), firstName := Some("A")))
        == stored.(firstName := Some("A"))
  {
  }

  // ---------------------------------------------------------------------------------------------
  // The repository

  class ContactsRepositoryImpl {
    const dao: ContactsDao

    ghost predicate Valid()
      reads this, dao
    {
      dao.Valid()
    }

    constructor (dao: ContactsDao)
      requires dao.Valid()
      ensures Valid() && this.dao == dao
    {
      this.dao := dao;
    }

    /** `getContacts`: emits the page of a successful response with a body, then caches the
      * normalised page; an unsuccessful response, a missing body or a thrown call emits nothing
      * and changes nothing. A throwing insert comes after the emission and changes nothing. */
    method GetContacts(call: ServiceCall, daoThrows: bool) returns (emitted: Option<ContactsModel>)
      requires Valid()
      modifies dao
      ensures Valid()
      ensures emitted == FetchedPage(call)
      ensures dao.State() == if emitted.Some? && !daoThrows
                             then InsertAll(old(dao.State()), Normalised(emitted.value))
                             else old(dao.State())
    {
      emitted := None;
      if call.Returned? && call.response.successful {
        var body := call.response.body;
        if body.Some? {
          var page := body.value;
          emitted := Some(page);
          var entities := NormalisePage(page);
          if !daoThrows {
            dao.InsertContacts(entities);
          }
        }
      }
    }

    /** `getContactsOffline`: emits a full scan of the table, unless the query throws. */
    method GetContactsOffline(daoThrows: bool) returns (emitted: Option<seq<ContactsEntity>>)
      requires Valid()
      ensures emitted.None? <==> daoThrows
      ensures emitted.Some? ==> IsSnapshot(dao.State(), emitted.value)
    {
      if daoThrows {
        emitted := None;
      } else {
        var list := dao.GetContacts();
        emitted := Some(list);
      }
    }

    /** `getContactById`: emits the row with that key, or null when there is none, unless the
      * query throws. */
    method GetContactById(contactId: int, daoThrows: bool) returns (emitted: Option<Option<ContactsEntity>>)
      requires Valid()
      ensures emitted.None? <==> daoThrows
      ensures emitted.Some? ==> (emitted.value.Some? <==> contactId in dao.rows)
      ensures emitted.Some? && emitted.value.Some? ==>
        emitted.value.value == dao.rows[contactId] && emitted.value.value.id == Some(contactId)
    {
      if daoThrows {
        emitted := None;
      } else {
        emitted := Some(dao.GetContactById(contactId));
      }
    }

    /** `updateContact`: merges the record into the stored row with its key, writes the merged
      * row and emits it; a null key or a missing row emits nothing and changes nothing. */
    method UpdateContact(contact: ContactsEntity, daoThrows: bool) returns (emitted: Option<ContactsEntity>)
      requires Valid()
      modifies dao
      ensures Valid()
      ensures emitted == if daoThrows then None else MergeUpdate(old(dao.State()), contact)
      ensures dao.State() == if emitted.Some? then AfterMergeUpdate(old(dao.State()), contact)
                             else old(dao.State())
    {
      emitted := None;
      if contact.id.None? || daoThrows {
        return;
      }
      var existing := dao.GetContactById(contact.id.value);
      if existing.None? {
        return;
      }
      var updated := Merge(existing.value, contact);
      dao.UpdateContact(updated);
      emitted := Some(updated);
    }

    /** `insertContact`: inserts the record and emits it exactly as passed, not the stored copy
      * with its generated key. */
    method InsertContact(contact: ContactsEntity, daoThrows: bool) returns (emitted: Option<ContactsEntity>)
      requires Valid()
      modifies dao
      ensures Valid()
      ensures emitted == if daoThrows then None else Some(contact)
      ensures dao.State() == if daoThrows then old(dao.State()) else Insert(old(dao.State()), contact)
    {
      if daoThrows {
        emitted := None;
      } else {
        dao.InsertContact(contact);
        emitted := Some(contact);
      }
    }
  }
}
