/** The Room DAO over the `contacts` table, as a keyed table with an auto-increment counter.
  * `Table` and the functions over it say what each DAO call does to the table; the class
  * `ContactsDao` holds the table and its methods are proved against those functions. */
module Dao {
  import opened Wrappers
  import opened Entity

  /** The rows by primary key, and the key the next keyless insert receives (SQLite's
    * AUTOINCREMENT counter: one more than the largest key ever stored, never reused). */
  datatype Table = Table(rows: map<int, ContactsEntity>, nextId: int)

  /** Every stored row carries its own key, and every key is below the counter. */
  predicate WellFormed(t: Table) {
    && 1 <= t.nextId
    && forall k :: k in t.rows ==> k < t.nextId && t.rows[k].id == Some(k)
  }

  /** The table of a new database: no rows, the first generated key is 1. */
  const Empty := Table(map[], 1)

  /** The key an insert writes: the record's own key, or a generated one when it has none. */
  function AssignedKey(t: Table, e: ContactsEntity): int {
    if e.id.Some? then e.id.value else t.nextId
  }

  /** `@Insert(onConflict = REPLACE)` of one record: the row at the assigned key becomes the
    * record (with that key), replacing any row that was there; a keyless record gets a key no
    * row has, so it adds a row. */
  function Insert(t: Table, e: ContactsEntity): (r: Table)
    requires WellFormed(t)
    ensures WellFormed(r)
    ensures r.rows.Keys == t.rows.Keys + {AssignedKey(t, e)}
    ensures r.rows[AssignedKey(t, e)] == e.(id := Some(AssignedKey(t, e)))
    ensures forall k :: k in t.rows && k != AssignedKey(t, e) ==> r.rows[k] == t.rows[k]
    ensures e.id.Some? ==> r.rows[e.id.value] == e
    ensures e.id.None? ==> AssignedKey(t, e) !in t.rows
    ensures e.id.None? ==> r.nextId == t.nextId + 1
    ensures t.nextId <= r.nextId
  {
    var k := AssignedKey(t, e);
    Table(t.rows[k := e.(id := Some(k))], if t.nextId <= k then k + 1 else t.nextId)
  }

  /** `@Insert(onConflict = REPLACE)` of a list: the records are inserted one after the other. */
  function InsertAll(t: Table, es: seq<ContactsEntity>): (r: Table)
    requires WellFormed(t)
    ensures WellFormed(r)
    ensures t.rows.Keys <= r.rows.Keys
    ensures t.nextId <= r.nextId
    decreases |es|
  {
    if es == [] then t else Insert(InsertAll(t, es[..|es| - 1]), es[|es| - 1])
  }

  /** `@Update`: the row whose key is the record's key is rewritten to the record; a record
    * with a null key, or with a key no row has, matches no row and changes nothing. */
  function Update(t: Table, e: ContactsEntity): (r: Table)
    requires WellFormed(t)
    ensures WellFormed(r)
    ensures r.nextId == t.nextId && r.rows.Keys == t.rows.Keys
    ensures forall k :: k in t.rows && Some(k) != e.id ==> r.rows[k] == t.rows[k]
    ensures e.id.Some? && e.id.value in t.rows ==> r.rows[e.id.value] == e
    ensures e.id.None? || e.id.value !in t.rows ==> r == t
  {
    if e.id.Some? && e.id.value in t.rows then Table(t.rows[e.id.value := e], t.nextId) else t
  }

  /** `list` is a full scan of `t`, in some order: each stored row exactly once. */
  predicate IsSnapshot(t: Table, list: seq<ContactsEntity>) {
    && |list| == |t.rows|
    && (forall i :: 0 <= i < |list| ==> list[i].id.Some? && list[i].id.value in t.rows
                                        && t.rows[list[i].id.value] == list[i])
    && (forall k :: k in t.rows ==> t.rows[k] in list)
  }

  predicate Keyless(es: seq<ContactsEntity>) {
    forall i :: 0 <= i < |es| ==> es[i].id.None?
  }

  lemma KeylessFront(es: seq<ContactsEntity>)
    requires Keyless(es) && es != []
    ensures Keyless(es[..|es| - 1])
  {
    var front := es[..|es| - 1];
    forall i | 0 <= i < |front| ensures front[i].id.None? {
      assert front[i] == es[i];
    }
  }

  /** Inserting N keyless records advances the counter by N and adds N rows, with the next N
    * keys, leaving every existing row as it was. */
  lemma {:induction false} InsertAllKeylessKeys(t: Table, es: seq<ContactsEntity>)
    requires WellFormed(t) && Keyless(es)
    ensures var r := InsertAll(t, es);
      && r.nextId == t.nextId + |es|
      && |r.rows| == |t.rows| + |es|
      && (forall k :: k in r.rows <==> k in t.rows || t.nextId <= k < t.nextId + |es|)
      && (forall k :: k in t.rows ==> r.rows[k] == t.rows[k])
    decreases |es|
  {
    if es != [] {
      var front := es[..|es| - 1];
      KeylessFront(es);
      InsertAllKeylessKeys(t, front);
    }
  }

  lemma {:induction false} InsertAllKeylessCounter(t: Table, es: seq<ContactsEntity>)
    requires WellFormed(t) && Keyless(es)
    ensures InsertAll(t, es).nextId == t.nextId + |es|
    decreases |es|
  {
    if es != [] {
      var front := es[..|es| - 1];
      KeylessFront(es);
      InsertAllKeylessCounter(t, front);
    }
  }

  /** Inserting N keyless records stores the i-th one, in list order, under the i-th new key. */
  lemma {:induction false} InsertAllKeylessRow(t: Table, es: seq<ContactsEntity>, i: int)
    requires WellFormed(t) && Keyless(es) && 0 <= i < |es|
    ensures t.nextId + i in InsertAll(t, es).rows
    ensures InsertAll(t, es).rows[t.nextId + i] == es[i].(id := Some(t.nextId + i))
    decreases |es|
  {
    var front, last := es[..|es| - 1], es[|es| - 1];
    var before := InsertAll(t, front);
    KeylessFront(es);
    InsertAllKeylessCounter(t, front);
    if i < |front| {
      assert front[i] == es[i];
      InsertAllKeylessRow(t, front, i);
      InsertKeylessKeepsRow(before, last, t.nextId + i);
    } else {
      InsertKeylessAddsRow(before, last);
    }
  }

  /** A keyless insert adds exactly one row. */
  lemma InsertKeylessAddsOne(t: Table, e: ContactsEntity)
    requires WellFormed(t) && e.id.None?
    ensures |Insert(t, e).rows| == |t.rows| + 1
  {
    assert Insert(t, e).rows.Keys == t.rows.Keys + {t.nextId};
  }

  lemma InsertKeylessKeepsRow(t: Table, e: ContactsEntity, k: int)
    requires WellFormed(t) && e.id.None? && k in t.rows
    ensures k in Insert(t, e).rows && Insert(t, e).rows[k] == t.rows[k]
  {
  }

  lemma InsertKeylessAddsRow(t: Table, e: ContactsEntity)
    requires WellFormed(t) && e.id.None?
    ensures t.nextId in Insert(t, e).rows && Insert(t, e).rows[t.nextId] == e.(id := Some(t.nextId))
  {
  }

  /** Every record with a key is stored, unchanged, unless a later record in the same list
    * has the same key: a conflicting insert replaces the stored row wholesale. */
  lemma {:induction false} InsertAllStoresLastWriter(t: Table, es: seq<ContactsEntity>, i: int)
    requires WellFormed(t) && 0 <= i < |es| && es[i].id.Some?
    requires forall j :: i < j < |es| ==> es[j].id != es[i].id
    ensures es[i].id.value in InsertAll(t, es).rows
    ensures InsertAll(t, es).rows[es[i].id.value] == es[i]
    decreases |es|
  {
    var front := es[..|es| - 1];
    if i < |es| - 1 {
      assert front[i] == es[i];
      forall j | i < j < |front| ensures front[j].id != front[i].id {
        assert front[j] == es[j];
      }
      InsertAllStoresLastWriter(t, front, i);
      var before := InsertAll(t, front);
      assert es[i].id.value < before.nextId;
      assert AssignedKey(before, es[|es| - 1]) != es[i].id.value;
    }
  }

  /** The DAO: the `contacts` table held in place. */
  class ContactsDao {
    var rows: map<int, ContactsEntity>
    var nextId: int

    /** The table this DAO holds. */
    function State(): Table
      reads this
    {
      Table(rows, nextId)
    }

    ghost predicate Valid()
      reads this
    {
      WellFormed(State())
    }

    constructor ()
      ensures Valid() && State() == Empty
    {
      rows := map[];
      nextId := 1;
    }

    /** `insertContacts`. */
    method InsertContacts(contacts: seq<ContactsEntity>)
      requires Valid()
      modifies this
      ensures Valid() && State() == InsertAll(old(State()), contacts)
    {
      for i := 0 to |contacts|
        invariant Valid()
        invariant State() == InsertAll(old(State()), contacts[..i])
      {
        assert contacts[..i + 1][..i] == contacts[..i];
        InsertContact(contacts[i]);
      }
      assert contacts[..|contacts|] == contacts;
    }

    /** `insertContact`. */
    method InsertContact(contact: ContactsEntity)
      requires Valid()
      modifies this
      ensures Valid() && State() == Insert(old(State()), contact)
    {
      var key := if contact.id.Some? then contact.id.value else nextId;
      rows := rows[key := contact.(id := Some(key))];
      if nextId <= key {
        nextId := key + 1;
      }
    }

    /** `getContacts`: `SELECT * FROM contacts`, with no ordering. Reads only. */
    method GetContacts() returns (list: seq<ContactsEntity>)
      requires Valid()
      ensures IsSnapshot(State(), list)
    {
      list := [];
      var pending: set<int> := rows.Keys;
      while pending != {}
        invariant pending <= rows.Keys
        invariant |list| + |pending| == |rows|
        invariant forall i :: 0 <= i < |list| ==> list[i].id.Some? && list[i].id.value in rows
                                                  && list[i].id.value !in pending
                                                  && rows[list[i].id.value] == list[i]
        invariant forall k :: k in rows && k !in pending ==> rows[k] in list
        decreases |pending|
      {
        assert (forall k :: k !in pending) ==> pending == {};
        var k :| k in pending;
        list := list + [rows[k]];
        pending := pending - {k};
      }
    }

    /** `getContactById`: the row with that key, or null. Reads only. */
    function GetContactById(contactId: int): (r: Option<ContactsEntity>)
      reads this
      requires Valid()
      ensures r.Some? <==> contactId in rows
      ensures r.Some? ==> r.value == rows[contactId] && r.value.id == Some(contactId)
    {
      if contactId in rows then Some(rows[contactId]) else None
    }

    /** `updateContact`. */
    method UpdateContact(contact: ContactsEntity)
      requires Valid()
      modifies this
      ensures Valid() && State() == Update(old(State()), contact)
    {
      if contact.id.Some? && contact.id.value in rows {
        rows := rows[contact.id.value := contact];
      }
    }
  }
}
