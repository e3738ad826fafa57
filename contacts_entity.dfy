/** The persisted contact record: one row of the table `contacts`. */
module Entity {
  import opened Wrappers

  /** A contact row. `id` is the auto-generated primary key (null until the store assigns one);
    * the four `info` columns record the random-user page the row was ingested from; every
    * column, the key included, is nullable. Datatype equality is the data class's equality:
    * two records are equal iff all seventeen columns are. */
  datatype ContactsEntity = ContactsEntity(
    id: Option<int>,
    infoSeed: Option<string>,
    infoResults: Option<int>,
    infoPage: Option<int>,
    infoVersion: Option<string>,
    gender: Option<string>,
    nameTitle: Option<string>,
    firstName: Option<string>,
    lastName: Option<string>,
    email: Option<string>,
    phone: Option<string>,
    cell: Option<string>,
    idName: Option<string>,
    idValue: Option<string>,
    pictureLarge: Option<string>,
    pictureMedium: Option<string>,
    pictureThumbnail: Option<string>
  )

  /** `ContactsEntity()` with no arguments: every parameter takes its default, null. Records
    * built from a few named arguments are `Blank.(f := v, ...)`. */
  const Blank := ContactsEntity(None, None, None, None, None, None, None, None, None,
                                None, None, None, None, None, None, None, None)

  /** Every column other than the four a user can edit (first and last name, email, phone)
    * and the key is null: the shape of a record built by the edit screen. */
  predicate OnlyEditableColumns(e: ContactsEntity) {
    e.(id := None, firstName := None, lastName := None, email := None, phone := None) == Blank
  }

  /** `a` and `b` agree on the key and on every column a user cannot edit. */
  predicate SameFixedColumns(a: ContactsEntity, b: ContactsEntity) {
    a.(firstName := None, lastName := None, email := None, phone := None)
      == b.(firstName := None, lastName := None, email := None, phone := None)
  }

  /** A record built from named arguments keeps exactly those arguments and leaves every other
    * column null. */
  lemma NamedArgumentsLeaveTheRestNull(id: Option<int>, first: Option<string>, last: Option<string>,
                                       email: Option<string>, phone: Option<string>)
    ensures var e := Blank.(id := id, firstName := first, lastName := last, email := email, phone := phone);
      && OnlyEditableColumns(e)
      && e.id == id && e.firstName == first && e.lastName == last && e.email == email && e.phone == phone
      && e.pictureMedium.None? && e.infoSeed.None? && e.infoPage.None?
  {
  }
}
