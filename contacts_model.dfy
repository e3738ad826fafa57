/** The random-user API payload and the two list projections shown by the app. */
module Model {
  import opened Wrappers
  import opened Entity

  /** The number of profiles the service asks for in every request. */
  const PageSize := 25

  datatype Id = Id(name: string, value: string)

  /** Page provenance; `results` is the page size the service reports. */
  datatype Info = Info(page: int, results: int, seed: string, version: string)

  datatype Name = Name(first: string, last: string, title: string)

  datatype Picture = Picture(large: string, medium: string, thumbnail: string)

  /** One random-user profile; every field is present. */
  datatype Result = Result(
    cell: string,
    email: string,
    gender: string,
    id: Id,
    name: Name,
    phone: string,
    picture: Picture
  )

  /** A page: exactly one `Info` and the list of profiles. */
  datatype ContactsModel = ContactsModel(info: Info, results: seq<Result>)

  /** The projection of a stored record shown in the first tab; every field may be null. */
  datatype ContactsRandom = ContactsRandom(
    id: Option<int>,
    firstName: Option<string>,
    lastName: Option<string>,
    email: Option<string>,
    phone: Option<string>,
    pictureMedium: Option<string>
  )

  /** A device contact shown in the second tab; every field is present. */
  datatype ContactsPhone = ContactsPhone(id: int, name: string, phoneNumber: string, email: string)

  /** The projection of a stored record onto the six columns the first tab shows: the key, first
    * and last name, email, phone and the medium picture. */
  function ToContactsRandom(e: ContactsEntity): ContactsRandom {
    ContactsRandom(e.id, e.firstName, e.lastName, e.email, e.phone, e.pictureMedium)
  }

  /** Two records project to the same list entry exactly when they agree on the six shown
    * columns; every other column is dropped. */
  lemma ToContactsRandomKeepsShownColumns(a: ContactsEntity, b: ContactsEntity)
    ensures ToContactsRandom(a) == ToContactsRandom(b) <==>
      && a.id == b.id && a.firstName == b.firstName && a.lastName == b.lastName
      && a.email == b.email && a.phone == b.phone && a.pictureMedium == b.pictureMedium
  {
  }
}
