/** The pure rules of the contact-list screen: the search filter over the selected tab's list,
  * the navigation routes an item tap or the add button produces, the text an item shows, and
  * when the spinner and the "No Contacts" banner appear. */
module ListView {
  import opened Wrappers
  import opened KotlinStdlib
  import opened Entity
  import opened Model
  import opened Repository
  import ListViewModel

  /** An entry of the list: a cached random-user contact or a device contact. */
  datatype Contact = Random(randomContact: ContactsRandom) | Phone(phoneContact: ContactsPhone)

  // ---------------------------------------------------------------------------------------------
  // Search

  /** The first tab keeps a contact whose first or last name is non-null and contains the query,
    * up to case. */
  predicate RandomMatches(query: string, c: ContactsRandom) {
    || (c.firstName.Some? && ContainsIgnoreCase(c.firstName.value, query))
    || (c.lastName.Some? && ContainsIgnoreCase(c.lastName.value, query))
  }

  /** The second tab keeps a contact whose name contains the query, up to case. */
  predicate PhoneMatches(query: string, c: ContactsPhone) {
    ContainsIgnoreCase(c.name, query)
  }

  function WrapRandom(list: seq<ContactsRandom>): (r: seq<Contact>)
    ensures |r| == |list| && forall i :: 0 <= i < |list| ==> r[i] == Random(list[i])
  {
    seq(|list|, i requires 0 <= i < |list| => Random(list[i]))
  }

  function WrapPhone(list: seq<ContactsPhone>): (r: seq<Contact>)
    ensures |r| == |list| && forall i :: 0 <= i < |list| ==> r[i] == Phone(list[i])
  {
    seq(|list|, i requires 0 <= i < |list| => Phone(list[i]))
  }

  /** The list shown for the selected tab and search query: tab 0 filters the random contacts,
    * every other tab the device contacts; the kept contacts keep their order. */
  function FilteredList(tab: int, query: string, randoms: seq<ContactsRandom>, phones: seq<ContactsPhone>): (r: seq<Contact>)
    ensures tab == 0 ==> r == WrapRandom(Filter(randoms, c => RandomMatches(query, c)))
    ensures tab != 0 ==> r == WrapPhone(Filter(phones, c => PhoneMatches(query, c)))
  {
    if tab == 0 then WrapRandom(Filter(randoms, c => RandomMatches(query, c)))
    else WrapPhone(Filter(phones, c => PhoneMatches(query, c)))
  }

  /** A contact is listed iff it belongs to the selected tab's list and matches the query. */
  lemma FilteredListMembership(tab: int, query: string, randoms: seq<ContactsRandom>,
                               phones: seq<ContactsPhone>, x: Contact)
    ensures x in FilteredList(tab, query, randoms, phones) <==>
      if tab == 0 then x.Random? && x.randomContact in randoms && RandomMatches(query, x.randomContact)
      else x.Phone? && x.phoneContact in phones && PhoneMatches(query, x.phoneContact)
  {
    if tab == 0 {
      var kept := Filter(randoms, c => RandomMatches(query, c));
      if x.Random? {
        FilterMembership(randoms, c => RandomMatches(query, c), x.randomContact);
        if x.randomContact in kept {
          var i :| 0 <= i < |kept| && kept[i] == x.randomContact;
          assert WrapRandom(kept)[i] == x;
        }
      }
    } else {
      var kept := Filter(phones, c => PhoneMatches(query, c));
      if x.Phone? {
        FilterMembership(phones, c => PhoneMatches(query, c), x.phoneContact);
        if x.phoneContact in kept {
          var i :| 0 <= i < |kept| && kept[i] == x.phoneContact;
          assert WrapPhone(kept)[i] == x;
        }
      }
    }
  }

  lemma WrapRandomAppend(a: seq<ContactsRandom>, b: seq<ContactsRandom>)
    ensures WrapRandom(a + b) == WrapRandom(a) + WrapRandom(b)
  {
    assert forall i :: 0 <= i < |a + b| ==> WrapRandom(a + b)[i] == (WrapRandom(a) + WrapRandom(b))[i];
  }

  lemma WrapPhoneAppend(a: seq<ContactsPhone>, b: seq<ContactsPhone>)
    ensures WrapPhone(a + b) == WrapPhone(a) + WrapPhone(b)
  {
    assert forall i :: 0 <= i < |a + b| ==> WrapPhone(a + b)[i] == (WrapPhone(a) + WrapPhone(b))[i];
  }

  /** Filtering keeps the order of the source list: the filtered list of a concatenation is the
    * concatenation of the filtered lists. */
  lemma FilteredListKeepsOrder(query: string, r1: seq<ContactsRandom>, r2: seq<ContactsRandom>,
                               p1: seq<ContactsPhone>, p2: seq<ContactsPhone>)
    ensures FilteredList(0, query, r1 + r2, p1 + p2)
            == FilteredList(0, query, r1, p1) + FilteredList(0, query, r2, p2)
    ensures FilteredList(1, query, r1 + r2, p1 + p2)
            == FilteredList(1, query, r1, p1) + FilteredList(1, query, r2, p2)
  {
    var keepRandom := c => RandomMatches(query, c);
    var keepPhone := c => PhoneMatches(query, c);
    FilterDistributes(r1, r2, keepRandom);
    WrapRandomAppend(Filter(r1, keepRandom), Filter(r2, keepRandom));
    FilterDistributes(p1, p2, keepPhone);
    WrapPhoneAppend(Filter(p1, keepPhone), Filter(p2, keepPhone));
  }

  /** With an empty query the second tab lists every device contact, while the first tab still
    * drops the random contacts whose first and last names are both null. */
  lemma EmptyQuery(randoms: seq<ContactsRandom>, phones: seq<ContactsPhone>, c: ContactsRandom)
    ensures FilteredList(1, "", randoms, phones) == WrapPhone(phones)
    ensures RandomMatches("", c) <==> c.firstName.Some? || c.lastName.Some?
  {
    forall i | 0 <= i < |phones| ensures PhoneMatches("", phones[i]) {
      ContainsEmpty(phones[i].name);
    }
    FilterKeepsAll(phones, c => PhoneMatches("", c));
    if c.firstName.Some? {
      ContainsEmpty(c.firstName.value);
    }
    if c.lastName.Some? {
      ContainsEmpty(c.lastName.value);
    }
  }

  // ---------------------------------------------------------------------------------------------
  // Navigation

  /** The route of the edit screen. */
  const CreateContactRoute := "CreateContact"

  /** The route a tap on a first-tab item navigates to; a null key prints as "null". */
  function RandomItemRoute(c: ContactsRandom): (r: string)
    ensures |r| >= |CreateContactRoute + "/"| + |"?source=random"|
    ensures r[..|CreateContactRoute + "/"|] == CreateContactRoute + "/"
    ensures r[|r| - |"?source=random"|..] == "?source=random"
  {
    CreateContactRoute + "/" + (if c.id.Some? then LongToString(c.id.value) else "null") + "?source=random"
  }

  /** The route a tap on a second-tab item navigates to. */
  function PhoneItemRoute(c: ContactsPhone): (r: string)
    ensures |r| >= |CreateContactRoute + "/"| + |"?source=phone"|
    ensures r[..|CreateContactRoute + "/"|] == CreateContactRoute + "/"
    ensures r[|r| - |"?source=phone"|..] == "?source=phone"
  {
    CreateContactRoute + "/" + LongToString(c.id) + "?source=phone"
  }

  /** The route the add button navigates to: the edit screen with the selected tab. */
  function AddRoute(tab: int): (r: string)
    ensures |r| > |CreateContactRoute + "/"|
    ensures r[..|CreateContactRoute + "/"|] == CreateContactRoute + "/"
    ensures r[|CreateContactRoute + "/"|..] == LongToString(tab)
  {
    CreateContactRoute + "/" + LongToString(tab)
  }

  /** The tab the destination `CreateContact/{tab}` reads from a route; null when the route
    * does not fit. */
  function ParseAddRoute(route: string): (r: Option<int>)
    ensures r.Some? ==> IsLong(r.value)
    ensures r.Some? ==> |route| >= |CreateContactRoute + "/"| && route[..|CreateContactRoute + "/"|] == CreateContactRoute + "/"
  {
    var prefix := CreateContactRoute + "/";
    if |route| < |prefix| || route[..|prefix|] != prefix then None
    else ParseLong(route[|prefix|..])
  }

  /** The add button lands on the edit screen with the selected tab. */
  lemma AddRouteRoundTrip(tab: int)
    requires IsLong(tab)
    ensures ParseAddRoute(AddRoute(tab)) == Some(tab)
  {
    var prefix := CreateContactRoute + "/";
    assert AddRoute(tab)[..|prefix|] == prefix;
    assert AddRoute(tab)[|prefix|..] == LongToString(tab);
    LongToStringRoundTrip(tab);
  }

  /** The arguments the destination `CreateContact/{contactId}?source={source}` reads from a
    * route: a `Long` key and the source string; null when the route does not fit. */
  function ParseItemRoute(route: string): (r: Option<(int, string)>)
    ensures r.Some? ==> IsLong(r.value.0)
    ensures r.Some? ==> |route| >= |CreateContactRoute + "/"| && route[..|CreateContactRoute + "/"|] == CreateContactRoute + "/"
  {
    var prefix := CreateContactRoute + "/";
    if |route| < |prefix| || route[..|prefix|] != prefix then None
    else
      var rest := route[|prefix|..];
      var q := IndexOf(rest, '?');
      var query := "?source=";
      if q + |query| > |rest| || rest[q..q + |query|] != query then None
      else
        var id := ParseLong(rest[..q]);
        if id.None? then None else Some((id.value, rest[q + |query|..]))
  }

  /** A route with a key free of '?' carries that key, parsed as a `Long`, and the source. */
  lemma RouteWithKey(key: string, source: string)
    requires forall k :: 0 <= k < |key| ==> key[k] != '?'
    ensures ParseItemRoute(CreateContactRoute + "/" + key + "?source=" + source)
            == if ParseLong(key).Some? then Some((ParseLong(key).value, source)) else None
  {
    var route := CreateContactRoute + "/" + key + "?source=" + source;
    var rest := route[|CreateContactRoute + "/"|..];
    assert route[..|CreateContactRoute + "/"|] == CreateContactRoute + "/";
    assert rest == key + "?source=" + source;
    assert IndexOf(rest, '?') == |key| by {
      assert forall k :: 0 <= k < |key| ==> rest[k] == key[k];
      assert rest[|key|] == '?';
    }
    assert rest[..|key|] == key;
    assert rest[|key|..|key| + 8] == "?source=";
    assert rest[|key| + 8..] == source;
  }

  lemma RouteArguments(id: int, source: string)
    requires IsLong(id)
    ensures ParseItemRoute(CreateContactRoute + "/" + LongToString(id) + "?source=" + source) == Some((id, source))
  {
    RouteWithKey(LongToString(id), source);
    LongToStringRoundTrip(id);
  }

  /** Tapping a stored contact lands on the edit screen with its key and source "random";
    * tapping a device contact with its id and source "phone". */
  lemma ItemRoutesRoundTrip(r: ContactsRandom, p: ContactsPhone)
    requires r.id.Some? && IsLong(r.id.value) && IsLong(p.id)
    ensures ParseItemRoute(RandomItemRoute(r)) == Some((r.id.value, "random"))
    ensures ParseItemRoute(PhoneItemRoute(p)) == Some((p.id, "phone"))
  {
    RouteArguments(r.id.value, "random");
    assert RandomItemRoute(r) == CreateContactRoute + "/" + LongToString(r.id.value) + "?source=" + "random";
    RouteArguments(p.id, "phone");
    assert PhoneItemRoute(p) == CreateContactRoute + "/" + LongToString(p.id) + "?source=" + "phone";
  }

  /** A first-tab item with a null key produces a route whose key is not a number. */
  lemma NullKeyRouteHasNoKey(r: ContactsRandom)
    requires r.id.None?
    ensures ParseItemRoute(RandomItemRoute(r)).None?
  {
    assert RandomItemRoute(r) == CreateContactRoute + "/" + "null" + "?source=" + "random";
    RouteWithKey("null", "random");
    assert !IsDigit("null"[0]);
  }

  // ---------------------------------------------------------------------------------------------
  // Display

  /** What a list item shows: an image URL (none for device contacts), the name and the last
    * name. */
  datatype ItemText = ItemText(imageUrl: Option<string>, fullName: string, lastName: string)

  function ItemTextOf(c: Contact): (r: ItemText)
    ensures c.Random? ==> && r.imageUrl == Some(OrEmpty(c.randomContact.pictureMedium))
                          && (c.randomContact.firstName.Some? ==> r.fullName == c.randomContact.firstName.value)
                          && (c.randomContact.firstName.None? ==> r.fullName == "")
                          && (c.randomContact.lastName.Some? ==> r.lastName == c.randomContact.lastName.value)
                          && (c.randomContact.lastName.None? ==> r.lastName == "")
    ensures c.Phone? ==> r == ItemText(None, c.phoneContact.name, "")
  {
    match c
    case Random(rc) => ItemText(Some(OrEmpty(rc.pictureMedium)), OrEmpty(rc.firstName), OrEmpty(rc.lastName))
    case Phone(pc) => ItemText(None, pc.name, "")
  }

  /** The spinner shows while either feed is loading. */
  predicate ShowSpinner(random: ListViewModel.ContactsState, phone: ListViewModel.ContactsState) {
    random == ListViewModel.Loading || phone == ListViewModel.Loading
  }

  /** The "No Contacts" banner shows when either feed is in the error state "No Contacts". */
  predicate ShowNoContacts(random: ListViewModel.ContactsState, phone: ListViewModel.ContactsState) {
    random == ListViewModel.Error("No Contacts") || phone == ListViewModel.Error("No Contacts")
  }

  /** The banner never shows: the random feed never errs and every device-feed error carries
    * its longer prefix. */
  lemma NoContactsNeverShown(random: ListViewModel.ContactsState, phone: ListViewModel.ContactsState)
    requires ListViewModel.ReachableStates(random, phone)
    ensures !ShowNoContacts(random, phone)
  {
    assert |ListViewModel.PhoneErrorPrefix| > |"No Contacts"|;
  }

  /** Every listed item shows the query, up to case: a first-tab item in its name or its last
    * name, a second-tab item in its name. */
  lemma ListedItemsShowTheQuery(tab: int, query: string, randoms: seq<ContactsRandom>,
                                phones: seq<ContactsPhone>, c: Contact)
    requires c in FilteredList(tab, query, randoms, phones)
    ensures ContainsIgnoreCase(ItemTextOf(c).fullName, query) || ContainsIgnoreCase(ItemTextOf(c).lastName, query)
    ensures tab != 0 ==> ContainsIgnoreCase(ItemTextOf(c).fullName, query)
  {
    FilteredListMembership(tab, query, randoms, phones, c);
  }

  /** The i-th item of the first tab shows the i-th stored row's first name, last name and medium
    * picture, with null as "". */
  lemma StoredRowItemText(rows: seq<ContactsEntity>, i: int)
    requires 0 <= i < |rows|
    ensures ItemTextOf(Random(ListViewModel.ToRandomList(rows)[i]))
            == ItemText(Some(OrEmpty(rows[i].pictureMedium)), OrEmpty(rows[i].firstName), OrEmpty(rows[i].lastName))
  {
  }

  /** The "Load More" tap starts both random-feed fetches: the spinner shows, and the device
    * feed is left as it was. */
  method OnLoadMore(vm: ListViewModel.ContactsViewModel) returns (spinner: bool)
    requires vm.Valid()
    modifies vm`randomContactsState
    ensures vm.Valid() && vm.randomContactsState == ListViewModel.Loading
    ensures vm.phoneContactsState == old(vm.phoneContactsState)
    ensures spinner == ShowSpinner(vm.randomContactsState, vm.phoneContactsState) && spinner
  {
    vm.FetchContactsRandomNetwork();
    vm.FetchContactsRandom();
    spinner := ShowSpinner(vm.randomContactsState, vm.phoneContactsState);
  }

  /** Selecting a tab: the second tab starts the device fetch, which turns the spinner on; any
    * other tab leaves both feeds alone. */
  method OnTabSelected(vm: ListViewModel.ContactsViewModel, selected: int) returns (spinner: bool)
    requires vm.Valid()
    modifies vm`phoneContactsState
    ensures vm.Valid()
    ensures selected == 1 ==> vm.phoneContactsState == ListViewModel.Loading
    ensures selected != 1 ==> vm.phoneContactsState == old(vm.phoneContactsState)
    ensures spinner == ShowSpinner(vm.randomContactsState, vm.phoneContactsState)
    ensures selected == 1 ==> spinner
  {
    if selected == 1 {
      vm.FetchContactsPhone();
    }
    spinner := ShowSpinner(vm.randomContactsState, vm.phoneContactsState);
  }

  /** After a tap, the offline read settles first: the spinner goes off exactly when the read
    * emits and the device feed is not loading, so a throwing read leaves it spinning until the
    * network fetch settles. */
  method SpinnerAfterOfflineRead(vm: ListViewModel.ContactsViewModel, daoThrows: bool) returns (spinner: bool)
    requires vm.Valid() && vm.randomContactsState == ListViewModel.Loading
    modifies vm`randomContactsState, vm`contactListRandom
    ensures vm.Valid() && vm.phoneContactsState == old(vm.phoneContactsState)
    ensures spinner == ShowSpinner(vm.randomContactsState, vm.phoneContactsState)
    ensures spinner <==> daoThrows || vm.phoneContactsState == ListViewModel.Loading
  {
    var _ := vm.CollectRandomOffline(daoThrows);
    spinner := ShowSpinner(vm.randomContactsState, vm.phoneContactsState);
  }

  /** The network fetch settles its feed in `Success` whatever the call did, so afterwards the
    * spinner shows only while the device feed loads. */
  method SpinnerAfterNetworkFetch(vm: ListViewModel.ContactsViewModel, call: ServiceCall, daoThrows: bool)
    returns (spinner: bool)
    requires vm.Valid()
    modifies vm`randomContactsState, vm.repository.dao
    ensures vm.Valid() && vm.phoneContactsState == old(vm.phoneContactsState)
    ensures spinner == ShowSpinner(vm.randomContactsState, vm.phoneContactsState)
    ensures spinner <==> vm.phoneContactsState == ListViewModel.Loading
  {
    vm.CollectRandomNetwork(call, daoThrows);
    spinner := ShowSpinner(vm.randomContactsState, vm.phoneContactsState);
  }

  /** The device read settles its feed in `Success` or an error, so afterwards the spinner shows
    * only while the random feed loads. */
  method SpinnerAfterDeviceRead(vm: ListViewModel.ContactsViewModel, query: ListViewModel.ProviderQuery)
    returns (spinner: bool)
    requires vm.Valid()
    modifies vm`phoneContactsState, vm`contactListPhone
    ensures vm.Valid() && vm.randomContactsState == old(vm.randomContactsState)
    ensures spinner == ShowSpinner(vm.randomContactsState, vm.phoneContactsState)
    ensures spinner <==> vm.randomContactsState == ListViewModel.Loading
  {
    vm.CollectPhone(query);
    spinner := ShowSpinner(vm.randomContactsState, vm.phoneContactsState);
  }
}
