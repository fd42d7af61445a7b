/** The contacts screen's logic: the search over the contact list, the checks on the
    add-contact form before the provider is asked, and the status labels. */
module ContactsScreen {
  import opened Wrappers
  import opened Entities
  import opened JsText
  import opened Storage
  import Connection

  /** A contact matches when its lower-cased name or id contains the lower-cased
      query. */
  predicate Matches(c: Contact, query: string) {
    Includes(ToLower(c.name), ToLower(query)) || Includes(ToLower(c.id), ToLower(query))
  }

  /** `filteredContacts`: `contacts.filter(...)` with `Matches`. */
  function FilteredContacts(cs: seq<Contact>, query: string): seq<Contact> {
    if |cs| == 0 then []
    else if Matches(cs[0], query) then [cs[0]] + FilteredContacts(cs[1..], query)
    else FilteredContacts(cs[1..], query)
  }

  /** The search keeps exactly the matching contacts. */
  lemma {:induction false} FilteredMembers(cs: seq<Contact>, query: string)
    ensures forall c :: c in FilteredContacts(cs, query) <==> c in cs && Matches(c, query)
  {
    if |cs| > 0 {
      FilteredMembers(cs[1..], query);
      assert cs == [cs[0]] + cs[1..];
    }
  }

  /** The search distributes over concatenation, so matches keep their order. */
  lemma {:induction false} FilteredKeepsOrder(a: seq<Contact>, b: seq<Contact>, query: string)
    ensures FilteredContacts(a + b, query) == FilteredContacts(a, query) + FilteredContacts(b, query)
  {
    if |a| > 0 {
      FilteredKeepsOrder(a[1..], b, query);
      assert (a + b)[1..] == a[1..] + b;
    } else {
      assert a + b == b;
    }
  }

  /** An empty query keeps every contact. */
  lemma {:induction false} EmptyQueryKeepsAll(cs: seq<Contact>)
    ensures FilteredContacts(cs, "") == cs
  {
    if |cs| > 0 {
      assert ToLower("") == "";
      IncludesEmpty(ToLower(cs[0].name));
      EmptyQueryKeepsAll(cs[1..]);
      assert cs == [cs[0]] + cs[1..];
    }
  }

  /** The case of the query does not matter. */
  lemma {:induction false} SearchIgnoresQueryCase(cs: seq<Contact>, query: string)
    ensures FilteredContacts(cs, ToLower(query)) == FilteredContacts(cs, query)
  {
    ToLowerIdempotent(query);
    if |cs| > 0 {
      SearchIgnoresQueryCase(cs[1..], query);
    }
  }

  /** Which check of the add-contact form failed. */
  datatype FormError = MissingId | BadIdFormat | MissingName

  /** The checks of `handleAddContact`, in order: an id is entered, it has the user-id
      format once trimmed, a name is entered. What passes is the trimmed pair. */
  function ValidateNewContact(idInput: string, nameInput: string): (r: Result<NewContact, FormError>)
    ensures r == Err(MissingId) <==> AllWhitespace(idInput)
    ensures r == Err(BadIdFormat) <==> !AllWhitespace(idInput) && !IsValidUserId(Trim(idInput))
    ensures r == Err(MissingName) <==> IsValidUserId(Trim(idInput)) && AllWhitespace(nameInput)
    ensures r.Ok? <==> IsValidUserId(Trim(idInput)) && !AllWhitespace(nameInput)
    ensures r.Ok? ==> r.value == NewContact(Trim(idInput), Trim(nameInput)) && r.value.name != ""
  {
    TrimEmptyIff(idInput);
    TrimEmptyIff(nameInput);
    var id := Trim(idInput);
    var name := Trim(nameInput);
    if |id| == 0 then Err(MissingId)
    else if !IsValidUserId(id) then Err(BadIdFormat)
    else if |name| == 0 then Err(MissingName)
    else Ok(NewContact(id, name))
  }

  /** What submitting the form can end in: a failed check, or the provider's answer. */
  datatype SubmitError = Form(error: FormError) | Provider(failure: Connection.AddContactFailure)

  /** `handleAddContact()`: the provider is asked only when every check passes, and
      then with the trimmed id and name; `storedAt` and `addedAt` are the clock
      readings of the store and of the provider. */
  method SubmitAddContact(provider: Connection.ConnectionProvider, idInput: string, nameInput: string,
                          storedAt: Time, addedAt: Time, writeOk: bool)
    returns (r: Result<(), SubmitError>)
    modifies provider, provider.storage
    ensures ValidateNewContact(idInput, nameInput).Err? ==>
      r == Err(Form(ValidateNewContact(idInput, nameInput).error)) &&
      provider.state == old(provider.state) && provider.storage.store == old(provider.storage.store)
    ensures provider.removals == old(provider.removals) && provider.callbackView == old(provider.callbackView)
    ensures provider.storage.timers == old(provider.storage.timers)
    ensures ValidateNewContact(idInput, nameInput).Ok? && HasContact(old(provider.state.contacts), Trim(idInput)) ==>
      r == Err(Provider(Connection.Duplicate))
    ensures ValidateNewContact(idInput, nameInput).Ok? ==>
      (r.Ok? <==> !HasContact(old(provider.state.contacts), Trim(idInput)) &&
                  !HasContact(old(provider.storage.Contacts()), Trim(idInput)) && writeOk)
    ensures r.Err? ==> provider.state == old(provider.state) && provider.storage.store == old(provider.storage.store)
    ensures r.Ok? ==>
      ValidateNewContact(idInput, nameInput).Ok? &&
      provider.storage.Contacts() == old(provider.storage.Contacts()) + [Contact(Trim(idInput), Trim(nameInput), Offline, storedAt, None)] &&
      provider.state.contacts == old(provider.state.contacts) + [Contact(Trim(idInput), Trim(nameInput), Offline, addedAt, None)]
  {
    var form := ValidateNewContact(idInput, nameInput);
    if form.Err? {
      return Err(Form(form.error));
    }
    var result := provider.AddContact(form.value, storedAt, addedAt, writeOk);
    if result.Err? {
      return Err(Provider(result.error));
    }
    r := Ok(());
  }

  /** `getStatusText(status)`. */
  function StatusText(status: ContactStatus): string {
    match status
    case Online => "En línea"
    case Connecting => "Conectando..."
    case Offline => "Desconectado"
  }

  /** Each status has a label of its own. */
  lemma StatusTextDistinct(a: ContactStatus, b: ContactStatus)
    ensures StatusText(a) == StatusText(b) ==> a == b
  {
  }
}
