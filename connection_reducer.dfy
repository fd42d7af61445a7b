/** `connectionReducer`: the state the connection provider keeps for the screens
    (contacts, live connections, the transport state, the open chat and each chat's
    messages), and the pure function that applies one action to it. */
module ConnectionReducer {
  import opened Wrappers
  import opened Entities
  import Storage
  import WebRtc

  /** An entry of `activeConnections`: `{ state, connectedAt }`. */
  datatype ActiveConnection = ActiveConnection(state: WebRtc.LinkState, connectedAt: Time)

  datatype SessionState = SessionState(
    contacts: seq<Contact>,
    activeConnections: map<string, ActiveConnection>,
    connectionState: WebRtc.LinkState,
    currentChat: Option<string>,
    messages: map<string, seq<Message>>,
    loading: bool,
    error: Option<string>)

  const InitialSessionState := SessionState([], map[], WebRtc.Disconnected, None, map[], false, None)

  datatype SessionAction =
    | SetLoading(on: bool)
    | SetContacts(contacts: seq<Contact>)
    | AddContact(contact: Contact)
    | UpdateContactStatus(contactId: string, status: ContactStatus, lastSeen: Time)
    | SetConnectionState(linkState: WebRtc.LinkState)
    | SetActiveConnection(contactId: string, connection: ActiveConnection)
    | RemoveActiveConnection(contactId: string)
    | SetCurrentChat(chat: Option<string>)
    | AddMessage(contactId: string, message: Message)
    | RemoveMessage(contactId: string, messageId: string)
    | SetMessages(contactId: string, log: seq<Message>)
    | SetError(text: string)
    | ClearError
    | Unrecognised(kind: string)

  /** `state.messages[contactId] || []`. */
  function MessagesOf(state: SessionState, contactId: string): seq<Message> {
    if contactId in state.messages then state.messages[contactId] else []
  }

  /** `contacts.map(...)` of `UPDATE_CONTACT_STATUS`: every contact with the id gets
      the new status and `lastSeen`. */
  function StatusUpdated(cs: seq<Contact>, id: string, status: ContactStatus, lastSeen: Time): seq<Contact> {
    seq(|cs|, k requires 0 <= k < |cs| => if cs[k].id == id then cs[k].(status := status, lastSeen := Some(lastSeen)) else cs[k])
  }

  /** `connectionReducer(state, action)`. Each action changes only the fields it is
      about; `SET_ERROR` is the one that touches two. */
  function Reduce(state: SessionState, action: SessionAction): (r: SessionState)
    ensures !(action.SetContacts? || action.AddContact? || action.UpdateContactStatus?) ==> r.contacts == state.contacts
    ensures !(action.SetActiveConnection? || action.RemoveActiveConnection?) ==> r.activeConnections == state.activeConnections
    ensures !action.SetConnectionState? ==> r.connectionState == state.connectionState
    ensures !action.SetCurrentChat? ==> r.currentChat == state.currentChat
    ensures !(action.AddMessage? || action.RemoveMessage? || action.SetMessages?) ==> r.messages == state.messages
    ensures !(action.SetLoading? || action.SetError?) ==> r.loading == state.loading
    ensures !(action.SetError? || action.ClearError?) ==> r.error == state.error
    ensures |r.contacts| == |state.contacts| + (if action.AddContact? then 1 else 0) || action.SetContacts?
  {
    match action
    case SetLoading(on) => state.(loading := on)
    case SetContacts(cs) => state.(contacts := cs)
    case AddContact(c) => state.(contacts := state.contacts + [c])
    case UpdateContactStatus(id, status, lastSeen) => state.(contacts := StatusUpdated(state.contacts, id, status, lastSeen))
    case SetConnectionState(s) => state.(connectionState := s)
    case SetActiveConnection(id, conn) => state.(activeConnections := state.activeConnections[id := conn])
    case RemoveActiveConnection(id) => state.(activeConnections := state.activeConnections - {id})
    case SetCurrentChat(chat) => state.(currentChat := chat)
    case AddMessage(id, m) => state.(messages := state.messages[id := MessagesOf(state, id) + [m]])
    case RemoveMessage(id, mid) => state.(messages := state.messages[id := RemoveById(MessagesOf(state, id), mid)])
    case SetMessages(id, log) => state.(messages := state.messages[id := log])
    case SetError(message) => state.(error := Some(message), loading := false)
    case ClearError => state.(error := None)
    case Unrecognised(_) => state
  }

  /** `ADD_MESSAGE` puts the message at the end of that contact's list, creating the
      list if needed; no other list and no other field changes. */
  lemma AddMessageAppends(state: SessionState, contactId: string, m: Message)
    ensures var r := Reduce(state, AddMessage(contactId, m));
      MessagesOf(r, contactId) == MessagesOf(state, contactId) + [m] &&
      (forall c :: c != contactId ==> MessagesOf(r, c) == MessagesOf(state, c)) &&
      r.messages.Keys == state.messages.Keys + {contactId} &&
      r.(messages := state.messages) == state
  {
  }

  /** `REMOVE_MESSAGE` keeps exactly the other messages of that contact, in order;
      a contact without a list ends up with an empty one. */
  lemma RemoveMessageFilters(state: SessionState, contactId: string, messageId: string)
    ensures var r := Reduce(state, RemoveMessage(contactId, messageId));
      (forall m :: m in MessagesOf(r, contactId) <==> m in MessagesOf(state, contactId) && m.id != messageId) &&
      !HasMessage(MessagesOf(r, contactId), messageId) &&
      (contactId !in state.messages ==> r.messages[contactId] == []) &&
      (forall c :: c != contactId ==> MessagesOf(r, c) == MessagesOf(state, c)) &&
      r.(messages := state.messages) == state
  {
    RemoveByIdMembers(MessagesOf(state, contactId), messageId);
    RemoveByIdErases(MessagesOf(state, contactId), messageId);
  }

  /** Removing a message that is no longer there changes nothing more. */
  lemma RemoveMessageIdempotent(state: SessionState, contactId: string, messageId: string)
    ensures var once := Reduce(state, RemoveMessage(contactId, messageId));
      Reduce(once, RemoveMessage(contactId, messageId)) == once
  {
    var once := Reduce(state, RemoveMessage(contactId, messageId));
    RemoveByIdIdempotent(MessagesOf(state, contactId), messageId);
    assert once.messages[contactId := RemoveById(MessagesOf(once, contactId), messageId)] == once.messages;
  }

  /** Adding a message with a fresh id and then removing it restores the list. */
  lemma AddThenRemove(state: SessionState, contactId: string, m: Message)
    requires !HasMessage(MessagesOf(state, contactId), m.id)
    ensures var r := Reduce(Reduce(state, AddMessage(contactId, m)), RemoveMessage(contactId, m.id));
      MessagesOf(r, contactId) == MessagesOf(state, contactId)
  {
    var log := MessagesOf(state, contactId);
    RemoveByIdAppend(log, [m], m.id);
    RemoveByIdAbsent(log, m.id);
    assert RemoveById([m], m.id) == [];
  }

  /** `UPDATE_CONTACT_STATUS` keeps the list's length and order, changes status and
      `lastSeen` of every contact with the id, and nothing else. */
  lemma UpdateStatusChangesOnlyMatches(state: SessionState, id: string, status: ContactStatus, lastSeen: Time)
    ensures var r := Reduce(state, UpdateContactStatus(id, status, lastSeen));
      |r.contacts| == |state.contacts| && ContactIds(r.contacts) == ContactIds(state.contacts) &&
      (forall k :: 0 <= k < |state.contacts| && state.contacts[k].id == id ==>
         r.contacts[k] == state.contacts[k].(status := status, lastSeen := Some(lastSeen))) &&
      (forall k :: 0 <= k < |state.contacts| && state.contacts[k].id != id ==> r.contacts[k] == state.contacts[k]) &&
      r.(contacts := state.contacts) == state
  {
  }

  /** When ids are unique, the reducer's update of every match and the store's update
      of the first match produce the same list. */
  lemma StatusUpdateAgreesWithStore(cs: seq<Contact>, id: string, status: ContactStatus, now: Time)
    requires UniqueIds(cs)
    ensures StatusUpdated(cs, id, status, now) == Storage.SetStatusOfFirst(cs, id, status, now)
  {
    var a := StatusUpdated(cs, id, status, now);
    var b := Storage.SetStatusOfFirst(cs, id, status, now);
    forall k | 0 <= k < |cs| ensures a[k] == b[k] {
      if cs[k].id == id {
        assert forall j :: 0 <= j < k ==> cs[j].id != id;
      }
    }
  }

  /** `SET_ACTIVE_CONNECTION` sets exactly one key; `REMOVE_ACTIVE_CONNECTION` deletes
      exactly that key; an entry added for a new key and removed again leaves the
      map as it was. */
  lemma ActiveConnectionKeys(state: SessionState, id: string, conn: ActiveConnection)
    ensures var r := Reduce(state, SetActiveConnection(id, conn));
      r.activeConnections.Keys == state.activeConnections.Keys + {id} && r.activeConnections[id] == conn &&
      (forall k :: k in state.activeConnections && k != id ==> r.activeConnections[k] == state.activeConnections[k])
    ensures var r := Reduce(state, RemoveActiveConnection(id));
      r.activeConnections.Keys == state.activeConnections.Keys - {id} &&
      (forall k :: k in r.activeConnections ==> r.activeConnections[k] == state.activeConnections[k])
    ensures id !in state.activeConnections ==>
      Reduce(Reduce(state, SetActiveConnection(id, conn)), RemoveActiveConnection(id)) == state
  {
    if id !in state.activeConnections {
      assert state.activeConnections[id := conn] - {id} == state.activeConnections;
    }
  }

  /** `SET_ERROR` also ends loading, and an unknown action leaves the state as it is. */
  lemma ErrorAndUnknownActions(state: SessionState, message: string, kind: string)
    ensures Reduce(state, SetError(message)) == state.(error := Some(message), loading := false)
    ensures Reduce(state, ClearError) == state.(error := None)
    ensures Reduce(state, Unrecognised(kind)) == state
  {
  }
}
