/** The connection provider (`ConnectionProvider`): the actions the screens call.
    Each one pairs calls on the store and on the transport with dispatches to the
    reducer, and `markMessageAsRead` arms a timer that drops the message from the
    provider's state. */
module Connection {
  import opened Wrappers
  import opened Entities
  import opened Storage
  import opened ConnectionReducer
  import WebRtc

  /** Why `addContact` refused. The store's own refusals are passed on as they are. */
  datatype AddContactFailure = InvalidIdFormat | Duplicate | StoreRefused(reason: AddContactError)

  /** The `messageData` a screen passes to `sendMessage`: the text `content`, or a
      file's base64 `data` with its name and type. */
  datatype Outgoing = Outgoing(kind: MessageKind, body: string, fileName: Option<string>, fileType: Option<string>)

  const SendFailedText := "Failed to send message via WebRTC"

  /** `if (contactId)`: a chat is open when its id is set and non-empty. */
  predicate ChatOpen(chat: Option<string>) {
    chat.Some? && chat.value != ""
  }

  /** The contact status a transport state stands for. */
  function StatusFor(linkState: WebRtc.LinkState): (s: ContactStatus)
    ensures s == Online <==> linkState == WebRtc.Connected
    ensures s != Online ==> s == Offline
  {
    if linkState == WebRtc.Connected then Online else Offline
  }

  /** `messageWithId`: the incoming frame with its id (a fresh one when it has none)
      and marked received and unread. */
  function ReceivedMessage(frame: WebRtc.WireMessage, freshId: string): (m: Message)
    ensures m.origin == Received && !m.read
    ensures frame.id != "" ==> m.id == frame.id
    ensures frame.id == "" ==> m.id == freshId
  {
    Message(if frame.id != "" then frame.id else freshId, frame.kind, frame.content,
            frame.fileName, frame.fileType, Received, frame.timestamp, false, None)
  }

  /** The message `sendMessage` records: the generated id, the data, created at
      `createdAt`. */
  function SentMessage(data: Outgoing, messageId: string, createdAt: Time): Message {
    Message(messageId, data.kind, data.body, data.fileName, data.fileType, Sent, createdAt, false, None)
  }

  /** The frame `sendMessage` hands to the transport for `data`, stamped `sentAt`. */
  function FrameOf(data: Outgoing, messageId: string, sentAt: Time): WebRtc.WireMessage {
    if data.kind == File
    then WebRtc.WireMessage(messageId, File, data.body, data.fileName, data.fileType, sentAt)
    else WebRtc.WireMessage(messageId, Text, data.body, None, None, sentAt)
  }

  /** The store after `updateContactStatus` has set the status of `contactId`,
      stamped `at`: the contact list is written back when the contact is in it and
      the write succeeds; chat logs, profile and settings stay as they were. */
  function StatusStored(store: Store, contactId: string, status: ContactStatus, at: Time, writeOk: bool): (r: Store)
    ensures ContactsIn(r) == if HasContact(ContactsIn(store), contactId) && writeOk
      then SetStatusOfFirst(ContactsIn(store), contactId, status, at) else ContactsIn(store)
    ensures forall c :: ChatIn(r, c) == ChatIn(store, c)
    ensures ProfileIn(r) == ProfileIn(store) && SettingsIn(r) == SettingsIn(store)
  {
    forall c ensures ChatKey(c) != ContactsKey {
      ChatKeyNotFixed(c);
    }
    if HasContact(ContactsIn(store), contactId) && writeOk
    then store[ContactsKey := ContactList(SetStatusOfFirst(ContactsIn(store), contactId, status, at))]
    else store
  }

  /** The provider's state after the given removal timers have fired, first to last. */
  function RemoveAll(state: SessionState, ts: seq<Timer>): SessionState {
    if |ts| == 0 then state
    else Reduce(RemoveAll(state, ts[..|ts| - 1]), RemoveMessage(ts[|ts| - 1].contactId, ts[|ts| - 1].messageId))
  }

  lemma RemoveAllSnoc(state: SessionState, ts: seq<Timer>, t: Timer)
    ensures RemoveAll(state, ts + [t]) == Reduce(RemoveAll(state, ts), RemoveMessage(t.contactId, t.messageId))
  {
    assert (ts + [t])[..|ts|] == ts;
  }

  /** After a batch of removals, a chat holds exactly the messages it held before
      whose id no removal for that chat named. */
  lemma {:induction false} RemoveAllChat(state: SessionState, ts: seq<Timer>, c: string)
    ensures forall m :: m in MessagesOf(RemoveAll(state, ts), c) <==> m in MessagesOf(state, c) && !Targets(ts, c, m.id)
    decreases |ts|
  {
    if |ts| > 0 {
      var init, t := ts[..|ts| - 1], ts[|ts| - 1];
      RemoveAllChat(state, init, c);
      RemoveMessageFilters(RemoveAll(state, init), t.contactId, t.messageId);
      forall id: string ensures Targets(ts, c, id) <==> Targets(init, c, id) || (t.contactId == c && t.messageId == id) {
        if Targets(init, c, id) {
          var k :| 0 <= k < |init| && init[k].contactId == c && init[k].messageId == id;
          assert ts[k] == init[k];
        }
      }
    }
  }

  /** Removals touch only the message lists. */
  lemma {:induction false} RemoveAllKeepsRest(state: SessionState, ts: seq<Timer>)
    ensures RemoveAll(state, ts).(messages := state.messages) == state
    decreases |ts|
  {
    if |ts| > 0 {
      RemoveAllKeepsRest(state, ts[..|ts| - 1]);
    }
  }

  /** The self-destruct guarantee on both sides: once the timer the store armed for
      a read message and the removal the provider armed for it are due and have run,
      the message is in neither the stored log nor the provider's list. */
  lemma ReadMessageVanishes(store: Store, stored: seq<Timer>, state: SessionState, removals: seq<Timer>,
                            deletion: Timer, removal: Timer, now: Time)
    requires deletion in stored && removal in removals && deletion.due <= now && removal.due <= now
    requires removal.contactId == deletion.contactId && removal.messageId == deletion.messageId
    ensures !HasMessage(ChatIn(DeleteAll(store, Due(stored, now)), deletion.contactId), deletion.messageId)
    ensures !HasMessage(MessagesOf(RemoveAll(state, Due(removals, now)), deletion.contactId), deletion.messageId)
  {
    SelfDestruct(store, stored, deletion, now);
    DueOrPending(removals, now);
    var due := Due(removals, now);
    var k :| 0 <= k < |due| && due[k] == removal by { assert removal in due; }
    RemoveAllChat(state, due, removal.contactId);
    var log := MessagesOf(RemoveAll(state, due), removal.contactId);
    forall j | 0 <= j < |log| ensures log[j].id != removal.messageId {
      assert log[j] in log;
    }
  }

  class ConnectionProvider {
    var state: SessionState
    /** The pending `setTimeout`s of `markMessageAsRead`, oldest first. */
    var removals: seq<Timer>
    /** The provider state the registered transport callbacks read. They are
        registered once, when the provider mounts, and keep reading the state of
        that first render. */
    var callbackView: SessionState
    const storage: StorageService
    const rtc: WebRtc.WebRtcService

    constructor (storage: StorageService, rtc: WebRtc.WebRtcService)
      ensures state == InitialSessionState && removals == [] && callbackView == InitialSessionState
      ensures this.storage == storage && this.rtc == rtc
    {
      state := InitialSessionState;
      removals := [];
      callbackView := InitialSessionState;
      this.storage := storage;
      this.rtc := rtc;
    }

    /** `isConnectedToContact(contactId)`. */
    predicate IsConnectedToContact(contactId: string)
      reads this, rtc
    {
      contactId in state.activeConnections && rtc.IsConnected()
    }

    method Dispatch(action: SessionAction)
      modifies this
      ensures state == Reduce(old(state), action)
      ensures removals == old(removals) && callbackView == old(callbackView)
    {
      state := Reduce(state, action);
    }

    /** `setupWebRTCCallbacks()`: registers both transport callbacks. */
    method SetupCallbacks()
      modifies rtc
      ensures rtc.hasMessageCallback && rtc.hasStateCallback
      ensures rtc.Session() == old(rtc.Session()).(hasMessageCallback := true, hasStateCallback := true)
      ensures rtc.sent == old(rtc.sent) && rtc.delivered == old(rtc.delivered) && rtc.notified == old(rtc.notified)
    {
      rtc.SetOnMessageReceived();
      rtc.SetOnConnectionStateChange();
    }

    /** The mount effect: `loadContacts()`, then `setupWebRTCCallbacks()`. The
        callbacks it registers close over the state of the render the effect runs
        in, which is the state before the contacts load. */
    method Mount()
      modifies this, rtc
      ensures callbackView == old(state) && removals == old(removals)
      ensures state == old(state).(contacts := storage.Contacts(), loading := false)
      ensures rtc.Session() == old(rtc.Session()).(hasMessageCallback := true, hasStateCallback := true)
      ensures rtc.sent == old(rtc.sent) && rtc.delivered == old(rtc.delivered) && rtc.notified == old(rtc.notified)
    {
      var rendered := state;
      LoadContacts();
      SetupCallbacks();
      callbackView := rendered;
    }

    /** `loadContacts()`: the stored list becomes the state's. */
    method LoadContacts()
      modifies this
      ensures state == old(state).(contacts := storage.Contacts(), loading := false)
      ensures removals == old(removals) && callbackView == old(callbackView)
    {
      Dispatch(SessionAction.SetLoading(true));
      var contacts := storage.Contacts();
      Dispatch(SetContacts(contacts));
      Dispatch(SessionAction.SetLoading(false));
    }

    /** `addContact(contactData)`: the id format is checked first, then the state's
        list for a duplicate, then the store adds the contact, stamped `storedAt`;
        only then does the state get it, offline and stamped `addedAt`. */
    method AddContact(contactData: NewContact, storedAt: Time, addedAt: Time, writeOk: bool) returns (r: Result<(), AddContactFailure>)
      modifies this, storage
      ensures removals == old(removals) && callbackView == old(callbackView) && storage.timers == old(storage.timers)
      ensures !IsValidUserId(contactData.id) ==> r == Err(InvalidIdFormat)
      ensures IsValidUserId(contactData.id) && HasContact(old(state.contacts), contactData.id) ==> r == Err(Duplicate)
      ensures IsValidUserId(contactData.id) && !HasContact(old(state.contacts), contactData.id) ==>
        (r.Ok? <==> !HasContact(old(storage.Contacts()), contactData.id) && writeOk)
      ensures r.Ok? ==>
        state == Reduce(old(state), SessionAction.AddContact(Contact(contactData.id, contactData.name, Offline, addedAt, None))) &&
        storage.store == old(storage.store)[ContactsKey :=
          ContactList(old(storage.Contacts()) + [Contact(contactData.id, contactData.name, Offline, storedAt, None)])]
      ensures r.Err? ==> state == old(state) && storage.store == old(storage.store)
    {
      if !IsValidUserId(contactData.id) {
        return Err(InvalidIdFormat);
      }
      var existing := FindFirst(state.contacts, (c: Contact) => c.id == contactData.id);
      if existing.Some? {
        return Err(Duplicate);
      }
      var result := storage.AddContact(contactData, storedAt, writeOk);
      if result.Err? {
        return Err(StoreRefused(result.error));
      }
      Dispatch(SessionAction.AddContact(Contact(contactData.id, contactData.name, Offline, addedAt, None)));
      r := Ok(());
    }

    /** `initiateConnection(contactId)`: connecting, then the offer, or failed. Nothing
        is sent and the registered callbacks stay. */
    method InitiateConnection(contactId: string, offerSdp: Option<string>) returns (r: Result<WebRtc.Signal, WebRtc.RtcError>)
      modifies this, rtc
      ensures removals == old(removals) && callbackView == old(callbackView) && rtc.isInitiator
      ensures rtc.sent == old(rtc.sent) && rtc.delivered == old(rtc.delivered) && rtc.notified == old(rtc.notified)
      ensures rtc.hasMessageCallback == old(rtc.hasMessageCallback) && rtc.hasStateCallback == old(rtc.hasStateCallback)
      ensures r.Ok? <==> offerSdp.Some?
      ensures r.Ok? ==> r.value == WebRtc.Signal(WebRtc.Offer, offerSdp.value) && rtc.GenerateSignalingData() == Some(r.value)
      ensures state == old(state).(connectionState := if r.Ok? then WebRtc.Connecting else WebRtc.Failed)
    {
      Dispatch(SetConnectionState(WebRtc.Connecting));
      r := rtc.InitializeConnection(offerSdp);
      if r.Err? {
        Dispatch(SetConnectionState(WebRtc.Failed));
      }
    }

    /** `respondToConnection(contactId, offerData)`: connecting, then the answer, or
        failed. `offerAccepted` and `answerSdp` are the library's answers, as in
        `HandleOffer`. Nothing is sent, and the callbacks and the channel stay. */
    method RespondToConnection(contactId: string, offerData: WebRtc.Signal, offerAccepted: bool, answerSdp: Option<string>)
      returns (r: Result<WebRtc.Signal, WebRtc.RtcError>)
      modifies this, rtc
      ensures removals == old(removals) && callbackView == old(callbackView) && !rtc.isInitiator
      ensures rtc.sent == old(rtc.sent) && rtc.delivered == old(rtc.delivered) && rtc.notified == old(rtc.notified)
      ensures rtc.hasMessageCallback == old(rtc.hasMessageCallback) && rtc.hasStateCallback == old(rtc.hasStateCallback)
      ensures rtc.dataChannel == old(rtc.dataChannel)
      ensures r.Ok? <==> offerAccepted && answerSdp.Some?
      ensures r.Ok? ==> r.value == WebRtc.Signal(WebRtc.Answer, answerSdp.value) && rtc.GenerateSignalingData() == Some(r.value)
      ensures state == old(state).(connectionState := if r.Ok? then WebRtc.Connecting else WebRtc.Failed)
    {
      Dispatch(SetConnectionState(WebRtc.Connecting));
      r := rtc.HandleOffer(offerData, offerAccepted, answerSdp);
      if r.Err? {
        Dispatch(SetConnectionState(WebRtc.Failed));
      }
    }

    /** `updateContactStatus(contactId, status)`: the store is asked first and
        stamps the contact `storedAt`; the state follows, stamped `seenAt`, when the
        store knows the contact. */
    method UpdateContactStatus(contactId: string, status: ContactStatus, storedAt: Time, seenAt: Time, writeOk: bool)
      returns (found: bool)
      modifies this, storage
      ensures removals == old(removals) && callbackView == old(callbackView) && storage.timers == old(storage.timers)
      ensures found == HasContact(old(storage.Contacts()), contactId)
      ensures state == if found then Reduce(old(state), SessionAction.UpdateContactStatus(contactId, status, seenAt)) else old(state)
      ensures storage.store == StatusStored(old(storage.store), contactId, status, storedAt, writeOk)
    {
      found := storage.UpdateContactStatus(contactId, status, storedAt, writeOk);
      if found {
        Dispatch(SessionAction.UpdateContactStatus(contactId, status, seenAt));
      }
    }

    /** `completeConnection(contactId, answerData)`: the answer is applied; on
        success the contact gets an entry connected at `connectedAt` and goes
        online. The result is a success whatever the status update does. */
    method CompleteConnection(contactId: string, answerData: WebRtc.Signal, accepted: bool,
                              connectedAt: Time, storedAt: Time, seenAt: Time, writeOk: bool)
      returns (r: Result<(), WebRtc.RtcError>)
      modifies this, storage, rtc
      ensures removals == old(removals) && callbackView == old(callbackView) && storage.timers == old(storage.timers)
      ensures r.Ok? <==> old(rtc.peerConnection).Some? && accepted
      ensures rtc.sent == old(rtc.sent) && rtc.delivered == old(rtc.delivered) && rtc.notified == old(rtc.notified)
      ensures r.Err? ==>
        state == old(state).(connectionState := WebRtc.Failed) && storage.store == old(storage.store) && rtc.Session() == old(rtc.Session())
      ensures r.Ok? ==>
        rtc.Session() == old(rtc.Session()).(peerConnection :=
          Some(old(rtc.peerConnection).value.(remoteDescription := Some(WebRtc.Signal(WebRtc.Answer, answerData.sdp)))))
      ensures r.Ok? ==>
        var found := HasContact(old(storage.Contacts()), contactId);
        state == old(state).(
          activeConnections := old(state.activeConnections)[contactId := ActiveConnection(WebRtc.Connected, connectedAt)],
          contacts := if found then StatusUpdated(old(state.contacts), contactId, Online, seenAt) else old(state.contacts)) &&
        storage.store == StatusStored(old(storage.store), contactId, Online, storedAt, writeOk) &&
        IsConnectedToContact(contactId) == rtc.IsConnected()
    {
      r := rtc.HandleAnswer(answerData, accepted);
      if r.Err? {
        Dispatch(SetConnectionState(WebRtc.Failed));
        return;
      }
      Dispatch(SetActiveConnection(contactId, ActiveConnection(WebRtc.Connected, connectedAt)));
      var _ := UpdateContactStatus(contactId, Online, storedAt, seenAt, writeOk);
    }

    /** The body of `handleMessageReceived(message)` with `chat` as the open chat it
        reads: with a chat open, the message joins that chat in the state and in the
        store; with none it is dropped. `freshId` is the `uuidv4()` used when the
        frame carries no id. */
    method ReceiveInChat(chat: Option<string>, frame: WebRtc.WireMessage, freshId: string, now: Time, writeOk: bool)
      modifies this, storage
      ensures removals == old(removals) && callbackView == old(callbackView) && storage.timers == old(storage.timers)
      ensures !ChatOpen(chat) ==> state == old(state) && storage.store == old(storage.store)
      ensures ChatOpen(chat) ==>
        var m := ReceivedMessage(frame, freshId);
        state == Reduce(old(state), AddMessage(chat.value, m)) &&
        storage.store == if writeOk
          then old(storage.store)[ChatKey(chat.value) := ChatLog(old(storage.ChatMessages(chat.value)) + [m.(timestamp := now)])]
          else old(storage.store)
    {
      if ChatOpen(chat) {
        var m := ReceivedMessage(frame, freshId);
        Dispatch(AddMessage(chat.value, m));
        var _ := storage.SaveChatMessage(chat.value, m, now, writeOk);
      }
    }

    /** `handleMessageReceived(message)` reading the provider's current open chat:
        the behaviour the design describes. */
    method HandleMessageReceived(frame: WebRtc.WireMessage, freshId: string, now: Time, writeOk: bool)
      modifies this, storage
      ensures removals == old(removals) && callbackView == old(callbackView) && storage.timers == old(storage.timers)
      ensures !ChatOpen(old(state.currentChat)) ==> state == old(state) && storage.store == old(storage.store)
      ensures ChatOpen(old(state.currentChat)) ==>
        var chat := old(state.currentChat).value;
        var m := ReceivedMessage(frame, freshId);
        state == Reduce(old(state), AddMessage(chat, m)) &&
        storage.store == if writeOk
          then old(storage.store)[ChatKey(chat) := ChatLog(old(storage.ChatMessages(chat)) + [m.(timestamp := now)])]
          else old(storage.store)
    {
      ReceiveInChat(state.currentChat, frame, freshId, now, writeOk);
    }

    /** `handleMessageReceived(message)` as the transport calls it: the callback
        registered at mount reads the open chat of that render, not the current
        one. */
    method HandleMessageReceivedAsRegistered(frame: WebRtc.WireMessage, freshId: string, now: Time, writeOk: bool)
      modifies this, storage
      ensures removals == old(removals) && callbackView == old(callbackView) && storage.timers == old(storage.timers)
      ensures !ChatOpen(callbackView.currentChat) ==> state == old(state) && storage.store == old(storage.store)
      ensures ChatOpen(callbackView.currentChat) ==>
        var chat := callbackView.currentChat.value;
        var m := ReceivedMessage(frame, freshId);
        state == Reduce(old(state), AddMessage(chat, m)) &&
        storage.store == if writeOk
          then old(storage.store)[ChatKey(chat) := ChatLog(old(storage.ChatMessages(chat)) + [m.(timestamp := now)])]
          else old(storage.store)
    {
      ReceiveInChat(callbackView.currentChat, frame, freshId, now, writeOk);
    }

    /** The body of `handleConnectionStateChange(newState)` with `chat` as the open
        chat it reads: the state records the transport state, and that chat's
        contact goes online exactly when it is `connected`, offline otherwise. */
    method ChangeStateInChat(chat: Option<string>, newState: WebRtc.LinkState, storedAt: Time, seenAt: Time, writeOk: bool)
      modifies this, storage
      ensures removals == old(removals) && callbackView == old(callbackView) && storage.timers == old(storage.timers)
      ensures
        var found := ChatOpen(chat) && HasContact(old(storage.Contacts()), chat.value);
        state == old(state).(connectionState := newState,
          contacts := if found then StatusUpdated(old(state.contacts), chat.value, StatusFor(newState), seenAt) else old(state.contacts))
      ensures storage.store == if ChatOpen(chat)
        then StatusStored(old(storage.store), chat.value, StatusFor(newState), storedAt, writeOk)
        else old(storage.store)
    {
      Dispatch(SetConnectionState(newState));
      if ChatOpen(chat) {
        var _ := UpdateContactStatus(chat.value, StatusFor(newState), storedAt, seenAt, writeOk);
      }
    }

    /** `handleConnectionStateChange(newState)` reading the provider's current open
        chat: the behaviour the design describes. */
    method HandleConnectionStateChange(newState: WebRtc.LinkState, storedAt: Time, seenAt: Time, writeOk: bool)
      modifies this, storage
      ensures removals == old(removals) && callbackView == old(callbackView) && storage.timers == old(storage.timers)
      ensures
        var chat := old(state.currentChat);
        var found := ChatOpen(chat) && HasContact(old(storage.Contacts()), chat.value);
        state == old(state).(connectionState := newState,
          contacts := if found then StatusUpdated(old(state.contacts), chat.value, StatusFor(newState), seenAt) else old(state.contacts))
      ensures storage.store == if ChatOpen(old(state.currentChat))
        then StatusStored(old(storage.store), old(state.currentChat).value, StatusFor(newState), storedAt, writeOk)
        else old(storage.store)
    {
      ChangeStateInChat(state.currentChat, newState, storedAt, seenAt, writeOk);
    }

    /** `handleConnectionStateChange(newState)` as the transport calls it: the
        callback registered at mount reads the open chat of that render. */
    method HandleConnectionStateChangeAsRegistered(newState: WebRtc.LinkState, storedAt: Time, seenAt: Time, writeOk: bool)
      modifies this, storage
      ensures removals == old(removals) && callbackView == old(callbackView) && storage.timers == old(storage.timers)
      ensures
        var chat := callbackView.currentChat;
        var found := ChatOpen(chat) && HasContact(old(storage.Contacts()), chat.value);
        state == old(state).(connectionState := newState,
          contacts := if found then StatusUpdated(old(state.contacts), chat.value, StatusFor(newState), seenAt) else old(state.contacts))
      ensures storage.store == if ChatOpen(callbackView.currentChat)
        then StatusStored(old(storage.store), callbackView.currentChat.value, StatusFor(newState), storedAt, writeOk)
        else old(storage.store)
    {
      ChangeStateInChat(callbackView.currentChat, newState, storedAt, seenAt, writeOk);
    }

    /** `sendMessage(contactId, messageData)`: text and files go over the transport;
        any other kind is never sent. Only a sent message enters the state and the
        store; the store's answer does not change the result. `messageId` is the
        `uuidv4()` the message gets; the message is created at `createdAt`, the
        frame stamped `sentAt` and the stored copy `storedAt`. */
    method SendMessage(contactId: string, data: Outgoing, messageId: string,
                       createdAt: Time, sentAt: Time, storedAt: Time, writeOk: bool)
      returns (r: Result<string, string>)
      modifies this, storage, rtc
      ensures removals == old(removals) && callbackView == old(callbackView) && storage.timers == old(storage.timers)
      ensures rtc.Session() == old(rtc.Session()) && rtc.delivered == old(rtc.delivered) && rtc.notified == old(rtc.notified)
      ensures r.Ok? <==> data.kind != Audio && old(rtc.CanSend())
      ensures r.Ok? ==>
        var m := SentMessage(data, messageId, createdAt);
        r.value == messageId && rtc.sent == old(rtc.sent) + [FrameOf(data, messageId, sentAt)] &&
        state == Reduce(old(state), AddMessage(contactId, m)) &&
        storage.store == if writeOk
          then old(storage.store)[ChatKey(contactId) := ChatLog(old(storage.ChatMessages(contactId)) + [m.(timestamp := storedAt)])]
          else old(storage.store)
      ensures r.Err? ==>
        r.error == SendFailedText && rtc.sent == old(rtc.sent) && state == old(state) && storage.store == old(storage.store)
    {
      var success := false;
      if data.kind == Text {
        success := rtc.SendTextMessage(data.body, messageId, sentAt);
      } else if data.kind == File {
        success := rtc.SendFile(data.body, data.fileName, data.fileType, messageId, sentAt);
      }
      if !success {
        return Err(SendFailedText);
      }
      var m := SentMessage(data, messageId, createdAt);
      Dispatch(AddMessage(contactId, m));
      var _ := storage.SaveChatMessage(contactId, m, storedAt, writeOk);
      r := Ok(messageId);
    }

    /** `markMessageAsRead(contactId, messageId)`: the store marks the message read
        at `readAt` and arms its own deletion at `storeArmedAt`; whatever it answers,
        a removal from the state is armed at `armedAt`, `SelfDestructDelay` later. */
    method MarkMessageAsRead(contactId: string, messageId: string, readAt: Time, storeArmedAt: Time, armedAt: Time, writeOk: bool)
      modifies this, storage
      ensures removals == old(removals) + [Timer(armedAt + SelfDestructDelay, contactId, messageId)]
      ensures state == old(state) && callbackView == old(callbackView)
      ensures var ok := HasMessage(old(storage.ChatMessages(contactId)), messageId) && writeOk;
        storage.timers == old(storage.timers) + (if ok then [Timer(storeArmedAt + SelfDestructDelay, contactId, messageId)] else []) &&
        storage.store == if ok
          then old(storage.store)[ChatKey(contactId) := ChatLog(MarkFirstRead(old(storage.ChatMessages(contactId)), messageId, readAt))]
          else old(storage.store)
    {
      var _ := storage.MarkMessageAsRead(contactId, messageId, readAt, storeArmedAt, writeOk);
      removals := removals + [Timer(armedAt + SelfDestructDelay, contactId, messageId)];
    }

    /** Runs, in the order they were armed, the removals whose time has come. */
    method FireRemovals(now: Time)
      modifies this
      ensures state == RemoveAll(old(state), Due(old(removals), now))
      ensures removals == Pending(old(removals), now) && callbackView == old(callbackView)
    {
      var queue := removals;
      var kept: seq<Timer> := [];
      for i := 0 to |queue|
        invariant state == RemoveAll(old(state), Due(queue[..i], now))
        invariant kept == Pending(queue[..i], now)
        invariant callbackView == old(callbackView)
      {
        QueueStep(map[], queue, i, now);
        var t := queue[i];
        if t.due <= now {
          RemoveAllSnoc(old(state), Due(queue[..i], now), t);
          Dispatch(RemoveMessage(t.contactId, t.messageId));
        } else {
          kept := kept + [t];
          assert Due(queue[..i], now) + [] == Due(queue[..i], now);
        }
      }
      assert queue[..|queue|] == queue;
      removals := kept;
    }

    /** The clock reaches `now`: the store's deletions and the provider's removals
        that are due both run. */
    method Tick(now: Time)
      modifies this, storage
      ensures storage.store == DeleteAll(old(storage.store), Due(old(storage.timers), now))
      ensures storage.timers == Pending(old(storage.timers), now)
      ensures state == RemoveAll(old(state), Due(old(removals), now))
      ensures removals == Pending(old(removals), now) && callbackView == old(callbackView)
    {
      storage.FireTimers(now);
      FireRemovals(now);
    }

    /** `loadChatMessages(contactId)`: the stored log becomes the state's list. */
    method LoadChatMessages(contactId: string) returns (messages: seq<Message>)
      modifies this
      ensures messages == storage.ChatMessages(contactId)
      ensures state == Reduce(old(state), SetMessages(contactId, messages))
      ensures removals == old(removals) && callbackView == old(callbackView)
    {
      messages := storage.ChatMessages(contactId);
      Dispatch(SetMessages(contactId, messages));
    }

    /** `setCurrentChat(contactId)`: opens the chat and loads its messages. */
    method SetCurrentChat(chat: Option<string>)
      modifies this
      ensures removals == old(removals) && callbackView == old(callbackView) && state.currentChat == chat
      ensures ChatOpen(chat) ==>
        state == old(state).(currentChat := chat, messages := old(state.messages)[chat.value := storage.ChatMessages(chat.value)])
      ensures !ChatOpen(chat) ==> state == old(state).(currentChat := chat)
    {
      Dispatch(SessionAction.SetCurrentChat(chat));
      if ChatOpen(chat) {
        var _ := LoadChatMessages(chat.value);
      }
    }

    /** `disconnectFromContact(contactId)`: the transport is closed, the entry
        removed, the contact goes offline (stamped `storedAt` in the store and
        `seenAt` in the state), and its chat is closed if open. Afterwards no
        contact counts as connected. */
    method DisconnectFromContact(contactId: string, storedAt: Time, seenAt: Time, writeOk: bool)
      modifies this, storage, rtc
      ensures removals == old(removals) && callbackView == old(callbackView) && storage.timers == old(storage.timers)
      ensures !rtc.IsConnected() && forall c :: !IsConnectedToContact(c)
      ensures rtc.Session() == WebRtc.SessionView(None, None, None, None, false, WebRtc.Disconnected, old(rtc.hasMessageCallback), old(rtc.hasStateCallback))
      ensures rtc.sent == old(rtc.sent) && rtc.delivered == old(rtc.delivered) && rtc.notified == old(rtc.notified)
      ensures
        var found := HasContact(old(storage.Contacts()), contactId);
        state == old(state).(
          activeConnections := old(state.activeConnections) - {contactId},
          currentChat := if old(state.currentChat) == Some(contactId) then None else old(state.currentChat),
          contacts := if found then StatusUpdated(old(state.contacts), contactId, Offline, seenAt) else old(state.contacts))
      ensures storage.store == StatusStored(old(storage.store), contactId, Offline, storedAt, writeOk)
    {
      rtc.CloseConnection();
      Dispatch(RemoveActiveConnection(contactId));
      var wasOpen := state.currentChat == Some(contactId);
      var _ := UpdateContactStatus(contactId, Offline, storedAt, seenAt, writeOk);
      if wasOpen {
        Dispatch(SessionAction.SetCurrentChat(None));
      }
    }

    /** `clearError()`. */
    method ClearError()
      modifies this
      ensures state == old(state).(error := None) && removals == old(removals) && callbackView == old(callbackView)
    {
      Dispatch(SessionAction.ClearError);
    }
  }

  /** A provider over an empty store and an idle transport, mounted. */
  method MountedProvider() returns (p: ConnectionProvider)
    ensures fresh(p) && fresh(p.storage) && fresh(p.rtc)
    ensures p.state == InitialSessionState && p.callbackView == InitialSessionState
    ensures p.removals == [] && p.storage.store == map[] && p.storage.timers == []
  {
    var storage := new StorageService();
    var rtc := new WebRtc.WebRtcService();
    p := new ConnectionProvider(storage, rtc);
    p.Mount();
  }

  /** A message arriving in an open chat, delivered once to the callback as it is
      registered and once to the callback the design describes, each in a freshly
      mounted provider over an empty store: the registered one drops it from both
      the provider's list and the store, the other keeps it in both. */
  method ReceivedWhileChatOpen(chat: string, frame: WebRtc.WireMessage, freshId: string, now: Time)
    returns (shownAsRegistered: seq<Message>, storedAsRegistered: seq<Message>, shown: seq<Message>, stored: seq<Message>)
    ensures shownAsRegistered == [] && storedAsRegistered == []
    ensures chat != "" ==>
      var m := ReceivedMessage(frame, freshId);
      shown == [m] && stored == [m.(timestamp := now)]
  {
    var p := MountedProvider();
    p.SetCurrentChat(Some(chat));
    p.HandleMessageReceivedAsRegistered(frame, freshId, now, true);
    shownAsRegistered := MessagesOf(p.state, chat);
    storedAsRegistered := p.storage.ChatMessages(chat);

    var q := MountedProvider();
    q.SetCurrentChat(Some(chat));
    q.HandleMessageReceived(frame, freshId, now, true);
    shown := MessagesOf(q.state, chat);
    stored := q.storage.ChatMessages(chat);
  }

  /** A freshly mounted provider that has saved `contactData`, both copies stamped
      `now`, and opened its chat. */
  method ProviderWithOpenChat(contactData: NewContact, now: Time) returns (p: ConnectionProvider)
    ensures fresh(p) && fresh(p.storage) && fresh(p.rtc) && p.callbackView == InitialSessionState
    ensures IsValidUserId(contactData.id) ==>
      var added := Contact(contactData.id, contactData.name, Offline, now, None);
      p.state.contacts == [added] && p.storage.Contacts() == [added] && p.state.currentChat == Some(contactData.id)
  {
    p := MountedProvider();
    assert !HasContact(p.storage.Contacts(), contactData.id);
    var _ := p.AddContact(contactData, now, now, true);
    p.SetCurrentChat(Some(contactData.id));
  }

  /** The transport reporting `connected` while a saved contact's chat is open,
      delivered to each callback in a freshly mounted provider: the registered one
      leaves the contact offline, the other puts it online. */
  method ConnectedWhileChatOpen(contactData: NewContact, now: Time)
    returns (asRegistered: seq<Contact>, contacts: seq<Contact>)
    ensures IsValidUserId(contactData.id) ==>
      asRegistered == [Contact(contactData.id, contactData.name, Offline, now, None)] &&
      contacts == [Contact(contactData.id, contactData.name, Online, now, Some(now))]
  {
    var p := ProviderWithOpenChat(contactData, now);
    p.HandleConnectionStateChangeAsRegistered(WebRtc.Connected, now, now, true);
    asRegistered := p.state.contacts;

    var q := ProviderWithOpenChat(contactData, now);
    if IsValidUserId(contactData.id) {
      assert HasContact(q.storage.Contacts(), contactData.id) by {
        assert q.storage.Contacts()[0].id == contactData.id;
      }
    }
    q.HandleConnectionStateChange(WebRtc.Connected, now, now, true);
    contacts := q.state.contacts;
  }
}
