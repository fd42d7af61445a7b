/** The local store of the app (`StorageService`): a key-value store that holds the
    user profile, the contact list, the settings and one chat log per contact, plus
    the user-id format and generator, and the self-destruct timers armed when a
    message is read. */
module Storage {
  import opened Wrappers
  import opened Entities
  import JsText

  const UserProfileKey := "@efimero_user_profile"
  const ContactsKey := "@efimero_contacts"
  const SettingsKey := "@efimero_settings"
  const ChatHistoryKey := "@efimero_chat_history"

  /** `Object.values(STORAGE_KEYS)`. */
  const FixedKeys: seq<string> := [UserProfileKey, ContactsKey, SettingsKey, ChatHistoryKey]

  /** Milliseconds between marking a message read and erasing it. */
  const SelfDestructDelay: nat := 5000

  /** The key of one contact's chat log: `${CHAT_HISTORY}_${contactId}`. */
  function ChatKey(contactId: string): string {
    ChatHistoryKey + "_" + contactId
  }

  /** Distinct contacts have distinct chat keys, and no chat key is one of the fixed
      keys, so writing a chat log never touches anything else. */
  lemma ChatKeyInjective(a: string, b: string)
    ensures ChatKey(a) == ChatKey(b) ==> a == b
  {
    if ChatKey(a) == ChatKey(b) {
      var n := |ChatHistoryKey + "_"|;
      assert a == ChatKey(a)[n..] && b == ChatKey(b)[n..];
    }
  }

  lemma ChatKeyNotFixed(c: string)
    ensures ChatKey(c) != UserProfileKey && ChatKey(c) != ContactsKey
    ensures ChatKey(c) != SettingsKey && ChatKey(c) != ChatHistoryKey
    ensures JsText.StartsWith(ChatKey(c), ChatHistoryKey)
  {
    assert ChatKey(c)[9] == 'c' && ChatKey(c)[10] == 'h';
    assert |ChatKey(c)| > |ChatHistoryKey|;
    assert ChatKey(c)[..|ChatHistoryKey|] == ChatHistoryKey;
  }

  datatype Settings = Settings(language: string, theme: string, notifications: bool)

  /** What `getSettings` answers when nothing is stored. */
  const DefaultSettings := Settings("es", "dark", true)

  /** A stored value, after `JSON.parse`. */
  datatype StoredValue =
    | ProfileData(profile: Profile)
    | ContactList(contacts: seq<Contact>)
    | SettingsData(settings: Settings)
    | ChatLog(messages: seq<Message>)

  type Store = map<string, StoredValue>

  /** `getContacts`: the stored list, or the empty list. */
  function ContactsIn(store: Store): (r: seq<Contact>)
    ensures ContactsKey !in store ==> r == []
    ensures ContactsKey in store && store[ContactsKey].ContactList? ==> r == store[ContactsKey].contacts
  {
    if ContactsKey in store && store[ContactsKey].ContactList? then store[ContactsKey].contacts else []
  }

  /** `getChatMessages`: the stored log of the contact, or the empty log. */
  function ChatIn(store: Store, contactId: string): (r: seq<Message>)
    ensures ChatKey(contactId) !in store ==> r == []
    ensures ChatKey(contactId) in store && store[ChatKey(contactId)].ChatLog? ==> r == store[ChatKey(contactId)].messages
  {
    var key := ChatKey(contactId);
    if key in store && store[key].ChatLog? then store[key].messages else []
  }

  /** `getUserProfile`: the stored profile, or `null`. */
  function ProfileIn(store: Store): (r: Option<Profile>)
    ensures UserProfileKey !in store ==> r == None
    ensures UserProfileKey in store && store[UserProfileKey].ProfileData? ==> r == Some(store[UserProfileKey].profile)
  {
    if UserProfileKey in store && store[UserProfileKey].ProfileData? then Some(store[UserProfileKey].profile) else None
  }

  /** `getSettings`: the stored settings, or the defaults. */
  function SettingsIn(store: Store): (r: Settings)
    ensures SettingsKey !in store ==> r == DefaultSettings
    ensures SettingsKey in store && store[SettingsKey].SettingsData? ==> r == store[SettingsKey].settings
  {
    if SettingsKey in store && store[SettingsKey].SettingsData? then store[SettingsKey].settings else DefaultSettings
  }

  // ---------------------------------------------------------------------------
  // User ids: `ef-` followed by seven characters from [a-z0-9]

  const IdPrefix := "ef-"
  const IdAlphabet := "abcdefghijklmnopqrstuvwxyz0123456789"

  predicate IsIdChar(c: char) {
    'a' <= c <= 'z' || '0' <= c <= '9'
  }

  /** `/^ef-[a-z0-9]{7}$/.test(userId)`. */
  predicate IsValidUserId(s: string) {
    |s| == 10 && s[..3] == IdPrefix && forall k :: 3 <= k < 10 ==> IsIdChar(s[k])
  }

  /** One `Math.floor(Math.random() * chars.length)`: an index into the alphabet. */
  type Draw = k: nat | k < 36

  function AlphabetAt(k: Draw): char {
    if k < 26 then ('a' as int + k) as char else ('0' as int + k - 26) as char
  }

  lemma AlphabetLayout()
    ensures |IdAlphabet| == 36
    ensures forall k: Draw :: IdAlphabet[k] == AlphabetAt(k)
  {
  }

  /** The draw that picks a given id character. */
  function DrawOf(c: char): (k: Draw)
    requires IsIdChar(c)
    ensures IdAlphabet[k] == c
  {
    AlphabetLayout();
    if 'a' <= c <= 'z' then c as int - 'a' as int else c as int - '0' as int + 26
  }

  /** The id `generateUserId` builds from a sequence of draws. */
  function IdFromDraws(draws: seq<Draw>): string {
    IdPrefix + seq(|draws|, i requires 0 <= i < |draws| => IdAlphabet[draws[i]])
  }

  /** The draws that would have produced a valid id. */
  function DrawsOf(id: string): (draws: seq<Draw>)
    requires IsValidUserId(id)
    ensures |draws| == 7
  {
    seq(7, i requires 0 <= i < 7 => DrawOf(id[3 + i]))
  }

  /** Every sequence of seven draws gives a valid id. */
  lemma GeneratedIdsAreValid(draws: seq<Draw>)
    requires |draws| == 7
    ensures IsValidUserId(IdFromDraws(draws))
  {
    AlphabetLayout();
    var id := IdFromDraws(draws);
    forall k | 3 <= k < 10 ensures IsIdChar(id[k]) {
      assert id[k] == IdAlphabet[draws[k - 3]];
    }
  }

  /** Every valid id is produced by exactly one sequence of draws: the generator
      reaches the whole id space, and different draws give different ids. */
  lemma ValidIdsAreGenerated(id: string)
    requires IsValidUserId(id)
    ensures IdFromDraws(DrawsOf(id)) == id
  {
    var g := IdFromDraws(DrawsOf(id));
    assert |g| == 10;
    forall k | 0 <= k < 10 ensures g[k] == id[k] {
      if k < 3 { assert g[k] == IdPrefix[k] == id[..3][k]; }
    }
  }

  lemma DrawsDetermineId(a: seq<Draw>, b: seq<Draw>)
    requires |a| == 7 && |b| == 7 && IdFromDraws(a) == IdFromDraws(b)
    ensures a == b
  {
    AlphabetLayout();
    forall i | 0 <= i < 7 ensures a[i] == b[i] {
      assert IdFromDraws(a)[3 + i] == IdAlphabet[a[i]];
      assert IdFromDraws(b)[3 + i] == IdAlphabet[b[i]];
    }
  }

  /** The format examples: a lower-case id is accepted; upper case, a short id and a
      wrong prefix are rejected. */
  lemma IdFormatExamples()
    ensures IsValidUserId("ef-ab12cd3")
    ensures !IsValidUserId("ef-AB12CD3")
    ensures !IsValidUserId("ef-ab12cd")
    ensures !IsValidUserId("xx-ab12cd3")
  {
    assert "ef-AB12CD3"[3] == 'A';
    assert "xx-ab12cd3"[..3] != IdPrefix by { assert "xx-ab12cd3"[0] == 'x'; }
  }

  // ---------------------------------------------------------------------------
  // Contacts and messages, as the store methods change them

  /** The list `updateContactStatus` writes back: the first contact with the id gets
      the new status and `lastSeen`; nothing else changes. */
  function SetStatusOfFirst(cs: seq<Contact>, id: string, status: ContactStatus, now: Time): (r: seq<Contact>)
    ensures |r| == |cs|
    ensures ContactIds(r) == ContactIds(cs)
    ensures forall k :: 0 <= k < |cs| && cs[k].id == id && (forall j :: 0 <= j < k ==> cs[j].id != id) ==>
              r[k] == cs[k].(status := status, lastSeen := Some(now))
    ensures forall k :: 0 <= k < |cs| && (cs[k].id != id || exists j :: 0 <= j < k && cs[j].id == id) ==>
              r[k] == cs[k]
  {
    match FindFirst(cs, (c: Contact) => c.id == id)
    case None => cs
    case Some(i) => cs[i := cs[i].(status := status, lastSeen := Some(now))]
  }

  /** The log `markMessageAsRead` writes back: the first message with the id is read
      at `now`; nothing else changes. */
  function MarkFirstRead(log: seq<Message>, id: string, now: Time): (r: seq<Message>)
    ensures |r| == |log|
    ensures forall k :: 0 <= k < |log| ==> r[k].id == log[k].id
    ensures forall k :: 0 <= k < |log| && log[k].id == id && (forall j :: 0 <= j < k ==> log[j].id != id) ==>
              r[k] == log[k].(read := true, readAt := Some(now))
    ensures forall k :: 0 <= k < |log| && (log[k].id != id || exists j :: 0 <= j < k && log[j].id == id) ==>
              r[k] == log[k]
  {
    match FindFirst(log, (m: Message) => m.id == id)
    case None => log
    case Some(i) => log[i := log[i].(read := true, readAt := Some(now))]
  }

  /** What one `deleteMessage(contactId, messageId)` does to the store. */
  function DeleteIn(store: Store, contactId: string, messageId: string): Store {
    store[ChatKey(contactId) := ChatLog(RemoveById(ChatIn(store, contactId), messageId))]
  }

  // ---------------------------------------------------------------------------
  // Self-destruct timers

  /** A pending `setTimeout(() => deleteMessage(contactId, messageId), 5000)`. */
  datatype Timer = Timer(due: Time, contactId: string, messageId: string)

  /** The timers that have fired by `now`, in the order they were armed. */
  function Due(ts: seq<Timer>, now: Time): seq<Timer>
  {
    if |ts| == 0 then []
    else Due(ts[..|ts| - 1], now) + (if ts[|ts| - 1].due <= now then [ts[|ts| - 1]] else [])
  }

  /** The timers still waiting at `now`, in the order they were armed. */
  function Pending(ts: seq<Timer>, now: Time): seq<Timer>
  {
    if |ts| == 0 then []
    else Pending(ts[..|ts| - 1], now) + (if now < ts[|ts| - 1].due then [ts[|ts| - 1]] else [])
  }

  /** A timer is due or pending according to its deadline, and is kept in order. */
  lemma {:induction false} DueOrPending(ts: seq<Timer>, now: Time)
    ensures forall t :: t in Due(ts, now) <==> t in ts && t.due <= now
    ensures forall t :: t in Pending(ts, now) <==> t in ts && now < t.due
    decreases |ts|
  {
    if |ts| > 0 {
      DueOrPending(ts[..|ts| - 1], now);
      assert ts == ts[..|ts| - 1] + [ts[|ts| - 1]];
    }
  }

  /** The store after the given timers have run, first to last. */
  function DeleteAll(store: Store, ts: seq<Timer>): Store {
    if |ts| == 0 then store
    else DeleteIn(DeleteAll(store, ts[..|ts| - 1]), ts[|ts| - 1].contactId, ts[|ts| - 1].messageId)
  }

  /** One more timer looked at: how the due list, the pending list and the store grow. */
  lemma QueueStep(store: Store, q: seq<Timer>, i: nat, now: Time)
    requires i < |q|
    ensures Due(q[..i + 1], now) == Due(q[..i], now) + (if q[i].due <= now then [q[i]] else [])
    ensures Pending(q[..i + 1], now) == Pending(q[..i], now) + (if now < q[i].due then [q[i]] else [])
    ensures DeleteAll(store, Due(q[..i], now) + [q[i]]) == DeleteIn(DeleteAll(store, Due(q[..i], now)), q[i].contactId, q[i].messageId)
  {
    assert q[..i + 1][..i] == q[..i];
    var d := Due(q[..i], now) + [q[i]];
    assert d[..|d| - 1] == Due(q[..i], now);
  }

  predicate Targets(ts: seq<Timer>, contactId: string, messageId: string) {
    exists k :: 0 <= k < |ts| && ts[k].contactId == contactId && ts[k].messageId == messageId
  }

  /** After a batch of deletions, a contact's log holds exactly the messages it held
      before whose id no deletion for that contact named. */
  lemma {:induction false} DeleteAllChat(store: Store, ts: seq<Timer>, c: string)
    ensures forall m :: m in ChatIn(DeleteAll(store, ts), c) <==> m in ChatIn(store, c) && !Targets(ts, c, m.id)
    decreases |ts|
  {
    if |ts| > 0 {
      var init, t := ts[..|ts| - 1], ts[|ts| - 1];
      DeleteAllChat(store, init, c);
      var before := DeleteAll(store, init);
      RemoveByIdMembers(ChatIn(before, t.contactId), t.messageId);
      ChatKeyInjective(c, t.contactId);
      forall id: string ensures Targets(ts, c, id) <==> Targets(init, c, id) || (t.contactId == c && t.messageId == id) {
        if Targets(init, c, id) {
          var k :| 0 <= k < |init| && init[k].contactId == c && init[k].messageId == id;
          assert ts[k] == init[k];
        }
      }
    }
  }

  /** Deletions touch only chat logs: contacts, profile and settings stay. */
  lemma {:induction false} DeleteAllKeepsRecords(store: Store, ts: seq<Timer>)
    ensures ContactsIn(DeleteAll(store, ts)) == ContactsIn(store)
    ensures ProfileIn(DeleteAll(store, ts)) == ProfileIn(store)
    ensures SettingsIn(DeleteAll(store, ts)) == SettingsIn(store)
    decreases |ts|
  {
    if |ts| > 0 {
      DeleteAllKeepsRecords(store, ts[..|ts| - 1]);
      ChatKeyNotFixed(ts[|ts| - 1].contactId);
    }
  }

  /** The self-destruct guarantee: a read message whose timer is due is gone from
      its log once the timers run; one whose timer is not yet due is still waiting. */
  lemma SelfDestruct(store: Store, ts: seq<Timer>, t: Timer, now: Time)
    requires t in ts
    ensures t.due <= now ==> !HasMessage(ChatIn(DeleteAll(store, Due(ts, now)), t.contactId), t.messageId)
    ensures now < t.due ==> t in Pending(ts, now) && t !in Due(ts, now)
  {
    DueOrPending(ts, now);
    if t.due <= now {
      var due := Due(ts, now);
      var k :| 0 <= k < |due| && due[k] == t by { assert t in due; }
      DeleteAllChat(store, due, t.contactId);
      var log := ChatIn(DeleteAll(store, due), t.contactId);
      forall j | 0 <= j < |log| ensures log[j].id != t.messageId {
        assert log[j] in log;
      }
    }
  }

  /** The other half of the self-destruct guarantee: a message none of whose timers
      is due yet is still in its log after the due timers have run. */
  lemma SelfDestructNotBefore(store: Store, ts: seq<Timer>, contactId: string, m: Message, now: Time)
    ensures (m in ChatIn(store, contactId) &&
      forall u :: u in ts && u.contactId == contactId && u.messageId == m.id ==> now < u.due) ==>
      m in ChatIn(DeleteAll(store, Due(ts, now)), contactId)
  {
    var due := Due(ts, now);
    DueOrPending(ts, now);
    DeleteAllChat(store, due, contactId);
    if forall u :: u in ts && u.contactId == contactId && u.messageId == m.id ==> now < u.due {
      forall k | 0 <= k < |due| && due[k].contactId == contactId ensures due[k].messageId != m.id {
        assert due[k] in due;
      }
    }
  }

  // ---------------------------------------------------------------------------
  // The service

  datatype AddContactError = AlreadyExists | SaveFailed

  /** The service over its key-value store. Each method takes the time of its
      `new Date()` as `now` (and `markMessageAsRead` the later moment its timer is
      armed as `armedAt`) and, where it writes, whether the write succeeds as
      `writeOk`; a failed write is the caught exception of the original. */
  class StorageService {
    var store: Store
    var timers: seq<Timer>

    constructor ()
      ensures store == map[] && timers == []
    {
      store := map[];
      timers := [];
    }

    function Contacts(): seq<Contact>
      reads this
    {
      ContactsIn(store)
    }

    function ChatMessages(contactId: string): seq<Message>
      reads this
    {
      ChatIn(store, contactId)
    }

    function UserProfile(): Option<Profile>
      reads this
    {
      ProfileIn(store)
    }

    function GetSettings(): Settings
      reads this
    {
      SettingsIn(store)
    }

    method SaveUserProfile(profile: Profile, writeOk: bool) returns (ok: bool)
      modifies this
      ensures ok == writeOk && timers == old(timers)
      ensures store == if writeOk then old(store)[UserProfileKey := ProfileData(profile)] else old(store)
      ensures writeOk ==> UserProfile() == Some(profile)
    {
      if writeOk {
        store := store[UserProfileKey := ProfileData(profile)];
      }
      ok := writeOk;
    }

    method SaveContacts(contacts: seq<Contact>, writeOk: bool) returns (ok: bool)
      modifies this
      ensures ok == writeOk && timers == old(timers)
      ensures store == if writeOk then old(store)[ContactsKey := ContactList(contacts)] else old(store)
    {
      if writeOk {
        store := store[ContactsKey := ContactList(contacts)];
      }
      ok := writeOk;
    }

    method SaveSettings(settings: Settings, writeOk: bool) returns (ok: bool)
      modifies this
      ensures ok == writeOk && timers == old(timers)
      ensures store == if writeOk then old(store)[SettingsKey := SettingsData(settings)] else old(store)
    {
      if writeOk {
        store := store[SettingsKey := SettingsData(settings)];
      }
      ok := writeOk;
    }

    /** `addContact`: refuses an id already in the list; otherwise appends the
        contact, offline and stamped with `now`. */
    method AddContact(contact: NewContact, now: Time, writeOk: bool) returns (r: Result<(), AddContactError>)
      modifies this
      ensures timers == old(timers)
      ensures HasContact(old(Contacts()), contact.id) ==> r == Err(AlreadyExists) && store == old(store)
      ensures !HasContact(old(Contacts()), contact.id) && !writeOk ==> r == Err(SaveFailed) && store == old(store)
      ensures !HasContact(old(Contacts()), contact.id) && writeOk ==>
        r.Ok? && store == old(store)[ContactsKey := ContactList(old(Contacts()) + [Contact(contact.id, contact.name, Offline, now, None)])]
      ensures UniqueIds(old(Contacts())) ==> UniqueIds(Contacts())
    {
      var contacts := Contacts();
      var existing := FindFirst(contacts, (c: Contact) => c.id == contact.id);
      if existing.Some? {
        return Err(AlreadyExists);
      }
      contacts := contacts + [Contact(contact.id, contact.name, Offline, now, None)];
      var ok := SaveContacts(contacts, writeOk);
      r := if ok then Ok(()) else Err(SaveFailed);
    }

    /** `updateContactStatus`: true exactly when a contact has the id. The answer is
        true even when writing the list back fails. */
    method UpdateContactStatus(contactId: string, status: ContactStatus, now: Time, writeOk: bool) returns (found: bool)
      modifies this
      ensures timers == old(timers)
      ensures found == HasContact(old(Contacts()), contactId)
      ensures store == if found && writeOk
        then old(store)[ContactsKey := ContactList(SetStatusOfFirst(old(Contacts()), contactId, status, now))]
        else old(store)
    {
      var contacts := Contacts();
      var index := FindFirst(contacts, (c: Contact) => c.id == contactId);
      if index.None? {
        return false;
      }
      var i := index.value;
      contacts := contacts[i := contacts[i].(status := status, lastSeen := Some(now))];
      var _ := SaveContacts(contacts, writeOk);
      found := true;
    }

    /** `saveChatMessage`: appends the message, unread and stamped with `now`, to the
        end of that contact's log. */
    method SaveChatMessage(contactId: string, message: Message, now: Time, writeOk: bool) returns (ok: bool)
      modifies this
      ensures ok == writeOk && timers == old(timers)
      ensures store == if writeOk
        then old(store)[ChatKey(contactId) := ChatLog(old(ChatMessages(contactId)) + [message.(timestamp := now, read := false)])]
        else old(store)
      ensures forall c :: c != contactId ==> ChatMessages(c) == old(ChatMessages(c))
    {
      var messages := ChatMessages(contactId);
      messages := messages + [message.(timestamp := now, read := false)];
      if writeOk {
        store := store[ChatKey(contactId) := ChatLog(messages)];
      }
      forall c | c != contactId ensures ChatKey(c) != ChatKey(contactId) {
        ChatKeyInjective(c, contactId);
      }
      ok := writeOk;
    }

    /** `markMessageAsRead`: marks the first message with the id read at `now` and,
        once that is written, arms at `armedAt` its deletion `SelfDestructDelay`
        later. An unknown id, or a failed write, changes nothing and arms nothing.
        Each successful call arms one more timer. */
    method MarkMessageAsRead(contactId: string, messageId: string, now: Time, armedAt: Time, writeOk: bool) returns (ok: bool)
      modifies this
      ensures ok == (HasMessage(old(ChatMessages(contactId)), messageId) && writeOk)
      ensures !ok ==> store == old(store) && timers == old(timers)
      ensures ok ==> store == old(store)[ChatKey(contactId) := ChatLog(MarkFirstRead(old(ChatMessages(contactId)), messageId, now))]
      ensures ok ==> timers == old(timers) + [Timer(armedAt + SelfDestructDelay, contactId, messageId)]
    {
      var messages := ChatMessages(contactId);
      var index := FindFirst(messages, (m: Message) => m.id == messageId);
      if index.None? {
        return false;
      }
      var i := index.value;
      messages := messages[i := messages[i].(read := true, readAt := Some(now))];
      if !writeOk {
        return false;
      }
      store := store[ChatKey(contactId) := ChatLog(messages)];
      timers := timers + [Timer(armedAt + SelfDestructDelay, contactId, messageId)];
      ok := true;
    }

    /** `deleteMessage`: rewrites the contact's log without any message with the id. */
    method DeleteMessage(contactId: string, messageId: string, writeOk: bool) returns (ok: bool)
      modifies this
      ensures ok == writeOk && timers == old(timers)
      ensures store == if writeOk then DeleteIn(old(store), contactId, messageId) else old(store)
    {
      var messages := ChatMessages(contactId);
      var filtered := RemoveById(messages, messageId);
      if writeOk {
        store := store[ChatKey(contactId) := ChatLog(filtered)];
      }
      ok := writeOk;
    }

    /** `clearAllData`: removes the fixed keys and every chat log. Pending timers stay
        armed. */
    method ClearAllData(writeOk: bool) returns (ok: bool)
      modifies this
      ensures ok == writeOk && timers == old(timers)
      ensures !writeOk ==> store == old(store)
      ensures writeOk ==> forall k :: k in store <==>
        k in old(store) && k !in FixedKeys && !JsText.StartsWith(k, ChatHistoryKey)
      ensures writeOk ==> forall k :: k in store ==> store[k] == old(store)[k]
      ensures writeOk ==> UserProfile() == None && Contacts() == [] && GetSettings() == DefaultSettings
      ensures writeOk ==> forall c :: ChatMessages(c) == []
    {
      if writeOk {
        store := map k | k in store && k !in FixedKeys && !JsText.StartsWith(k, ChatHistoryKey) :: store[k];
        forall c ensures ChatKey(c) !in store {
          ChatKeyNotFixed(c);
        }
      }
      ok := writeOk;
    }

    /** `generateUserId`: `ef-` and one alphabet character per draw. */
    method GenerateUserId(draws: seq<Draw>) returns (id: string)
      requires |draws| == 7
      ensures |id| == 10 && id[..3] == IdPrefix
      ensures IsValidUserId(id)
      ensures id == IdFromDraws(draws)
    {
      AlphabetLayout();
      id := IdPrefix;
      for i := 0 to 7
        invariant |id| == 3 + i
        invariant id == IdPrefix + seq(i, j requires 0 <= j < i => IdAlphabet[draws[j]])
      {
        id := id + [IdAlphabet[draws[i]]];
      }
      GeneratedIdsAreValid(draws);
    }

    /** Runs, in the order they were armed, the deletions whose time has come. */
    method FireTimers(now: Time)
      modifies this
      ensures store == DeleteAll(old(store), Due(old(timers), now))
      ensures timers == Pending(old(timers), now)
    {
      var queue := timers;
      var kept: seq<Timer> := [];
      for i := 0 to |queue|
        invariant store == DeleteAll(old(store), Due(queue[..i], now))
        invariant kept == Pending(queue[..i], now)
      {
        QueueStep(old(store), queue, i, now);
        var t := queue[i];
        ghost var before := store;
        if t.due <= now {
          var _ := DeleteMessage(t.contactId, t.messageId, true);
          assert store == DeleteIn(before, t.contactId, t.messageId);
          assert Due(queue[..i + 1], now) == Due(queue[..i], now) + [t];
          assert store == DeleteAll(old(store), Due(queue[..i], now) + [t]);
        } else {
          kept := kept + [t];
          assert Due(queue[..i], now) + [] == Due(queue[..i], now);
          assert Due(queue[..i + 1], now) == Due(queue[..i], now);
        }
      }
      assert queue[..|queue|] == queue;
      timers := kept;
    }
  }
}
