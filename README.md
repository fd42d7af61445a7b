# Efímero: a verified model of the chat core

Efímero is a React Native peer-to-peer chat. Two users swap offer/answer text by hand to
open a WebRTC data channel, and a message that has been read erases itself five seconds
later. This project models the bookkeeping around that in Dafny:

- `storage.dfy` (`Storage`): the local store (`StorageService`). It is a key-value map
  holding the profile, the contact list, the settings and one chat log per contact under
  `@efimero_chat_history_<contactId>`. It also holds the `ef-xxxxxxx` user-id format and
  generator, and the self-destruct timers as an explicit queue driven by a logical clock.
- `connection_reducer.dfy` (`ConnectionReducer`): `connectionReducer`, as a pure function
  over contacts, live connections, the single global transport state, the open chat and
  the message lists.
- `connection.dfy` (`Connection`): the provider actions around that reducer. They
  validate ids, check for duplicates, gate sends on the transport and arm a second removal
  timer when a message is read.
- `auth.dfy` (`Auth`): `authReducer`, `validateUserName`, `getUserShareInfo` and the
  provider actions that create, update and clear the user profile.
- `webrtc.dfy` (`WebRtc`): the `WebRTCService` class. It keeps the connection state,
  the initiator flag, the data channel and the peer connection; sends only while the
  channel is open; and tears everything down on close.
- `media.dfy` (`Media`): the file-name classification, the temporary-file sweep, and the
  recording and playback flags of `MediaService`.
- `contacts_screen.dfy` (`ContactsScreen`): the contact search, the add-contact form
  checks and the status labels.
- `entities.dfy`, `jstext.dfy` and `wrappers.dfy` hold the shared records and list
  operations. They also hold the JavaScript string operations the code relies on
  (`trim`, `toLowerCase`, `includes`, `startsWith`, `split('.').pop()`), plus
  `Option`/`Result`.

Classes whose fields the code updates in place are Dafny classes with `modifies` clauses:
`StorageService`, `WebRtcService`, `MediaService`, `AuthProvider` and
`ConnectionProvider`. The reducers and validators are functions, and their properties are
lemmas.

Things outside the code are parameters:
- Every `new Date()` is a `Time` parameter of its own. Where one action reads the clock
  more than once, each reading has its own name (`storedAt`, `seenAt`, `createdAt`, …);
  so does the moment a `setTimeout` is armed.
- Every `uuidv4()` is a fresh id.
- `Math.random` is a sequence of seven alphabet indices.
- Whether an AsyncStorage write succeeds is `writeOk`.
- What a library (WebRTC, recorder, player, file system) answers is an `Option` or `bool`.

A `setTimeout(…, 5000)` becomes an entry in a queue. `FireTimers`, `FireRemovals` and
`Tick` run the entries whose deadline has passed, in the order they were armed.

Where the app's documented design and its code differ, the model follows the code:
- There is one global `connectionState`, not one state machine per contact.
- `markMessageAsRead` on an already read message marks it again and arms one more
  deletion; it is not a no-op.
- `handleOffer` and `handleAnswer` never look at the signal's `type`.
- Clearing all data does not cancel the deletions already armed.
- The transport callbacks are registered once, by the mount effect, and read the provider
  state of that first render, where no chat is open. As written, every received message
  is dropped and no contact status follows the transport (see "## Findings").

## Model

| member | source | states |
|---|---|---|
| Storage.ChatKeyInjective | Efimero/src/services/StorageService.js:133-151 | different contacts never share a chat-log key |
| Storage.ChatKeyNotFixed | Efimero/src/services/StorageService.js:8-13 | a chat-log key is none of the four fixed keys and starts with the chat-history prefix |
| Storage.ContactsIn | Efimero/src/services/StorageService.js:50-58 | without a stored list the answer is the empty list; otherwise the stored list |
| Storage.ProfileIn | Efimero/src/services/StorageService.js:28-36 | without a stored profile the answer is `null`; otherwise the stored profile |
| Storage.SettingsIn | Efimero/src/services/StorageService.js:114-130 | without stored settings the answer is `es`/`dark`/notifications on; otherwise the stored settings |
| Storage.ChatIn | Efimero/src/services/StorageService.js:153-162 | without a log under the contact's key the answer is the empty list; otherwise the stored log |
| Storage.IsValidUserId | Efimero/src/services/StorageService.js:237-240 | `^ef-[a-z0-9]{7}$`: ten characters, the `ef-` prefix, then seven lower-case letters or digits (its properties are the lemmas below) |
| Storage.GeneratedIdsAreValid | Efimero/src/services/StorageService.js:227-240 | every id built from seven draws is accepted by the `^ef-[a-z0-9]{7}$` check |
| Storage.ValidIdsAreGenerated | Efimero/src/services/StorageService.js:227-240 | every accepted id is produced by some seven draws, so the generator covers the whole format |
| Storage.DrawsDetermineId | Efimero/src/services/StorageService.js:227-234 | different draws give different ids |
| Storage.IdFormatExamples | Efimero/src/services/StorageService.js:237-240 | a lower-case id is accepted; upper case, a short id and a wrong prefix are rejected |
| Storage.SetStatusOfFirst | Efimero/src/services/StorageService.js:86-92 | same length and ids; only the first contact with the id gets the new status and `lastSeen` |
| Storage.MarkFirstRead | Efimero/src/services/StorageService.js:169-173 | same length and ids; only the first message with the id becomes read at `now` |
| Storage.DueOrPending | Efimero/src/services/StorageService.js:179-181 | a timer is due exactly when its deadline has passed, and pending exactly when it has not |
| Storage.DeleteAllChat | Efimero/src/services/StorageService.js:192-204 | after a batch of deletions a log holds exactly its former messages that no deletion for that contact named |
| Storage.DeleteAllKeepsRecords | Efimero/src/services/StorageService.js:192-204 | deletions leave the contacts, the profile and the settings as they were |
| Storage.SelfDestruct | Efimero/src/services/StorageService.js:170-181 | once a read message's timer is due and has run, the message is gone from its log; before that the timer is still pending |
| Storage.SelfDestructNotBefore | Efimero/src/services/StorageService.js:170-181 | a message none of whose timers is due yet is still in its log after the due timers have run |
| Storage.StorageService.constructor | Efimero/src/services/StorageService.js:15 | the store starts empty with no timers |
| Storage.StorageService.SaveUserProfile | Efimero/src/services/StorageService.js:17-26 | a successful write stores the profile under its key; a failed one changes nothing |
| Storage.StorageService.SaveContacts | Efimero/src/services/StorageService.js:39-48 | a successful write stores the list under its key; a failed one changes nothing |
| Storage.StorageService.SaveSettings | Efimero/src/services/StorageService.js:103-112 | a successful write stores the settings under their key; a failed one changes nothing |
| Storage.StorageService.AddContact | Efimero/src/services/StorageService.js:60-82 | a known id is refused and nothing changes; otherwise exactly one offline contact stamped `now` is appended; unique ids stay unique |
| Storage.StorageService.UpdateContactStatus | Efimero/src/services/StorageService.js:84-100 | the answer is whether the id is known; an unknown id changes nothing; a known one writes back the list with only the first match updated |
| Storage.StorageService.SaveChatMessage | Efimero/src/services/StorageService.js:133-151 | exactly one unread message stamped `now` is appended to that contact's log; every other contact's log is untouched |
| Storage.StorageService.MarkMessageAsRead | Efimero/src/services/StorageService.js:164-190 | an unknown id changes nothing and arms nothing; a known one is marked read at `now`, and once that is written one deletion is armed 5000 ms after the moment of arming |
| Storage.StorageService.DeleteMessage | Efimero/src/services/StorageService.js:192-204 | the log is rewritten without the messages with that id |
| Storage.StorageService.ClearAllData | Efimero/src/services/StorageService.js:207-224 | exactly the fixed keys and the chat-history keys are removed; afterwards there is no profile, no contact and no message, and the settings read as the defaults |
| Storage.StorageService.GenerateUserId | Efimero/src/services/StorageService.js:227-234 | the id has length 10, starts with `ef-`, passes the format check and is the one the draws determine |
| Storage.StorageService.FireTimers | Efimero/src/services/StorageService.js:179-181 | the due deletions run in arming order, and exactly the pending timers remain |
| Entities.FindFirst | Efimero/src/services/StorageService.js:87 | the result is the first index whose element satisfies the test, or none when no element does |
| Entities.RemoveById | Efimero/src/services/StorageService.js:197 | `filter(m => m.id !== id)`; its contract is the lemmas below |
| Entities.RemoveByIdMembers | Efimero/src/services/StorageService.js:197 | the filter keeps exactly the messages with another id |
| Entities.RemoveByIdErases | Efimero/src/services/StorageService.js:197 | no message with that id is left |
| Entities.RemoveByIdAppend | Efimero/src/services/StorageService.js:197 | the filter distributes over concatenation, so the kept messages keep their order |
| Entities.RemoveByIdAbsent | Efimero/src/services/StorageService.js:197 | a log without that id is left as it is |
| Entities.RemoveByIdIdempotent | Efimero/src/services/StorageService.js:192-204 | deleting the same id twice is deleting it once |
| Entities.RemoveByIdShorter | Efimero/src/services/StorageService.js:197 | the filter never lengthens a log, and shortens it when the id is present |
| ConnectionReducer.Reduce | Efimero/src/context/ConnectionContext.js:42-150 | each action changes only the fields it names: contacts only by set, add and status update, connections only by set and remove, messages only by add, remove and set; loading by set-loading and set-error, error by set-error and clear-error; add-contact lengthens the list by one |
| ConnectionReducer.AddMessageAppends | Efimero/src/context/ConnectionContext.js:100-111 | the message goes at the end of that contact's list, which is created if absent; no other list or field changes |
| ConnectionReducer.RemoveMessageFilters | Efimero/src/context/ConnectionContext.js:113-123 | exactly the other messages stay; a contact without a list gets an empty one; nothing else changes |
| ConnectionReducer.RemoveMessageIdempotent | Efimero/src/context/ConnectionContext.js:113-123 | removing the same message twice is removing it once |
| ConnectionReducer.AddThenRemove | Efimero/src/context/ConnectionContext.js:100-123 | adding a message with a new id and removing it restores the list |
| ConnectionReducer.UpdateStatusChangesOnlyMatches | Efimero/src/context/ConnectionContext.js:62-70 | length, order and ids are kept; every contact with the id gets the status and `lastSeen`; every other contact and field is unchanged |
| ConnectionReducer.StatusUpdateAgreesWithStore | Efimero/src/context/ConnectionContext.js:62-70 | with unique ids the reducer's update and the store's update give the same list |
| ConnectionReducer.ActiveConnectionKeys | Efimero/src/context/ConnectionContext.js:78-92 | setting adds exactly one key; removing deletes exactly that key; setting a new key then removing it restores the map |
| ConnectionReducer.ErrorAndUnknownActions | Efimero/src/context/ConnectionContext.js:134-148 | `SET_ERROR` also ends loading, `CLEAR_ERROR` clears only the error, an unknown action changes nothing |
| Connection.StatusFor | Efimero/src/context/ConnectionContext.js:324-335 | `connected` maps to online and every other transport state to offline |
| Connection.ReceivedMessage | Efimero/src/context/ConnectionContext.js:293-304 | an incoming message keeps its id or gets the fresh one, and is received and unread |
| Connection.StatusStored | Efimero/src/services/StorageService.js:84-100 | the store after a status update: the contact list is rewritten, first match only, exactly when the contact is there and the write succeeds; chat logs, profile and settings are untouched |
| Connection.RemoveAllChat | Efimero/src/context/ConnectionContext.js:392-397 | after a batch of removals a chat holds exactly its former messages that no removal for that chat named |
| Connection.RemoveAllKeepsRest | Efimero/src/context/ConnectionContext.js:392-397 | removals change only the message lists |
| Connection.ReadMessageVanishes | Efimero/src/context/ConnectionContext.js:386-404 | once the store's deletion and the provider's removal armed for a read message are due and have run, it is in neither the stored log nor the provider's list |
| Connection.ConnectionProvider.constructor | Efimero/src/context/ConnectionContext.js:14-22 | the provider starts from the initial state with no timers armed, and its callbacks see that state |
| Connection.ConnectionProvider.IsConnectedToContact | Efimero/src/context/ConnectionContext.js:491-494 | a contact is connected when it has an entry and the transport is connected (stated in DisconnectFromContact and CompleteConnection) |
| Connection.ConnectionProvider.Dispatch | Efimero/src/context/ConnectionContext.js:42-150 | the state becomes the reducer's result |
| Connection.ConnectionProvider.SetupCallbacks | Efimero/src/context/ConnectionContext.js:163-166 | both transport callbacks are registered and nothing else of the transport changes |
| Connection.ConnectionProvider.Mount | Efimero/src/context/ConnectionContext.js:157-166 | the contacts load and both callbacks are registered; the callbacks keep reading the state of the render before the load |
| Connection.ConnectionProvider.LoadContacts | Efimero/src/context/ConnectionContext.js:169-187 | the stored list becomes the state's and loading ends |
| Connection.ConnectionProvider.AddContact | Efimero/src/context/ConnectionContext.js:190-223 | a bad id format is refused first, then a duplicate in the state; on success the store gains the offline contact stamped with its own clock reading and the state gains it stamped with another; on failure neither changes |
| Connection.ConnectionProvider.InitiateConnection | Efimero/src/context/ConnectionContext.js:226-244 | the transport becomes initiator; the offer is returned exactly when the library produces one; the state ends connecting or failed; nothing is sent and the callbacks stay |
| Connection.ConnectionProvider.RespondToConnection | Efimero/src/context/ConnectionContext.js:247-263 | the transport becomes answerer; the answer is returned exactly when the library takes the offer and produces an answer; the state ends connecting or failed; nothing is sent, and the callbacks and the data channel stay |
| Connection.ConnectionProvider.UpdateContactStatus | Efimero/src/context/ConnectionContext.js:439-459 | the answer is whether the store knows the contact; the state follows only then, stamped with its own clock reading; the store changes only its contact list |
| Connection.ConnectionProvider.CompleteConnection | Efimero/src/context/ConnectionContext.js:266-290 | success exactly when a peer connection exists and accepts the answer; then the answer is the remote description, the contact has a connected entry and goes online in state and store, and messages, open chat, transport state, loading, error and chat logs are unchanged; otherwise the state is failed and store and transport unchanged |
| Connection.ConnectionProvider.HandleMessageReceived | Efimero/src/context/ConnectionContext.js:293-321 | with the current chat open the message joins that chat in the state and its log in the store, and no other key changes; with none nothing changes |
| Connection.ConnectionProvider.ReceiveInChat | Efimero/src/context/ConnectionContext.js:293-321 | the same, for the open chat the handler reads |
| Connection.ConnectionProvider.HandleMessageReceivedAsRegistered | Efimero/src/context/ConnectionContext.js:157-166 | the registered handler decides on the open chat of the mount render, not the current one |
| Connection.ConnectionProvider.HandleConnectionStateChange | Efimero/src/context/ConnectionContext.js:324-335 | the transport state is recorded; with the current chat open its contact goes online or offline in state and store; every other field, the open chat, the messages and the chat logs are unchanged |
| Connection.ConnectionProvider.ChangeStateInChat | Efimero/src/context/ConnectionContext.js:324-335 | the same, for the open chat the handler reads |
| Connection.ConnectionProvider.HandleConnectionStateChangeAsRegistered | Efimero/src/context/ConnectionContext.js:157-166 | the registered handler decides on the open chat of the mount render, not the current one |
| Connection.ConnectionProvider.SendMessage | Efimero/src/context/ConnectionContext.js:338-383 | success exactly for text or file over an open channel; only then is the frame sent and the message added to state and store, each copy stamped with its own clock reading; audio is never sent |
| Connection.ConnectionProvider.MarkMessageAsRead | Efimero/src/context/ConnectionContext.js:386-404 | a removal is armed 5000 ms after its own arming whatever the store answers; the store marks and arms only a known message |
| Connection.ConnectionProvider.FireRemovals | Efimero/src/context/ConnectionContext.js:392-397 | the due removals run in arming order, and exactly the pending ones remain |
| Connection.ConnectionProvider.Tick | Efimero/src/context/ConnectionContext.js:386-404 | both the store's deletions and the provider's removals that are due run |
| Connection.ConnectionProvider.LoadChatMessages | Efimero/src/context/ConnectionContext.js:407-424 | the stored log becomes the state's list for that contact |
| Connection.ConnectionProvider.SetCurrentChat | Efimero/src/context/ConnectionContext.js:427-436 | the chat is opened and, when it is set, its stored messages are loaded |
| Connection.ConnectionProvider.DisconnectFromContact | Efimero/src/context/ConnectionContext.js:462-478 | the transport is reset; the entry is removed; the contact goes offline in state and store; an open chat with it is closed; messages, transport state, loading, error and chat logs are unchanged; afterwards no contact counts as connected |
| Connection.ConnectionProvider.ClearError | Efimero/src/context/ConnectionContext.js:481-483 | only the error is cleared |
| Connection.ReceivedWhileChatOpen | Efimero/src/context/ConnectionContext.js:293-321 | in a freshly mounted provider with a chat open, the registered handler leaves the chat empty in state and store, while the intended one records the message in both |
| Connection.ConnectedWhileChatOpen | Efimero/src/context/ConnectionContext.js:324-335 | in a freshly mounted provider with a saved contact's chat open, `connected` leaves the contact offline through the registered handler and puts it online through the intended one |
| Auth.Reduce | Efimero/src/context/AuthContext.js:30-78 | login authenticates and logout de-authenticates, nothing else does; only login, logout and profile updates touch the user, and there is a user after an update; loading and error change only by their own actions, login and logout |
| Auth.LoginSuccessForgetsPrevious | Efimero/src/context/AuthContext.js:38-45 | login yields authenticated, the given user, not loading and no error, whatever came before |
| Auth.LogoutResets | Efimero/src/context/AuthContext.js:47-51 | logout yields the initial state with loading over |
| Auth.UpdateProfileFields | Efimero/src/context/AuthContext.js:53-60 | the payload's fields are overwritten, every other user field kept, nothing else of the state changed |
| Auth.UpdateProfileIdempotent | Efimero/src/context/AuthContext.js:53-60 | the same update applied twice is applied once |
| Auth.ErrorThenClear | Efimero/src/context/AuthContext.js:62-73 | `SET_ERROR` sets the error and ends loading; `CLEAR_ERROR` clears only the error |
| Auth.UnrecognisedIsIdentity | Efimero/src/context/AuthContext.js:75-76 | an unknown action changes nothing |
| Auth.ValidateUserName | Efimero/src/context/AuthContext.js:216-236 | required exactly for an all-whitespace name; then, counting UTF-16 code units of the trimmed name, too short exactly at 1, too long exactly above 50, accepted exactly for 2..50 units of allowed characters; invalid characters only when one is present |
| Auth.NameErrorTextDistinct | Efimero/src/context/AuthContext.js:216-232 | the four error messages are pairwise different, so a message names its check |
| Auth.UserNameVerdict | Efimero/src/context/AuthContext.js:216-236 | `valid` exactly without an error; `Name is required` exactly for an all-whitespace name, the at-least-2 message exactly at one code unit, the less-than-50 message exactly above 50 units, the invalid-characters message only when a character is outside the class; valid exactly for 2..50 units of allowed characters |
| Auth.ValidationIgnoresPadding | Efimero/src/context/AuthContext.js:216-236 | surrounding whitespace never changes the verdict |
| Auth.FiftyIsTheLimit | Efimero/src/context/AuthContext.js:225-227 | a 50-character name is accepted and a 51-character one is too long |
| Auth.OneEmojiIsInvalid | Efimero/src/context/AuthContext.js:216-236 | one emoji is two code units and is refused for its characters, not as too short |
| Auth.TwentySixEmojiAreTooLong | Efimero/src/context/AuthContext.js:216-236 | 26 emoji, 52 code units, are too long |
| Auth.UserShareInfo | Efimero/src/context/AuthContext.js:239-251 | none exactly without a user; otherwise the user's id and name, and a card of type `efimero_contact` carrying them |
| Auth.ShareInfoOfNewUser | Efimero/src/context/AuthContext.js:114-145 | after creating a user the share card carries the generated id and the trimmed name |
| Auth.AuthProvider.constructor | Efimero/src/context/AuthContext.js:12-17 | the provider starts from the initial state |
| Auth.AuthProvider.Dispatch | Efimero/src/context/AuthContext.js:30-78 | the state becomes the reducer's result |
| Auth.AuthProvider.LoadUserProfile | Efimero/src/context/AuthContext.js:90-111 | a stored profile logs the user in; without one only loading ends |
| Auth.AuthProvider.CreateUser | Efimero/src/context/AuthContext.js:114-145 | on a successful save only the profile key of the store changes, to the logged-in profile with a valid generated id, the trimmed name and the two creation readings; otherwise the store is unchanged and the error set |
| Auth.AuthProvider.UpdateProfile | Efimero/src/context/AuthContext.js:148-175 | on success only the profile key of the store changes, to the user with the updates and a fresh `lastActive`, and the state gets the updates; on failure the store is unchanged and the error set |
| Auth.AuthProvider.UpdateLastActive | Efimero/src/context/AuthContext.js:201-208 | without a user nothing changes; with one and a successful save the state's `lastActive` is the requested reading and the store holds the same profile with the save's reading; a failed save sets the error |
| Auth.AuthProvider.Logout | Efimero/src/context/AuthContext.js:178-198 | the armed deletions stay armed; on success no profile, contact or message is left, the settings read as the defaults, exactly the keys outside the app's fixed keys and chat logs survive with their values, and the state is logged out; on failure the store is unchanged and the error set |
| Auth.AuthProvider.ClearError | Efimero/src/context/AuthContext.js:211-213 | only the error is cleared |
| WebRtc.WebRtcService.constructor | Efimero/src/services/WebRTCService.js:14-33 | no connection, channel or streams; not initiator; disconnected; no callbacks |
| WebRtc.WebRtcService.IsConnected | Efimero/src/services/WebRTCService.js:312-316 | connected state and an open channel (stated in OnChannelOpen, OnChannelClose and CloseConnection) |
| WebRtc.WebRtcService.GenerateSignalingData | Efimero/src/services/WebRTCService.js:332-340 | the local description when there is one, or none (stated in InitializeConnection, HandleOffer and CloseConnection) |
| WebRtc.WebRtcService.SetOnMessageReceived | Efimero/src/services/WebRTCService.js:319-321 | the message callback is registered and nothing else changes |
| WebRtc.WebRtcService.SetOnConnectionStateChange | Efimero/src/services/WebRTCService.js:323-325 | the state callback is registered and nothing else changes |
| WebRtc.WebRtcService.CreatePeerConnection | Efimero/src/services/WebRTCService.js:112-147 | a fresh connection without descriptions that listens for a remote channel exactly when not initiator |
| WebRtc.WebRtcService.SetupDataChannel | Efimero/src/services/WebRTCService.js:159-192 | the channel becomes the service's channel and nothing else changes |
| WebRtc.WebRtcService.InitializeConnection | Efimero/src/services/WebRTCService.js:36-53 | initiator, the ordered `messages` channel; an offer is returned and becomes the signalling data exactly when the library produces one |
| WebRtc.WebRtcService.HandleOffer | Efimero/src/services/WebRTCService.js:56-79 | not initiator, listening for a channel; the offer is the remote description exactly when the library takes it, whichever later step rejects; an answer is returned and becomes the signalling data exactly when the offer is taken and an answer produced, and there is no signalling data otherwise |
| WebRtc.WebRtcService.HandleAnswer | Efimero/src/services/WebRTCService.js:82-94 | without a peer connection or when rejected nothing changes; otherwise the answer becomes the remote description |
| WebRtc.WebRtcService.OnDataChannel | Efimero/src/services/WebRTCService.js:142-146 | only a connection created by the answerer adopts the remote channel |
| WebRtc.WebRtcService.OnChannelOpen | Efimero/src/services/WebRTCService.js:162-168 | the state becomes connected, sending becomes possible, and the callback sees `connected` |
| WebRtc.WebRtcService.OnChannelClose | Efimero/src/services/WebRTCService.js:170-176 | the state becomes disconnected, sending stops, and the callback sees `disconnected` |
| WebRtc.WebRtcService.OnChannelMessage | Efimero/src/services/WebRTCService.js:178-187 | parsed data reaches the callback; data that does not parse is dropped |
| WebRtc.WebRtcService.OnPeerStateChange | Efimero/src/services/WebRTCService.js:124-131 | the connection's state is copied and passed to the callback |
| WebRtc.WebRtcService.SendTextMessage | Efimero/src/services/WebRTCService.js:195-208 | true exactly when the channel is open, and then one text frame is sent; otherwise nothing is sent |
| WebRtc.WebRtcService.SendFile | Efimero/src/services/WebRTCService.js:211-226 | true exactly when the channel is open, and then one file frame is sent; otherwise nothing is sent |
| WebRtc.WebRtcService.CloseConnection | Efimero/src/services/WebRTCService.js:282-304 | channel, connection and streams are gone, the state is disconnected and not initiator, whatever came before, so a second call changes nothing |
| Media.AfterLastDot | Efimero/src/services/MediaService.js:311-313 | a dot-free suffix of the name, preceded by a dot unless it is the whole name |
| Media.AfterLastDotOf | Efimero/src/services/MediaService.js:311-313 | the text after the last dot is what `pop()` yields whatever precedes it |
| Media.AfterLastDotNone | Efimero/src/services/MediaService.js:311-313 | a name without a dot is its own last part |
| Media.FileExtension | Efimero/src/services/MediaService.js:311-313 | a dot-free suffix of the name, lower-cased, with no upper-case letter left |
| Media.IsImageFile | Efimero/src/services/MediaService.js:316-320 | the extension is in the image list (its properties are the lemmas below) |
| Media.IsAudioFile | Efimero/src/services/MediaService.js:323-327 | the extension is in the audio list |
| Media.IsVideoFile | Efimero/src/services/MediaService.js:330-334 | the extension is in the video list |
| Media.ExtensionWithoutDot | Efimero/src/services/MediaService.js:311-313 | a name without a dot is its own extension, lower-cased |
| Media.ExtensionAfterLastDot | Efimero/src/services/MediaService.js:311-313 | the extension is the lower-cased text after the last dot |
| Media.ExtensionListsOverlap | Efimero/src/services/MediaService.js:316-334 | the lists share only `mp4`, between audio and video; no image extension is audio or video |
| Media.ClassificationOverlap | Efimero/src/services/MediaService.js:316-334 | a file is both audio and video exactly when its extension is `mp4`; an image is neither |
| Media.UpperCaseImage | Efimero/src/services/MediaService.js:311-320 | `holiday.photo.JPG` is an image |
| Media.UpperCaseAudioAndVideo | Efimero/src/services/MediaService.js:311-334 | `voice.MP4` is both audio and video |
| Media.OnlyTheLastDotCounts | Efimero/src/services/MediaService.js:311-320 | `jpg.txt` is not an image |
| Media.TempFilesMembers | Efimero/src/services/MediaService.js:262-266 | the filter keeps exactly the `audio_`, `temp_audio_` and `video_` entries |
| Media.RecordingIsTemporaryAudio | Efimero/src/services/MediaService.js:87-88 | a recording's file is audio and is swept as temporary |
| Media.MediaService.constructor | Efimero/src/services/MediaService.js:12-17 | not recording, not playing, no path, no listener |
| Media.MediaService.StartAudioRecording | Efimero/src/services/MediaService.js:77-106 | without permission nothing changes; with it the path is set; recording starts exactly when the recorder does, and the path is returned |
| Media.MediaService.StopAudioRecording | Efimero/src/services/MediaService.js:108-130 | not recording is an error that changes nothing; a stop clears the flag; success returns the path, data and duration; while a recording always has a path, success depends only on the recorder stopping and the file being read |
| Media.MediaService.StopAudio | Efimero/src/services/MediaService.js:155-165 | the player is stopped; on success playing and the listener are off |
| Media.MediaService.PlayAudio | Efimero/src/services/MediaService.js:133-153 | a playback in progress is stopped before the start; on success playing with a listener |
| Media.MediaService.OnPlaybackProgress | Efimero/src/services/MediaService.js:142-146 | at the end of the track the player is stopped; otherwise nothing changes |
| Media.MediaService.CleanupTempFiles | Efimero/src/services/MediaService.js:257-277 | the temporary entries are unlinked in listing order and their count reported; the first failing unlink ends the sweep with the files before it unlinked |
| ContactsScreen.FilteredContacts | Efimero/src/screens/ContactsScreen.js:52-55 | the contacts whose lower-cased name or id includes the lower-cased query; its contract is the lemmas below |
| ContactsScreen.FilteredMembers | Efimero/src/screens/ContactsScreen.js:52-55 | the search keeps exactly the contacts whose lower-cased name or id contains the lower-cased query |
| ContactsScreen.FilteredKeepsOrder | Efimero/src/screens/ContactsScreen.js:52-55 | the search distributes over concatenation, so matches keep their order |
| ContactsScreen.EmptyQueryKeepsAll | Efimero/src/screens/ContactsScreen.js:52-55 | an empty query keeps every contact |
| ContactsScreen.SearchIgnoresQueryCase | Efimero/src/screens/ContactsScreen.js:52-55 | the case of the query does not matter |
| ContactsScreen.ValidateNewContact | Efimero/src/screens/ContactsScreen.js:57-79 | missing id, bad format and missing name each exactly when the earlier checks pass and theirs fails; what passes is the trimmed id and name |
| ContactsScreen.SubmitAddContact | Efimero/src/screens/ContactsScreen.js:57-96 | a failed check is reported and changes nothing; once the checks pass, a trimmed id already in the state is a duplicate, and success holds exactly when the id is in neither the state nor the store and the write succeeds; success adds the trimmed contact, offline, to store and state, and any failure leaves both unchanged; timers are never touched |
| ContactsScreen.StatusText | Efimero/src/screens/ContactsScreen.js:125-134 | `En línea`, `Conectando...` or `Desconectado`; distinct, as the next lemma states |
| ContactsScreen.StatusTextDistinct | Efimero/src/screens/ContactsScreen.js:125-134 | each status has its own label |
| JsText.Trim | Efimero/src/context/AuthContext.js:217 | a slice of the input with whitespace all around it and none at its ends |
| JsText.TrimEmptyIff | Efimero/src/context/AuthContext.js:217-219 | the trimmed text is empty exactly when the input is all whitespace |
| JsText.TrimIdempotent | Efimero/src/context/AuthContext.js:217 | trimming twice is trimming once |
| JsText.IncludesIff | Efimero/src/screens/ContactsScreen.js:52-55 | `includes` holds exactly when the needle occurs at some position |
| JsText.IncludesEmpty | Efimero/src/screens/ContactsScreen.js:52-55 | every text includes the empty string |
| JsText.Utf16Length | Efimero/src/context/AuthContext.js:217-225 | `length` counts between one and two code units per character |
| JsText.Utf16LengthCounts | Efimero/src/context/AuthContext.js:217-225 | `length` is the character count exactly when no character is astral, and twice it exactly when all are |

## Left out

- Rendering, navigation, theming and alerts: these are UI and not part of this model.
- The WebRTC library: ICE candidates (only logged), `createOffer`/`createAnswer`,
  `setRemoteDescription`, camera and audio streams. The peer connection is a value, and
  whatever the library produces or rejects is a parameter.
- AsyncStorage reads never fail in the model. A read exception of the original answers an
  empty list, `null` or the defaults; that branch is not modelled. `JSON.stringify` and
  `JSON.parse` are the identity, except that a frame that fails to parse arrives as `None`.
- Asynchronous interleaving. Each provider action runs to completion, including the
  status updates the code starts without awaiting. Callbacks are modelled both as
  registered (reading the mount render's state) and as intended (reading the current
  state).
- The deletions a timer performs always write successfully.
- Storage.StorageService.ClearAllData: pending timers stay armed after clearing, as in the
  code, which has no way to cancel them.
- Storage.StorageService.ClearAllData: the code removes the fixed keys and the chat logs
  in two steps. A failure between them (fixed keys gone, chat logs kept) is not modelled;
  a failed clear changes nothing.
- `Math.random`, `uuidv4` and `new Date()` are parameters. Auth.AuthProvider.CreateUser
  requires exactly seven draws, the number the generator makes.
- `toLowerCase` lower-cases ASCII letters only; Unicode case mapping is not modelled.
  `trim` and `\s` use the full ECMAScript whitespace and line-terminator set.
- Permissions, the document picker, `saveReceivedFile`, `createTempAudioFile`,
  `getFileInfo` and `getRecordingState`. These are device I/O or a getter; permission
  answers arrive as booleans.
- `formatFileSize`: it works in floating point.
- `getContactById` and `getConnectionState`: plain lookups that the contracts above use
  directly.
- `null` or non-string inputs to the validators (a `null` name, a missing field) are not
  modelled; inputs are strings.
- Contact status covers the three values the code writes (`offline`, `online`,
  `connecting`). The label of any other value is the `Desconectado` default branch.
- `loadUserProfile`, `loadContacts` and `loadChatMessages`: their error branches come only
  from read failures, which are left out as above.

## Findings

| source | as written | input that shows it | evidently intended | confidence | as-written member | corrected member |
|---|---|---|---|---|---|---|
| Efimero/src/context/ConnectionContext.js:157-166 | the message handler is registered once, by a mount-only effect, so it reads `state.currentChat` of the first render, which is `null`, and drops every incoming message (line 297) | mount the provider, open chat `ef-abc1234`, receive `{ id: 'm1', type: 'text', content: 'hi' }`: the chat stays empty in state and store (`Connection.ReceivedWhileChatOpen`) | the message joins the open chat in state and store | not executed | Connection.ConnectionProvider.HandleMessageReceivedAsRegistered | Connection.ConnectionProvider.HandleMessageReceived |
| Efimero/src/context/ConnectionContext.js:157-166 | the state-change handler is registered the same way, so its `if (state.currentChat)` (line 331) never holds and no contact status follows the transport | mount the provider, add `ef-abc1234`, open its chat, the transport reports `connected`: the contact stays offline (`Connection.ConnectedWhileChatOpen`) | the open chat's contact goes online | not executed | Connection.ConnectionProvider.HandleConnectionStateChangeAsRegistered | Connection.ConnectionProvider.HandleConnectionStateChange |
