/** The user's session (`AuthContext`): the reducer over the authentication state,
    the name validator, the share card, and the provider actions that pair a
    storage call with the dispatches around it. */
module Auth {
  import opened Wrappers
  import opened Entities
  import opened JsText
  import opened Storage

  datatype AuthState = AuthState(isAuthenticated: bool, user: Option<Profile>, loading: bool, error: Option<string>)

  const InitialAuthState := AuthState(false, None, true, None)

  datatype AuthAction =
    | SetLoading(on: bool)
    | LoginSuccess(profile: Profile)
    | Logout
    | UpdateProfile(updates: Profile)
    | SetError(message: string)
    | ClearError
    | Unrecognised(kind: string)

  /** `authReducer`. `UPDATE_PROFILE` spreads the payload over the user, or over an
      empty object when there is none. */
  function Reduce(state: AuthState, action: AuthAction): (r: AuthState)
    ensures r.isAuthenticated == if action.LoginSuccess? then true else if action.Logout? then false else state.isAuthenticated
    ensures !(action.LoginSuccess? || action.Logout? || action.UpdateProfile?) ==> r.user == state.user
    ensures r.user.Some? <==> action.LoginSuccess? || action.UpdateProfile? || (!action.Logout? && state.user.Some?)
    ensures !(action.LoginSuccess? || action.Logout? || action.SetLoading? || action.SetError?) ==> r.loading == state.loading
    ensures !(action.LoginSuccess? || action.Logout? || action.SetError? || action.ClearError?) ==> r.error == state.error
  {
    match action
    case SetLoading(on) => state.(loading := on)
    case LoginSuccess(profile) => AuthState(true, Some(profile), false, None)
    case Logout => InitialAuthState.(loading := false)
    case UpdateProfile(updates) =>
      state.(user := Some((if state.user.Some? then state.user.value else map[]) + updates))
    case SetError(message) => state.(error := Some(message), loading := false)
    case ClearError => state.(error := None)
    case Unrecognised(_) => state
  }

  /** A successful login replaces whatever session there was. */
  lemma LoginSuccessForgetsPrevious(s1: AuthState, s2: AuthState, profile: Profile)
    ensures Reduce(s1, LoginSuccess(profile)) == Reduce(s2, LoginSuccess(profile))
    ensures var r := Reduce(s1, LoginSuccess(profile));
      r.isAuthenticated && r.user == Some(profile) && !r.loading && r.error.None?
  {
  }

  /** Logout yields the initial state, loaded, from any state. */
  lemma LogoutResets(state: AuthState)
    ensures Reduce(state, Logout) == AuthState(false, None, false, None)
    ensures Reduce(state, Logout) == InitialAuthState.(loading := false)
  {
  }

  /** `UPDATE_PROFILE` overwrites the fields the payload names, keeps every other
      field of the user, and touches nothing else of the state. */
  lemma UpdateProfileFields(state: AuthState, updates: Profile)
    ensures var r := Reduce(state, UpdateProfile(updates));
      r.user.Some? &&
      (forall f :: f in updates ==> f in r.user.value && r.user.value[f] == updates[f]) &&
      (forall f :: state.user.Some? && f in state.user.value && f !in updates ==>
         f in r.user.value && r.user.value[f] == state.user.value[f]) &&
      (forall f :: f in r.user.value ==> f in updates || (state.user.Some? && f in state.user.value)) &&
      r.isAuthenticated == state.isAuthenticated && r.loading == state.loading && r.error == state.error
  {
  }

  /** Applying the same updates twice is applying them once. */
  lemma UpdateProfileIdempotent(state: AuthState, updates: Profile)
    ensures Reduce(Reduce(state, UpdateProfile(updates)), UpdateProfile(updates)) == Reduce(state, UpdateProfile(updates))
  {
    var u := if state.user.Some? then state.user.value else map[];
    assert (u + updates) + updates == u + updates;
  }

  /** `SET_ERROR` also ends loading; `CLEAR_ERROR` clears only the error, so the two
      in sequence leave the state as it was except that loading is over. */
  lemma ErrorThenClear(state: AuthState, message: string)
    ensures Reduce(state, SetError(message)).error == Some(message) && !Reduce(state, SetError(message)).loading
    ensures Reduce(state, ClearError) == state.(error := None)
    ensures Reduce(Reduce(state, SetError(message)), ClearError) == state.(error := None, loading := false)
  {
  }

  /** An action the reducer does not know leaves the state as it is. */
  lemma UnrecognisedIsIdentity(state: AuthState, kind: string)
    ensures Reduce(state, Unrecognised(kind)) == state
  {
  }

  datatype NameError = NameRequired | NameTooShort | NameTooLong | InvalidCharacters

  /** The message `validateUserName` returns for each error. */
  function NameErrorText(e: NameError): string {
    match e
    case NameRequired => "Name is required"
    case NameTooShort => "Name must be at least 2 characters"
    case NameTooLong => "Name must be less than 50 characters"
    case InvalidCharacters => "Name contains invalid characters"
  }

  /** The object `validateUserName` returns: `valid`, and the message of the first
      failed check. */
  datatype NameVerdict = NameVerdict(valid: bool, error: Option<string>)

  /** Different errors have different messages, so the message names the check. */
  lemma NameErrorTextDistinct(a: NameError, b: NameError)
    ensures NameErrorText(a) == NameErrorText(b) ==> a == b
  {
  }

  /** `validateUserName(name)` as its callers see it: each message is reported exactly
      when its check is the first to fail. */
  function UserNameVerdict(name: string): (r: NameVerdict)
    ensures r.valid <==> r.error.None?
    ensures r.valid <==> 2 <= Utf16Length(Trim(name)) <= 50 && AllNameChars(Trim(name))
    ensures r.error == Some("Name is required") <==> AllWhitespace(name)
    ensures r.error == Some("Name must be at least 2 characters") <==> Utf16Length(Trim(name)) == 1
    ensures r.error == Some("Name must be less than 50 characters") <==> Utf16Length(Trim(name)) > 50
    ensures r.error == Some("Name contains invalid characters") ==>
      exists k :: 0 <= k < |Trim(name)| && !IsNameChar(Trim(name)[k])
  {
    match ValidateUserName(name)
    case Ok(_) => NameVerdict(true, None)
    case Err(e) => NameVerdict(false, Some(NameErrorText(e)))
  }

  /** One character of the class `[a-zA-Z0-9\s\-_.]`. */
  predicate IsNameChar(c: char) {
    ('a' <= c <= 'z') || ('A' <= c <= 'Z') || ('0' <= c <= '9') || IsWhitespace(c) || c == '-' || c == '_' || c == '.'
  }

  predicate AllNameChars(s: string) {
    forall k :: 0 <= k < |s| ==> IsNameChar(s[k])
  }

  /** `validateUserName(name)`: the checks run on the trimmed name, in order, and the
      first that fails is reported. Emptiness is decided on the whole name being
      whitespace; lengths are `length`s, counted in UTF-16 code units; an accepted
      name is 2 to 50 units of allowed characters once trimmed. A character beyond
      the Basic Multilingual Plane is never allowed: the regular expression, without
      the `u` flag, sees its two surrogate halves, and neither is in the class. */
  function ValidateUserName(name: string): (r: Result<(), NameError>)
    ensures r == Err(NameRequired) <==> AllWhitespace(name)
    ensures r.Ok? <==> 2 <= Utf16Length(Trim(name)) <= 50 && AllNameChars(Trim(name))
    ensures r == Err(NameTooShort) <==> Utf16Length(Trim(name)) == 1
    ensures r == Err(NameTooLong) <==> Utf16Length(Trim(name)) > 50
    ensures r == Err(InvalidCharacters) ==> exists k :: 0 <= k < |Trim(name)| && !IsNameChar(Trim(name)[k])
  {
    TrimEmptyIff(name);
    CheckTrimmedName(Trim(name))
  }

  /** The chain of checks on an already trimmed name. */
  function CheckTrimmedName(t: string): Result<(), NameError> {
    var units := Utf16Length(t);
    if units == 0 then Err(NameRequired)
    else if units < 2 then Err(NameTooShort)
    else if units > 50 then Err(NameTooLong)
    else if !AllNameChars(t) then Err(InvalidCharacters)
    else Ok(())
  }

  /** Whitespace around a name never changes the verdict. */
  lemma ValidationIgnoresPadding(name: string)
    ensures ValidateUserName(Trim(name)) == ValidateUserName(name)
  {
    TrimIdempotent(name);
    assert ValidateUserName(Trim(name)) == CheckTrimmedName(Trim(Trim(name)));
  }

  /** The longest accepted name has 50 characters: a name of 50 letters passes and
      one of 51 is too long. */
  lemma FiftyIsTheLimit()
    ensures ValidateUserName(seq(50, _ => 'a')).Ok?
    ensures ValidateUserName(seq(51, _ => 'a')) == Err(NameTooLong)
  {
    var fifty: string := seq(50, _ => 'a');
    var more: string := seq(51, _ => 'a');
    TrimOfTrimmed(fifty);
    TrimOfTrimmed(more);
    Utf16LengthCounts(fifty);
    Utf16LengthCounts(more);
  }

  /** A character beyond the Basic Multilingual Plane is two code units and never
      allowed: one emoji is refused for its characters, not as too short. */
  lemma OneEmojiIsInvalid()
    ensures ValidateUserName("\U{1F600}") == Err(InvalidCharacters)
  {
    var one: string := "\U{1F600}";
    TrimOfTrimmed(one);
    assert Utf16Length(one) == 2;
    assert !IsNameChar(one[0]);
  }

  /** 26 emoji are 52 code units: too long, although only 26 characters. */
  lemma TwentySixEmojiAreTooLong()
    ensures ValidateUserName(seq(26, _ => '\U{1F600}')) == Err(NameTooLong)
  {
    var many: string := seq(26, _ => '\U{1F600}');
    TrimOfTrimmed(many);
    Utf16LengthCounts(many);
    assert Utf16Length(many) == 52;
  }

  /** What `getUserShareInfo` returns: the user's id and name, and the contact card
      the QR code encodes (its `JSON.stringify` text is not modelled). */
  datatype ContactCard = ContactCard(id: Option<ProfileValue>, name: Option<ProfileValue>, kind: string)
  datatype ShareInfo = ShareInfo(id: Option<ProfileValue>, name: Option<ProfileValue>, qrData: ContactCard)

  const ContactCardType := "efimero_contact"

  /** A field of a profile, `undefined` when absent. */
  function Field(p: Profile, f: string): Option<ProfileValue> {
    if f in p then Some(p[f]) else None
  }

  /** `getUserShareInfo()`. */
  function UserShareInfo(state: AuthState): (r: Option<ShareInfo>)
    ensures r.None? <==> state.user.None?
    ensures r.Some? ==> r.value.id == Field(state.user.value, "id") && r.value.name == Field(state.user.value, "name")
    ensures r.Some? ==> r.value.qrData == ContactCard(r.value.id, r.value.name, ContactCardType)
  {
    match state.user
    case None => None
    case Some(u) => Some(ShareInfo(Field(u, "id"), Field(u, "name"), ContactCard(Field(u, "id"), Field(u, "name"), ContactCardType)))
  }

  /** The profile `createUser` builds: a generated id, the trimmed name, and the two
      clock readings taken for `createdAt` and `lastActive`. */
  function NewUser(id: string, name: string, createdAt: Time, lastActive: Time): Profile {
    map["id" := Str(id), "name" := Str(Trim(name)), "createdAt" := Stamp(createdAt), "lastActive" := Stamp(lastActive)]
  }

  /** After `createUser` logs in, the share card carries the generated id and the
      trimmed name. */
  lemma ShareInfoOfNewUser(state: AuthState, id: string, name: string, createdAt: Time, lastActive: Time)
    ensures var info := UserShareInfo(Reduce(state, LoginSuccess(NewUser(id, name, createdAt, lastActive))));
      info.Some? && info.value.id == Some(Str(id)) && info.value.name == Some(Str(Trim(name))) &&
      info.value.qrData.kind == ContactCardType
  {
  }

  /** The profile `updateProfile` saves: the current user, the updates over it, and
      a fresh `lastActive`. */
  function SavedUpdate(user: Option<Profile>, updates: Profile, now: Time): Profile {
    (if user.Some? then user.value else map[]) + updates + map["lastActive" := Stamp(now)]
  }

  /** The provider: its reducer state and the store it writes through. */
  class AuthProvider {
    var state: AuthState
    const storage: StorageService

    constructor (storage: StorageService)
      ensures state == InitialAuthState && this.storage == storage
    {
      state := InitialAuthState;
      this.storage := storage;
    }

    method Dispatch(action: AuthAction)
      modifies this
      ensures state == Reduce(old(state), action)
    {
      state := Reduce(state, action);
    }

    /** `loadUserProfile()`: log in with the stored profile, or just stop loading. */
    method LoadUserProfile()
      modifies this
      ensures storage.UserProfile().Some? ==> state == AuthState(true, storage.UserProfile(), false, None)
      ensures storage.UserProfile().None? ==> state == old(state).(loading := false)
    {
      Dispatch(SetLoading(true));
      var profile := storage.UserProfile();
      if profile.Some? {
        Dispatch(LoginSuccess(profile.value));
      } else {
        Dispatch(SetLoading(false));
      }
    }

    /** `createUser(name)`: the profile has a freshly generated id and the trimmed
        name; it is saved, then the user is logged in. The name is not validated
        here. `draws` are the random picks of `generateUserId`. */
    method CreateUser(name: string, draws: seq<Draw>, createdAt: Time, lastActive: Time, writeOk: bool) returns (r: Result<Profile, string>)
      requires |draws| == 7
      modifies this, storage
      ensures storage.timers == old(storage.timers)
      ensures r.Ok? <==> writeOk
      ensures r.Ok? ==> r.value == NewUser(IdFromDraws(draws), name, createdAt, lastActive) && IsValidUserId(IdFromDraws(draws))
      ensures r.Ok? ==> storage.store == old(storage.store)[UserProfileKey := ProfileData(r.value)]
      ensures r.Ok? ==> storage.UserProfile() == Some(r.value) && state == AuthState(true, Some(r.value), false, None)
      ensures r.Err? ==> r.error == "Failed to save user profile" && storage.store == old(storage.store)
      ensures r.Err? ==> state == old(state).(loading := false, error := Some("Error creating user profile"))
    {
      Dispatch(SetLoading(true));
      var userId := storage.GenerateUserId(draws);
      var newUser := NewUser(userId, name, createdAt, lastActive);
      var success := storage.SaveUserProfile(newUser, writeOk);
      if success {
        Dispatch(LoginSuccess(newUser));
        return Ok(newUser);
      }
      Dispatch(SetError("Error creating user profile"));
      r := Err("Failed to save user profile");
    }

    /** `updateProfile(updates)`: the store gets the updates and a fresh
        `lastActive`; the state gets the updates only. */
    method UpdateProfile(updates: Profile, now: Time, writeOk: bool) returns (ok: bool)
      modifies this, storage
      ensures storage.timers == old(storage.timers)
      ensures ok == writeOk
      ensures ok ==> storage.store == old(storage.store)[UserProfileKey := ProfileData(SavedUpdate(old(state.user), updates, now))]
      ensures ok ==> state == Reduce(old(state), AuthAction.UpdateProfile(updates))
      ensures !ok ==> storage.store == old(storage.store) && state == old(state).(loading := false, error := Some("Error updating profile"))
    {
      var updatedUser := SavedUpdate(state.user, updates, now);
      var success := storage.SaveUserProfile(updatedUser, writeOk);
      if success {
        Dispatch(AuthAction.UpdateProfile(updates));
        return true;
      }
      Dispatch(SetError("Error updating profile"));
      ok := false;
    }

    /** `updateLastActive()`: with a user, an update of `lastActive` alone, read
        from the clock at `requestedAt`; `updateProfile` stamps the saved copy again
        at `savedAt`. The state and the store then agree on every field but
        `lastActive`. */
    method UpdateLastActive(requestedAt: Time, savedAt: Time, writeOk: bool)
      modifies this, storage
      ensures storage.timers == old(storage.timers)
      ensures old(state.user).None? ==> state == old(state) && storage.store == old(storage.store)
      ensures old(state.user).Some? && writeOk ==>
        state == old(state).(user := Some(old(state.user).value["lastActive" := Stamp(requestedAt)])) &&
        storage.store == old(storage.store)[UserProfileKey := ProfileData(state.user.value["lastActive" := Stamp(savedAt)])]
      ensures old(state.user).Some? && !writeOk ==>
        storage.store == old(storage.store) && state == old(state).(loading := false, error := Some("Error updating profile"))
    {
      if state.user.Some? {
        var updates := map["lastActive" := Stamp(requestedAt)];
        ghost var before := state.user.value;
        var _ := UpdateProfile(updates, savedAt, writeOk);
        assert before + updates == before["lastActive" := Stamp(requestedAt)];
        assert before + updates + map["lastActive" := Stamp(savedAt)] == before["lastActive" := Stamp(requestedAt)]["lastActive" := Stamp(savedAt)];
      }
    }

    /** `logout()`: every record of the app is cleared, then the state reset. */
    method Logout(writeOk: bool) returns (ok: bool)
      modifies this, storage
      ensures ok == writeOk
      ensures ok ==> state == AuthState(false, None, false, None)
      ensures storage.timers == old(storage.timers)
      ensures ok ==> storage.UserProfile() == None && storage.Contacts() == [] && forall c :: storage.ChatMessages(c) == []
      ensures ok ==> storage.GetSettings() == DefaultSettings
      ensures ok ==> forall k :: k in storage.store <==>
        k in old(storage.store) && k !in FixedKeys && !StartsWith(k, ChatHistoryKey)
      ensures ok ==> forall k :: k in storage.store ==> storage.store[k] == old(storage.store)[k]
      ensures !ok ==> storage.store == old(storage.store) && state == old(state).(loading := false, error := Some("Error during logout"))
    {
      Dispatch(SetLoading(true));
      var success := storage.ClearAllData(writeOk);
      if success {
        Dispatch(AuthAction.Logout);
        return true;
      }
      Dispatch(SetError("Error during logout"));
      ok := false;
    }

    /** `clearError()`. */
    method ClearError()
      modifies this
      ensures state == old(state).(error := None)
    {
      Dispatch(AuthAction.ClearError);
    }
  }
}
