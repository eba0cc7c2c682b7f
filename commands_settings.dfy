/**
 * The session and PIN commands (src-tauri/src/commands/settings.rs): opening
 * the database, setting and checking the master password, the cached
 * session key, and the PIN kept in the keychain beside the saved master
 * password and database path.
 */
module SettingsCommands {
  import opened Wrappers
  import opened Models
  import opened Crypto
  import opened LocalStore
  import opened Keyring
  import opened App
  import ProjectCommands

  /** The keychain entries of a saved session. */
  const KC_DB_PATH := "db-path"
  const KC_MASTER_PASSWORD := "master-password"
  const KC_PIN_HASH := "pin-hash"

  /** A per-project password entry never overwrites or removes a session entry. */
  lemma ProjectEntriesAreNotSessionEntries(id: string)
    ensures ProjectCommands.KcKey(id) != KC_DB_PATH
    ensures ProjectCommands.KcKey(id) != KC_MASTER_PASSWORD
    ensures ProjectCommands.KcKey(id) != KC_PIN_HASH
  {
    var k := ProjectCommands.KcKey(id);
    assert k[0] == 'p' && k[1] == 'r';
    assert KC_DB_PATH[0] == 'd' && KC_MASTER_PASSWORD[0] == 'm' && KC_PIN_HASH[1] == 'i';
  }

  /** The session entries of a keychain. */
  function SessionPart(entries: map<string, string>): map<string, string> {
    map k | k in entries && (k == KC_DB_PATH || k == KC_MASTER_PASSWORD || k == KC_PIN_HASH) :: entries[k]
  }

  /**
   * Saving or removing a project's password, as create, update and delete
   * do, leaves the saved session and the PIN as they were.
   */
  lemma ProjectEntryKeepsSession(entries: map<string, string>, id: string, custom: bool, password: string)
    ensures SessionPart(ProjectCommands.EntryWritten(entries, id, custom, password)) == SessionPart(entries)
    ensures SessionPart(entries - {ProjectCommands.KcKey(id)}) == SessionPart(entries)
  {
    ProjectEntriesAreNotSessionEntries(id);
  }

  /**
   * `init_database`: `outcome` is the result of opening (and if need be
   * creating) the database file at `dbPath`.
   */
  method InitDatabase(state: AppState, dbPath: string, outcome: Result<LocalStorage, StorageError>)
    returns (r: Result<(), CommandError>)
    requires outcome.Ok? ==> outcome.value.Valid()
    modifies state
    ensures outcome.Err? ==>
              r == Err(StorageFailure(outcome.error)) && state.storage == old(state.storage) && state.dbPath == old(state.dbPath)
    ensures outcome.Ok? ==> r.Ok? && state.storage == outcome.value && state.dbPath == Some(dbPath) && state.Valid()
    ensures state.cachedKey == old(state.cachedKey) && state.masterPassword == old(state.masterPassword)
    ensures state.serverUrl == old(state.serverUrl) && state.serverToken == old(state.serverToken)
  {
    if outcome.Err? {
      return Err(StorageFailure(outcome.error));
    }
    state.storage := outcome.value;
    state.dbPath := Some(dbPath);
    r := Ok(());
  }

  function HasMasterPassword(state: AppState): (r: Result<bool, CommandError>)
    reads state, state.storage
    ensures state.storage == null <==> r == Err(DatabaseNotInitialized)
    ensures r.Ok? ==> (r.value <==> state.storage.GetVerificationToken().Some?)
  {
    if state.storage == null then Err(DatabaseNotInitialized)
    else Ok(state.storage.GetVerificationToken().Some?)
  }

  /** Derives and caches the session key for `password`, keeping the password beside it. */
  method CacheMasterKey(c: Primitives, state: AppState, password: string)
    modifies state
    ensures state.cachedKey == Some(DeriveMasterKey(c, password)) && state.masterPassword == Some(password)
    ensures state.SessionAgrees(c)
    ensures state.storage == old(state.storage) && state.dbPath == old(state.dbPath)
    ensures state.serverUrl == old(state.serverUrl) && state.serverToken == old(state.serverToken)
  {
    state.cachedKey := Some(DeriveMasterKey(c, password));
    state.masterPassword := Some(password);
  }

  /** Saves the database path (when known) and the master password in the keychain. */
  method SaveSession(kc: Keychain, dbPath: Option<string>, password: string)
    modifies kc
    ensures kc.entries == SessionSaved(old(kc.entries), dbPath, password)
  {
    if dbPath.Some? {
      kc.Save(KC_DB_PATH, dbPath.value);
    }
    kc.Save(KC_MASTER_PASSWORD, password);
  }

  function SessionSaved(entries: map<string, string>, dbPath: Option<string>, password: string): (r: map<string, string>)
    ensures KC_MASTER_PASSWORD in r && r[KC_MASTER_PASSWORD] == password
    ensures dbPath.Some? ==> KC_DB_PATH in r && r[KC_DB_PATH] == dbPath.value
    ensures forall k :: k != KC_MASTER_PASSWORD && k != KC_DB_PATH ==>
              (k in r <==> k in entries) && (k in r ==> r[k] == entries[k])
  {
    var withPath := if dbPath.Some? then entries[KC_DB_PATH := dbPath.value] else entries;
    withPath[KC_MASTER_PASSWORD := password]
  }

  method SetMasterPassword(c: Primitives, state: AppState, kc: Keychain, password: string, salt: Salt, nonce: Nonce)
    returns (r: Result<(), CommandError>)
    requires state.Valid()
    modifies state, state.storage, kc
    ensures state.Valid() && state.storage == old(state.storage) && state.dbPath == old(state.dbPath)
    ensures state.serverUrl == old(state.serverUrl) && state.serverToken == old(state.serverToken)
    ensures state.storage == null ==> r == Err(DatabaseNotInitialized)
    ensures state.storage != null && old(state.storage.verificationToken).Some? ==> r == Err(MasterPasswordAlreadySet)
    ensures r.Err? ==>
              && state.cachedKey == old(state.cachedKey) && state.masterPassword == old(state.masterPassword)
              && kc.entries == old(kc.entries)
              && (state.storage != null ==> state.storage.verificationToken == old(state.storage.verificationToken))
    ensures state.storage != null ==>
              state.storage.projects == old(state.storage.projects) && state.storage.settings == old(state.storage.settings)
    ensures state.storage != null && old(state.storage.verificationToken).None? ==>
              && r.Ok?
              && state.storage.verificationToken == Some(CreateVerificationToken(c, password, salt, nonce))
              && state.cachedKey == Some(DeriveMasterKey(c, password)) && state.masterPassword == Some(password)
              && state.SessionAgrees(c)
              && kc.entries == SessionSaved(old(kc.entries), state.dbPath, password)
              && (Sound(c) ==> VerifyPassword(c, state.storage.verificationToken.value, password))
  {
    if state.storage == null {
      return Err(DatabaseNotInitialized);
    }
    if state.storage.GetVerificationToken().Some? {
      return Err(MasterPasswordAlreadySet);
    }
    var token := CreateVerificationToken(c, password, salt, nonce);
    state.storage.SetVerificationToken(token);
    CacheMasterKey(c, state, password);
    SaveSession(kc, state.dbPath, password);
    if Sound(c) {
      VerificationTokenAccepted(c, password, salt, nonce);
    }
    r := Ok(());
  }

  method VerifyMasterPassword(c: Primitives, state: AppState, kc: Keychain, password: string)
    returns (r: Result<bool, CommandError>)
    modifies state, kc
    ensures state.storage == old(state.storage) && state.dbPath == old(state.dbPath)
    ensures state.serverUrl == old(state.serverUrl) && state.serverToken == old(state.serverToken)
    ensures state.storage == null ==> r == Err(DatabaseNotInitialized)
    ensures state.storage != null && state.storage.verificationToken.None? ==> r == Err(NoMasterPasswordSet)
    ensures state.storage != null && state.storage.verificationToken.Some? ==>
              r == Ok(VerifyPassword(c, state.storage.verificationToken.value, password))
    ensures r != Ok(true) ==>
              && state.cachedKey == old(state.cachedKey) && state.masterPassword == old(state.masterPassword)
              && kc.entries == old(kc.entries)
    ensures r == Ok(true) ==>
              && state.cachedKey == Some(DeriveMasterKey(c, password)) && state.masterPassword == Some(password)
              && state.SessionAgrees(c)
              && kc.entries == SessionSaved(old(kc.entries), state.dbPath, password)
  {
    if state.storage == null {
      return Err(DatabaseNotInitialized);
    }
    var token := state.storage.GetVerificationToken();
    if token.None? {
      return Err(NoMasterPasswordSet);
    }
    if !VerifyPassword(c, token.value, password) {
      return Ok(false);
    }
    CacheMasterKey(c, state, password);
    SaveSession(kc, state.dbPath, password);
    r := Ok(true);
  }

  /** Locking: forgets the session key and password; doing it twice is doing it once. */
  method ClearCachedKey(state: AppState)
    modifies state
    ensures state.cachedKey == None && state.masterPassword == None
    ensures forall c :: state.SessionAgrees(c)
    ensures state.storage == old(state.storage) && state.dbPath == old(state.dbPath)
    ensures state.serverUrl == old(state.serverUrl) && state.serverToken == old(state.serverToken)
  {
    state.cachedKey := None;
    state.masterPassword := None;
  }

  /** The keychain holds what `verify_pin` needs to unlock without the master password. */
  function HasSavedSession(kc: Keychain): (r: bool)
    reads kc
    ensures r <==> KC_DB_PATH in kc.entries && KC_MASTER_PASSWORD in kc.entries
  {
    kc.Get(KC_DB_PATH).Some? && kc.Get(KC_MASTER_PASSWORD).Some?
  }

  function HasPin(kc: Keychain): (r: bool)
    reads kc
    ensures r <==> KC_PIN_HASH in kc.entries
  {
    kc.Get(KC_PIN_HASH).Some?
  }

  method RemovePin(kc: Keychain)
    modifies kc
    ensures kc.entries == old(kc.entries) - {KC_PIN_HASH}
    ensures !HasPin(kc) && HasSavedSession(kc) == old(HasSavedSession(kc))
  {
    kc.Remove(KC_PIN_HASH);
  }

  method ClearSavedSession(kc: Keychain)
    modifies kc
    ensures kc.entries == old(kc.entries) - {KC_DB_PATH, KC_MASTER_PASSWORD, KC_PIN_HASH}
    ensures !HasSavedSession(kc) && !HasPin(kc)
  {
    kc.Remove(KC_DB_PATH);
    kc.Remove(KC_MASTER_PASSWORD);
    kc.Remove(KC_PIN_HASH);
  }

  /** The stored PIN hash: the base64 text of a PIN token. */
  function PinHash(c: Primitives, pin: string, salt: Salt, nonce: Nonce): string {
    c.encode64(CreatePinVerificationToken(c, pin, salt, nonce))
  }

  /** A PIN is accepted by the PIN check or, for older hashes, the master-password check. */
  predicate PinAccepted(c: Primitives, token: Bytes, pin: string) {
    VerifyPin(c, token, pin) || VerifyPassword(c, token, pin)
  }

  /** The outcome of checking `pin` against the keychain's PIN hash. */
  function CheckPin(c: Primitives, entries: map<string, string>, pin: string): (r: Option<CommandError>)
    ensures KC_PIN_HASH !in entries <==> r == Some(NoPinConfigured)
    ensures r.None? <==>
              KC_PIN_HASH in entries && c.decode64(entries[KC_PIN_HASH]).Some? &&
              PinAccepted(c, c.decode64(entries[KC_PIN_HASH]).value, pin)
    ensures r.Some? ==> r.value in {NoPinConfigured, InvalidPinHash, InvalidPin}
  {
    if KC_PIN_HASH !in entries then Some(NoPinConfigured)
    else match c.decode64(entries[KC_PIN_HASH])
      case None => Some(InvalidPinHash)
      case Some(token) => if PinAccepted(c, token, pin) then None else Some(InvalidPin)
  }

  /** The hash `setup_pin` or `change_pin` stores accepts the PIN it was made from. */
  lemma PinHashAccepted(c: Primitives, entries: map<string, string>, pin: string, salt: Salt, nonce: Nonce)
    requires Sound(c)
    ensures CheckPin(c, entries[KC_PIN_HASH := PinHash(c, pin, salt, nonce)], pin) == None
  {
    var token := CreatePinVerificationToken(c, pin, salt, nonce);
    assert c.decode64(c.encode64(token)) == Some(token);
    PinTokenAccepted(c, pin, salt, nonce);
  }

  method SetupPin(c: Primitives, state: AppState, kc: Keychain, pin: string, masterPassword: string, salt: Salt, nonce: Nonce)
    returns (r: Result<(), CommandError>)
    modifies kc
    ensures state.dbPath.None? ==> r == Err(NoDatabasePath) && kc.entries == old(kc.entries)
    ensures state.dbPath.Some? ==>
              && r.Ok?
              && kc.entries == SessionSaved(old(kc.entries), state.dbPath, masterPassword)[KC_PIN_HASH := PinHash(c, pin, salt, nonce)]
              && HasSavedSession(kc) && HasPin(kc)
              && (Sound(c) ==> CheckPin(c, kc.entries, pin).None?)
  {
    var pinHash := PinHash(c, pin, salt, nonce);
    if state.dbPath.None? {
      return Err(NoDatabasePath);
    }
    kc.Save(KC_DB_PATH, state.dbPath.value);
    kc.Save(KC_MASTER_PASSWORD, masterPassword);
    kc.Save(KC_PIN_HASH, pinHash);
    if Sound(c) {
      PinHashAccepted(c, old(kc.entries)[KC_DB_PATH := state.dbPath.value][KC_MASTER_PASSWORD := masterPassword], pin, salt, nonce);
    }
    r := Ok(());
  }

  /** Unlocks with the PIN: caches the key of the saved master password and returns that password. */
  method UnlockWithPin(c: Primitives, state: AppState, kc: Keychain, pin: string) returns (r: Result<string, CommandError>)
    modifies state
    ensures state.storage == old(state.storage) && state.dbPath == old(state.dbPath)
    ensures state.serverUrl == old(state.serverUrl) && state.serverToken == old(state.serverToken)
    ensures CheckPin(c, kc.entries, pin).Some? ==> r == Err(CheckPin(c, kc.entries, pin).value)
    ensures CheckPin(c, kc.entries, pin).None? && KC_MASTER_PASSWORD !in kc.entries ==> r == Err(MasterPasswordNotInKeychain)
    ensures r.Err? ==> state.cachedKey == old(state.cachedKey) && state.masterPassword == old(state.masterPassword)
    ensures CheckPin(c, kc.entries, pin).None? && KC_MASTER_PASSWORD in kc.entries ==>
              && r == Ok(kc.entries[KC_MASTER_PASSWORD])
              && state.cachedKey == Some(DeriveMasterKey(c, r.value)) && state.masterPassword == Some(r.value)
              && state.SessionAgrees(c)
  {
    var check := CheckPin(c, kc.entries, pin);
    if check.Some? {
      return Err(check.value);
    }
    var saved := kc.Get(KC_MASTER_PASSWORD);
    if saved.None? {
      return Err(MasterPasswordNotInKeychain);
    }
    CacheMasterKey(c, state, saved.value);
    r := Ok(saved.value);
  }

  /** Replaces the PIN hash, only when the old PIN is accepted. */
  method ChangePin(c: Primitives, kc: Keychain, oldPin: string, newPin: string, salt: Salt, nonce: Nonce)
    returns (r: Result<(), CommandError>)
    modifies kc
    ensures r.Err? <==> CheckPin(c, old(kc.entries), oldPin).Some?
    ensures r.Err? ==> r.error == CheckPin(c, old(kc.entries), oldPin).value && kc.entries == old(kc.entries)
    ensures r.Ok? ==> kc.entries == old(kc.entries)[KC_PIN_HASH := PinHash(c, newPin, salt, nonce)]
    ensures r.Ok? && Sound(c) ==> CheckPin(c, kc.entries, newPin).None?
  {
    var check := CheckPin(c, kc.entries, oldPin);
    if check.Some? {
      return Err(check.value);
    }
    kc.Save(KC_PIN_HASH, PinHash(c, newPin, salt, nonce));
    if Sound(c) {
      PinHashAccepted(c, old(kc.entries), newPin, salt, nonce);
    }
    r := Ok(());
  }
}
