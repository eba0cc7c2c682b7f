/**
 * The application state behind every command (`AppState` in
 * src-tauri/src/lib.rs) and the errors commands report.
 */
module App {
  import opened Wrappers
  import opened Models
  import opened Crypto
  import opened LocalStore

  class AppState {
    var storage: LocalStorage?
    var dbPath: Option<string>
    var serverToken: Option<string>
    var serverUrl: Option<string>
    var cachedKey: Option<Key>
    var masterPassword: Option<string>

    /** The state at start-up: nothing opened, nothing cached. */
    constructor ()
      ensures storage == null && dbPath == None && serverToken == None && serverUrl == None
      ensures cachedKey == None && masterPassword == None
    {
      storage := null;
      dbPath := None;
      serverToken := None;
      serverUrl := None;
      cachedKey := None;
      masterPassword := None;
    }

    ghost predicate Valid()
      reads this, storage
    {
      storage != null ==> storage.Valid()
    }

    /**
     * The session invariant: a key is cached exactly when a master password
     * is, and it is the key derived from that password.
     */
    ghost predicate SessionAgrees(c: Primitives)
      reads this
    {
      match cachedKey
      case None => masterPassword.None?
      case Some(k) => masterPassword.Some? && k == DeriveMasterKey(c, masterPassword.value)
    }
  }

  /** Errors of the commands; the source reports them as strings (quoted here). */
  datatype CommandError =
    | NoCachedKey                  // "No cached key. Please unlock first."
    | DatabaseNotInitialized       // "Database not initialized"
    | StorageFailure(storageError: StorageError)
    | CryptoFailure(cryptoError: CryptoError)
    | NoSavedPassword              // "No saved password for this project"
    | NoPasswordAvailable          // "No password available for this project"
    | MasterPasswordAlreadySet     // "Master password already set"
    | NoMasterPasswordSet          // "No master password set"
    | NoDatabasePath               // "No database path"
    | NoPinConfigured              // "No PIN configured"
    | InvalidPinHash               // "Invalid PIN hash: ..."
    | InvalidPin                   // "invalid_pin"
    | MasterPasswordNotInKeychain  // "Master password not found in keychain"
    | NotConnected                 // "Not connected to server"
    | NotAuthenticated             // "Not authenticated"
}
