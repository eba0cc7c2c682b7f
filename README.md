# VaultPad command layer in Dafny

VaultPad is a desktop notes vault. Every note ("project") is stored
encrypted in a local SQLite file and can be synced with a server. This
project models the Rust command layer behind the user interface
(`src-tauri`) and proves properties of that model:

- **Ciphertext framing** (module `Crypto`). There are two blob layouts:
  - V2 is `0x02 || nonce(12) || ct`, sealed with the session key;
  - V1 is `salt(16) || nonce(12) || ct`, with a key derived from a password for each blob.

  `decrypt_auto` picks a layout from the tag byte, length thresholds and the
  credentials available. AES-256-GCM (NIST SP 800-38D), Argon2id (RFC 9106)
  and base64 (section 4 of RFC 4648) are the record of functions
  `Primitives`. What the code relies on about them is the hypothesis
  `Sound`, which the lemmas that need it require.
- **The local table** (modules `Table` and `LocalStore`). `Table` gives the
  meaning of each SQL statement on the `projects` table as a function on
  its rows, which are kept in insertion order:
  - an INSERT on a taken primary key fails;
  - an UPDATE or DELETE that matches no row reports NotFound;
  - the reorder runs as one transaction;
  - the listing is sorted by `sort_order`, then `created_at`.

  `LocalStore.LocalStorage` is the store as an object. Its fields are the
  three tables: the projects, the one-row verification table and the
  settings table. Each method is proved equal to the matching `Table`
  function.
- **The keychain** (`Keyring.Keychain`): a map from entry name to secret.
- **The application state** (`App.AppState`): the six fields of `AppState`.
  `SessionAgrees` is the session invariant: a key is cached exactly when a
  master password is, and it is the key derived from that password.
- **Project commands** (module `ProjectCommands`). These cover:
  - how a stored row is shown: shared key, custom password that is saved,
    or locked placeholder;
  - opening a row with the session key or a custom password;
  - create, with `sort_order = max + 1`, and update, which moves "synced" to "modified";
  - the per-project keychain entry;
  - delete;
  - reorder, including that the listing afterwards follows the given ids.
- **Session and PIN commands** (module `SettingsCommands`). These cover:
  - set, verify and cache the master password, and clear the cache;
  - set up, check and change the PIN;
  - the saved-session entries.
- **Sync** (modules `Remote` and `SyncCommands`).
  - The server is a second table. The server assigns its ids and both
    timestamps. The network may stop answering from some request on.
  - The upload pass and the download pass are specified as folds
    (`Upload`, `Download`) that stop at the first failure. The command's
    loops are proved equal to them.
  - Lemmas about the folds prove four things: the final status of every
    row, the two counters, which server rows the download creates, and
    where a failed pass stopped.

Inputs the code draws from its environment are parameters:
- random salts and nonces (`Entropy`);
- project UUIDs and timestamps;
- the database open result (`InitDatabase`'s `outcome`);
- a fault in the reorder transaction (`ioFault`);
- the server's state, its accepted tokens and the point where the network drops.

`PushedRowComesBack` proves a consequence of `sync.rs:46-48` worth knowing.
A "local" row is pushed and marked synced, but its copy keeps an empty
`server_id`. So the next sync does not recognise the server's copy and
downloads it as a second local row holding the same ciphertexts.

## Model

| member | source | states |
|---|---|---|
| Crypto.EncryptWithKey | src-tauri/src/crypto/mod.rs:71-87 | the V2 blob is the tag 0x02, then the nonce, then the sealed body; its length is 13 plus the body |
| Crypto.EncryptWithKeyLength | src-tauri/src/crypto/mod.rs:82-86 | under sound primitives a V2 blob is 29 bytes longer than its plaintext (tag, nonce, GCM tag) |
| Crypto.TryDecryptWithKey | src-tauri/src/crypto/mod.rs:90-98 | None for data shorter than 14 bytes or not tagged 0x02; for tagged data of at least 14 bytes, exactly the open of the body under the key |
| Crypto.Encrypt | src-tauri/src/crypto/mod.rs:149-170 | the V1 blob is salt, nonce and the body sealed under the key derived from password and salt |
| Crypto.Decrypt | src-tauri/src/crypto/mod.rs:174-207 | InvalidFormat exactly for data shorter than 29 bytes; otherwise the plaintext under the current Argon2 parameters when they open it, else the plaintext under the legacy ones, else DecryptionFailed |
| Crypto.DecryptAuto | src-tauri/src/crypto/mod.rs:102-146 | the dispatch as written: InvalidFormat on empty data; a V2 tag without a key gives DecryptionFailed; with a key, under 14 bytes gives InvalidFormat and from 14 bytes the V2 open under the key, else DecryptionFailed; untagged data of at least 29 bytes opens with the key on the V1 layout when it can; otherwise `decrypt` with the password, or DecryptionFailed without one |
| Crypto.DecryptAutoCorrected | src-tauri/src/crypto/mod.rs:102-146 | agrees with the dispatch except on a tagged blob of at least 29 bytes that V2 cannot open, which it then reads as V1 |
| Crypto.EncryptWithKeyRoundTrip | src-tauri/src/crypto/mod.rs:71-127 | a V2 blob opens with its key, through `try_decrypt_with_key` and through both dispatches, whatever password is given |
| Crypto.EncryptRoundTrip | src-tauri/src/crypto/mod.rs:149-207 | `decrypt(encrypt(p, pw), pw) == p`, and the blob is 44 bytes longer than p |
| Crypto.DecryptAutoV1WithPassword | src-tauri/src/crypto/mod.rs:128-145 | a V1 blob whose salt does not start with 0x02 opens by password with no cached key |
| Crypto.V1SaltTagMisrouted | src-tauri/src/crypto/mod.rs:111-114 | a V1 blob whose salt starts with 0x02 fails with DecryptionFailed when no key is cached, even with the right password |
| Crypto.CorrectedDecryptsEveryV1Blob | src-tauri/src/crypto/mod.rs:102-146 | the corrected dispatch opens every V1 blob with its password |
| Crypto.VerifyPassword | src-tauri/src/crypto/mod.rs:213-218 | true exactly when the token decrypts to ACCESS_STORAGE_OK; then the token has at least 29 bytes |
| Crypto.VerificationTokenAccepted | src-tauri/src/crypto/mod.rs:209-218 | the token made from a password verifies with that password |
| Crypto.CreatePinVerificationToken | src-tauri/src/crypto/mod.rs:220-244 | the PIN token is salt, nonce and ACCESS_STORAGE_OK sealed under the PIN key (light Argon2 parameters) |
| Crypto.VerifyPin | src-tauri/src/crypto/mod.rs:246-270 | true exactly when the token has at least 29 bytes and its body opens to ACCESS_STORAGE_OK under the key derived from the PIN with the PIN parameters |
| Crypto.PinTokenAccepted | src-tauri/src/crypto/mod.rs:220-270 | the token made from a PIN has at least 29 bytes and verifies with that PIN |
| Table.IndexOf | src-tauri/src/storage/local.rs:83-109 | the position of a row with the id, none exactly when no row has it |
| Table.Get | src-tauri/src/storage/local.rs:83-109 | NotFound(id) exactly when no row has the id; otherwise a row of the table with that id |
| Table.GetOfRow | src-tauri/src/storage/local.rs:83-109 | with unique ids, looking up a row's id finds that row |
| Table.Insert | src-tauri/src/storage/local.rs:111-130 | fails with the primary-key error exactly when the id is taken; otherwise appends the row, adds its id and keeps ids unique |
| Table.UniqueIdsAppend | src-tauri/src/storage/local.rs:30-47 | appending keeps the primary key unique exactly when the new id is not taken |
| Table.Update | src-tauri/src/storage/local.rs:132-156 | NotFound exactly when no row has the id; otherwise the matching row takes every column but id and created_at, and the other rows stay as they were |
| Table.GetAfterUpdate | src-tauri/src/storage/local.rs:132-156 | after an UPDATE, its id looks up the new row with the old created_at; every other lookup is unchanged |
| Table.Without | src-tauri/src/storage/local.rs:158-168 | keeps exactly the rows with other ids, and keeps ids unique |
| Table.Delete | src-tauri/src/storage/local.rs:158-168 | NotFound exactly when no row has the id; otherwise removes exactly that id and keeps every other row |
| Table.GetAfterDelete | src-tauri/src/storage/local.rs:158-168 | after a DELETE its id is not found; every other lookup is unchanged |
| Table.Reorder | src-tauri/src/storage/local.rs:170-183 | each row keeps its place and columns except sort_order, which is taken from the last pair naming it; unnamed rows and unknown ids change nothing |
| Table.ReorderKeepsIds | src-tauri/src/storage/local.rs:170-183 | the reorder keeps the set of ids and their uniqueness |
| Table.PermutationKeepsUniqueIds | src-tauri/src/storage/local.rs:53-81 | the listing, a permutation of the rows, has unique ids |
| Table.TextLeTotal | src-tauri/src/storage/local.rs:59 | TEXT comparison on created_at is total |
| Table.TextLeTransitive | src-tauri/src/storage/local.rs:59 | TEXT comparison on created_at is transitive |
| Table.ListedBeforeTotal | src-tauri/src/storage/local.rs:59 | the ORDER BY relation is total |
| Table.ListedBeforeTransitive | src-tauri/src/storage/local.rs:59 | the ORDER BY relation is transitive |
| Table.InsertListed | src-tauri/src/storage/local.rs:59 | inserting into a sorted listing keeps it sorted, and adds exactly that row |
| Table.InsertListedAfterTies | src-tauri/src/storage/local.rs:59 | the new row goes after every row listed before or with it and before every other row, so rows that tie keep the order they were inserted in |
| Table.Listing | src-tauri/src/storage/local.rs:53-81 | the listing is sorted by (sort_order, created_at) and is a permutation of the rows |
| LocalStore.LocalStorage.constructor | src-tauri/src/storage/local.rs:30-47 | a new database has three empty tables |
| LocalStore.LocalStorage.CreateProject | src-tauri/src/storage/local.rs:111-130 | fails with the primary-key error exactly when the id is taken, changing nothing; otherwise appends the row; the other tables are untouched |
| LocalStore.LocalStorage.UpdateProject | src-tauri/src/storage/local.rs:132-156 | the projects become `Table.Update`'s rows; NotFound leaves them unchanged |
| LocalStore.LocalStorage.DeleteProject | src-tauri/src/storage/local.rs:158-168 | the projects become `Table.Delete`'s rows; NotFound leaves them unchanged |
| LocalStore.LocalStorage.ReorderProjects | src-tauri/src/storage/local.rs:170-183 | fails exactly when a statement or the commit fails, and then leaves the table unchanged; otherwise the table is `Table.Reorder` of the pairs |
| LocalStore.LocalStorage.SetVerificationToken | src-tauri/src/storage/local.rs:185-204 | the single slot holds the new token; the other tables are untouched |
| LocalStore.LocalStorage.SetSetting | src-tauri/src/storage/local.rs:206-227 | insert-or-replace: reading the key gives the value set; every other key reads as before |
| Keyring.Keychain.constructor | src-tauri/src/keychain.rs:12-26 | the keychain holds the given entries |
| Keyring.Keychain.Save | src-tauri/src/keychain.rs:12-16 | the entry takes the value; no other entry changes |
| Keyring.Keychain.Remove | src-tauri/src/keychain.rs:22-26 | the entry is gone, silently when it was absent; no other entry changes |
| App.AppState.constructor | src-tauri/src/lib.rs:72-79 | start-up state: no database, path, server, key or password |
| ProjectCommands.KcKeyInjective | src-tauri/src/commands/projects.rs:36-38 | distinct projects have distinct keychain entries |
| ProjectCommands.ListItem | src-tauri/src/commands/projects.rs:50-101 | a name that opens with the session key is shared (both flags false); else one that opens with the saved password is custom and saved; else the locked placeholder, custom and not saved; id, order and times are copied |
| ProjectCommands.ListProjects | src-tauri/src/commands/projects.rs:41-108 | NoCachedKey before any other check; DatabaseNotInitialized; otherwise exactly one item per listed row, in listing order, each classified by ListItem |
| ProjectCommands.ListItemOfSharedRow | src-tauri/src/commands/projects.rs:50-62 | a row created under the session key is listed with its name and as shared |
| ProjectCommands.ListItemOfCustomRow | src-tauri/src/commands/projects.rs:63-90 | a row created with a custom password that is in the keychain is listed with its name, as custom and saved |
| ProjectCommands.GetProject | src-tauri/src/commands/projects.rs:111-161 | DatabaseNotInitialized and NotFound for a missing id, both leaving the keychain as it was; a shared row opens with the session credentials and leaves the keychain alone; a custom row needs a given or saved password, saves a given one, and opens with it |
| ProjectCommands.SealOpens | src-tauri/src/commands/projects.rs:164-215 | what create or update seals opens again with the credential it was sealed for |
| ProjectCommands.NextSortOrder | src-tauri/src/commands/projects.rs:192-198 | 0 for no rows; otherwise one more than the largest sort_order, so above every row |
| ProjectCommands.NextSortOrderOfPermutation | src-tauri/src/commands/projects.rs:192-198 | the next order does not depend on the order rows are listed in |
| ProjectCommands.CreateProject | src-tauri/src/commands/projects.rs:164-215 | NoCachedKey or DatabaseNotInitialized change nothing; the keychain entry is saved for a custom project and removed for a shared one; the row is appended with the next order, status "local", no server id, equal timestamps, and fails exactly when the id is taken |
| ProjectCommands.UpdatedSyncStatus | src-tauri/src/commands/projects.rs:252-256 | "synced" becomes "modified"; every other status stays |
| ProjectCommands.EditedRow | src-tauri/src/commands/projects.rs:258-267 | the rewritten row keeps id, sort_order, created_at and server_id, takes the new time and the mapped status |
| ProjectCommands.UpdateProject | src-tauri/src/commands/projects.rs:218-273 | NoCachedKey, DatabaseNotInitialized, NotFound, and NoPasswordAvailable for a custom project with no given or saved password, each changing nothing; otherwise the keychain entry follows the password choice and the row is rewritten as EditedRow |
| ProjectCommands.UpdateKeepsBookkeeping | src-tauri/src/commands/projects.rs:252-267 | after the update the row keeps its order, creation time and server id, and is never "synced": a synced row becomes "modified" |
| ProjectCommands.DeleteProject | src-tauri/src/commands/projects.rs:276-282 | the keychain entry is removed before the storage delete, even when that delete reports NotFound |
| ProjectCommands.ReorderProjects | src-tauri/src/commands/projects.rs:285-299 | DatabaseNotInitialized; a failed transaction leaves the table unchanged; otherwise the table is the reorder by positions |
| ProjectCommands.LastOrderOfPosition | src-tauri/src/commands/projects.rs:289-293 | with distinct ids, the order given to `ids[i]` is i |
| ProjectCommands.LastOrderOfUnlisted | src-tauri/src/storage/local.rs:174-180 | an id not in the list gets no order |
| ProjectCommands.ReorderByPosition | src-tauri/src/commands/projects.rs:285-299 | each listed row gets its position and each unlisted row is unchanged |
| ProjectCommands.ListingByPositions | src-tauri/src/storage/local.rs:53-81 | rows whose orders are the positions of their ids are listed in the order of the ids |
| ProjectCommands.ListingFollowsReorder | src-tauri/src/commands/projects.rs:285-299 | when the ids name every row once, the listing after the reorder shows the rows in the order of the ids |
| SettingsCommands.ProjectEntriesAreNotSessionEntries | src-tauri/src/commands/settings.rs:13-15 | no project's keychain entry is one of the session entries |
| SettingsCommands.InitDatabase | src-tauri/src/commands/settings.rs:18-27 | a failed open changes nothing; a successful one installs the store and the path |
| SettingsCommands.HasMasterPassword | src-tauri/src/commands/settings.rs:30-35 | DatabaseNotInitialized exactly without a store; otherwise true exactly when a verification token exists |
| SettingsCommands.CacheMasterKey | src-tauri/src/commands/settings.rs:100-109 | caches the derived key and the password, so the session invariant holds |
| SettingsCommands.SaveSession | src-tauri/src/commands/settings.rs:58-62 | the keychain gets the master password and, when known, the database path |
| SettingsCommands.SessionSaved | src-tauri/src/commands/settings.rs:58-62 | the master-password entry is the password and the db-path entry is the path when known; all other entries are kept |
| SettingsCommands.SetMasterPassword | src-tauri/src/commands/settings.rs:38-65 | DatabaseNotInitialized; "already set" when a token exists, changing nothing; otherwise stores a token that verifies with the password, caches the key and saves the session |
| SettingsCommands.VerifyMasterPassword | src-tauri/src/commands/settings.rs:68-97 | DatabaseNotInitialized; "No master password set" without a token; false on a wrong password with cache and keychain untouched; true caches the key and saves the session |
| SettingsCommands.ClearCachedKey | src-tauri/src/commands/settings.rs:112-122 | the key and the password are cleared, so the session invariant holds |
| SettingsCommands.ProjectEntryKeepsSession | src-tauri/src/commands/projects.rs:179-185 | saving or removing a project's password entry leaves the db-path, master-password and pin-hash entries as they were |
| SettingsCommands.HasSavedSession | src-tauri/src/commands/settings.rs:198-201 | true exactly when both the db-path and the master-password entries exist |
| SettingsCommands.HasPin | src-tauri/src/commands/settings.rs:204-206 | true exactly when the pin-hash entry exists |
| SettingsCommands.RemovePin | src-tauri/src/commands/settings.rs:214-216 | only the pin-hash entry goes; whether a session is saved does not change |
| SettingsCommands.ClearSavedSession | src-tauri/src/commands/settings.rs:224-228 | the three session entries go, so there is no saved session and no PIN |
| SettingsCommands.CheckPin | src-tauri/src/commands/settings.rs:174-181 | "No PIN configured" exactly without the entry; otherwise passes exactly when the entry decodes and the PIN check or the password check accepts it |
| SettingsCommands.PinHashAccepted | src-tauri/src/commands/settings.rs:155-181 | the hash stored for a PIN passes the check for that PIN |
| SettingsCommands.SetupPin | src-tauri/src/commands/settings.rs:150-170 | "No database path" changes nothing; otherwise saves the path, the master password and a hash that passes the check for the PIN |
| SettingsCommands.UnlockWithPin | src-tauri/src/commands/settings.rs:173-195 | the PIN check's error, or "Master password not found", with the cache unchanged; otherwise caches the key of the saved master password and returns it |
| SettingsCommands.ChangePin | src-tauri/src/commands/settings.rs:231-246 | fails exactly when the old PIN fails the check, changing nothing; otherwise rewrites only pin-hash, with a hash the new PIN passes |
| Remote.IdText | src-tauri/src/storage/remote.rs:102 | the decimal text of an id is never empty |
| Remote.IdTextInjective | src-tauri/src/storage/remote.rs:102 | distinct server ids have distinct texts |
| Remote.Listed | src-tauri/src/storage/remote.rs:89-104 | a listed server row has its id as its server id and the status "synced" |
| Remote.ListingOf | src-tauri/src/storage/remote.rs:73-107 | one project per server row, each with its server id and the status "synced" |
| Remote.Find | src-tauri/src/storage/remote.rs:161-183 | the position of the server row with that id, none exactly when no row has it |
| Remote.HealthCall | src-tauri/src/storage/remote.rs:65-71 | succeeds exactly when the request is answered; the table is unchanged |
| Remote.ListCall | src-tauri/src/storage/remote.rs:73-107 | succeeds exactly when answered and authorized, with the listing of the table |
| Remote.CreateCall | src-tauri/src/storage/remote.rs:139-159 | succeeds exactly when answered and authorized; then appends a row with a fresh id, the ciphertexts and order sent, and the server's time |
| Remote.UpdateCall | src-tauri/src/storage/remote.rs:161-183 | addresses the row by server id or else by id; succeeds exactly when answered, authorized and the row exists; then rewrites only its ciphertexts, order and update time |
| Remote.DeleteCall | src-tauri/src/storage/remote.rs:185-197 | succeeds exactly when answered, authorized and the row exists, and then removes exactly that row; an answered failure is NotFound |
| Remote.Server.constructor | src-tauri/src/storage/remote.rs:47-53 | the server holds the given table and no request has been sent |
| Remote.Server.Health | src-tauri/src/storage/remote.rs:65-71 | the state and reply are HealthCall's |
| Remote.Server.List | src-tauri/src/storage/remote.rs:73-107 | the state and reply are ListCall's for the token |
| Remote.Server.Create | src-tauri/src/storage/remote.rs:139-159 | the state and reply are CreateCall's for the token |
| Remote.Server.Update | src-tauri/src/storage/remote.rs:161-183 | the state and reply are UpdateCall's for the token |
| Remote.Server.Delete | src-tauri/src/storage/remote.rs:185-197 | the state and reply are DeleteCall's for the token |
| SyncCommands.Pushed | src-tauri/src/commands/sync.rs:41-64 | after the remote call the row is rewritten as synced and counted; a failure of either call stops the step, but the server keeps what the call did |
| SyncCommands.LocalServerIds | src-tauri/src/commands/sync.rs:77-80 | exactly the server ids recorded in the snapshot |
| SyncCommands.CountPushed | src-tauri/src/commands/sync.rs:35-74 | the number of "local" and "modified" rows, at most the snapshot's length |
| SyncCommands.Missing | src-tauri/src/commands/sync.rs:82-90 | exactly the server rows whose server id (else id) the snapshot does not record |
| SyncCommands.UploadStepFailure | src-tauri/src/commands/sync.rs:39-73 | a push fails exactly without a response, a missing local row or, for an update, a missing server row, and its request stays sent; a delete fails only locally, whatever the server replied; any other status does nothing |
| SyncCommands.UploadStepSettles | src-tauri/src/commands/sync.rs:39-73 | a successful step settles its row and changes no other lookup |
| SyncCommands.UploadSettles | src-tauri/src/commands/sync.rs:39-74 | after a successful upload, "local" and "modified" rows are synced with their other columns kept, "deleted" rows are gone, others are untouched, and only deleted ids leave the table |
| SyncCommands.UploadCounts | src-tauri/src/commands/sync.rs:35-74 | a successful upload counts exactly the "local" and "modified" rows |
| SyncCommands.UploadAfterFailure | src-tauri/src/commands/sync.rs:39-74 | once a step fails, the rest of the loop does nothing |
| SyncCommands.UploadStopsAtFirstFailure | src-tauri/src/commands/sync.rs:39-74 | a failed upload stopped at one row: every earlier row went through, and the state is what the earlier steps and the failing step left |
| SyncCommands.DownloadAfterFailure | src-tauri/src/commands/sync.rs:82-90 | once a create fails, the rest of the download does nothing |
| SyncCommands.DownloadAppendsMissing | src-tauri/src/commands/sync.rs:82-90 | the download succeeds exactly when the missing rows add no duplicate id, and then appends exactly them and counts them |
| SyncCommands.ListingIsSnapshot | src-tauri/src/commands/sync.rs:32 | each row of the snapshot is the table's row for its id, and the snapshot's ids are unique |
| SyncCommands.SyncOutcome | src-tauri/src/commands/sync.rs:32-95 | a successful sync settles every row of the table, counts the pushed rows, and appends exactly the missing server rows |
| SyncCommands.PushedRowComesBack | src-tauri/src/commands/sync.rs:46-48 | a pushed "local" row keeps no server id, so the next sync downloads the server's copy as a second row |
| SyncCommands.UploadRow | src-tauri/src/commands/sync.rs:39-73 | one loop iteration on the two stores does what UploadStep says |
| SyncCommands.UploadAll | src-tauri/src/commands/sync.rs:39-74 | the upload loop does what Upload says, returning at the first failure |
| SyncCommands.DownloadAll | src-tauri/src/commands/sync.rs:77-90 | the download loop does what Download says, returning at the first failure |
| SyncCommands.SyncProjects | src-tauri/src/commands/sync.rs:11-96 | "Not connected", "Not authenticated" and "Database not initialized" come before any request and leave the local projects as they were; then the health check, whose request is counted even when unanswered, and the listing; then both stores end as SyncPass says, with no rollback, and the counters are returned |

## Left out

- AES-256-GCM, Argon2id and base64 internals are the abstract `Primitives`. Random salt and nonce generation and `zeroize` are left out.
- Encryption and key-derivation failures (`EncryptionFailed`, `KeyDerivationFailed` from the primitives) are not modelled, because the primitives are total functions here.
- Names and contents stay as bytes. UTF-8 decoding failures (`String::from_utf8`) are not modelled.
- Timestamps (`chrono::Utc::now`) and project UUIDs are inputs.
- Widths are not modelled. `sort_order` is i32 and the sync counters are u32; `NextSortOrder`, the counters and the position index that `ProjectCommands.OrderPairs` pairs with each id (`i as i32`, src-tauri/src/commands/projects.rs:291) use unbounded integers, so the overflow of `max + 1`, of a counter or of the index cast is not modelled.
- Only the reorder transaction has an injected fault. Other storage statements that fail inside SQLite, such as lock or disk errors, are left out.
- Keychain save errors are left out, because `Keyring.Keychain.Save` always succeeds.
- Mutex locking and its poisoning errors are left out, because every command is a sequential method.
- The order of rows with equal (sort_order, created_at) is left open by SQL. `Table.Listing` fixes it to insertion order: it inserts the rows first to last, each after the rows it ties with.
- HTTP, JSON and base64 on the wire, and the owner column of server rows, are left out. The server's own code is not part of this model: the order of its listing is taken as its table order. A server response that is not success is modelled only as the failures named in `Remote`.
- `commands/auth.rs` (login, register, logout) is not part of this model. The server URL and token are fields of `AppState`.
- Commands outside the modelled core are left out: `get_project_password`, `get_db_path`, `get_setting`, `set_setting`, `is_database_initialized`, `get_saved_master_password` and `get_saved_db_path`. Each is a single read or write of a state field, keychain entry or storage method that is modelled.
- `get_cached_key` (src-tauri/src/commands/projects.rs:24-30) is not a member of its own: every project command reads `cachedKey` and fails with NoCachedKey first.
- `reorder_projects` is modelled although the storage trait (src-tauri/src/storage/mod.rs:19-32) does not declare it and lib.rs does not register the command.
- The user interface, the menu and the front end's bootstrap, auto-lock and autosave are out of scope.
- ProjectCommands.ListItemOfCustomRow: requires that the salt of the sealed name does not start with 0x02. Such a name looks like a V2 blob, so the session key is tried on it first. `Sound` does not say that one key fails to open what another key sealed, so the row could then list as shared.
- ProjectCommands.ListItem: opens a custom name with the corrected dispatch (see Findings). A name sealed by `encrypt` whose salt starts with 0x02, with its password saved, is listed unlocked here. The source lists it as locked.
- ProjectCommands.ListProjects: lists every row through `ProjectCommands.ListItem`, so the same difference applies.
- ProjectCommands.GetProject: opens names and contents with the corrected dispatch. Two cases differ from the source, which fails with DecryptionFailed on both. One is a custom blob whose salt starts with 0x02, which opens here with its password. The other is a shared content blob of at least 29 bytes, tagged 0x02, that the session key cannot open as V2; here the session key and then the master password are tried on its V1 layout.
- SyncCommands.SyncProjects: returns the two counters as a pair instead of the "Sync complete" message.
- Remote.Server: the network is modelled as one cut-off point, a request number from which no request gets a response, rather than independent failures.

## Findings

| source | as written | input that shows it | evidently intended | confidence | as-written member | corrected member |
|---|---|---|---|---|---|---|
| src-tauri/src/crypto/mod.rs:111 | `decrypt_auto` routes any blob whose first byte is 0x02 to the V2 branch, with no fallback | a V1 blob (from `encrypt`) whose random salt starts with 0x02, opened with no cached key and the right password: DecryptionFailed | a V1 blob (about 1 in 256 of them) opens with its password; a tagged blob V2 cannot open, and that is long enough, is read as V1 | not executed | Crypto.DecryptAuto (shown by Crypto.V1SaltTagMisrouted) | Crypto.DecryptAutoCorrected (proved by Crypto.CorrectedDecryptsEveryV1Blob; the commands use it) |
