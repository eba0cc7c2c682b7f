/**
 * The project commands (src-tauri/src/commands/projects.rs): listing with
 * per-project credential resolution, opening, creating, updating, deleting
 * and reordering projects, and the keychain entry kept for each project
 * that has its own password.
 */
module ProjectCommands {
  import opened Wrappers
  import opened Models
  import opened Crypto
  import Table
  import opened LocalStore
  import opened Keyring
  import opened App

  /** The keychain entry holding a project's own password. */
  const KC_PROJECT_PREFIX := "project-password-"

  function KcKey(projectId: string): string {
    KC_PROJECT_PREFIX + projectId
  }

  /** Different projects never share a keychain entry. */
  lemma KcKeyInjective(a: string, b: string)
    requires KcKey(a) == KcKey(b)
    ensures a == b
  {
    assert a == KcKey(a)[|KC_PROJECT_PREFIX|..];
    assert b == KcKey(b)[|KC_PROJECT_PREFIX|..];
  }

  /** The name shown for a project whose password is not at hand. */
  const LOCKED_NAME: Bytes := AsciiBytes("locked_custom_password")

  /** One entry of the project list; the name is UTF-8 bytes. */
  datatype ProjectListItem = ProjectListItem(
    id: string,
    name: Bytes,
    hasCustomPassword: bool,
    passwordSaved: bool,
    sortOrder: int,
    createdAt: string,
    updatedAt: string)

  /**
   * The list entry of one row: shared when the name opens under the
   * session key; otherwise custom, unlocked when the saved password opens
   * it and shown under LOCKED_NAME when it does not or none is saved.
   */
  function ListItem(c: Primitives, p: Project, key: Key, saved: Option<string>): (r: ProjectListItem)
    ensures r.id == p.id && r.sortOrder == p.sortOrder
    ensures r.createdAt == p.createdAt && r.updatedAt == p.updatedAt
    ensures !r.hasCustomPassword <==> TryDecryptWithKey(c, p.encryptedName, key).Some?
    ensures !r.hasCustomPassword ==> !r.passwordSaved && TryDecryptWithKey(c, p.encryptedName, key) == Some(r.name)
    ensures r.passwordSaved <==>
              r.hasCustomPassword && saved.Some? && DecryptAutoCorrected(c, p.encryptedName, None, saved).Ok?
    ensures r.passwordSaved ==> DecryptAutoCorrected(c, p.encryptedName, None, saved) == Ok(r.name)
    ensures r.hasCustomPassword && !r.passwordSaved ==> r.name == LOCKED_NAME
  {
    match TryDecryptWithKey(c, p.encryptedName, key)
    case Some(name) =>
      ProjectListItem(p.id, name, false, false, p.sortOrder, p.createdAt, p.updatedAt)
    case None =>
      var unlocked := if saved.Some? then DecryptAutoCorrected(c, p.encryptedName, None, saved) else Err(DecryptionFailed);
      if unlocked.Ok? then ProjectListItem(p.id, unlocked.value, true, true, p.sortOrder, p.createdAt, p.updatedAt)
      else ProjectListItem(p.id, LOCKED_NAME, true, false, p.sortOrder, p.createdAt, p.updatedAt)
  }

  /** `items` is the list entry of each row, in the rows' order. */
  ghost predicate ListsAs(c: Primitives, items: seq<ProjectListItem>, rows: seq<Project>, key: Key, kc: Keychain)
    reads kc
  {
    && |items| == |rows|
    && forall i :: 0 <= i < |rows| ==> items[i] == ListItem(c, rows[i], key, kc.Get(KcKey(rows[i].id)))
  }

  method ListProjects(c: Primitives, state: AppState, kc: Keychain) returns (r: Result<seq<ProjectListItem>, CommandError>)
    ensures state.cachedKey.None? ==> r == Err(NoCachedKey)
    ensures state.cachedKey.Some? && state.storage == null ==> r == Err(DatabaseNotInitialized)
    ensures state.cachedKey.Some? && state.storage != null ==>
              r.Ok? && ListsAs(c, r.value, state.storage.ListProjects(), state.cachedKey.value, kc)
  {
    if state.cachedKey.None? {
      return Err(NoCachedKey);
    }
    if state.storage == null {
      return Err(DatabaseNotInitialized);
    }
    var key := state.cachedKey.value;
    var rows := state.storage.ListProjects();
    var items: seq<ProjectListItem> := [];
    for i := 0 to |rows|
      invariant |items| == i
      invariant forall j :: 0 <= j < i ==> items[j] == ListItem(c, rows[j], key, kc.Get(KcKey(rows[j].id)))
    {
      var p := rows[i];
      var item;
      match TryDecryptWithKey(c, p.encryptedName, key) {
        case Some(name) =>
          item := ProjectListItem(p.id, name, false, false, p.sortOrder, p.createdAt, p.updatedAt);
        case None =>
          var saved := kc.Get(KcKey(p.id));
          item := ProjectListItem(p.id, LOCKED_NAME, true, false, p.sortOrder, p.createdAt, p.updatedAt);
          if saved.Some? {
            var unlocked := DecryptAutoCorrected(c, p.encryptedName, None, saved);
            if unlocked.Ok? {
              item := ProjectListItem(p.id, unlocked.value, true, true, p.sortOrder, p.createdAt, p.updatedAt);
            }
          }
      }
      items := items + [item];
    }
    r := Ok(items);
  }

  /** A row whose name was sealed under the session key lists as shared, under that name. */
  lemma ListItemOfSharedRow(c: Primitives, p: Project, key: Key, nonce: Nonce, name: Bytes, saved: Option<string>)
    requires Sound(c)
    requires p.encryptedName == EncryptWithKey(c, name, key, nonce)
    ensures ListItem(c, p, key, saved) == ProjectListItem(p.id, name, false, false, p.sortOrder, p.createdAt, p.updatedAt)
  {
    EncryptWithKeyRoundTrip(c, name, key, nonce, None);
  }

  /**
   * A row whose name was sealed under its own password lists unlocked when
   * that password is saved, and locked when nothing is saved. (The salt
   * must not start with the V2 tag: the session key is then tried on the
   * blob, and `Sound` does not say that a key fails to open what another
   * key sealed.)
   */
  lemma ListItemOfCustomRow(c: Primitives, p: Project, key: Key, salt: Salt, nonce: Nonce, name: Bytes, password: string)
    requires Sound(c)
    requires salt[0] != FORMAT_V2
    requires p.encryptedName == Encrypt(c, name, password, salt, nonce)
    ensures ListItem(c, p, key, Some(password)) == ProjectListItem(p.id, name, true, true, p.sortOrder, p.createdAt, p.updatedAt)
    ensures ListItem(c, p, key, None) == ProjectListItem(p.id, LOCKED_NAME, true, false, p.sortOrder, p.createdAt, p.updatedAt)
  {
    assert p.encryptedName[0] == salt[0];
    CorrectedDecryptsEveryV1Blob(c, name, password, salt, nonce);
  }

  // ---------------------------------------------------------------------
  // Opening one project

  /** The project is opened with the session key: its name opens under it. */
  predicate OpensWithSessionKey(c: Primitives, p: Project, cachedKey: Option<Key>) {
    cachedKey.Some? && TryDecryptWithKey(c, p.encryptedName, cachedKey.value).Some?
  }

  method GetProject(c: Primitives, state: AppState, kc: Keychain, id: string, password: string)
    returns (r: Result<DecryptedProject, CommandError>)
    modifies kc
    ensures state.storage == null ==> r == Err(DatabaseNotInitialized)
    ensures state.storage != null && id !in Table.Ids(state.storage.projects) ==>
              r == Err(StorageFailure(NotFound(id)))
    ensures state.storage == null || id !in Table.Ids(state.storage.projects) ==> kc.entries == old(kc.entries)
    ensures r.Ok? ==> state.storage != null && state.storage.GetProject(id).Ok? && r.value.id == id
    // The shared path: no keychain access; the content takes the key, then the session password.
    ensures state.storage != null && state.storage.GetProject(id).Ok? &&
            OpensWithSessionKey(c, state.storage.GetProject(id).value, state.cachedKey) ==>
              var p := state.storage.GetProject(id).value;
              var content := DecryptAutoCorrected(c, p.encryptedContent, state.cachedKey, state.masterPassword);
              && kc.entries == old(kc.entries)
              && (r.Ok? <==> content.Ok?)
              && (r.Ok? ==> r.value == DecryptedProject(id, TryDecryptWithKey(c, p.encryptedName, state.cachedKey.value).value,
                                                        content.value, false, p.sortOrder, p.createdAt, p.updatedAt))
    // The custom path: the given password is saved first; an empty one means the saved one.
    ensures state.storage != null && state.storage.GetProject(id).Ok? &&
            !OpensWithSessionKey(c, state.storage.GetProject(id).value, state.cachedKey) ==>
              var p := state.storage.GetProject(id).value;
              if password == "" && KcKey(id) !in old(kc.entries) then
                r == Err(NoSavedPassword) && kc.entries == old(kc.entries)
              else
                var pw := if password == "" then old(kc.entries)[KcKey(id)] else password;
                var name := DecryptAutoCorrected(c, p.encryptedName, None, Some(pw));
                var content := DecryptAutoCorrected(c, p.encryptedContent, None, Some(pw));
                && kc.entries == (if password == "" then old(kc.entries) else old(kc.entries)[KcKey(id) := password])
                && (r.Ok? <==> name.Ok? && content.Ok?)
                && (r.Ok? ==> r.value == DecryptedProject(id, name.value, content.value, true, p.sortOrder, p.createdAt, p.updatedAt))
  {
    if state.storage == null {
      return Err(DatabaseNotInitialized);
    }
    var found := state.storage.GetProject(id);
    if found.Err? {
      return Err(StorageFailure(found.error));
    }
    var p := found.value;
    if state.cachedKey.Some? {
      var name := TryDecryptWithKey(c, p.encryptedName, state.cachedKey.value);
      if name.Some? {
        var content := DecryptAutoCorrected(c, p.encryptedContent, state.cachedKey, state.masterPassword);
        if content.Err? {
          return Err(CryptoFailure(content.error));
        }
        return Ok(DecryptedProject(p.id, name.value, content.value, false, p.sortOrder, p.createdAt, p.updatedAt));
      }
    }
    var pw: string;
    if password == "" {
      var saved := kc.Get(KcKey(id));
      if saved.None? {
        return Err(NoSavedPassword);
      }
      pw := saved.value;
    } else {
      kc.Save(KcKey(id), password);
      pw := password;
    }
    var name := DecryptAutoCorrected(c, p.encryptedName, None, Some(pw));
    if name.Err? {
      return Err(CryptoFailure(name.error));
    }
    var content := DecryptAutoCorrected(c, p.encryptedContent, None, Some(pw));
    if content.Err? {
      return Err(CryptoFailure(content.error));
    }
    r := Ok(DecryptedProject(p.id, name.value, content.value, true, p.sortOrder, p.createdAt, p.updatedAt));
  }

  // ---------------------------------------------------------------------
  // Creating and updating

  /** The fresh random values one create or update draws. */
  datatype Entropy = Entropy(nameSalt: Salt, nameNonce: Nonce, contentSalt: Salt, contentNonce: Nonce)

  /** A field sealed under the project's own password (V1) or the session key (V2). */
  function Seal(c: Primitives, plaintext: Bytes, custom: bool, password: string, key: Key, salt: Salt, nonce: Nonce): Bytes {
    if custom then Encrypt(c, plaintext, password, salt, nonce) else EncryptWithKey(c, plaintext, key, nonce)
  }

  /** Whatever was sealed opens again by the route `get_project` takes for it. */
  lemma SealOpens(c: Primitives, plaintext: Bytes, custom: bool, password: string, key: Key, salt: Salt, nonce: Nonce,
                  sessionPassword: Option<string>)
    requires Sound(c)
    ensures custom ==> DecryptAutoCorrected(c, Seal(c, plaintext, custom, password, key, salt, nonce), None, Some(password))
                       == Ok(plaintext)
    ensures !custom ==> DecryptAutoCorrected(c, Seal(c, plaintext, custom, password, key, salt, nonce), Some(key), sessionPassword)
                        == Ok(plaintext)
  {
    if custom {
      CorrectedDecryptsEveryV1Blob(c, plaintext, password, salt, nonce);
    } else {
      EncryptWithKeyRoundTrip(c, plaintext, key, nonce, sessionPassword);
    }
  }

  /** The keychain after a create or update names the project's password: saved when custom, removed when shared. */
  function EntryWritten(entries: map<string, string>, id: string, custom: bool, password: string): map<string, string> {
    if custom then entries[KcKey(id) := password] else entries - {KcKey(id)}
  }

  /** One more than the largest sort order, or 0 for no rows. */
  function NextSortOrder(rows: seq<Project>): (r: int)
    ensures forall i :: 0 <= i < |rows| ==> rows[i].sortOrder < r
    ensures |rows| == 0 ==> r == 0
    ensures |rows| > 0 ==> exists i :: 0 <= i < |rows| && r == rows[i].sortOrder + 1
  {
    if |rows| == 0 then 0
    else
      var front := NextSortOrder(rows[..|rows| - 1]);
      var last := rows[|rows| - 1].sortOrder + 1;
      assert forall i :: 0 <= i < |rows| - 1 ==> rows[..|rows| - 1][i] == rows[i];
      if |rows| > 1 && front > last then front else last
  }

  /** The order of the largest rows is the same however they are listed. */
  lemma {:induction false} NextSortOrderOfPermutation(rows: seq<Project>, other: seq<Project>)
    requires multiset(rows) == multiset(other)
    ensures NextSortOrder(rows) == NextSortOrder(other)
  {
    var a, b := NextSortOrder(rows), NextSortOrder(other);
    assert |rows| == |multiset(rows)| == |multiset(other)| == |other|;
    if |rows| > 0 {
      var i :| 0 <= i < |rows| && a == rows[i].sortOrder + 1;
      var j :| 0 <= j < |other| && b == other[j].sortOrder + 1;
      assert rows[i] in multiset(other);
      assert other[j] in multiset(rows);
    }
  }

  /** The row `create_project` inserts. */
  function NewRow(c: Primitives, key: Key, id: string, name: Bytes, content: Bytes, password: string, custom: bool,
                  e: Entropy, order: int, now: string): Project
  {
    Project(id,
            Seal(c, name, custom, password, key, e.nameSalt, e.nameNonce),
            Seal(c, content, custom, password, key, e.contentSalt, e.contentNonce),
            order, now, now, None, STATUS_LOCAL)
  }

  /** The id and time are the caller's: a fresh v4 UUID and the current RFC 3339 time. */
  method CreateProject(c: Primitives, state: AppState, kc: Keychain, name: Bytes, content: Bytes, password: string,
                       hasCustomPassword: bool, id: string, now: string, e: Entropy)
    returns (r: Result<string, CommandError>)
    requires state.Valid()
    modifies kc, state.storage
    ensures state.Valid()
    ensures state.cachedKey.None? ==> r == Err(NoCachedKey)
    ensures state.cachedKey.Some? && state.storage == null ==> r == Err(DatabaseNotInitialized)
    ensures state.cachedKey.None? || state.storage == null ==> kc.entries == old(kc.entries)
    ensures state.storage != null ==>
              && state.storage.verificationToken == old(state.storage.verificationToken)
              && state.storage.settings == old(state.storage.settings)
    ensures r.Err? && state.storage != null ==> state.storage.projects == old(state.storage.projects)
    ensures state.cachedKey.Some? && state.storage != null ==>
              && kc.entries == EntryWritten(old(kc.entries), id, hasCustomPassword, password)
              && (r.Ok? <==> id !in Table.Ids(old(state.storage.projects)))
              && (r.Ok? ==> r.value == id)
              && (r.Ok? ==>
                    state.storage.projects == old(state.storage.projects) +
                      [NewRow(c, state.cachedKey.value, id, name, content, password, hasCustomPassword, e,
                              NextSortOrder(old(state.storage.ListProjects())), now)])
  {
    if state.cachedKey.None? {
      return Err(NoCachedKey);
    }
    if state.storage == null {
      return Err(DatabaseNotInitialized);
    }
    var key := state.cachedKey.value;
    if hasCustomPassword {
      kc.Save(KcKey(id), password);
    } else {
      kc.Remove(KcKey(id));
    }
    var order := NextSortOrder(state.storage.ListProjects());
    var project := NewRow(c, key, id, name, content, password, hasCustomPassword, e, order, now);
    var created := state.storage.CreateProject(project);
    if created.Err? {
      return Err(StorageFailure(created.error));
    }
    r := Ok(id);
  }

  /** An edit of a synced row marks it modified; every other status stays. */
  function UpdatedSyncStatus(status: string): (r: string)
    ensures r != STATUS_SYNCED
    ensures status == STATUS_SYNCED ==> r == STATUS_MODIFIED
    ensures status != STATUS_SYNCED ==> r == status
  {
    if status == STATUS_SYNCED then STATUS_MODIFIED else status
  }

  /** The row `update_project` writes over `existing`. */
  function EditedRow(c: Primitives, key: Key, existing: Project, name: Bytes, content: Bytes, password: string,
                     custom: bool, e: Entropy, now: string): (r: Project)
    ensures r.id == existing.id && r.sortOrder == existing.sortOrder && r.createdAt == existing.createdAt
    ensures r.serverId == existing.serverId && r.updatedAt == now
    ensures r.syncStatus == UpdatedSyncStatus(existing.syncStatus)
  {
    Project(existing.id,
            Seal(c, name, custom, password, key, e.nameSalt, e.nameNonce),
            Seal(c, content, custom, password, key, e.contentSalt, e.contentNonce),
            existing.sortOrder, existing.createdAt, now, existing.serverId,
            UpdatedSyncStatus(existing.syncStatus))
  }

  method UpdateProject(c: Primitives, state: AppState, kc: Keychain, id: string, name: Bytes, content: Bytes,
                       password: string, hasCustomPassword: bool, now: string, e: Entropy)
    returns (r: Result<(), CommandError>)
    requires state.Valid()
    modifies kc, state.storage
    ensures state.Valid()
    ensures state.cachedKey.None? ==> r == Err(NoCachedKey)
    ensures state.cachedKey.Some? && state.storage == null ==> r == Err(DatabaseNotInitialized)
    ensures state.cachedKey.Some? && state.storage != null && id !in Table.Ids(old(state.storage.projects)) ==>
              r == Err(StorageFailure(NotFound(id)))
    ensures state.cachedKey.Some? && state.storage != null && id in Table.Ids(old(state.storage.projects)) &&
            hasCustomPassword && password == "" && KcKey(id) !in old(kc.entries) ==>
              r == Err(NoPasswordAvailable)
    ensures r.Err? ==> kc.entries == old(kc.entries)
    ensures r.Err? && state.storage != null ==> state.storage.projects == old(state.storage.projects)
    ensures state.storage != null ==>
              && state.storage.verificationToken == old(state.storage.verificationToken)
              && state.storage.settings == old(state.storage.settings)
    ensures r.Ok? ==>
              && state.cachedKey.Some? && state.storage != null
              && id in Table.Ids(old(state.storage.projects))
              && var existing := old(state.storage.GetProject(id)).value;
                 var pw := if hasCustomPassword && password == "" then old(kc.entries)[KcKey(id)] else password;
                 && kc.entries == (if hasCustomPassword && password == "" then old(kc.entries)
                                   else EntryWritten(old(kc.entries), id, hasCustomPassword, password))
                 && state.storage.projects ==
                      Table.Update(old(state.storage.projects),
                                   EditedRow(c, state.cachedKey.value, existing, name, content, pw, hasCustomPassword, e, now)).value
    ensures state.cachedKey.Some? && state.storage != null && id in Table.Ids(old(state.storage.projects)) &&
            !(hasCustomPassword && password == "" && KcKey(id) !in old(kc.entries)) ==>
              r.Ok?
  {
    if state.cachedKey.None? {
      return Err(NoCachedKey);
    }
    if state.storage == null {
      return Err(DatabaseNotInitialized);
    }
    var key := state.cachedKey.value;
    var found := state.storage.GetProject(id);
    if found.Err? {
      return Err(StorageFailure(found.error));
    }
    var existing := found.value;
    var pw := password;
    if hasCustomPassword {
      if password == "" {
        var saved := kc.Get(KcKey(id));
        if saved.None? {
          return Err(NoPasswordAvailable);
        }
        pw := saved.value;
      } else {
        kc.Save(KcKey(id), password);
      }
    } else {
      kc.Remove(KcKey(id));
    }
    var project := EditedRow(c, key, existing, name, content, pw, hasCustomPassword, e, now);
    // The row exists, so the UPDATE matches it and cannot report NotFound.
    var updated := state.storage.UpdateProject(project);
    assert updated.Ok?;
    r := Ok(());
  }

  /**
   * What an update leaves in the table: the edited row keeps its id, place,
   * sort order, creation time and server id, is never "synced" (a synced
   * row becomes "modified"), and every other row is untouched.
   */
  lemma UpdateKeepsBookkeeping(rows: seq<Project>, existing: Project, edited: Project, k: nat)
    requires existing in rows && k < |rows|
    requires edited.id == existing.id && edited.sortOrder == existing.sortOrder
    requires edited.createdAt == existing.createdAt && edited.serverId == existing.serverId
    requires edited.syncStatus == UpdatedSyncStatus(existing.syncStatus)
    requires Table.UniqueIds(rows)
    ensures Table.Update(rows, edited).Ok?
    ensures rows[k].id != edited.id ==> Table.Update(rows, edited).value[k] == rows[k]
    ensures rows[k].id == edited.id ==>
              && Table.Update(rows, edited).value[k] == edited
              && Table.Update(rows, edited).value[k].syncStatus != STATUS_SYNCED
              && (existing.syncStatus == STATUS_SYNCED ==> Table.Update(rows, edited).value[k].syncStatus == STATUS_MODIFIED)
  {
    var i :| 0 <= i < |rows| && rows[i] == existing;
    assert existing.id in Table.Ids(rows);
    if rows[k].id == edited.id {
      assert rows[k] == existing;
      assert Table.Update(rows, edited).value[k] == edited.(createdAt := rows[k].createdAt);
    }
  }

  // ---------------------------------------------------------------------
  // Deleting and reordering

  method DeleteProject(state: AppState, kc: Keychain, id: string) returns (r: Result<(), CommandError>)
    requires state.Valid()
    modifies kc, state.storage
    ensures state.Valid()
    ensures state.storage == null ==> r == Err(DatabaseNotInitialized) && kc.entries == old(kc.entries)
    ensures state.storage != null ==>
              && kc.entries == old(kc.entries) - {KcKey(id)}
              && (r.Err? <==> id !in Table.Ids(old(state.storage.projects)))
              && (r.Err? ==> r == Err(StorageFailure(NotFound(id))) && state.storage.projects == old(state.storage.projects))
              && (r.Ok? ==> state.storage.projects == Table.Delete(old(state.storage.projects), id).value)
              && state.storage.verificationToken == old(state.storage.verificationToken)
              && state.storage.settings == old(state.storage.settings)
  {
    if state.storage == null {
      return Err(DatabaseNotInitialized);
    }
    kc.Remove(KcKey(id));
    var deleted := state.storage.DeleteProject(id);
    if deleted.Err? {
      return Err(StorageFailure(deleted.error));
    }
    r := Ok(());
  }

  /** Each id paired with its position in the list. */
  function OrderPairs(ids: seq<string>): (r: seq<(string, int)>)
    ensures |r| == |ids|
  {
    seq(|ids|, i requires 0 <= i < |ids| => (ids[i], i))
  }

  ghost predicate Distinct(ids: seq<string>) {
    forall i, j :: 0 <= i < j < |ids| ==> ids[i] != ids[j]
  }

  method ReorderProjects(state: AppState, ids: seq<string>, ioFault: Option<nat>) returns (r: Result<(), CommandError>)
    requires state.Valid()
    modifies state.storage
    ensures state.Valid()
    ensures state.storage == null ==> r == Err(DatabaseNotInitialized)
    ensures state.storage != null ==>
              && (r.Err? <==> ioFault.Some? && ioFault.value <= |ids|)
              && (r.Err? ==> state.storage.projects == old(state.storage.projects))
              && (r.Ok? ==> state.storage.projects == Table.Reorder(old(state.storage.projects), OrderPairs(ids)))
              && state.storage.verificationToken == old(state.storage.verificationToken)
              && state.storage.settings == old(state.storage.settings)
  {
    if state.storage == null {
      return Err(DatabaseNotInitialized);
    }
    var done := state.storage.ReorderProjects(OrderPairs(ids), ioFault);
    if done.Err? {
      return Err(StorageFailure(done.error));
    }
    r := Ok(());
  }

  lemma {:induction false} LastOrderOfPosition(ids: seq<string>, i: nat)
    requires Distinct(ids) && i < |ids|
    ensures Table.LastOrder(OrderPairs(ids), ids[i]) == Some(i)
  {
    var n := |ids|;
    if i < n - 1 {
      var front := ids[..n - 1];
      assert OrderPairs(ids)[..n - 1] == OrderPairs(front);
      assert ids[n - 1] != ids[i];
      assert front[i] == ids[i];
      LastOrderOfPosition(front, i);
    }
  }

  lemma {:induction false} LastOrderOfUnlisted(ids: seq<string>, x: string)
    requires x !in ids
    ensures Table.LastOrder(OrderPairs(ids), x) == None
  {
    if |ids| > 0 {
      var front := ids[..|ids| - 1];
      assert OrderPairs(ids)[..|ids| - 1] == OrderPairs(front);
      assert ids[|ids| - 1] != x;
      LastOrderOfUnlisted(front, x);
    }
  }

  /** `reorder_projects(ids)` gives `ids[i]` the order `i` and leaves unlisted rows untouched. */
  lemma ReorderByPosition(rows: seq<Project>, ids: seq<string>)
    requires Distinct(ids)
    ensures forall k, i :: 0 <= k < |rows| && 0 <= i < |ids| && rows[k].id == ids[i] ==>
              Table.Reorder(rows, OrderPairs(ids))[k] == rows[k].(sortOrder := i)
    ensures forall k :: 0 <= k < |rows| && rows[k].id !in ids ==> Table.Reorder(rows, OrderPairs(ids))[k] == rows[k]
  {
    forall k, i | 0 <= k < |rows| && 0 <= i < |ids| && rows[k].id == ids[i]
      ensures Table.Reorder(rows, OrderPairs(ids))[k] == rows[k].(sortOrder := i)
    {
      LastOrderOfPosition(ids, i);
    }
    forall k | 0 <= k < |rows| && rows[k].id !in ids
      ensures Table.Reorder(rows, OrderPairs(ids))[k] == rows[k]
    {
      LastOrderOfUnlisted(ids, rows[k].id);
    }
  }

  lemma {:induction false} AtLeastPosition(s: seq<int>, k: nat)
    requires forall a, b :: 0 <= a < b < |s| ==> s[a] < s[b]
    requires forall i :: 0 <= i < |s| ==> 0 <= s[i]
    requires k < |s|
    ensures s[k] >= k
  {
    if k > 0 {
      AtLeastPosition(s, k - 1);
    }
  }

  lemma {:induction false} AtMostPosition(s: seq<int>, k: nat)
    requires forall a, b :: 0 <= a < b < |s| ==> s[a] < s[b]
    requires forall i :: 0 <= i < |s| ==> s[i] < |s|
    requires k < |s|
    ensures s[k] <= k
    decreases |s| - k
  {
    if k < |s| - 1 {
      AtMostPosition(s, k + 1);
    }
  }

  /** A sorted listing with unique ids, where equal orders mean equal ids, has strictly increasing orders. */
  lemma ListedOrdersIncrease(listed: seq<Project>)
    requires Table.Sorted(listed) && Table.UniqueIds(listed)
    requires forall a, b :: 0 <= a < b < |listed| && listed[a].sortOrder == listed[b].sortOrder ==>
               listed[a].id == listed[b].id
    ensures forall a, b :: 0 <= a < b < |listed| ==> listed[a].sortOrder < listed[b].sortOrder
  {
    forall a, b | 0 <= a < b < |listed| ensures listed[a].sortOrder < listed[b].sortOrder {
      assert Table.ListedBefore(listed[a], listed[b]);
    }
  }

  /** After the reorder, a listed row's order is the position of its id in `ids`. */
  lemma ReorderedRowAtPosition(rows: seq<Project>, ids: seq<string>, j: nat)
    requires Distinct(ids) && j < |rows| && rows[j].id in ids
    ensures 0 <= Table.Reorder(rows, OrderPairs(ids))[j].sortOrder < |ids|
    ensures ids[Table.Reorder(rows, OrderPairs(ids))[j].sortOrder] == rows[j].id
  {
    var i :| 0 <= i < |ids| && ids[i] == rows[j].id;
    LastOrderOfPosition(ids, i);
  }

  /** Rows whose orders are the positions of their ids in `ids` are listed in the order of `ids`. */
  lemma ListingByPositions(rows: seq<Project>, ids: seq<string>)
    requires Table.UniqueIds(rows) && |ids| == |rows|
    requires forall j :: 0 <= j < |rows| ==>
               0 <= rows[j].sortOrder < |ids| && ids[rows[j].sortOrder] == rows[j].id
    ensures |Table.Listing(rows)| == |ids|
    ensures forall k :: 0 <= k < |ids| ==> Table.Listing(rows)[k].id == ids[k]
  {
    var listed := Table.Listing(rows);
    assert |listed| == |multiset(listed)| == |multiset(rows)| == |rows|;
    Table.PermutationKeepsUniqueIds(rows, listed);
    PositionsCarryOver(rows, listed, ids);
    SortedPositionsInOrder(listed, ids);
  }

  /** A sorted list of rows with unique ids whose orders are positions of their ids follows `ids`. */
  lemma SortedPositionsInOrder(listed: seq<Project>, ids: seq<string>)
    requires Table.Sorted(listed) && Table.UniqueIds(listed) && |listed| == |ids|
    requires forall k :: 0 <= k < |listed| ==>
               0 <= listed[k].sortOrder < |ids| && ids[listed[k].sortOrder] == listed[k].id
    ensures forall k :: 0 <= k < |ids| ==> listed[k].id == ids[k]
  {
    forall a, b | 0 <= a < b < |listed| && listed[a].sortOrder == listed[b].sortOrder
      ensures listed[a].id == listed[b].id
    {
      assert ids[listed[a].sortOrder] == listed[a].id;
    }
    ListedOrdersIncrease(listed);
    var orders := seq(|listed|, k requires 0 <= k < |listed| => listed[k].sortOrder);
    forall k | 0 <= k < |ids| ensures listed[k].id == ids[k] {
      AtLeastPosition(orders, k);
      AtMostPosition(orders, k);
    }
  }

  /** A permutation of rows whose orders are positions of their ids has the same property. */
  lemma PositionsCarryOver(rows: seq<Project>, listed: seq<Project>, ids: seq<string>)
    requires multiset(listed) == multiset(rows)
    requires forall j :: 0 <= j < |rows| ==>
               0 <= rows[j].sortOrder < |ids| && ids[rows[j].sortOrder] == rows[j].id
    ensures forall k :: 0 <= k < |listed| ==>
              0 <= listed[k].sortOrder < |ids| && ids[listed[k].sortOrder] == listed[k].id
  {
    forall k | 0 <= k < |listed|
      ensures 0 <= listed[k].sortOrder < |ids| && ids[listed[k].sortOrder] == listed[k].id
    {
      assert listed[k] in multiset(rows);
    }
  }

  /**
   * When `ids` names every row exactly once, as the front end's list does,
   * the listing after `reorder_projects(ids)` shows the rows in the order
   * of `ids`.
   */
  lemma ListingFollowsReorder(rows: seq<Project>, ids: seq<string>)
    requires Table.UniqueIds(rows) && Distinct(ids)
    requires |ids| == |rows|
    requires forall k :: 0 <= k < |rows| ==> rows[k].id in ids
    ensures |Table.Listing(Table.Reorder(rows, OrderPairs(ids)))| == |ids|
    ensures forall k :: 0 <= k < |ids| ==> Table.Listing(Table.Reorder(rows, OrderPairs(ids)))[k].id == ids[k]
  {
    var reordered := Table.Reorder(rows, OrderPairs(ids));
    Table.ReorderKeepsIds(rows, OrderPairs(ids));
    forall j | 0 <= j < |reordered|
      ensures 0 <= reordered[j].sortOrder < |ids| && ids[reordered[j].sortOrder] == reordered[j].id
    {
      ReorderedRowAtPosition(rows, ids, j);
    }
    ListingByPositions(reordered, ids);
  }
}
