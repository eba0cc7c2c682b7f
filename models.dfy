/**
 * The records shared by storage and commands (src-tauri/src/models.rs and
 * the error type of src-tauri/src/storage/mod.rs).
 */
module Models {
  import opened Wrappers

  type Bytes = seq<bv8>

  /** One row of the `projects` table, also the unit exchanged with the server. */
  datatype Project = Project(
    id: string,
    encryptedName: Bytes,
    encryptedContent: Bytes,
    sortOrder: int,
    createdAt: string,
    updatedAt: string,
    serverId: Option<string>,
    syncStatus: string)

  /** A project after decryption; names and content are UTF-8 bytes. */
  datatype DecryptedProject = DecryptedProject(
    id: string,
    name: Bytes,
    content: Bytes,
    hasCustomPassword: bool,
    sortOrder: int,
    createdAt: string,
    updatedAt: string)

  datatype StorageError =
    | Database(reason: string)
    | NotFound(id: string)
    | Io(reason: string)

  /** The values of `sync_status` that the code dispatches on. */
  const STATUS_LOCAL := "local"
  const STATUS_SYNCED := "synced"
  const STATUS_MODIFIED := "modified"
  const STATUS_DELETED := "deleted"
}
