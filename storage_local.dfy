/**
 * The local SQLite store (src-tauri/src/storage/local.rs) as an object whose
 * three tables are fields: the `projects` rows, the single-row
 * `verification` table and the `settings` key/value table.
 */
module LocalStore {
  import opened Wrappers
  import opened Models
  import Table

  /** The message of a statement the database engine fails to run. */
  const IO_FAILURE := "disk I/O error"

  class LocalStorage {
    var projects: seq<Project>
    var verificationToken: Option<Bytes>
    var settings: map<string, string>

    /** The primary-key constraint of `projects`. */
    ghost predicate Valid()
      reads this
    {
      Table.UniqueIds(projects)
    }

    /** A new database file: `init` creates the three tables empty. */
    constructor ()
      ensures Valid()
      ensures projects == [] && verificationToken == None && settings == map[]
    {
      projects := [];
      verificationToken := None;
      settings := map[];
    }

    /** SELECT ... ORDER BY sort_order ASC, created_at ASC. */
    function ListProjects(): seq<Project>
      reads this
    {
      Table.Listing(projects)
    }

    function GetProject(id: string): Result<Project, StorageError>
      reads this
    {
      Table.Get(projects, id)
    }

    method CreateProject(p: Project) returns (r: Result<(), StorageError>)
      requires Valid()
      modifies this
      ensures Valid()
      ensures r.Err? <==> p.id in Table.Ids(old(projects))
      ensures r.Err? ==> r.error == Database(Table.DUPLICATE_ID)
      ensures projects == if r.Ok? then old(projects) + [p] else old(projects)
      ensures verificationToken == old(verificationToken) && settings == old(settings)
    {
      match Table.Insert(projects, p)
      case Ok(rows) =>
        projects := rows;
        r := Ok(());
      case Err(e) =>
        r := Err(e);
    }

    method UpdateProject(p: Project) returns (r: Result<(), StorageError>)
      requires Valid()
      modifies this
      ensures Valid()
      ensures r.Err? <==> p.id !in Table.Ids(old(projects))
      ensures r.Err? ==> r.error == NotFound(p.id) && projects == old(projects)
      ensures r.Ok? ==> projects == Table.Update(old(projects), p).value
      ensures verificationToken == old(verificationToken) && settings == old(settings)
    {
      match Table.Update(projects, p)
      case Ok(rows) =>
        projects := rows;
        r := Ok(());
      case Err(e) =>
        r := Err(e);
    }

    method DeleteProject(id: string) returns (r: Result<(), StorageError>)
      requires Valid()
      modifies this
      ensures Valid()
      ensures r.Err? <==> id !in Table.Ids(old(projects))
      ensures r.Err? ==> r.error == NotFound(id) && projects == old(projects)
      ensures r.Ok? ==> projects == Table.Delete(old(projects), id).value
      ensures verificationToken == old(verificationToken) && settings == old(settings)
    {
      match Table.Delete(projects, id)
      case Ok(rows) =>
        projects := rows;
        r := Ok(());
      case Err(e) =>
        r := Err(e);
    }

    /**
     * The reorder transaction. `ioFault` is the environment's choice of the
     * statement the engine fails on (index |pairs| is the commit), or None.
     * A failure rolls the whole transaction back.
     */
    method ReorderProjects(pairs: seq<(string, int)>, ioFault: Option<nat>) returns (r: Result<(), StorageError>)
      requires Valid()
      modifies this
      ensures Valid()
      ensures r.Err? <==> ioFault.Some? && ioFault.value <= |pairs|
      ensures r.Err? ==> projects == old(projects)
      ensures r.Ok? ==> projects == Table.Reorder(old(projects), pairs)
      ensures verificationToken == old(verificationToken) && settings == old(settings)
    {
      var tx := projects;
      var i := 0;
      while i < |pairs|
        invariant 0 <= i <= |pairs|
        invariant ioFault.Some? ==> ioFault.value >= i
        invariant tx == Table.Reorder(projects, pairs[..i])
      {
        if ioFault == Some(i) {
          return Err(Database(IO_FAILURE));
        }
        assert pairs[..i + 1][..i] == pairs[..i];
        tx := Table.SetOrder(tx, pairs[i].0, pairs[i].1);
        i := i + 1;
      }
      if ioFault == Some(|pairs|) {
        return Err(Database(IO_FAILURE));
      }
      assert pairs[..|pairs|] == pairs;
      Table.ReorderKeepsIds(projects, pairs);
      projects := tx;
      r := Ok(());
    }

    function GetVerificationToken(): Option<Bytes>
      reads this
    {
      verificationToken
    }

    /** INSERT OR REPLACE into the one-row table. */
    method SetVerificationToken(token: Bytes)
      requires Valid()
      modifies this
      ensures Valid()
      ensures verificationToken == Some(token)
      ensures projects == old(projects) && settings == old(settings)
    {
      verificationToken := Some(token);
    }

    function GetSetting(key: string): Option<string>
      reads this
    {
      if key in settings then Some(settings[key]) else None
    }

    /** INSERT OR REPLACE by key. */
    method SetSetting(key: string, value: string)
      requires Valid()
      modifies this
      ensures Valid()
      ensures settings == old(settings)[key := value]
      ensures GetSetting(key) == Some(value)
      ensures forall k :: k != key ==> GetSetting(k) == old(GetSetting(k))
      ensures projects == old(projects) && verificationToken == old(verificationToken)
    {
      settings := settings[key := value];
    }
  }
}
