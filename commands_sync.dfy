/**
 * The sync command (src-tauri/src/commands/sync.rs): one pass that pushes
 * the local changes to the server, then pulls the server rows the local
 * table does not know.
 *
 * The pass is specified by functions on a `World` (both tables and the two
 * counters): `Upload` folds `UploadStep` over the snapshot of local rows,
 * `Download` folds `DownloadStep` over the server listing. Both stop at the
 * first failure and keep everything done before it: there is no rollback.
 */
module SyncCommands {
  import opened Wrappers
  import opened Models
  import Table
  import opened Remote
  import opened LocalStore
  import opened App

  datatype World = World(local: seq<Project>, server: ServerState, uploaded: nat, downloaded: nat)

  /** The world a pass left behind, and the error that stopped it, if one did. */
  datatype Outcome = Outcome(world: World, failure: Option<StorageError>)

  /** The local rewrite of an uploaded row: the snapshot row marked synced. */
  function Pushed(w: World, reply: Reply<()>, lp: Project): (o: Outcome)
    ensures o.world.server == reply.after && o.world.downloaded == w.downloaded
    ensures o.failure.None? <==> reply.result.Ok? && lp.id in Table.Ids(w.local)
    ensures o.failure.Some? ==> o.world.local == w.local && o.world.uploaded == w.uploaded
    ensures o.failure.None? ==>
              o.world.local == Table.Update(w.local, lp.(syncStatus := STATUS_SYNCED)).value
              && o.world.uploaded == w.uploaded + 1
  {
    var w1 := w.(server := reply.after);
    if reply.result.Err? then Outcome(w1, Some(reply.result.error))
    else
      match Table.Update(w.local, lp.(syncStatus := STATUS_SYNCED))
      case Err(e) => Outcome(w1, Some(e))
      case Ok(rows) => Outcome(w1.(local := rows, uploaded := w.uploaded + 1), None)
  }

  /** One iteration of the upload loop, dispatching on the row's sync status. */
  function UploadStep(w: World, lp: Project, outage: Option<nat>, now: string): Outcome {
    if lp.syncStatus == STATUS_LOCAL then
      Pushed(w, CreateCall(w.server, outage, true, lp, now), lp)
    else if lp.syncStatus == STATUS_MODIFIED then
      if lp.serverId.Some? then Pushed(w, UpdateCall(w.server, outage, true, lp, now), lp)
      else Pushed(w, CreateCall(w.server, outage, true, lp, now), lp)
    else if lp.syncStatus == STATUS_DELETED then
      // the server's reply to the delete is ignored
      var server := if lp.serverId.Some? then DeleteCall(w.server, outage, true, lp.serverId.value).after
                    else w.server;
      match Table.Delete(w.local, lp.id)
      case Err(e) => Outcome(w.(server := server), Some(e))
      case Ok(rows) => Outcome(w.(local := rows, server := server), None)
    else
      Outcome(w, None)
  }

  /** The upload loop over `lps`, stopping at the first failing step. */
  function Upload(w: World, lps: seq<Project>, outage: Option<nat>, now: string): Outcome {
    if |lps| == 0 then Outcome(w, None)
    else
      var o := Upload(w, lps[..|lps| - 1], outage, now);
      if o.failure.Some? then o else UploadStep(o.world, lps[|lps| - 1], outage, now)
  }

  /** The id a server row is matched by: its server id, or else its id. */
  function SidOf(rp: Project): string {
    rp.serverId.GetOr(rp.id)
  }

  /** The server ids the snapshot of local rows records. */
  function LocalServerIds(lps: seq<Project>): (r: set<string>)
    ensures forall sid :: sid in r <==> exists p :: p in lps && p.serverId == Some(sid)
  {
    set p | p in lps && p.serverId.Some? :: p.serverId.value
  }

  /** One iteration of the download loop. */
  function DownloadStep(w: World, rp: Project, sids: set<string>): Outcome {
    if SidOf(rp) in sids then Outcome(w, None)
    else
      match Table.Insert(w.local, rp)
      case Err(e) => Outcome(w, Some(e))
      case Ok(rows) => Outcome(w.(local := rows, downloaded := w.downloaded + 1), None)
  }

  function Download(w: World, rps: seq<Project>, sids: set<string>): Outcome {
    if |rps| == 0 then Outcome(w, None)
    else
      var o := Download(w, rps[..|rps| - 1], sids);
      if o.failure.Some? then o else DownloadStep(o.world, rps[|rps| - 1], sids)
  }

  /** Both loops: the download runs only when the whole upload succeeded. */
  function SyncPass(w: World, lps: seq<Project>, rps: seq<Project>, outage: Option<nat>, now: string): Outcome {
    var o := Upload(w, lps, outage, now);
    if o.failure.Some? then o else Download(o.world, rps, LocalServerIds(lps))
  }

  /** Once a prefix of the snapshot has failed, the rest of the upload loop does nothing. */
  lemma {:induction false} UploadAfterFailure(w: World, lps: seq<Project>, k: nat, outage: Option<nat>, now: string)
    requires k <= |lps| && Upload(w, lps[..k], outage, now).failure.Some?
    ensures Upload(w, lps, outage, now) == Upload(w, lps[..k], outage, now)
    decreases |lps|
  {
    if k < |lps| {
      var front := lps[..|lps| - 1];
      assert front[..k] == lps[..k];
      UploadAfterFailure(w, front, k, outage, now);
    } else {
      assert lps[..k] == lps;
    }
  }

  /** One more row past a prefix that did not fail is one more step. */
  lemma UploadExtended(w: World, lps: seq<Project>, i: nat, outage: Option<nat>, now: string)
    requires i < |lps| && Upload(w, lps[..i], outage, now).failure.None?
    ensures Upload(w, lps[..i + 1], outage, now) == UploadStep(Upload(w, lps[..i], outage, now).world, lps[i], outage, now)
  {
    assert lps[..i + 1][..i] == lps[..i];
  }

  lemma {:induction false} DownloadAfterFailure(w: World, rps: seq<Project>, k: nat, sids: set<string>)
    requires k <= |rps| && Download(w, rps[..k], sids).failure.Some?
    ensures Download(w, rps, sids) == Download(w, rps[..k], sids)
    decreases |rps|
  {
    if k < |rps| {
      var front := rps[..|rps| - 1];
      assert front[..k] == rps[..k];
      DownloadAfterFailure(w, front, k, sids);
    } else {
      assert rps[..k] == rps;
    }
  }

  /** Both the URL and the token are known. */
  predicate Connected(state: AppState)
    reads state
  {
    state.serverUrl.Some? && state.serverToken.Some?
  }

  /**
   * sync_projects. The checks of the URL, the token and the database come
   * before any request; then the health check, the two listings, and the
   * two loops. The counters are returned as a pair.
   */
  method SyncProjects(state: AppState, server: Server, now: string) returns (r: Result<(nat, nat), CommandError>)
    requires state.Valid() && server.Valid()
    modifies state.storage, server
    ensures state.Valid() && server.Valid()
    ensures state.serverUrl.None? ==> r == Err(NotConnected)
    ensures state.serverUrl.Some? && state.serverToken.None? ==> r == Err(NotAuthenticated)
    ensures Connected(state) && state.storage == null ==> r == Err(DatabaseNotInitialized)
    ensures !Connected(state) || state.storage == null ==> server.data == old(server.data)
    ensures !Connected(state) && state.storage != null ==> state.storage.projects == old(state.storage.projects)
    ensures state.storage != null ==>
              && state.storage.verificationToken == old(state.storage.verificationToken)
              && state.storage.settings == old(state.storage.settings)
    ensures Connected(state) && state.storage != null && !Answers(server.outage, old(server.data.requests)) ==>
              r == Err(StorageFailure(Io(UNREACHABLE))) && state.storage.projects == old(state.storage.projects)
              && server.data == HealthCall(old(server.data), server.outage).after
    ensures Connected(state) && state.storage != null && Answers(server.outage, old(server.data.requests)) ==>
              var listing := ListCall(HealthCall(old(server.data), server.outage).after, server.outage,
                                      state.serverToken.value in server.sessions);
              if listing.result.Err? then
                r == Err(StorageFailure(listing.result.error))
                && state.storage.projects == old(state.storage.projects) && server.data == listing.after
              else
                var o := SyncPass(World(old(state.storage.projects), listing.after, 0, 0),
                                  old(state.storage.ListProjects()), listing.result.value, server.outage, now);
                && state.storage.projects == o.world.local && server.data == o.world.server
                && r == if o.failure.None? then Ok((o.world.uploaded, o.world.downloaded))
                        else Err(StorageFailure(o.failure.value))
  {
    if state.serverUrl.None? {
      return Err(NotConnected);
    }
    if state.serverToken.None? {
      return Err(NotAuthenticated);
    }
    var token := state.serverToken.value;
    if state.storage == null {
      return Err(DatabaseNotInitialized);
    }
    var local := state.storage;

    var health := server.Health();
    if health.Err? {
      return Err(StorageFailure(health.error));
    }
    var localProjects := local.ListProjects();
    var listed := server.List(token);
    if listed.Err? {
      return Err(StorageFailure(listed.error));
    }
    var remoteProjects := listed.value;
    var failure, uploaded := UploadAll(local, server, token, localProjects, now);
    if failure.Some? {
      return Err(StorageFailure(failure.value));
    }
    var downloaded;
    failure, downloaded := DownloadAll(local, server, remoteProjects, LocalServerIds(localProjects), uploaded);
    if failure.Some? {
      return Err(StorageFailure(failure.value));
    }
    r := Ok((uploaded, downloaded));
  }

  /** One iteration of the upload loop on the two stores. */
  method UploadRow(local: LocalStorage, server: Server, token: string, lp: Project, now: string, count: nat)
    returns (failure: Option<StorageError>, uploaded: nat)
    requires local.Valid() && server.Valid() && token in server.sessions
    modifies local, server
    ensures local.Valid() && server.Valid()
    ensures local.verificationToken == old(local.verificationToken) && local.settings == old(local.settings)
    ensures UploadStep(World(old(local.projects), old(server.data), count, 0), lp, server.outage, now)
            == Outcome(World(local.projects, server.data, uploaded, 0), failure)
  {
    uploaded := count;
    failure := None;
    if lp.syncStatus == STATUS_LOCAL || lp.syncStatus == STATUS_MODIFIED {
      var pushed: Result<(), StorageError>;
      if lp.syncStatus == STATUS_MODIFIED && lp.serverId.Some? {
        pushed := server.Update(token, lp, now);
      } else {
        pushed := server.Create(token, lp, now);
      }
      if pushed.Err? {
        return Some(pushed.error), count;
      }
      var rewritten := local.UpdateProject(lp.(syncStatus := STATUS_SYNCED));
      if rewritten.Err? {
        return Some(rewritten.error), count;
      }
      uploaded := count + 1;
    } else if lp.syncStatus == STATUS_DELETED {
      if lp.serverId.Some? {
        var _ := server.Delete(token, lp.serverId.value);
      }
      var removed := local.DeleteProject(lp.id);
      if removed.Err? {
        return Some(removed.error), count;
      }
    }
  }

  /** The upload loop over the snapshot; returns at the first failure. */
  method UploadAll(local: LocalStorage, server: Server, token: string, lps: seq<Project>, now: string)
    returns (failure: Option<StorageError>, uploaded: nat)
    requires local.Valid() && server.Valid() && token in server.sessions
    modifies local, server
    ensures local.Valid() && server.Valid()
    ensures local.verificationToken == old(local.verificationToken) && local.settings == old(local.settings)
    ensures Upload(World(old(local.projects), old(server.data), 0, 0), lps, server.outage, now)
            == Outcome(World(local.projects, server.data, uploaded, 0), failure)
  {
    ghost var start := World(local.projects, server.data, 0, 0);
    uploaded := 0;
    var i := 0;
    while i < |lps|
      invariant 0 <= i <= |lps|
      invariant local.Valid() && server.Valid()
      invariant local.verificationToken == old(local.verificationToken) && local.settings == old(local.settings)
      invariant Upload(start, lps[..i], server.outage, now) == Outcome(World(local.projects, server.data, uploaded, 0), None)
    {
      UploadExtended(start, lps, i, server.outage, now);
      failure, uploaded := UploadRow(local, server, token, lps[i], now, uploaded);
      if failure.Some? {
        UploadAfterFailure(start, lps, i + 1, server.outage, now);
        return;
      }
      i := i + 1;
    }
    assert lps[..|lps|] == lps;
    failure := None;
  }

  /** The download loop: creates locally each server row whose id the snapshot does not record. */
  method DownloadAll(local: LocalStorage, server: Server, rps: seq<Project>, sids: set<string>, uploaded: nat)
    returns (failure: Option<StorageError>, downloaded: nat)
    requires local.Valid()
    modifies local
    ensures local.Valid()
    ensures local.verificationToken == old(local.verificationToken) && local.settings == old(local.settings)
    ensures Download(World(old(local.projects), server.data, uploaded, 0), rps, sids)
            == Outcome(World(local.projects, server.data, uploaded, downloaded), failure)
  {
    ghost var start := World(local.projects, server.data, uploaded, 0);
    downloaded := 0;
    var j := 0;
    while j < |rps|
      invariant 0 <= j <= |rps|
      invariant local.Valid()
      invariant local.verificationToken == old(local.verificationToken) && local.settings == old(local.settings)
      invariant Download(start, rps[..j], sids) == Outcome(World(local.projects, server.data, uploaded, downloaded), None)
    {
      var rp := rps[j];
      assert rps[..j + 1][..j] == rps[..j];
      ghost var before := World(local.projects, server.data, uploaded, downloaded);
      assert Download(start, rps[..j + 1], sids) == DownloadStep(before, rp, sids);
      if SidOf(rp) !in sids {
        var created := local.CreateProject(rp);
        if created.Err? {
          DownloadAfterFailure(start, rps, j + 1, sids);
          return Some(created.error), downloaded;
        }
        downloaded := downloaded + 1;
      }
      j := j + 1;
    }
    assert rps[..|rps|] == rps;
    failure := None;
  }

  // ---------------------------------------------------------------------
  // What one pass does

  /**
   * What the upload pass leaves of a snapshot row: "local" and "modified"
   * rows are marked synced with every other column kept, "deleted" rows are
   * gone, and rows of any other status are as they were.
   */
  ghost predicate SettledRow(rows: seq<Project>, lp: Project) {
    if lp.syncStatus == STATUS_LOCAL || lp.syncStatus == STATUS_MODIFIED then
      Table.Get(rows, lp.id) == Ok(lp.(syncStatus := STATUS_SYNCED))
    else if lp.syncStatus == STATUS_DELETED then
      lp.id !in Table.Ids(rows)
    else
      Table.Get(rows, lp.id) == Ok(lp)
  }

  function DeletedIds(lps: seq<Project>): set<string> {
    set p | p in lps && p.syncStatus == STATUS_DELETED :: p.id
  }

  /** The number of snapshot rows the upload pass pushes: those "local" or "modified". */
  function CountPushed(lps: seq<Project>): (n: nat)
    ensures n <= |lps|
  {
    if |lps| == 0 then 0
    else
      var last := lps[|lps| - 1];
      CountPushed(lps[..|lps| - 1])
        + if last.syncStatus == STATUS_LOCAL || last.syncStatus == STATUS_MODIFIED then 1 else 0
  }

  /** The server rows the download pass creates: those whose id the snapshot does not record. */
  function Missing(rps: seq<Project>, sids: set<string>): (r: seq<Project>)
    ensures |r| <= |rps|
    ensures forall p :: p in r <==> p in rps && SidOf(p) !in sids
  {
    if |rps| == 0 then []
    else
      var last := rps[|rps| - 1];
      assert rps == rps[..|rps| - 1] + [last];
      Missing(rps[..|rps| - 1], sids) + if SidOf(last) in sids then [] else [last]
  }

  /**
   * When a step fails: a push needs a response and the row still in
   * the table (and, for an update, the row on the server); a delete fails
   * only locally, whatever the server replied. A step's request stays sent.
   */
  lemma UploadStepFailure(w: World, lp: Project, outage: Option<nat>, now: string)
    ensures var o := UploadStep(w, lp, outage, now);
      && (lp.syncStatus == STATUS_LOCAL || (lp.syncStatus == STATUS_MODIFIED && lp.serverId.None?) ==>
            (o.failure.None? <==> Answers(outage, w.server.requests) && lp.id in Table.Ids(w.local))
            && o.world.server == CreateCall(w.server, outage, true, lp, now).after)
      && (lp.syncStatus == STATUS_MODIFIED && lp.serverId.Some? ==>
            (o.failure.None? <==>
               Answers(outage, w.server.requests) && Find(w.server.rows, lp.serverId.value).Some?
               && lp.id in Table.Ids(w.local))
            && o.world.server == UpdateCall(w.server, outage, true, lp, now).after)
      && (lp.syncStatus == STATUS_DELETED ==> (o.failure.None? <==> lp.id in Table.Ids(w.local)))
      && (lp.syncStatus != STATUS_LOCAL && lp.syncStatus != STATUS_MODIFIED && lp.syncStatus != STATUS_DELETED ==>
            o == Outcome(w, None))
  {
  }

  /** A successful step settles its row and changes no other row. */
  lemma UploadStepSettles(w: World, x: Project, outage: Option<nat>, now: string)
    requires Table.UniqueIds(w.local) && Table.Get(w.local, x.id) == Ok(x)
    requires UploadStep(w, x, outage, now).failure.None?
    ensures var rows := UploadStep(w, x, outage, now).world.local;
      && Table.UniqueIds(rows)
      && SettledRow(rows, x)
      && Table.Ids(rows) == Table.Ids(w.local) - (if x.syncStatus == STATUS_DELETED then {x.id} else {})
      && forall id :: id != x.id ==> Table.Get(rows, id) == Table.Get(w.local, id)
  {
    if x.syncStatus == STATUS_LOCAL || x.syncStatus == STATUS_MODIFIED {
      forall id ensures Table.Get(Table.Update(w.local, x.(syncStatus := STATUS_SYNCED)).value, id) ==
                          if id == x.id then Ok(x.(syncStatus := STATUS_SYNCED)) else Table.Get(w.local, id)
      {
        Table.GetAfterUpdate(w.local, x.(syncStatus := STATUS_SYNCED), id);
      }
    } else if x.syncStatus == STATUS_DELETED {
      forall id ensures Table.Get(Table.Delete(w.local, x.id).value, id) ==
                          if id == x.id then Err(NotFound(id)) else Table.Get(w.local, id)
      {
        Table.GetAfterDelete(w.local, x.id, id);
      }
    }
  }

  /**
   * A successful upload pass over a snapshot of the table settles every
   * snapshot row, removes exactly the deleted ones, and touches no row
   * outside the snapshot.
   */
  lemma {:induction false} UploadSettles(w: World, s: seq<Project>, outage: Option<nat>, now: string)
    requires Table.UniqueIds(w.local) && Table.UniqueIds(s)
    requires forall j :: 0 <= j < |s| ==> Table.Get(w.local, s[j].id) == Ok(s[j])
    requires Upload(w, s, outage, now).failure.None?
    ensures var rows := Upload(w, s, outage, now).world.local;
      && Table.UniqueIds(rows)
      && Table.Ids(rows) == Table.Ids(w.local) - DeletedIds(s)
      && (forall j :: 0 <= j < |s| ==> SettledRow(rows, s[j]))
      && (forall id :: id !in Table.Ids(s) ==> Table.Get(rows, id) == Table.Get(w.local, id))
  {
    if |s| > 0 {
      var front, x := s[..|s| - 1], s[|s| - 1];
      assert s == front + [x];
      assert forall j | 0 <= j < |front| :: front[j] == s[j];
      Table.UniqueIdsAppend(front, x);
      Table.IdsAppend(front, x);
      var o := Upload(w, front, outage, now);
      UploadSettles(w, front, outage, now);
      assert Table.Get(o.world.local, x.id) == Ok(x);
      UploadStepSettles(o.world, x, outage, now);
      SettlesOneMore(w.local, o.world.local, Upload(w, s, outage, now).world.local, front, x);
    }
  }

  /** The induction step of `UploadSettles`, on the tables alone. */
  lemma SettlesOneMore(base: seq<Project>, mid: seq<Project>, rows: seq<Project>, front: seq<Project>, x: Project)
    requires x.id !in Table.Ids(front)
    requires Table.Ids(mid) == Table.Ids(base) - DeletedIds(front)
    requires forall j :: 0 <= j < |front| ==> SettledRow(mid, front[j])
    requires forall id :: id !in Table.Ids(front) ==> Table.Get(mid, id) == Table.Get(base, id)
    requires SettledRow(rows, x)
    requires Table.Ids(rows) == Table.Ids(mid) - (if x.syncStatus == STATUS_DELETED then {x.id} else {})
    requires forall id :: id != x.id ==> Table.Get(rows, id) == Table.Get(mid, id)
    ensures Table.Ids(rows) == Table.Ids(base) - DeletedIds(front + [x])
    ensures forall j :: 0 <= j < |front + [x]| ==> SettledRow(rows, (front + [x])[j])
    ensures forall id :: id !in Table.Ids(front + [x]) ==> Table.Get(rows, id) == Table.Get(base, id)
  {
    var s := front + [x];
    Table.IdsAppend(front, x);
    assert DeletedIds(s) == DeletedIds(front) + (if x.syncStatus == STATUS_DELETED then {x.id} else {}) by {
      assert forall p :: p in s <==> p in front || p == x;
    }
    forall j | 0 <= j < |s| ensures SettledRow(rows, s[j]) {
      if j < |front| {
        assert s[j] == front[j] && front[j].id in Table.Ids(front);
        assert SettledRow(mid, front[j]);
      }
    }
  }

  /** A successful upload pass counts the pushed rows and no downloads. */
  lemma {:induction false} UploadCounts(w: World, s: seq<Project>, outage: Option<nat>, now: string)
    requires Upload(w, s, outage, now).failure.None?
    ensures Upload(w, s, outage, now).world.uploaded == w.uploaded + CountPushed(s)
    ensures Upload(w, s, outage, now).world.downloaded == w.downloaded
  {
    if |s| > 0 {
      UploadCounts(w, s[..|s| - 1], outage, now);
    }
  }

  /**
   * A failed upload pass stopped at one row `k`: every row before it went
   * through, and what the failing step had done by then stays done.
   */
  lemma {:induction false} UploadStopsAtFirstFailure(w: World, s: seq<Project>, outage: Option<nat>, now: string)
    requires Upload(w, s, outage, now).failure.Some?
    ensures exists k :: 0 <= k < |s| && Upload(w, s[..k], outage, now).failure.None?
              && Upload(w, s, outage, now) == UploadStep(Upload(w, s[..k], outage, now).world, s[k], outage, now)
  {
    var front := s[..|s| - 1];
    if Upload(w, front, outage, now).failure.Some? {
      UploadStopsAtFirstFailure(w, front, outage, now);
      var k :| 0 <= k < |front| && Upload(w, front[..k], outage, now).failure.None?
               && Upload(w, front, outage, now) == UploadStep(Upload(w, front[..k], outage, now).world, front[k], outage, now);
      assert front[..k] == s[..k];
    } else {
      var k := |s| - 1;
      assert s[..k] == front;
    }
  }

  /**
   * The download pass appends the missing server rows in listing order; it
   * succeeds exactly when none of them repeats a local id or another's id.
   */
  lemma {:induction false} DownloadAppendsMissing(w: World, rps: seq<Project>, sids: set<string>)
    requires Table.UniqueIds(w.local)
    ensures var o := Download(w, rps, sids);
      && (o.failure.None? <==> Table.UniqueIds(w.local + Missing(rps, sids)))
      && (o.failure.None? ==> o.world.local == w.local + Missing(rps, sids))
      && (o.failure.None? ==> o.world.downloaded == w.downloaded + |Missing(rps, sids)|)
      && o.world.server == w.server && o.world.uploaded == w.uploaded
  {
    if |rps| > 0 {
      var front, x := rps[..|rps| - 1], rps[|rps| - 1];
      DownloadAppendsMissing(w, front, sids);
      var m := Missing(front, sids);
      var o := Download(w, front, sids);
      if SidOf(x) !in sids {
        assert Missing(rps, sids) == m + [x];
        assert w.local + (m + [x]) == (w.local + m) + [x];
        Table.UniqueIdsAppend(w.local + m, x);
        if o.failure.Some? {
          assert !Table.UniqueIds(w.local + m);
        }
      } else {
        assert Missing(rps, sids) == m;
      }
    }
  }

  /**
   * What a successful sync does to a table with unique ids: the upload
   * settles every row of the table (the snapshot is its listing), pushes the
   * "local" and "modified" ones, and the download then appends exactly the
   * missing server rows.
   */
  lemma SyncOutcome(rows: seq<Project>, server: ServerState, rps: seq<Project>, outage: Option<nat>, now: string)
    requires Table.UniqueIds(rows)
    requires SyncPass(World(rows, server, 0, 0), Table.Listing(rows), rps, outage, now).failure.None?
    ensures var up := Upload(World(rows, server, 0, 0), Table.Listing(rows), outage, now).world;
            var o := SyncPass(World(rows, server, 0, 0), Table.Listing(rows), rps, outage, now);
      && (forall j :: 0 <= j < |rows| ==> SettledRow(up.local, rows[j]))
      && o.world.local == up.local + Missing(rps, LocalServerIds(Table.Listing(rows)))
      && Table.UniqueIds(o.world.local)
      && o.world.uploaded == CountPushed(Table.Listing(rows))
      && o.world.downloaded == |Missing(rps, LocalServerIds(Table.Listing(rows)))|
  {
    var w := World(rows, server, 0, 0);
    var s := Table.Listing(rows);
    ListingIsSnapshot(rows);
    UploadSettles(w, s, outage, now);
    UploadCounts(w, s, outage, now);
    var up := Upload(w, s, outage, now).world;
    SettledEveryRow(rows, s, up.local);
    DownloadAppendsMissing(up, rps, LocalServerIds(s));
  }

  /** What settles every row of a snapshot settles every row of the table it lists. */
  lemma SettledEveryRow(rows: seq<Project>, s: seq<Project>, after: seq<Project>)
    requires multiset(s) == multiset(rows)
    requires forall j :: 0 <= j < |s| ==> SettledRow(after, s[j])
    ensures forall j :: 0 <= j < |rows| ==> SettledRow(after, rows[j])
  {
    forall j | 0 <= j < |rows| ensures SettledRow(after, rows[j]) {
      assert rows[j] in multiset(s);
      var i :| 0 <= i < |s| && s[i] == rows[j];
    }
  }

  /** The listing of a table with unique ids is a snapshot of it: each listed row is the table's row for its id. */
  lemma ListingIsSnapshot(rows: seq<Project>)
    requires Table.UniqueIds(rows)
    ensures Table.UniqueIds(Table.Listing(rows))
    ensures forall j :: 0 <= j < |Table.Listing(rows)| ==>
              Table.Get(rows, Table.Listing(rows)[j].id) == Ok(Table.Listing(rows)[j])
  {
    var s := Table.Listing(rows);
    Table.PermutationKeepsUniqueIds(rows, s);
    forall j | 0 <= j < |s| ensures Table.Get(rows, s[j].id) == Ok(s[j]) {
      assert s[j] in multiset(rows);
      var i :| 0 <= i < |rows| && rows[i] == s[j];
      Table.GetOfRow(rows, i);
    }
  }

  /**
   * A "local" row is pushed with its server id left empty, so the next sync
   * does not recognise the server's copy and downloads it as a second
   * local row.
   */
  lemma PushedRowComesBack(lp: Project, now: string)
    requires lp.syncStatus == STATUS_LOCAL && lp.serverId.None? && lp.id != IdText(0)
    ensures var first := SyncPass(World([lp], ServerState([], 0, 0), 0, 0), [lp], [], None, now);
            var second := SyncPass(World(first.world.local, first.world.server, 0, 0),
                                   Table.Listing(first.world.local), ListingOf(first.world.server.rows), None, now);
      && first.failure.None? && first.world.uploaded == 1
      && first.world.local == [lp.(syncStatus := STATUS_SYNCED)]
      && second.failure.None? && second.world.uploaded == 0 && second.world.downloaded == 1
      && |second.world.local| == 2
      && second.world.local[1].encryptedName == lp.encryptedName
      && second.world.local[1].encryptedContent == lp.encryptedContent
  {
    var synced := lp.(syncStatus := STATUS_SYNCED);
    var w := World([lp], ServerState([], 0, 0), 0, 0);
    assert [lp][..0] == [];
    assert Table.Get([lp], lp.id) == Ok(lp);
    var step1 := UploadStep(w, lp, None, now);
    assert Upload(w, [lp], None, now) == step1;
    assert Table.Update([lp], synced).value == [synced] by {
      assert Table.Update([lp], synced).value[0] == synced;
    }
    assert step1.failure.None? && step1.world.local == [synced];
    var server := step1.world.server;
    var row := ServerProject(0, lp.encryptedName, lp.encryptedContent, lp.sortOrder, now, now);
    assert server.rows == [row];
    assert Table.Listing([synced]) == [synced];
    var rps := ListingOf(server.rows);
    assert rps == [Listed(row)];
    var w2 := World([synced], server, 0, 0);
    assert [synced][..0] == [] && rps[..0] == [];
    assert Upload(w2, [synced], None, now) == UploadStep(w2, synced, None, now) == Outcome(w2, None);
    assert LocalServerIds([synced]) == {};
    assert Table.Ids([synced]) == {lp.id};
    assert Download(w2, rps, {}) == DownloadStep(w2, Listed(row), {});
  }

}
