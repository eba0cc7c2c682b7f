/**
 * The sync server as the client in src-tauri/src/storage/remote.rs sees it:
 * a table of projects whose ids the server assigns, reached over a network
 * that may stop answering. The server's own code is not part of this
 * model; its behaviour here is what the client's requests and the
 * responses it accepts imply.
 */
module Remote {
  import opened Wrappers
  import opened Models

  /** The message of a request that got no response (the transport error). */
  const UNREACHABLE := "error sending request"
  const LIST_FAILED := "Server error"
  const CREATE_FAILED := "Create failed"
  const UPDATE_FAILED := "Update failed"

  /** A row of the server's table (`ServerProject`); the owner column is left out. */
  datatype ServerProject = ServerProject(
    id: nat,
    encryptedName: Bytes,
    encryptedContent: Bytes,
    sortOrder: int,
    createdAt: string,
    updatedAt: string)

  /**
   * The server's table, the next id it hands out, and the number of
   * requests sent to it so far.
   */
  datatype ServerState = ServerState(rows: seq<ServerProject>, nextId: nat, requests: nat)

  /** Ids are unique and below the next one to be assigned. */
  ghost predicate Wellformed(s: ServerState) {
    && (forall i :: 0 <= i < |s.rows| ==> s.rows[i].id < s.nextId)
    && (forall i, j :: 0 <= i < j < |s.rows| ==> s.rows[i].id != s.rows[j].id)
  }

  /** The reply to one request: the server's state after it, and what the client got. */
  datatype Reply<T> = Reply(after: ServerState, result: Result<T, StorageError>)

  /**
   * Whether request number `n` gets a response: `outage` is the number of
   * the first request the network drops, from which on none is answered.
   */
  predicate Answers(outage: Option<nat>, n: nat) {
    outage.None? || n < outage.value
  }

  function Digit(d: nat): char
    requires d < 10
  {
    "0123456789"[d]
  }

  /** The decimal text of an id (`i64::to_string` on a non-negative id). */
  function IdText(n: nat): (r: string)
    ensures |r| >= 1
    ensures n >= 10 ==> |r| >= 2
    decreases n
  {
    if n < 10 then [Digit(n)] else IdText(n / 10) + [Digit(n % 10)]
  }

  lemma {:induction false} IdTextInjective(a: nat, b: nat)
    requires IdText(a) == IdText(b)
    ensures a == b
    decreases a
  {
    if a < 10 && b < 10 {
      assert Digit(a) == IdText(a)[0] == IdText(b)[0] == Digit(b);
    } else if a >= 10 && b >= 10 {
      var ta, tb := IdText(a), IdText(b);
      assert ta[..|ta| - 1] == IdText(a / 10) && tb[..|tb| - 1] == IdText(b / 10);
      IdTextInjective(a / 10, b / 10);
      assert Digit(a % 10) == ta[|ta| - 1] == tb[|tb| - 1] == Digit(b % 10);
      DigitInjective(a % 10, b % 10);
      assert a == (a / 10) * 10 + a % 10 && b == (b / 10) * 10 + b % 10;
    }
  }

  lemma DigitInjective(d: nat, e: nat)
    requires d < 10 && e < 10 && Digit(d) == Digit(e)
    ensures d == e
  {
  }

  /** A server row as `list_projects` hands it to the client. */
  function Listed(sp: ServerProject): (p: Project)
    ensures p.id == IdText(sp.id) && p.serverId == Some(p.id)
    ensures p.syncStatus == STATUS_SYNCED
  {
    Project(IdText(sp.id), sp.encryptedName, sp.encryptedContent, sp.sortOrder,
            sp.createdAt, sp.updatedAt, Some(IdText(sp.id)), STATUS_SYNCED)
  }

  /** The response of `list_projects`: every server row, each marked synced with its server id. */
  function ListingOf(rows: seq<ServerProject>): (r: seq<Project>)
    ensures |r| == |rows|
    ensures forall i :: 0 <= i < |r| ==>
              r[i].serverId == Some(r[i].id) && r[i].id == IdText(rows[i].id)
              && r[i].syncStatus == STATUS_SYNCED
  {
    seq(|rows|, i requires 0 <= i < |rows| => Listed(rows[i]))
  }

  /** The position of the server row whose decimal id is `sid`, if any. */
  function Find(rows: seq<ServerProject>, sid: string): (r: Option<nat>)
    ensures r.Some? ==> r.value < |rows| && IdText(rows[r.value].id) == sid
    ensures r.None? <==> forall i :: 0 <= i < |rows| ==> IdText(rows[i].id) != sid
  {
    if |rows| == 0 then None
    else if IdText(rows[0].id) == sid then Some(0)
    else
      match Find(rows[1..], sid)
      case Some(i) => Some(i + 1)
      case None =>
        assert forall i :: 1 <= i < |rows| ==> rows[i] == rows[1..][i - 1];
        None
  }

  function Sent(s: ServerState): ServerState {
    s.(requests := s.requests + 1)
  }

  /** GET /health. */
  function HealthCall(s: ServerState, outage: Option<nat>): (r: Reply<()>)
    ensures r.after.rows == s.rows && r.after.nextId == s.nextId && r.after.requests == s.requests + 1
    ensures r.result.Ok? <==> Answers(outage, s.requests)
  {
    Reply(Sent(s), if Answers(outage, s.requests) then Ok(()) else Err(Io(UNREACHABLE)))
  }

  /** GET /projects with the bearer token. */
  function ListCall(s: ServerState, outage: Option<nat>, authorized: bool): (r: Reply<seq<Project>>)
    ensures r.after.rows == s.rows && r.after.nextId == s.nextId && r.after.requests == s.requests + 1
    ensures r.result.Ok? <==> Answers(outage, s.requests) && authorized
    ensures r.result.Ok? ==> r.result.value == ListingOf(s.rows)
  {
    Reply(Sent(s),
      if !Answers(outage, s.requests) then Err(Io(UNREACHABLE))
      else if !authorized then Err(Io(LIST_FAILED))
      else Ok(ListingOf(s.rows)))
  }

  /**
   * POST /projects: the payload carries only the ciphertexts and the order;
   * the server assigns the id and both timestamps.
   */
  function CreateCall(s: ServerState, outage: Option<nat>, authorized: bool, p: Project, now: string): (r: Reply<()>)
    ensures r.after.requests == s.requests + 1
    ensures r.result.Ok? <==> Answers(outage, s.requests) && authorized
    ensures r.result.Err? ==> r.after.rows == s.rows && r.after.nextId == s.nextId
    ensures r.result.Ok? ==>
              && |r.after.rows| == |s.rows| + 1 && r.after.rows[..|s.rows|] == s.rows
              && r.after.rows[|s.rows|] == ServerProject(s.nextId, p.encryptedName, p.encryptedContent, p.sortOrder, now, now)
    ensures Wellformed(s) ==> Wellformed(r.after)
  {
    if !Answers(outage, s.requests) then Reply(Sent(s), Err(Io(UNREACHABLE)))
    else if !authorized then Reply(Sent(s), Err(Io(CREATE_FAILED)))
    else
      var row := ServerProject(s.nextId, p.encryptedName, p.encryptedContent, p.sortOrder, now, now);
      Reply(ServerState(s.rows + [row], s.nextId + 1, s.requests + 1), Ok(()))
  }

  /** PUT /projects/{sid}, where sid is the row's server id or else its own id. */
  function UpdateCall(s: ServerState, outage: Option<nat>, authorized: bool, p: Project, now: string): (r: Reply<()>)
    ensures r.after.requests == s.requests + 1 && r.after.nextId == s.nextId
    ensures |r.after.rows| == |s.rows|
    ensures r.result.Ok? <==> Answers(outage, s.requests) && authorized && Find(s.rows, p.serverId.GetOr(p.id)).Some?
    ensures r.result.Err? ==> r.after.rows == s.rows
    ensures r.result.Ok? ==> forall i :: 0 <= i < |s.rows| ==>
              && r.after.rows[i].id == s.rows[i].id
              && r.after.rows[i].createdAt == s.rows[i].createdAt
              && (i != Find(s.rows, p.serverId.GetOr(p.id)).value ==> r.after.rows[i] == s.rows[i])
              && (i == Find(s.rows, p.serverId.GetOr(p.id)).value ==>
                    r.after.rows[i] == s.rows[i].(encryptedName := p.encryptedName,
                      encryptedContent := p.encryptedContent, sortOrder := p.sortOrder, updatedAt := now))
    ensures Wellformed(s) ==> Wellformed(r.after)
  {
    var sid := p.serverId.GetOr(p.id);
    if !Answers(outage, s.requests) then Reply(Sent(s), Err(Io(UNREACHABLE)))
    else if !authorized then Reply(Sent(s), Err(Io(UPDATE_FAILED)))
    else
      match Find(s.rows, sid)
      case None => Reply(Sent(s), Err(Io(UPDATE_FAILED)))
      case Some(i) =>
        var row := s.rows[i].(encryptedName := p.encryptedName, encryptedContent := p.encryptedContent,
                              sortOrder := p.sortOrder, updatedAt := now);
        Reply(Sent(s).(rows := s.rows[i := row]), Ok(()))
  }

  /** DELETE /projects/{sid}; any unsuccessful response is reported as NotFound. */
  function DeleteCall(s: ServerState, outage: Option<nat>, authorized: bool, sid: string): (r: Reply<()>)
    ensures r.after.requests == s.requests + 1 && r.after.nextId == s.nextId
    ensures r.result.Ok? <==> Answers(outage, s.requests) && authorized && Find(s.rows, sid).Some?
    ensures Answers(outage, s.requests) && r.result.Err? ==> r.result.error == NotFound(sid)
    ensures r.result.Err? ==> r.after.rows == s.rows
    ensures r.result.Ok? && Wellformed(s) ==>
              forall sp :: sp in r.after.rows <==> sp in s.rows && IdText(sp.id) != sid
    ensures Wellformed(s) ==> Wellformed(r.after)
  {
    if !Answers(outage, s.requests) then Reply(Sent(s), Err(Io(UNREACHABLE)))
    else if !authorized then Reply(Sent(s), Err(NotFound(sid)))
    else
      match Find(s.rows, sid)
      case None => Reply(Sent(s), Err(NotFound(sid)))
      case Some(i) =>
        var rest := s.rows[..i] + s.rows[i + 1..];
        RemoveAtKeepsOthers(s, i, sid);
        Reply(Sent(s).(rows := rest), Ok(()))
  }

  /** Removing the one row whose id reads `sid` keeps every other row and the table well formed. */
  lemma RemoveAtKeepsOthers(s: ServerState, i: nat, sid: string)
    requires i < |s.rows| && IdText(s.rows[i].id) == sid
    ensures Wellformed(s) ==>
              forall sp :: sp in s.rows[..i] + s.rows[i + 1..] <==> sp in s.rows && IdText(sp.id) != sid
    ensures Wellformed(s) ==> Wellformed(s.(rows := s.rows[..i] + s.rows[i + 1..]))
  {
    if Wellformed(s) {
      RemoveAtMembers(s.rows, i, sid);
      RemoveAtWellformed(s, i);
    }
  }

  lemma RemoveAtMembers(rows: seq<ServerProject>, i: nat, sid: string)
    requires i < |rows| && IdText(rows[i].id) == sid
    requires forall a, b :: 0 <= a < b < |rows| ==> rows[a].id != rows[b].id
    ensures forall sp :: sp in rows[..i] + rows[i + 1..] <==> sp in rows && IdText(sp.id) != sid
  {
    var rest := rows[..i] + rows[i + 1..];
    assert forall j :: 0 <= j < |rest| ==> rest[j] == if j < i then rows[j] else rows[j + 1];
    forall sp | sp in rows && IdText(sp.id) != sid ensures sp in rest {
      var j :| 0 <= j < |rows| && rows[j] == sp;
      if j < i { assert rest[j] == sp; } else { assert rest[j - 1] == sp; }
    }
    forall sp | sp in rest ensures IdText(sp.id) != sid {
      var j :| 0 <= j < |rest| && rest[j] == sp;
      if IdText(sp.id) == sid {
        IdTextInjective(sp.id, rows[i].id);
      }
    }
  }

  lemma RemoveAtWellformed(s: ServerState, i: nat)
    requires i < |s.rows| && Wellformed(s)
    ensures Wellformed(s.(rows := s.rows[..i] + s.rows[i + 1..]))
  {
    var rest := s.rows[..i] + s.rows[i + 1..];
    assert forall j :: 0 <= j < |rest| ==> rest[j] == if j < i then s.rows[j] else s.rows[j + 1];
  }

  /**
   * The server, reached through `RemoteStorage`: `sessions` are the bearer
   * tokens it accepts and `outage` the first request the network drops.
   */
  class Server {
    var data: ServerState
    const sessions: set<string>
    const outage: Option<nat>

    ghost predicate Valid()
      reads this
    {
      Wellformed(data)
    }

    constructor (rows: seq<ServerProject>, nextId: nat, sessions: set<string>, outage: Option<nat>)
      requires Wellformed(ServerState(rows, nextId, 0))
      ensures Valid()
      ensures data == ServerState(rows, nextId, 0) && this.sessions == sessions && this.outage == outage
    {
      data := ServerState(rows, nextId, 0);
      this.sessions := sessions;
      this.outage := outage;
    }

    /** `init`: the health check. */
    method Health() returns (r: Result<(), StorageError>)
      requires Valid()
      modifies this
      ensures Valid()
      ensures data == HealthCall(old(data), outage).after && r == HealthCall(old(data), outage).result
    {
      var reply := HealthCall(data, outage);
      data := reply.after;
      r := reply.result;
    }

    method List(token: string) returns (r: Result<seq<Project>, StorageError>)
      requires Valid()
      modifies this
      ensures Valid()
      ensures data == ListCall(old(data), outage, token in sessions).after
      ensures r == ListCall(old(data), outage, token in sessions).result
    {
      var reply := ListCall(data, outage, token in sessions);
      data := reply.after;
      r := reply.result;
    }

    method Create(token: string, p: Project, now: string) returns (r: Result<(), StorageError>)
      requires Valid()
      modifies this
      ensures Valid()
      ensures data == CreateCall(old(data), outage, token in sessions, p, now).after
      ensures r == CreateCall(old(data), outage, token in sessions, p, now).result
    {
      var reply := CreateCall(data, outage, token in sessions, p, now);
      data := reply.after;
      r := reply.result;
    }

    method Update(token: string, p: Project, now: string) returns (r: Result<(), StorageError>)
      requires Valid()
      modifies this
      ensures Valid()
      ensures data == UpdateCall(old(data), outage, token in sessions, p, now).after
      ensures r == UpdateCall(old(data), outage, token in sessions, p, now).result
    {
      var reply := UpdateCall(data, outage, token in sessions, p, now);
      data := reply.after;
      r := reply.result;
    }

    method Delete(token: string, sid: string) returns (r: Result<(), StorageError>)
      requires Valid()
      modifies this
      ensures Valid()
      ensures data == DeleteCall(old(data), outage, token in sessions, sid).after
      ensures r == DeleteCall(old(data), outage, token in sessions, sid).result
    {
      var reply := DeleteCall(data, outage, token in sessions, sid);
      data := reply.after;
      r := reply.result;
    }
  }
}
