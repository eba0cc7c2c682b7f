/**
 * The meaning of the SQL statements on the `projects` table
 * (src-tauri/src/storage/local.rs), as functions on the rows.
 *
 * The table is the sequence of its rows in insertion order; `id` is the
 * primary key. Each function gives the rows after one statement, or the
 * error the statement reports.
 */
module Table {
  import opened Wrappers
  import opened Models

  /** The message SQLite gives when an INSERT repeats a primary key. */
  const DUPLICATE_ID := "UNIQUE constraint failed: projects.id"

  /** The primary-key constraint: no two rows share an id. */
  ghost predicate UniqueIds(rows: seq<Project>) {
    forall i, j :: 0 <= i < j < |rows| ==> rows[i].id != rows[j].id
  }

  function Ids(rows: seq<Project>): set<string> {
    set i | 0 <= i < |rows| :: rows[i].id
  }

  lemma IdsAppend(rows: seq<Project>, p: Project)
    ensures Ids(rows + [p]) == Ids(rows) + {p.id}
  {
    var r := rows + [p];
    assert forall i | 0 <= i < |rows| :: r[i] == rows[i];
    assert r[|rows|] == p;
    forall id | id in Ids(r) ensures id in Ids(rows) + {p.id} {
      var i :| 0 <= i < |r| && r[i].id == id;
      if i < |rows| { assert rows[i].id == id; }
    }
  }

  /** Appending keeps the key unique exactly when the new id is not taken. */
  lemma UniqueIdsAppend(rows: seq<Project>, p: Project)
    ensures UniqueIds(rows + [p]) <==> UniqueIds(rows) && p.id !in Ids(rows)
  {
    var r := rows + [p];
    assert forall i | 0 <= i < |rows| :: r[i] == rows[i];
    if UniqueIds(r) {
      forall i | 0 <= i < |rows| ensures rows[i].id != p.id {
        assert r[i].id != r[|rows|].id;
      }
    }
  }

  /** The position of the row with this id, if there is one (`WHERE id = ?`). */
  function IndexOf(rows: seq<Project>, id: string): (r: Option<nat>)
    ensures r.Some? ==> r.value < |rows| && rows[r.value].id == id
    ensures r.None? <==> id !in Ids(rows)
  {
    if |rows| == 0 then None
    else if rows[|rows| - 1].id == id then Some(|rows| - 1)
    else
      var r := IndexOf(rows[..|rows| - 1], id);
      assert rows == rows[..|rows| - 1] + [rows[|rows| - 1]];
      IdsAppend(rows[..|rows| - 1], rows[|rows| - 1]);
      r
  }

  /** SELECT ... WHERE id = ?: the row, or NotFound when no row matches. */
  function Get(rows: seq<Project>, id: string): (r: Result<Project, StorageError>)
    ensures r.Err? <==> id !in Ids(rows)
    ensures r.Err? ==> r.error == NotFound(id)
    ensures r.Ok? ==> r.value in rows && r.value.id == id
  {
    match IndexOf(rows, id)
    case Some(i) => Ok(rows[i])
    case None => Err(NotFound(id))
  }

  /** With unique ids, the lookup of a row's id finds that row. */
  lemma GetOfRow(rows: seq<Project>, i: nat)
    requires UniqueIds(rows) && i < |rows|
    ensures Get(rows, rows[i].id) == Ok(rows[i])
  {
    var r := Get(rows, rows[i].id);
    var j :| 0 <= j < |rows| && rows[j] == r.value;
  }

  /** An UPDATE changes what the lookup of its own id finds, and nothing else. */
  lemma GetAfterUpdate(rows: seq<Project>, p: Project, id: string)
    requires UniqueIds(rows) && p.id in Ids(rows)
    ensures Get(Update(rows, p).value, id) ==
              if id == p.id then Ok(p.(createdAt := Get(rows, id).value.createdAt)) else Get(rows, id)
  {
    var u := Update(rows, p).value;
    if id in Ids(rows) {
      var i :| 0 <= i < |rows| && rows[i].id == id;
      GetOfRow(rows, i);
      GetOfRow(u, i);
    }
  }

  /** A DELETE makes the lookup of its id fail and changes no other lookup. */
  lemma GetAfterDelete(rows: seq<Project>, del: string, id: string)
    requires UniqueIds(rows) && del in Ids(rows)
    ensures Get(Delete(rows, del).value, id) == if id == del then Err(NotFound(id)) else Get(rows, id)
  {
    var d := Delete(rows, del).value;
    if id != del && id in Ids(rows) {
      var i :| 0 <= i < |rows| && rows[i].id == id;
      GetOfRow(rows, i);
      assert rows[i] in d;
      var j :| 0 <= j < |d| && d[j] == rows[i];
      GetOfRow(d, j);
    }
  }

  /** INSERT: appends the row unless its id is taken. */
  function Insert(rows: seq<Project>, p: Project): (r: Result<seq<Project>, StorageError>)
    ensures r.Err? <==> p.id in Ids(rows)
    ensures r.Err? ==> r.error == Database(DUPLICATE_ID)
    ensures r.Ok? ==> Ids(r.value) == Ids(rows) + {p.id}
    ensures r.Ok? && UniqueIds(rows) ==> UniqueIds(r.value)
    ensures r.Ok? ==> r.value == rows + [p]
  {
    if p.id in Ids(rows) then Err(Database(DUPLICATE_ID))
    else
      IdsAppend(rows, p);
      var r := rows + [p];
      assert UniqueIds(rows) ==> UniqueIds(r) by {
        assert forall i | 0 <= i < |rows| :: r[i] == rows[i] && rows[i].id in Ids(rows);
      }
      Ok(r)
  }

  /** The row an UPDATE writes: every column from `p` except id and created_at. */
  function Rewritten(row: Project, p: Project): Project {
    p.(id := row.id, createdAt := row.createdAt)
  }

  /**
   * UPDATE ... WHERE id = p.id: rewrites the matching row; NotFound when no
   * row changed.
   */
  function Update(rows: seq<Project>, p: Project): (r: Result<seq<Project>, StorageError>)
    ensures r.Err? <==> p.id !in Ids(rows)
    ensures r.Err? ==> r.error == NotFound(p.id)
    ensures r.Ok? ==> |r.value| == |rows| && Ids(r.value) == Ids(rows)
    ensures r.Ok? && UniqueIds(rows) ==> UniqueIds(r.value)
    ensures r.Ok? ==> forall i :: 0 <= i < |rows| ==>
              && r.value[i].id == rows[i].id
              && r.value[i].createdAt == rows[i].createdAt
              && (rows[i].id != p.id ==> r.value[i] == rows[i])
              && (rows[i].id == p.id ==> r.value[i] == p.(createdAt := rows[i].createdAt))
  {
    if p.id !in Ids(rows) then Err(NotFound(p.id))
    else
      var r := seq(|rows|, i requires 0 <= i < |rows| =>
                 if rows[i].id == p.id then Rewritten(rows[i], p) else rows[i]);
      assert Ids(r) == Ids(rows) by {
        assert forall i | 0 <= i < |rows| :: r[i].id == rows[i].id;
      }
      Ok(r)
  }

  /** The rows whose id is not `id`, in their order. */
  function Without(rows: seq<Project>, id: string): (r: seq<Project>)
    ensures forall p :: p in r <==> p in rows && p.id != id
    ensures Ids(r) == Ids(rows) - {id}
    ensures UniqueIds(rows) ==> UniqueIds(r)
    ensures |r| <= |rows|
  {
    if |rows| == 0 then []
    else
      var front := Without(rows[..|rows| - 1], id);
      var last := rows[|rows| - 1];
      assert rows == rows[..|rows| - 1] + [last];
      IdsAppend(rows[..|rows| - 1], last);
      if last.id == id then front
      else
        var r := front + [last];
        IdsAppend(front, last);
        UniqueIdsAppend(rows[..|rows| - 1], last);
        UniqueIdsAppend(front, last);
        r
  }

  /** DELETE ... WHERE id = ?: removes the matching row; NotFound when none did. */
  function Delete(rows: seq<Project>, id: string): (r: Result<seq<Project>, StorageError>)
    ensures r.Err? <==> id !in Ids(rows)
    ensures r.Err? ==> r.error == NotFound(id)
    ensures r.Ok? ==> Ids(r.value) == Ids(rows) - {id}
    ensures r.Ok? ==> forall p :: p in r.value <==> p in rows && p.id != id
    ensures r.Ok? && UniqueIds(rows) ==> UniqueIds(r.value)
  {
    if id !in Ids(rows) then Err(NotFound(id)) else Ok(Without(rows, id))
  }

  /** UPDATE projects SET sort_order = ? WHERE id = ?, which never fails for a missing id. */
  function SetOrder(rows: seq<Project>, id: string, order: int): (r: seq<Project>)
    ensures |r| == |rows|
  {
    seq(|rows|, i requires 0 <= i < |rows| =>
      if rows[i].id == id then rows[i].(sortOrder := order) else rows[i])
  }

  /** The order the last pair naming `id` assigns, if any pair does. */
  function LastOrder(pairs: seq<(string, int)>, id: string): Option<int> {
    if |pairs| == 0 then None
    else if pairs[|pairs| - 1].0 == id then Some(pairs[|pairs| - 1].1)
    else LastOrder(pairs[..|pairs| - 1], id)
  }

  /**
   * The statements of the reorder transaction applied in turn. Every row
   * keeps its place and its columns except sort_order, which takes the
   * order of the last pair naming it; rows no pair names, and pairs naming
   * no row, change nothing.
   */
  function Reorder(rows: seq<Project>, pairs: seq<(string, int)>): (r: seq<Project>)
    ensures |r| == |rows|
    ensures forall i :: 0 <= i < |rows| ==>
              r[i] == rows[i].(sortOrder := LastOrder(pairs, rows[i].id).GetOr(rows[i].sortOrder))
  {
    if |pairs| == 0 then rows
    else
      var (id, order) := pairs[|pairs| - 1];
      SetOrder(Reorder(rows, pairs[..|pairs| - 1]), id, order)
  }

  lemma ReorderKeepsIds(rows: seq<Project>, pairs: seq<(string, int)>)
    ensures Ids(Reorder(rows, pairs)) == Ids(rows)
    ensures UniqueIds(rows) ==> UniqueIds(Reorder(rows, pairs))
  {
    var r := Reorder(rows, pairs);
    assert forall i | 0 <= i < |rows| :: r[i].id == rows[i].id;
  }

  /** A table with unique ids holds each row once. */
  lemma {:induction false} UniqueRowsOccurOnce(rows: seq<Project>, x: Project)
    requires UniqueIds(rows)
    ensures multiset(rows)[x] <= 1
  {
    if |rows| > 0 {
      var front := rows[..|rows| - 1];
      assert rows == front + [rows[|rows| - 1]];
      assert UniqueIds(front) by {
        assert forall i | 0 <= i < |front| :: front[i] == rows[i];
      }
      UniqueRowsOccurOnce(front, x);
      if x == rows[|rows| - 1] {
        assert x !in front by {
          assert forall i | 0 <= i < |front| :: front[i].id == rows[i].id != x.id;
        }
      }
    }
  }

  lemma RepeatedRowOccursTwice(rows: seq<Project>, a: nat, b: nat)
    requires a < b < |rows| && rows[a] == rows[b]
    ensures multiset(rows)[rows[a]] >= 2
  {
    assert rows == rows[..b] + rows[b..];
    assert rows[a] in rows[..b];
    assert rows[b] in rows[b..];
  }

  /** A reordering of a table with unique ids has unique ids. */
  lemma PermutationKeepsUniqueIds(rows: seq<Project>, s: seq<Project>)
    requires UniqueIds(rows) && multiset(s) == multiset(rows)
    ensures UniqueIds(s)
  {
    forall a, b | 0 <= a < b < |s| ensures s[a].id != s[b].id {
      if s[a].id == s[b].id {
        assert s[a] in multiset(rows) && s[b] in multiset(rows);
        var ja :| 0 <= ja < |rows| && rows[ja] == s[a];
        var jb :| 0 <= jb < |rows| && rows[jb] == s[b];
        assert ja == jb;
        RepeatedRowOccursTwice(s, a, b);
        UniqueRowsOccurOnce(rows, s[a]);
        assert false;
      }
    }
  }

  // ---------------------------------------------------------------------
  // ORDER BY sort_order ASC, created_at ASC

  /** TEXT comparison under SQLite's BINARY collation: lexicographic by code point. */
  predicate TextLe(a: string, b: string) {
    |a| == 0 || (|b| > 0 && (a[0] < b[0] || (a[0] == b[0] && TextLe(a[1..], b[1..]))))
  }

  lemma {:induction false} TextLeTotal(a: string, b: string)
    ensures TextLe(a, b) || TextLe(b, a)
  {
    if |a| > 0 && |b| > 0 && a[0] == b[0] {
      TextLeTotal(a[1..], b[1..]);
    }
  }

  lemma {:induction false} TextLeTransitive(a: string, b: string, d: string)
    requires TextLe(a, b) && TextLe(b, d)
    ensures TextLe(a, d)
  {
    if |a| > 0 && a[0] == b[0] && b[0] == d[0] {
      TextLeTransitive(a[1..], b[1..], d[1..]);
    }
  }

  /** The order of the listing query. */
  predicate ListedBefore(p: Project, q: Project) {
    p.sortOrder < q.sortOrder || (p.sortOrder == q.sortOrder && TextLe(p.createdAt, q.createdAt))
  }

  lemma ListedBeforeTotal(p: Project, q: Project)
    ensures ListedBefore(p, q) || ListedBefore(q, p)
  {
    TextLeTotal(p.createdAt, q.createdAt);
  }

  lemma ListedBeforeTransitive(p: Project, q: Project, s: Project)
    requires ListedBefore(p, q) && ListedBefore(q, s)
    ensures ListedBefore(p, s)
  {
    if p.sortOrder == q.sortOrder == s.sortOrder {
      TextLeTransitive(p.createdAt, q.createdAt, s.createdAt);
    }
  }

  ghost predicate Sorted(rows: seq<Project>) {
    forall i, j :: 0 <= i < j < |rows| ==> ListedBefore(rows[i], rows[j])
  }

  /** Inserts a row before the first row listed strictly after it, so after every row it ties with. */
  function InsertListed(p: Project, rows: seq<Project>): (r: seq<Project>)
    requires Sorted(rows)
    ensures Sorted(r)
    ensures multiset(r) == multiset(rows) + multiset{p}
  {
    if |rows| == 0 then [p]
    else if ListedBefore(p, rows[0]) && !ListedBefore(rows[0], p) then
      forall j | 0 <= j < |rows| ensures ListedBefore(p, rows[j]) {
        if j > 0 { ListedBeforeTransitive(p, rows[0], rows[j]); }
      }
      PrependKeepsSorted(p, rows);
      [p] + rows
    else
      ListedBeforeTotal(p, rows[0]);
      SortedTail(rows);
      var rest := InsertListed(p, rows[1..]);
      assert rows == [rows[0]] + rows[1..];
      HeadBeforeInserted(p, rows, rest);
      PrependKeepsSorted(rows[0], rest);
      [rows[0]] + rest
  }

  /** A row listed before every row of a sorted listing can go in front of it. */
  lemma PrependKeepsSorted(q: Project, rest: seq<Project>)
    requires Sorted(rest)
    requires forall j :: 0 <= j < |rest| ==> ListedBefore(q, rest[j])
    ensures Sorted([q] + rest)
  {
    var r := [q] + rest;
    forall i, j | 0 <= i < j < |r| ensures ListedBefore(r[i], r[j]) {
      assert r[j] == rest[j - 1];
      if i > 0 { assert r[i] == rest[i - 1]; }
    }
  }

  /** The head of a sorted listing is listed before every row of the tail with a later row added. */
  lemma HeadBeforeInserted(p: Project, rows: seq<Project>, rest: seq<Project>)
    requires Sorted(rows) && |rows| > 0 && ListedBefore(rows[0], p)
    requires multiset(rest) == multiset(rows[1..]) + multiset{p}
    ensures forall j :: 0 <= j < |rest| ==> ListedBefore(rows[0], rest[j])
  {
    forall j | 0 <= j < |rest| ensures ListedBefore(rows[0], rest[j]) {
      assert rest[j] in multiset(rest);
      if rest[j] != p {
        assert rest[j] in multiset(rows[1..]);
        var i :| 0 <= i < |rows[1..]| && rows[1..][i] == rest[j];
        assert rows[i + 1] == rest[j];
      }
    }
  }

  /** Where `InsertListed` puts the new row: after the rows listed before or with it. */
  function InsertPosition(p: Project, rows: seq<Project>): nat {
    if |rows| == 0 || (ListedBefore(p, rows[0]) && !ListedBefore(rows[0], p)) then 0
    else 1 + InsertPosition(p, rows[1..])
  }

  /** The inserted row lands after every row listed before or with it, and before the rest. */
  lemma InsertListedAfterTies(p: Project, rows: seq<Project>)
    requires Sorted(rows)
    ensures InsertPosition(p, rows) <= |rows|
    ensures InsertListed(p, rows) == rows[..InsertPosition(p, rows)] + [p] + rows[InsertPosition(p, rows)..]
    ensures forall j :: 0 <= j < InsertPosition(p, rows) ==> ListedBefore(rows[j], p)
    ensures forall j :: InsertPosition(p, rows) <= j < |rows| ==> !ListedBefore(rows[j], p)
  {
    InsertListedAt(p, rows);
    InsertPositionSplits(p, rows);
  }

  /** `InsertListed` puts the row at `InsertPosition`. */
  lemma {:induction false} InsertListedAt(p: Project, rows: seq<Project>)
    requires Sorted(rows)
    ensures InsertPosition(p, rows) <= |rows|
    ensures InsertListed(p, rows) == rows[..InsertPosition(p, rows)] + [p] + rows[InsertPosition(p, rows)..]
  {
    if |rows| == 0 || (ListedBefore(p, rows[0]) && !ListedBefore(rows[0], p)) {
      assert InsertPosition(p, rows) == 0;
      InsertedFirst(p, rows);
      assert rows[..0] + [p] + rows[0..] == [p] + rows;
    } else {
      var tail := rows[1..];
      var k := InsertPosition(p, tail);
      assert InsertPosition(p, rows) == k + 1;
      SortedTail(rows);
      InsertListedAt(p, tail);
      InsertedLater(p, rows);
      ConsSplit(p, rows, k);
    }
  }

  /** The rows before `InsertPosition` are listed before or with the row, the rest strictly after it. */
  lemma {:induction false} InsertPositionSplits(p: Project, rows: seq<Project>)
    requires Sorted(rows)
    ensures InsertPosition(p, rows) <= |rows|
    ensures forall j :: 0 <= j < InsertPosition(p, rows) ==> ListedBefore(rows[j], p)
    ensures forall j :: InsertPosition(p, rows) <= j < |rows| ==> !ListedBefore(rows[j], p)
  {
    if |rows| == 0 || (ListedBefore(p, rows[0]) && !ListedBefore(rows[0], p)) {
      assert InsertPosition(p, rows) == 0;
      forall j | 0 <= j < |rows| ensures !ListedBefore(rows[j], p) {
        if j > 0 && ListedBefore(rows[j], p) {
          ListedBeforeTransitive(rows[0], rows[j], p);
        }
      }
    } else {
      var tail := rows[1..];
      var k := InsertPosition(p, tail);
      assert InsertPosition(p, rows) == k + 1;
      SortedTail(rows);
      InsertPositionSplits(p, tail);
      ListedBeforeTotal(p, rows[0]);
      forall j | 0 <= j < k + 1 ensures ListedBefore(rows[j], p) {
        if j > 0 { assert rows[j] == tail[j - 1]; }
      }
      forall j | k + 1 <= j < |rows| ensures !ListedBefore(rows[j], p) {
        assert rows[j] == tail[j - 1];
      }
    }
  }

  lemma SortedTail(rows: seq<Project>)
    requires Sorted(rows) && |rows| > 0
    ensures Sorted(rows[1..])
  {
    var tail := rows[1..];
    forall i, j | 0 <= i < j < |tail| ensures ListedBefore(tail[i], tail[j]) {
      assert tail[i] == rows[i + 1] && tail[j] == rows[j + 1];
    }
  }

  /** A row strictly before the head (or into an empty listing) goes first. */
  lemma InsertedFirst(p: Project, rows: seq<Project>)
    requires Sorted(rows)
    requires |rows| == 0 || (ListedBefore(p, rows[0]) && !ListedBefore(rows[0], p))
    ensures InsertListed(p, rows) == [p] + rows
  {
  }

  /** Otherwise the head stays first. */
  lemma InsertedLater(p: Project, rows: seq<Project>)
    requires Sorted(rows) && |rows| > 0 && !(ListedBefore(p, rows[0]) && !ListedBefore(rows[0], p))
    ensures InsertListed(p, rows) == [rows[0]] + InsertListed(p, rows[1..])
  {
  }

  /** Splitting the tail at `k` and putting the head back splits the whole at `k + 1`. */
  lemma ConsSplit(p: Project, rows: seq<Project>, k: nat)
    requires |rows| > 0 && k <= |rows| - 1
    ensures [rows[0]] + (rows[1..][..k] + [p] + rows[1..][k..]) == rows[..k + 1] + [p] + rows[k + 1..]
  {
    assert rows[..k + 1] == [rows[0]] + rows[1..][..k];
    assert rows[k + 1..] == rows[1..][k..];
  }

  /** The listing: the rows sorted by (sort_order, created_at); SQL leaves the order of ties open. */
  function Listing(rows: seq<Project>): (r: seq<Project>)
    ensures Sorted(r)
    ensures multiset(r) == multiset(rows)
  {
    if |rows| == 0 then []
    else
      assert rows == rows[..|rows| - 1] + [rows[|rows| - 1]];
      InsertListed(rows[|rows| - 1], Listing(rows[..|rows| - 1]))
  }
}
