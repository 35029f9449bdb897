/** The durable store as tables (internal/statestore/postgres.go). What the database decides is an
    argument: whether a write lands and whether the call reports an error. */
module StateStore {
  import opened Lifecycle
  import Checkpoints
  import P = Plane

  type Sid = string

  datatype Row = Row(status: Status, taskID: string, description: string, ref: nat, createdAt: int, updatedAt: int)

  /** A listed row with its primary key. */
  datatype Listed = Listed(id: Sid, row: Row)

  function StatusOf(rows: map<Sid, Row>): map<Sid, Status> {
    map sid | sid in rows :: rows[sid].status
  }

  /** ORDER BY created_at DESC. */
  ghost predicate NewestFirst(list: seq<Listed>) {
    forall i, j :: 0 <= i < j < |list| ==> list[i].row.createdAt >= list[j].row.createdAt
  }

  ghost predicate DistinctIds(list: seq<Listed>) {
    forall i, j :: 0 <= i < j < |list| ==> list[i].id != list[j].id
  }

  /** The non-terminal rows except those in `left`, newest first, and none of these newer than any of those. */
  ghost predicate ListedSoFar(rows: map<Sid, Row>, list: seq<Listed>, left: set<Sid>) {
    && NewestFirst(list) && DistinctIds(list)
    && (forall id :: id in left ==> id in rows && !Terminal(rows[id].status))
    && (forall x :: x in list ==> x.id in rows && rows[x.id] == x.row && !Terminal(x.row.status) && x.id !in left)
    && (forall id :: id in rows && !Terminal(rows[id].status) ==> id in left || Listed(id, rows[id]) in list)
    && (forall x, id :: x in list && id in left ==> x.row.createdAt >= rows[id].createdAt)
  }

  lemma ListOne(rows: map<Sid, Row>, list: seq<Listed>, left: set<Sid>, id: Sid)
    requires ListedSoFar(rows, list, left)
    requires id in left && forall other :: other in left ==> rows[other].createdAt <= rows[id].createdAt
    ensures ListedSoFar(rows, list + [Listed(id, rows[id])], left - {id})
  {
    var more := list + [Listed(id, rows[id])];
    assert forall i :: 0 <= i < |list| ==> list[i] in list && list[i].id != id;
    assert forall x :: x in more <==> x in list || x == Listed(id, rows[id]);
  }

  class Store {
    var rows: map<Sid, Row>                    // the sessions table, by primary key
    var checkpoints: seq<Checkpoints.Row>      // in order of insertion
    var nextId: nat                            // of the checkpoints sequence

    /** Ids come from a sequence: the next one is above all that have been used. */
    ghost predicate Valid()
      reads this
    {
      nextId > 0 && forall c :: c in checkpoints ==> c.id < nextId
    }

    constructor ()
      ensures Valid() && rows == map[] && checkpoints == [] && nextId == 1
    {
      rows := map[];
      checkpoints := [];
      nextId := 1;
    }

    /** INSERT: fails on a duplicate key, whatever the connection does. */
    method CreateSession(id: Sid, row: Row, insert: P.Insert) returns (ok: bool)
      modifies this`rows
      ensures ok <==> id !in old(rows) && insert == P.Inserted
      ensures rows == if id in old(rows) || insert == P.Refused then old(rows) else old(rows)[id := row]
    {
      if id in rows || insert == P.Refused {
        return false;
      }
      rows := rows[id := row];
      ok := insert == P.Inserted;
    }

    /** UPDATE ... SET status, updated_at WHERE id: an error if no row is affected or the write is lost. */
    method UpdateSessionStatus(id: Sid, status: Status, updatedAt: int, landed: bool) returns (ok: bool)
      modifies this`rows
      ensures ok <==> landed && id in old(rows)
      ensures rows == if ok then old(rows)[id := old(rows)[id].(status := status, updatedAt := updatedAt)] else old(rows)
    {
      ok := landed && id in rows;
      if ok {
        rows := rows[id := rows[id].(status := status, updatedAt := updatedAt)];
      }
    }

    /** SELECT ... WHERE status NOT IN ('COMPLETED', 'FAILED') ORDER BY created_at DESC: every
        non-terminal row once, newest first, or an error if the database cannot be read. */
    method ListNonTerminalSessions(readable: bool) returns (list: seq<Listed>, ok: bool)
      ensures ok == readable
      ensures NewestFirst(list) && DistinctIds(list)
      ensures forall x :: x in list <==> ok && x.id in rows && rows[x.id] == x.row && !Terminal(x.row.status)
    {
      list, ok := [], readable;
      if !readable {
        return;
      }
      var left := set id | id in rows && !Terminal(rows[id].status);
      while left != {}
        invariant ListedSoFar(rows, list, left)
        decreases |left|
      {
        var id := Newest(left);
        ListOne(rows, list, left, id);
        list := list + [Listed(id, rows[id])];
        left := left - {id};
      }
    }

    method Newest(ids: set<Sid>) returns (newest: Sid)
      requires ids != {} && forall id :: id in ids ==> id in rows
      ensures newest in ids && forall id :: id in ids ==> rows[id].createdAt <= rows[newest].createdAt
    {
      newest :| newest in ids;
      var left := ids - {newest};
      while left != {}
        invariant left <= ids && newest in ids
        invariant forall id :: id in ids - left ==> rows[id].createdAt <= rows[newest].createdAt
        decreases |left|
      {
        var id :| id in left;
        if rows[id].createdAt > rows[newest].createdAt {
          newest := id;
        }
        left := left - {id};
      }
    }

    /** INSERT INTO checkpoints ... RETURNING id: an id above all ids in the table. */
    method SaveCheckpoint(sid: Sid, step: nat, skipped: nat, landed: bool, reported: bool) returns (id: nat, ok: bool)
      requires Valid()
      modifies this`checkpoints, this`nextId
      ensures Valid() && (ok ==> forall c :: c in old(checkpoints) ==> c.id < id)
      ensures ok <==> landed && reported
      ensures id == if ok then old(nextId) + skipped else 0
      ensures nextId == old(nextId) + skipped + 1
      ensures checkpoints == if landed then old(checkpoints) + [Checkpoints.Row(old(nextId) + skipped, sid, step)]
                             else old(checkpoints)
    {
      var taken := nextId + skipped;
      nextId := taken + 1;
      if landed {
        checkpoints := checkpoints + [Checkpoints.Row(taken, sid, step)];
      }
      ok := landed && reported;
      id := if ok then taken else 0;
    }

    /** The newest checkpoint of a session by step number and then id, found by one pass. */
    method LastCheckpoint(sid: Sid) returns (last: Option<Checkpoints.Row>)
      ensures last == Checkpoints.Last(checkpoints, sid)
    {
      last := None;
      for i := 0 to |checkpoints|
        invariant last == Checkpoints.Last(checkpoints[..i], sid)
      {
        assert checkpoints[..i + 1][..i] == checkpoints[..i];
        var x := checkpoints[i];
        if x.sid == sid && (last.None? || Checkpoints.NotAfter(last.value, x)) {
          last := Some(x);
        }
      }
      assert checkpoints[..|checkpoints|] == checkpoints;
    }

    method UpdateCheckpointRef(sid: Sid, id: nat, landed: bool, reported: bool) returns (ok: bool)
      modifies this`rows
      ensures ok <==> landed && reported && sid in old(rows)
      ensures rows == if landed && sid in old(rows) then old(rows)[sid := old(rows)[sid].(ref := id)] else old(rows)
    {
      if landed && sid in rows {
        rows := rows[sid := rows[sid].(ref := id)];
      }
      ok := landed && reported && sid in rows;
    }
  }
}
