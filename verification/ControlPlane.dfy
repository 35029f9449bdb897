/** The control plane as it is written, an object over the session map and the store, proved against
    the value-level model of module Plane (internal/controlplane/session.go). */
module ControlPlane {
  import opened Lifecycle
  import opened StateStore
  import Checkpoints
  import P = Plane

  datatype Session = Session(
    status: Status, taskID: string, description: string, agent: string,
    ref: nat,           // latest checkpoint id, 0 = none
    createdAt: int, updatedAt: int)

  datatype Publication = Publication(sid: Sid, event: Event)

  function Statuses(sessions: map<Sid, Session>): map<Sid, Status> {
    map sid | sid in sessions :: sessions[sid].status
  }

  function Rows(store: Store?): map<Sid, Status>
    reads store
  {
    if store == null then map[] else StatusOf(store.rows)
  }

  lemma StatusesUpdate(sessions: map<Sid, Session>, sid: Sid, s: Session)
    ensures Statuses(sessions[sid := s]) == Statuses(sessions)[sid := s.status]
  {
  }

  lemma StatusOfUpdate(rows: map<Sid, Row>, sid: Sid, row: Row)
    ensures StatusOf(rows[sid := row]) == StatusOf(rows)[sid := row.status]
  {
  }

  function RowRefs(rows: map<Sid, Row>): map<Sid, nat> { map sid | sid in rows :: rows[sid].ref }

  function SessionRefs(sessions: map<Sid, Session>): map<Sid, nat> { map sid | sid in sessions :: sessions[sid].ref }

  lemma RefsUpdate(rows: map<Sid, Row>, sessions: map<Sid, Session>, sid: Sid, id: nat)
    ensures sid in rows ==>
              && RowRefs(rows[sid := rows[sid].(ref := id)]) == RowRefs(rows)[sid := id]
              && StatusOf(rows[sid := rows[sid].(ref := id)]) == StatusOf(rows)
    ensures sid in sessions ==>
              && SessionRefs(sessions[sid := sessions[sid].(ref := id)]) == SessionRefs(sessions)[sid := id]
              && Statuses(sessions[sid := sessions[sid].(ref := id)]) == Statuses(sessions)
  {
  }

  /** A session as it is recovered: all but its agent, which is not stored, and its checkpoint reference, which is
      not read, is what the row says. */
  predicate RestoredFrom(s: Session, row: Row) {
    && s.status == row.status && s.taskID == row.taskID && s.description == row.description
    && s.createdAt == row.createdAt && s.updatedAt == row.updatedAt && s.agent == "" && s.ref == 0
  }

  /** What a save does to the tables and to memory. */
  predicate Saved(list: seq<Checkpoints.Row>, nextId: nat, rows: map<Sid, Row>, sessions: map<Sid, Session>,
                  sid: Sid, skipped: nat, saved: (bool, bool), referenced: (bool, bool),
                  list': seq<Checkpoints.Row>, nextId': nat, rows': map<Sid, Row>, sessions': map<Sid, Session>)
    requires sid in sessions
  {
    var id, row := nextId + skipped, saved.0 && saved.1 && referenced.0 && sid in rows;
    && list' == (if saved.0 then list + [Checkpoints.Row(id, sid, 0)] else list)
    && nextId' == id + 1
    && rows' == (if row then rows[sid := rows[sid].(ref := id)] else rows)
    && sessions' == (if row && referenced.1 then sessions[sid := sessions[sid].(ref := id)] else sessions)
  }

  lemma SavedIsWhole(list: seq<Checkpoints.Row>, nextId: nat, rows: map<Sid, Row>, sessions: map<Sid, Session>,
                     sid: Sid, skipped: nat, saved: (bool, bool), referenced: (bool, bool),
                     list': seq<Checkpoints.Row>, nextId': nat, rows': map<Sid, Row>, sessions': map<Sid, Session>)
    requires sid in sessions
    requires Saved(list, nextId, rows, sessions, sid, skipped, saved, referenced, list', nextId', rows', sessions')
    ensures Checkpoints.State(list', nextId', RowRefs(rows'), SessionRefs(sessions'), map[])
            == Checkpoints.SaveAll(Checkpoints.State(list, nextId, RowRefs(rows), SessionRefs(sessions), map[]),
                                   0, sid, skipped, saved, (referenced.0 && sid in rows, referenced.1))
  {
    RefsUpdate(rows, sessions, sid, nextId + skipped);
    Checkpoints.SaveAllAtOnce(Checkpoints.State(list, nextId, RowRefs(rows), SessionRefs(sessions), map[]),
                              0, sid, skipped, saved, (referenced.0 && sid in rows, referenced.1));
  }

  class ControlPlane {
    const store: Store?                   // null is memory-only mode
    var sessions: map<Sid, Session>
    var published: seq<Publication>       // what this process has published, oldest first
    ghost var plane: P.Plane

    /** The model agrees with the session map and the sessions table. */
    ghost predicate Valid()
      reads this, store
    {
      plane.mem == Statuses(sessions) && plane.rows == Rows(store) && (store != null ==> store.Valid())
    }

    /** The checkpoints and the references to them, as the step system of module Checkpoints sees them. */
    ghost function References(): Checkpoints.State
      requires store != null
      reads this, store
    {
      Checkpoints.State(store.checkpoints, store.nextId, RowRefs(store.rows), SessionRefs(sessions), map[])
    }

    constructor (store: Store?)
      requires store != null ==> store.Valid()
      ensures this.store == store && Valid() && sessions == map[] && published == []
      ensures plane == P.EMPTY.(rows := Rows(store))
    {
      this.store := store;
      sessions := map[];
      published := [];
      plane := P.EMPTY.(rows := Rows(store));
    }

    method Emit(sid: Sid, event: Event, pub: bool) returns (ok: bool)
      modifies this`published
      ensures ok == pub
      ensures published == if pub then old(published) + [Publication(sid, event)] else old(published)
    {
      if pub {
        published := published + [Publication(sid, event)];
      }
      ok := pub;
    }

    /** The insert of the row; in memory-only mode there is none to fail. */
    method InsertRow(sid: Sid, taskID: string, description: string, now: int, insert: P.Insert) returns (ok: bool)
      modifies store
      ensures ok <==> store == null || (sid !in old(Rows(store)) && insert == P.Inserted)
      ensures Rows(store) == if store != null && sid !in old(Rows(store)) && insert != P.Refused
                             then old(Rows(store))[sid := Created] else old(Rows(store))
      ensures store != null ==>
                store.rows == if sid !in old(store.rows) && insert != P.Refused
                              then old(store.rows)[sid := Row(Created, taskID, description, 0, now, now)]
                              else old(store.rows)
      ensures store != null && old(store.Valid()) ==> store.Valid()
    {
      ok := true;
      if store != null {
        var row := Row(Created, taskID, description, 0, now, now);
        StatusOfUpdate(store.rows, sid, row);
        ok := store.CreateSession(sid, row, insert);
      }
    }

    /** Store first, then memory, then the announcement. */
    method CreateSession(sid: Sid, taskID: string, description: string, agent: string, now: int,
                         insert: P.Insert, pub: bool)
      returns (ok: bool)
      requires Valid()
      modifies this, store
      ensures Valid()
      ensures plane == if P.CreateSucceeds(store != null, old(plane), sid, insert)
                       then P.Announce(P.Create(store != null, old(plane), sid, insert), sid, pub)
                       else P.Create(store != null, old(plane), sid, insert)
      ensures ok <==> P.CreateSucceeds(store != null, old(plane), sid, insert) && pub
      ensures sessions == if P.CreateSucceeds(store != null, old(plane), sid, insert)
                          then old(sessions)[sid := Session(Created, taskID, description, agent, 0, now, now)]
                          else old(sessions)
      ensures store != null ==>
                store.rows == if sid !in old(store.rows) && insert != P.Refused
                              then old(store.rows)[sid := Row(Created, taskID, description, 0, now, now)]
                              else old(store.rows)
      ensures published == if ok then old(published) + [Publication(sid, EvCreated)] else old(published)
    {
      var inserted := InsertRow(sid, taskID, description, now, insert);
      assert inserted <==> P.CreateSucceeds(store != null, plane, sid, insert);
      plane := P.Create(store != null, plane, sid, insert);
      if !inserted {
        return false;
      }
      var s := Session(Created, taskID, description, agent, 0, now, now);
      StatusesUpdate(sessions, sid, s);
      sessions := sessions[sid := s];
      ok := Emit(sid, EvCreated, pub);
      plane := P.Announce(plane, sid, pub);
    }

    /** The scan of the allowed successors. */
    static method IsAllowed(from: Status, to: Status) returns (valid: bool)
      ensures valid <==> Allowed(from, to)
    {
      var allowed := Successors(from);
      valid := false;
      for i := 0 to |allowed|
        invariant !valid
        invariant forall k :: 0 <= k < i ==> allowed[k] != to
      {
        if allowed[i] == to {
          valid := true;
          break;
        }
      }
    }

    /** The write of the new status, which is only logged when it fails. */
    method StoreStatus(sid: Sid, to: Status, now: int, stored: bool)
      modifies store
      ensures Rows(store) == if store != null && stored && sid in old(Rows(store))
                             then old(Rows(store))[sid := to] else old(Rows(store))
      ensures store != null ==>
                store.rows == if stored && sid in old(store.rows)
                              then old(store.rows)[sid := old(store.rows)[sid].(status := to, updatedAt := now)]
                              else old(store.rows)
      ensures store != null && old(store.Valid()) ==> store.Valid()
    {
      if store != null {
        if sid in store.rows {
          StatusOfUpdate(store.rows, sid, store.rows[sid].(status := to, updatedAt := now));
        }
        var _ := store.UpdateSessionStatus(sid, to, now, stored);
      }
    }

    /** A transition that is not allowed changes nothing; one that is changes memory for good, the row
        if the write lands, and reports an error only if the publish failed. */
    method Transition(sid: Sid, to: Status, now: int, stored: bool, pub: bool) returns (ok: bool)
      requires Valid()
      modifies this, store
      ensures Valid()
      ensures plane == P.Transition(store != null, old(plane), sid, to, stored, pub)
      ensures ok <==> P.Accepts(old(plane), sid, to) && pub
      ensures sessions == if P.Accepts(old(plane), sid, to)
                          then old(sessions)[sid := old(sessions)[sid].(status := to, updatedAt := now)]
                          else old(sessions)
      ensures store != null ==>
                store.rows == if P.Accepts(old(plane), sid, to) && stored && sid in old(store.rows)
                              then old(store.rows)[sid := old(store.rows)[sid].(status := to, updatedAt := now)]
                              else old(store.rows)
      ensures published == if ok then old(published) + [Publication(sid, EventFor(to))] else old(published)
    {
      if sid !in sessions {
        return false;
      }
      var valid := IsAllowed(sessions[sid].status, to);
      assert valid <==> P.Accepts(plane, sid, to);
      if !valid {
        return false;
      }
      var s := sessions[sid].(status := to, updatedAt := now);
      StatusesUpdate(sessions, sid, s);
      sessions := sessions[sid := s];
      StoreStatus(sid, to, now, stored);
      plane := P.Transition(store != null, plane, sid, to, stored, pub);
      ok := Emit(sid, EventFor(to), pub);
    }

    /** The loop of `Recover`. */
    method Load(list: seq<Listed>)
      requires sessions == map[] && DistinctIds(list)
      modifies this`sessions
      ensures sessions.Keys == set x | x in list :: x.id
      ensures forall x :: x in list ==> RestoredFrom(sessions[x.id], x.row)
    {
      for i := 0 to |list|
        invariant sessions.Keys == set x | x in list[..i] :: x.id
        invariant forall k :: 0 <= k < i ==> list[k].id in sessions
        invariant forall k :: 0 <= k < i ==> RestoredFrom(sessions[list[k].id], list[k].row)
      {
        var s := list[i];
        assert list[..i + 1] == list[..i] + [s];
        sessions := sessions[s.id := Session(s.row.status, s.row.taskID, s.row.description, "", 0,
                                             s.row.createdAt, s.row.updatedAt)];
      }
      assert list[..|list|] == list;
    }

    /** Loads every non-terminal row into a control plane that has just been made, and publishes nothing;
        if the store cannot be read it changes nothing and reports the error. */
    method Recover(readable: bool) returns (recovered: seq<Listed>, ok: bool)
      requires Valid() && sessions == map[]
      modifies this
      ensures Valid() && DistinctIds(recovered) && published == old(published)
      ensures ok <==> store == null || readable
      ensures store != null && ok ==> plane == P.Reload(old(plane))
      ensures store == null || !ok ==> plane == old(plane) && recovered == []
      ensures forall x :: x in recovered <==> store != null && ok && x.id in store.rows && store.rows[x.id] == x.row
                                              && !Terminal(x.row.status)
      ensures sessions.Keys == set x | x in recovered :: x.id
      ensures forall x :: x in recovered ==> RestoredFrom(sessions[x.id], x.row)
    {
      if store == null {
        return [], true;
      }
      recovered, ok := store.ListNonTerminalSessions(readable);
      if !ok {
        return [], false;
      }
      Load(recovered);
      LoadedStatuses(sessions, store.rows, recovered);
      plane := P.Reload(plane);
    }

    static lemma LoadedStatuses(sessions: map<Sid, Session>, rows: map<Sid, Row>, list: seq<Listed>)
      requires sessions.Keys == set x | x in list :: x.id
      requires forall x :: x in list ==> sessions[x.id].status == x.row.status
      requires forall x :: x in list <==> x.id in rows && rows[x.id] == x.row && !Terminal(x.row.status)
      ensures Statuses(sessions) == P.NonTerminal(StatusOf(rows))
    {
      forall sid ensures sid in sessions <==> sid in rows && !Terminal(rows[sid].status) {
        if sid in rows && !Terminal(rows[sid].status) {
          assert Listed(sid, rows[sid]) in list;
        }
      }
      forall sid | sid in sessions ensures sessions[sid].status == rows[sid].status {
        assert Listed(sid, rows[sid]) in list;
      }
    }

    /** `SaveCheckpoint` of a known session: insert, then the durable reference, then the one in memory; each
        failure stops there. */
    method SaveKnown(sid: Sid, skipped: nat, saved: (bool, bool), referenced: (bool, bool)) returns (id: nat, ok: bool)
      requires Valid() && store != null && sid in sessions
      modifies this, store
      ensures Valid() && plane == old(plane) && published == old(published)
      ensures Saved(old(store.checkpoints), old(store.nextId), old(store.rows), old(sessions), sid, skipped, saved,
                    referenced, store.checkpoints, store.nextId, store.rows, sessions)
      ensures ok <==> saved.0 && saved.1 && referenced.0 && referenced.1 && sid in old(store.rows)
      ensures ok ==> id == old(store.nextId) + skipped
    {
      RefsUpdate(store.rows, sessions, sid, store.nextId + skipped);
      id, ok := store.SaveCheckpoint(sid, 0, skipped, saved.0, saved.1);
      if !ok {
        return 0, false;
      }
      ok := store.UpdateCheckpointRef(sid, id, referenced.0, referenced.1);
      if !ok {
        return id, false;
      }
      sessions := sessions[sid := sessions[sid].(ref := id)];
    }

    /** For each point of failure, exactly which of the checkpoint row, the durable reference and the one in
        memory have changed; together they are a whole save of module Checkpoints. */
    method SaveCheckpoint(sid: Sid, skipped: nat, saved: (bool, bool), referenced: (bool, bool))
      returns (id: nat, ok: bool)
      requires Valid()
      modifies this, store
      ensures Valid() && plane == old(plane) && published == old(published)
      ensures store == null ==> id == 0 && ok && sessions == old(sessions)
      ensures store != null && sid !in old(sessions) ==>
                !ok && id == 0 && sessions == old(sessions) && References() == old(References())
      ensures store != null && sid in old(sessions) ==>
                && Saved(old(store.checkpoints), old(store.nextId), old(store.rows), old(sessions), sid, skipped, saved,
                         referenced, store.checkpoints, store.nextId, store.rows, sessions)
                && References() == Checkpoints.SaveAll(old(References()), 0, sid, skipped, saved,
                                                       (referenced.0 && sid in old(store.rows), referenced.1))
                && (ok <==> saved.0 && saved.1 && referenced.0 && referenced.1 && sid in old(store.rows))
                && (ok ==> id == old(store.nextId) + skipped)
    {
      if store == null {
        return 0, true;
      }
      if sid !in sessions {
        return 0, false;
      }
      id, ok := SaveKnown(sid, skipped, saved, referenced);
      SavedIsWhole(old(store.checkpoints), old(store.nextId), old(store.rows), old(sessions), sid, skipped, saved,
                   referenced, store.checkpoints, store.nextId, store.rows, sessions);
    }
  }
}
