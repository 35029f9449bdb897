/** The recovery loop of `Bootstrap` (internal/core/builder.go) over the rows `Recover` returned. */
module Bootstrap {
  import opened Lifecycle
  import opened StateStore
  import CP = ControlPlane
  import P = Plane
  import E = Engine
  import D = DockerSandbox

  /** The age limit; the default differs from the coordinator's own. */
  function HeartbeatTimeout(configured: int): (t: int)
    ensures t > 0 && (t == configured || (configured <= 0 && t == 90 * 1_000_000_000))
  {
    if configured <= 0 then 90_000_000_000 else configured
  }

  predicate Recent(row: Row, now: int, timeout: int) { now - row.updatedAt <= timeout }

  predicate HandsOver(row: Row, now: int, timeout: int) { row.status == Running && Recent(row, now, timeout) }

  /** Where the loop leaves a session it was given. */
  predicate Disposed(row: Row, handed: bool, now: int, timeout: int, status: Status) {
    if handed then HandsOver(row, now, timeout) && status == Running
    else status == Failed || (row.status == Created && status == Created)
  }

  /** How the loop leaves a row agrees with the passes the engine makes over it. */
  lemma DisposedAsEngine(row: Row, now: int, timeout: int)
    requires !Terminal(row.status)
    ensures E.Disposition(row.status, Recent(row, now, timeout)).resume <==> HandsOver(row, now, timeout)
    ensures E.Disposition(row.status, Recent(row, now, timeout)).move.None?
            <==> HandsOver(row, now, timeout) || row.status == Created
  {
  }

  function Event(sid: Sid, event: Lifecycle.Event, pub: bool): seq<CP.Publication> {
    if pub then [CP.Publication(sid, event)] else []
  }

  /** What the loop publishes about a row: an APPROVAL session is cancelled before it is failed. */
  function Announcements(x: Listed, now: int, timeout: int, io: Io): seq<CP.Publication> {
    if x.row.status == Approval then Event(x.id, EvCancelling, io.pub) + Event(x.id, EvFailed, io.pub2)
    else if x.row.status == Created || (x.row.status == Running && now - x.row.updatedAt <= timeout) then []
    else Event(x.id, EvFailed, io.pub)
  }

  /** Fails a session in any status from which FAILED is allowed. */
  method Fail(cp: CP.ControlPlane, sid: Sid, now: int, stored: bool, pub: bool)
    requires cp.Valid() && sid in cp.sessions && Allowed(cp.sessions[sid].status, Failed)
    modifies cp, cp.store
    ensures cp.Valid() && cp.sessions == old(cp.sessions)[sid := old(cp.sessions)[sid].(status := Failed, updatedAt := now)]
    ensures cp.plane == P.Transition(cp.store != null, old(cp.plane), sid, Failed, stored, pub)
    ensures cp.published == old(cp.published) + Event(sid, EvFailed, pub)
  {
    var _ := cp.Transition(sid, Failed, now, stored, pub);
  }

  /** Cancels a session whose approval request was lost, and fails it. */
  method CancelAndFail(cp: CP.ControlPlane, sid: Sid, now: int, io: Io)
    requires cp.Valid() && sid in cp.sessions && cp.sessions[sid].status == Approval
    modifies cp, cp.store
    ensures cp.Valid() && cp.sessions == old(cp.sessions)[sid := old(cp.sessions)[sid].(status := Failed, updatedAt := now)]
    ensures cp.plane == P.Transition(cp.store != null,
                                     P.Transition(cp.store != null, old(cp.plane), sid, Cancelling, io.stored, io.pub),
                                     sid, Failed, io.stored2, io.pub2)
    ensures cp.published == old(cp.published) + Event(sid, EvCancelling, io.pub) + Event(sid, EvFailed, io.pub2)
  {
    var _ := cp.Transition(sid, Cancelling, now, io.stored, io.pub);
    Fail(cp, sid, now, io.stored2, io.pub2);
  }

  /** Whether the store keeps each write of a pass, and whether the bus accepts each event. */
  datatype Io = Io(stored: bool, pub: bool, stored2: bool, pub2: bool)

  /** The control plane after the engine's passes over one recovered session. */
  function EnginePasses(hasStore: bool, p: P.Plane, sid: Sid, status: Status, recent: bool, io: Io): P.Plane {
    var first := E.Disposition(status, recent);
    var q := if first.move.Some? then P.Transition(hasStore, p, sid, first.move.value, io.stored, io.pub) else p;
    if first.again.None? then q
    else
      var second := E.Disposition(first.again.value, recent);
      if second.move.Some? then P.Transition(hasStore, q, sid, second.move.value, io.stored2, io.pub2) else q
  }

  /** The passes, status by status. */
  lemma PassesAre(hasStore: bool, p: P.Plane, sid: Sid, status: Status, recent: bool, io: Io)
    requires !Terminal(status)
    ensures EnginePasses(hasStore, p, sid, status, recent, io)
            == if status == Created || (status == Running && recent) then p
               else if status == Approval then
                 P.Transition(hasStore, P.Transition(hasStore, p, sid, Cancelling, io.stored, io.pub), sid, Failed, io.stored2, io.pub2)
               else P.Transition(hasStore, p, sid, Failed, io.stored, io.pub)
  {
  }

  /** The loop's body for one row: what it does to the control plane are the engine's passes, whatever the
      store and the bus do with the transitions. */
  method RecoverOne(cp: CP.ControlPlane, x: Listed, now: int, timeout: int, io: Io)
    returns (resume: bool)
    requires cp.Valid()
    requires x.id in cp.sessions && cp.sessions[x.id].status == x.row.status && !Terminal(x.row.status)
    modifies cp, cp.store
    ensures cp.Valid() && cp.sessions.Keys == old(cp.sessions).Keys
    ensures forall id :: id in cp.sessions && id != x.id ==> cp.sessions[id] == old(cp.sessions)[id]
    ensures resume <==> x.row.status == Running && now - x.row.updatedAt <= timeout
    ensures cp.published == old(cp.published) + Announcements(x, now, timeout, io)
    ensures cp.plane == EnginePasses(cp.store != null, old(cp.plane), x.id, x.row.status, Recent(x.row, now, timeout), io)
    ensures Disposed(x.row, resume, now, timeout, cp.sessions[x.id].status)
  {
    resume := false;
    PassesAre(cp.store != null, cp.plane, x.id, x.row.status, Recent(x.row, now, timeout), io);
    match x.row.status {
      case Allocating => Fail(cp, x.id, now, io.stored, io.pub);
      case Running =>
        if now - x.row.updatedAt > timeout {
          Fail(cp, x.id, now, io.stored, io.pub);
        } else {
          resume := true;
        }
      case Approval => CancelAndFail(cp, x.id, now, io);
      case Cancelling => Fail(cp, x.id, now, io.stored, io.pub);
      case _ =>
    }
  }

  /** How far the loop has come: the first `i` rows are disposed of, the others untouched. */
  ghost predicate Progress(was: map<Sid, CP.Session>, sessions: map<Sid, CP.Session>, recovered: seq<Listed>,
                           i: nat, handed: set<Sid>, now: int, timeout: int) {
    && sessions.Keys == was.Keys && i <= |recovered|
    && (forall id :: id in handed ==> exists k :: 0 <= k < i && recovered[k].id == id)
    && (forall k :: 0 <= k < |recovered| ==> recovered[k].id in sessions)
    && (forall k :: 0 <= k < i ==>
          Disposed(recovered[k].row, recovered[k].id in handed, now, timeout, sessions[recovered[k].id].status))
    && (forall k :: i <= k < |recovered| ==> sessions[recovered[k].id] == was[recovered[k].id])
  }

  lemma ProgressStep(was: map<Sid, CP.Session>, before: map<Sid, CP.Session>, after: map<Sid, CP.Session>,
                     recovered: seq<Listed>, i: nat, handed: set<Sid>, resume: bool, now: int, timeout: int)
    requires Progress(was, before, recovered, i, handed, now, timeout) && i < |recovered| && DistinctIds(recovered)
    requires after.Keys == before.Keys
    requires forall id :: id in after && id != recovered[i].id ==> after[id] == before[id]
    requires Disposed(recovered[i].row, resume, now, timeout, after[recovered[i].id].status)
    ensures Progress(was, after, recovered, i + 1, if resume then handed + {recovered[i].id} else handed, now, timeout)
  {
    var id := recovered[i].id;
    assert forall k :: 0 <= k < |recovered| && k != i ==> recovered[k].id != id;
    assert id !in handed;
  }

  /** The loop: for any list of recovered rows, and whether or not the store keeps the writes and the
      bus accepts the events, a session that is not handed to `ResumeSession` ends FAILED or stays
      CREATED, and each one handed over is RUNNING and within the age limit. */
  method RecoverAll(cp: CP.ControlPlane, recovered: seq<Listed>, now: int, configured: int, io: nat -> Io)
    returns (handed: set<Sid>)
    requires cp.Valid() && DistinctIds(recovered)
    requires forall x :: x in recovered ==>
               x.id in cp.sessions && cp.sessions[x.id].status == x.row.status && !Terminal(x.row.status)
    modifies cp, cp.store
    ensures cp.Valid() && cp.sessions.Keys == old(cp.sessions).Keys
    ensures forall x :: x in recovered ==>
              Disposed(x.row, x.id in handed, now, HeartbeatTimeout(configured), cp.sessions[x.id].status)
    ensures forall id :: id in handed ==> exists x :: x in recovered && x.id == id
  {
    handed := {};
    var timeout := HeartbeatTimeout(configured);
    for i := 0 to |recovered|
      invariant cp.Valid() && Progress(old(cp.sessions), cp.sessions, recovered, i, handed, now, timeout)
    {
      var x := recovered[i];
      assert x in recovered;
      ghost var before := cp.sessions;
      var resume := RecoverOne(cp, x, now, timeout, io(i));
      ProgressStep(old(cp.sessions), before, cp.sessions, recovered, i, handed, resume, now, timeout);
      if resume {
        handed := handed + {x.id};
      }
    }
  }

  /** Bootstrap's use of them: recover from the store, reap the containers of the process before, and run the
      loop. Every non-terminal row is dealt with: nothing found in ALLOCATING, APPROVAL or CANCELLING is left
      unfinished. The reaper removes what it must not protect. If the store cannot be read, Bootstrap gives up:
      no row has changed and no container is removed. */
  method Boot(store: Store, readable: bool, containers: seq<string>, now: int, configured: int, io: nat -> Io)
    returns (cp: CP.ControlPlane, reaped: seq<string>, handed: set<Sid>, ok: bool)
    requires store.Valid()
    modifies store
    ensures ok == readable
    ensures !ok ==> handed == {} && reaped == [] && store.rows == old(store.rows)
    ensures ok ==> forall name :: name in reaped <==>
                     name in containers && D.Reaps(name, set sid | sid in old(store.rows) && !Terminal(old(store.rows)[sid].status))
    ensures ok ==> forall sid :: sid in old(store.rows) && !Terminal(old(store.rows)[sid].status) ==>
              && sid in cp.sessions
              && Disposed(old(store.rows)[sid], sid in handed, now, HeartbeatTimeout(configured), cp.sessions[sid].status)
  {
    cp := new CP.ControlPlane(store);
    var recovered;
    recovered, ok := cp.Recover(readable);
    reaped, handed := [], {};
    if !ok {
      return;
    }
    reaped := D.Reap(containers, set x | x in recovered :: x.id);
    RecoveredIds(store.rows, recovered);
    handed := RecoverAll(cp, recovered, now, configured, io);
    forall sid | sid in old(store.rows) && !Terminal(old(store.rows)[sid].status)
      ensures sid in cp.sessions
      ensures Disposed(old(store.rows)[sid], sid in handed, now, HeartbeatTimeout(configured), cp.sessions[sid].status)
    {
      assert Listed(sid, old(store.rows)[sid]) in recovered;
    }
  }

  lemma RecoveredIds(rows: map<Sid, Row>, recovered: seq<Listed>)
    requires forall x :: x in recovered <==> x.id in rows && rows[x.id] == x.row && !Terminal(x.row.status)
    ensures (set x | x in recovered :: x.id) == set sid | sid in rows && !Terminal(rows[sid].status)
  {
    forall sid | sid in rows && !Terminal(rows[sid].status) ensures Listed(sid, rows[sid]) in recovered {
    }
  }
}
