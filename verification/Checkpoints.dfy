/** Checkpoint references: `SaveCheckpoint` inserts a row, then updates the session's durable
    reference, then the one in memory, and can fail or lose its process in between
    (internal/controlplane/session.go, internal/statestore/postgres.go). */
module Checkpoints {
  import opened Lifecycle

  type Sid = string
  type Tid = nat

  /** A row of the checkpoints table. The step number is always written as 0. */
  datatype Row = Row(id: nat, sid: Sid, step: nat)

  /** The order of `LastCheckpoint`: by step number, then by id. */
  predicate NotAfter(a: Row, b: Row) { a.step < b.step || (a.step == b.step && a.id <= b.id) }

  /** `LastCheckpoint`: ORDER BY step_number DESC, id DESC LIMIT 1. */
  function Last(rows: seq<Row>, sid: Sid): (r: Option<Row>)
    ensures r.None? <==> forall x :: x in rows ==> x.sid != sid
    ensures r.Some? ==> r.value in rows && r.value.sid == sid
    ensures r.Some? ==> forall x :: x in rows && x.sid == sid ==>
              x.step < r.value.step || (x.step == r.value.step && x.id <= r.value.id)
  {
    if rows == [] then None
    else
      var init, x := rows[..|rows| - 1], rows[|rows| - 1];
      assert rows == init + [x];
      var best := Last(init, sid);
      if x.sid == sid && (best.None? || NotAfter(best.value, x)) then Some(x) else best
  }

  function LastId(rows: seq<Row>, sid: Sid): nat {
    if Last(rows, sid).Some? then Last(rows, sid).value.id else 0
  }

  datatype Stage = Saving | Inserted(id: nat) | Referenced(id: nat)

  datatype Save = Save(sid: Sid, stage: Stage)

  datatype State = State(
    rows: seq<Row>,              // in order of insertion
    nextId: nat,                 // of the database sequence
    ref: map<Sid, nat>,          // sessions.checkpoint_ref, absent or 0 for NULL
    mem: map<Sid, nat>,          // Session.CheckpointRef, absent or 0 for none
    saves: map<Tid, Save>)       // SaveCheckpoint calls under way

  const INIT := State([], 1, map[], map[], map[])

  function Ref(s: State, sid: Sid): nat { if sid in s.ref then s.ref[sid] else 0 }

  function Mem(s: State, sid: Sid): nat { if sid in s.mem then s.mem[sid] else 0 }

  /** `landed` is whether the write took effect, `ok` whether the call returned without error. */
  datatype Action =
    | Begin(t: Tid, sid: Sid)
    | Insert(t: Tid, skipped: nat, landed: bool, ok: bool)
    | Update(t: Tid, landed: bool, ok: bool)
    | Remember(t: Tid)
    | Restart

  predicate Enabled(s: State, a: Action) {
    match a
    case Begin(t, _) => t !in s.saves
    case Insert(t, _, landed, ok) => t in s.saves && s.saves[t].stage == Saving && (ok ==> landed)
    case Update(t, landed, ok) => t in s.saves && s.saves[t].stage.Inserted? && (ok ==> landed)
    case Remember(t) => t in s.saves && s.saves[t].stage.Referenced?
    case Restart => true
  }

  function Next(s: State, a: Action): State
    requires Enabled(s, a)
  {
    match a
    case Begin(t, sid) => s.(saves := s.saves[t := Save(sid, Saving)])
    case Insert(t, skipped, landed, ok) =>
      var sid, id := s.saves[t].sid, s.nextId + skipped;
      s.(rows := if landed then s.rows + [Row(id, sid, 0)] else s.rows,
         nextId := id + 1,
         saves := if ok then s.saves[t := Save(sid, Inserted(id))] else s.saves - {t})
    case Update(t, landed, ok) =>
      var sid, id := s.saves[t].sid, s.saves[t].stage.id;
      s.(ref := if landed then s.ref[sid := id] else s.ref,
         saves := if ok then s.saves[t := Save(sid, Referenced(id))] else s.saves - {t})
    case Remember(t) =>
      s.(mem := s.mem[s.saves[t].sid := s.saves[t].stage.id], saves := s.saves - {t})
    case Restart => s.(mem := map[], saves := map[])   // Recover does not load checkpoint_ref
  }

  /** A whole save by a call `t` with nothing in between; `saved` and `referenced` say of the two writes
      whether they land and whether they are reported. */
  function SaveAll(s: State, t: Tid, sid: Sid, skipped: nat, saved: (bool, bool), referenced: (bool, bool)): State
    requires t !in s.saves
  {
    var inserted := Next(Next(s, Begin(t, sid)), Insert(t, skipped, saved.0, saved.0 && saved.1));
    if !(saved.0 && saved.1) then inserted
    else
      var updated := Next(inserted, Update(t, referenced.0, referenced.0 && referenced.1));
      if !(referenced.0 && referenced.1) then updated else Next(updated, Remember(t))
  }

  lemma SaveAllAtOnce(s: State, t: Tid, sid: Sid, skipped: nat, saved: (bool, bool), referenced: (bool, bool))
    requires s.saves == map[]
    ensures var id, ok := s.nextId + skipped, saved.0 && saved.1;
            SaveAll(s, t, sid, skipped, saved, referenced)
            == State(if saved.0 then s.rows + [Row(id, sid, 0)] else s.rows, id + 1,
                     if ok && referenced.0 then s.ref[sid := id] else s.ref,
                     if ok && referenced.0 && referenced.1 then s.mem[sid := id] else s.mem, map[])
  {
  }

  ghost predicate IsRun(ss: seq<State>, acts: seq<Action>) {
    && |ss| == |acts| + 1
    && ss[0] == INIT
    && forall i {:trigger acts[i]} :: 0 <= i < |acts| ==> Enabled(ss[i], acts[i]) && ss[i + 1] == Next(ss[i], acts[i])
  }

  /** A save begins only when none of its session is under way. */
  ghost predicate OneSaveAtATime(s: State, a: Action) {
    a.Begin? ==> forall t :: t in s.saves ==> s.saves[t].sid != a.sid
  }

  ghost predicate Lagging(s: State, sid: Sid) {
    Mem(s, sid) <= Ref(s, sid) <= LastId(s.rows, sid)
  }

  ghost predicate InStep(s: State, t: Tid) {
    t in s.saves ==>
      match s.saves[t].stage
      case Saving => true
      case Inserted(id) => 0 < id == LastId(s.rows, s.saves[t].sid)
      case Referenced(id) => 0 < id == Ref(s, s.saves[t].sid) == LastId(s.rows, s.saves[t].sid)
  }

  ghost predicate Disjoint(s: State, t: Tid, u: Tid) {
    t in s.saves && u in s.saves && t != u ==> s.saves[t].sid != s.saves[u].sid
  }

  ghost predicate Sound(s: State) {
    && (forall sid :: Lagging(s, sid))
    && (forall t :: InStep(s, t))
    && (forall t, u :: Disjoint(s, t, u))
    && (forall r :: r in s.rows ==> r.step == 0 && 0 < r.id < s.nextId)
    && s.nextId > 0
  }

  lemma LastAppend(rows: seq<Row>, r: Row, sid: Sid)
    requires forall x :: x in rows ==> x.step == 0 && x.id < r.id
    requires r.step == 0
    ensures LastId(rows + [r], sid) == if r.sid == sid then r.id else LastId(rows, sid)
    ensures LastId(rows, sid) <= LastId(rows + [r], sid)
  {
    assert (rows + [r])[..|rows|] == rows;
  }

  lemma InsertSound(s: State, t: Tid, skipped: nat, landed: bool, ok: bool)
    requires Sound(s) && Enabled(s, Insert(t, skipped, landed, ok))
    ensures Sound(Next(s, Insert(t, skipped, landed, ok)))
  {
    var q := Next(s, Insert(t, skipped, landed, ok));
    var r := Row(s.nextId + skipped, s.saves[t].sid, 0);
    forall sid ensures Lagging(q, sid) {
      assert Lagging(s, sid);
      LastAppend(s.rows, r, sid);
    }
    forall u ensures InStep(q, u) {
      assert InStep(s, u) && Disjoint(s, t, u);
      if u in s.saves {
        LastAppend(s.rows, r, s.saves[u].sid);
      }
    }
    forall u, v ensures Disjoint(q, u, v) {
      assert Disjoint(s, u, v);
    }
  }

  lemma StepSound(s: State, a: Action)
    requires Sound(s) && Enabled(s, a) && OneSaveAtATime(s, a)
    ensures Sound(Next(s, a))
  {
    if a.Insert? {
      InsertSound(s, a.t, a.skipped, a.landed, a.ok);
    } else {
      var q := Next(s, a);
      assert a.Update? || a.Remember? ==> InStep(s, a.t);
      forall sid ensures Lagging(q, sid) {
        assert Lagging(s, sid);
      }
      forall u ensures InStep(q, u) {
        assert InStep(s, u);
        assert a.Update? || a.Remember? ==> Disjoint(s, a.t, u);
      }
      forall u, v ensures Disjoint(q, u, v) {
        assert Disjoint(s, u, v);
      }
    }
  }

  /** With one save of a session at a time, in every run with failed writes and restarts: the reference in
      memory is at most the durable one, which is at most the id `LastCheckpoint` returns. */
  lemma {:induction false} ReferencesLag(ss: seq<State>, acts: seq<Action>, i: nat)
    requires IsRun(ss, acts) && i < |ss|
    requires forall k :: 0 <= k < i ==> OneSaveAtATime(ss[k], acts[k])
    ensures Sound(ss[i])
  {
    if i > 0 {
      ReferencesLag(ss, acts, i - 1);
      StepSound(ss[i - 1], acts[i - 1]);
    }
  }

  /** A save that succeeds to the end leaves all three equal. */
  lemma SuccessfulSaveAligns(ss: seq<State>, acts: seq<Action>, i: nat)
    requires IsRun(ss, acts) && i < |acts| && acts[i].Remember?
    requires forall k :: 0 <= k < i ==> OneSaveAtATime(ss[k], acts[k])
    ensures var sid := ss[i].saves[acts[i].t].sid;
            Mem(ss[i + 1], sid) == Ref(ss[i + 1], sid) == LastId(ss[i + 1].rows, sid) > 0
  {
    ReferencesLag(ss, acts, i);
    assert InStep(ss[i], acts[i].t);
  }

  lemma Append(ss: seq<State>, acts: seq<Action>, a: Action) returns (ss': seq<State>, acts': seq<Action>)
    requires IsRun(ss, acts) && Enabled(ss[|ss| - 1], a)
    ensures IsRun(ss', acts') && |ss'| == |ss| + 1 && ss'[|ss|] == Next(ss[|ss| - 1], a)
  {
    ss', acts' := ss + [Next(ss[|ss| - 1], a)], acts + [a];
    forall i | 0 <= i < |acts'| ensures Enabled(ss'[i], acts'[i]) && ss'[i + 1] == Next(ss'[i], acts'[i]) {
      if i < |acts| {
        assert ss'[i] == ss[i] && ss'[i + 1] == ss[i + 1] && acts'[i] == acts[i];
      }
    }
  }

  /** Two saves of session "s" have inserted their rows. */
  lemma InsertTwo() returns (ss: seq<State>, acts: seq<Action>)
    ensures IsRun(ss, acts)
    ensures ss[|ss| - 1] == State([Row(1, "s", 0), Row(2, "s", 0)], 3, map[], map[],
                                  map[1 := Save("s", Inserted(1)), 2 := Save("s", Inserted(2))])
  {
    ss, acts := Append([INIT], [], Begin(1, "s"));
    ss, acts := Append(ss, acts, Begin(2, "s"));
    ss, acts := Append(ss, acts, Insert(1, 0, true, true));
    ss, acts := Append(ss, acts, Insert(2, 0, true, true));
  }

  /** One save at a time is needed: in this step system alone, two saves of one session at once can leave the
      reference in memory ahead of the durable one. */
  lemma OverlappingSavesBreakTheLag() returns (ss: seq<State>, acts: seq<Action>)
    ensures IsRun(ss, acts)
    ensures !Lagging(ss[|ss| - 1], "s")
  {
    ss, acts := InsertTwo();
    ss, acts := Append(ss, acts, Update(2, true, true));
    ss, acts := Append(ss, acts, Update(1, true, true));
    ss, acts := Append(ss, acts, Remember(1));
    ss, acts := Append(ss, acts, Remember(2));
    assert Mem(ss[|ss| - 1], "s") == 2 && Ref(ss[|ss| - 1], "s") == 1;
  }
}
