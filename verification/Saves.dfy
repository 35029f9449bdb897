/** The engine with its checkpoints: `runAgent` saves one before the agent is executed and `handleCrash` saves
    one before the dead sandbox is destroyed, and a save goes on in steps while everything else does
    (internal/coordinator/coordinator.go, internal/controlplane/session.go). */
module Saves {
  import opened Lifecycle
  import opened Engine
  import opened Ownership
  import opened History
  import K = Checkpoints
  import P = Plane

  /** `due` are the runs that have come to a save and not begun it. */
  datatype World = World(engine: State, ckpt: K.State, due: set<Tid>)

  const START := World(INIT, K.INIT, {})

  datatype Move =
    | Act(a: Action)        // a step of the engine
    | Save(k: K.Action)     // a step of a save
    | NotFound(t: Tid)      // SaveCheckpoint does not find the session

  /** Runs that have come to a save or are in the middle of one go no further. */
  predicate Saving(w: World, t: Tid) { t in w.due || t in w.ckpt.saves }

  /** The step of a run that brings it to its baseline save or to its crash save. */
  predicate ComesToSave(before: Thread, after: Thread) {
    && before.Run? && after.Run?
    && ((!before.pc.Executing? && after.pc.Executing?) || before.pc.Crashed?)
  }

  /** The monitor is started after the baseline save. */
  predicate Waits(w: World, a: Action) {
    match a
    case RunStep(t, _) => Saving(w, t)
    case BeatStep(t, _) => Saving(w, t) && t in w.engine.threads && w.engine.threads[t].Run? && w.engine.threads[t].pc.Executing?
    case _ => false
  }

  ghost predicate CanMove(env: Env, w: World, m: Move) {
    match m
    case Act(a) => Enabled(env, w.engine, a) && !Waits(w, a)
    case Save(k) =>
      && !k.Restart? && K.Enabled(w.ckpt, k)
      && (k.Begin? ==> k.t in w.due && k.t in w.engine.threads && w.engine.threads[k.t].sid == k.sid
                       && k.sid in w.engine.plane.mem)
      && (k.Update? && k.landed ==> w.ckpt.saves[k.t].sid in w.engine.plane.rows)
    case NotFound(t) => t in w.due && t in w.engine.threads && w.engine.threads[t].sid !in w.engine.plane.mem
  }

  /** Without a store `SaveCheckpoint` returns at once. */
  ghost function Due(env: Env, w: World, a: Action, q: State): set<Tid> {
    if a.Reboot? then {}
    else if env.hasStore && a.RunStep? && a.t in w.engine.threads && a.t in q.threads
            && ComesToSave(w.engine.threads[a.t], q.threads[a.t])
    then w.due + {a.t} else w.due
  }

  ghost function Moved(env: Env, w: World, m: Move): World
    requires env.Valid() && CanMove(env, w, m)
  {
    match m
    case Act(a) =>
      var q := Next(env, w.engine, a);
      World(q, if a.Reboot? then K.Next(w.ckpt, K.Restart) else w.ckpt, Due(env, w, a, q))
    case Save(k) => w.(ckpt := K.Next(w.ckpt, k), due := if k.Begin? then w.due - {k.t} else w.due)
    case NotFound(t) => w.(due := w.due - {t})
  }

  /** Any finite run of the engine with its saves. */
  ghost predicate IsWorldRun(env: Env, ws: seq<World>, ms: seq<Move>) {
    && |ws| == |ms| + 1
    && ws[0] == START
    && env.Valid()
    && forall i {:trigger ms[i]} :: 0 <= i < |ms| ==> CanMove(env, ws[i], ms[i]) && ws[i + 1] == Moved(env, ws[i], ms[i])
  }

  // The engine is the same.

  lemma AppendAction(env: Env, ss: seq<State>, acts: seq<Action>, a: Action) returns (ss': seq<State>, acts': seq<Action>)
    requires IsRun(env, ss, acts) && Enabled(env, ss[|ss| - 1], a)
    ensures IsRun(env, ss', acts') && |ss'| == |ss| + 1 && ss'[|ss|] == Next(env, ss[|ss| - 1], a)
  {
    ss', acts' := ss + [Next(env, ss[|ss| - 1], a)], acts + [a];
    forall i | 0 <= i < |acts'| ensures Enabled(env, ss'[i], acts'[i]) && ss'[i + 1] == Next(env, ss'[i], acts'[i]) {
      if i < |acts| {
        assert ss'[i] == ss[i] && ss'[i + 1] == ss[i + 1] && acts'[i] == acts[i];
      }
    }
  }

  /** Leaving out the saves gives a run of the engine, so every theorem about the engine holds here. */
  lemma {:induction false} EngineBehind(env: Env, ws: seq<World>, ms: seq<Move>, n: nat)
    returns (ss: seq<State>, acts: seq<Action>)
    requires IsWorldRun(env, ws, ms) && n < |ws|
    ensures IsRun(env, ss, acts) && ss[|ss| - 1] == ws[n].engine
  {
    if n == 0 {
      ss, acts := [INIT], [];
    } else {
      ss, acts := EngineBehind(env, ws, ms, n - 1);
      var m := ms[n - 1];
      if m.Act? {
        ss, acts := AppendAction(env, ss, acts, m.a);
      }
    }
  }

  lemma AppendMove(env: Env, ws: seq<World>, ms: seq<Move>, m: Move) returns (ws': seq<World>, ms': seq<Move>)
    requires IsWorldRun(env, ws, ms) && CanMove(env, ws[|ws| - 1], m)
    ensures IsWorldRun(env, ws', ms') && |ws'| == |ws| + 1 && ws'[|ws|] == Moved(env, ws[|ws| - 1], m)
  {
    ws', ms' := ws + [Moved(env, ws[|ws| - 1], m)], ms + [m];
    forall i | 0 <= i < |ms'| ensures CanMove(env, ws'[i], ms'[i]) && ws'[i + 1] == Moved(env, ws'[i], ms'[i]) {
      if i < |ms| {
        assert ws'[i] == ws[i] && ws'[i + 1] == ws[i + 1] && ms'[i] == ms[i];
      }
    }
  }

  ghost predicate Quiet(w: World) { w.due == {} && w.ckpt.saves == map[] }

  /** A save that is due can always be got over with. */
  lemma GetOver(env: Env, ws: seq<World>, ms: seq<Move>, t: Tid) returns (ws': seq<World>, ms': seq<Move>)
    requires IsWorldRun(env, ws, ms)
    requires var w := ws[|ws| - 1]; w.due == {t} && w.ckpt.saves == map[] && t in w.engine.threads
    ensures IsWorldRun(env, ws', ms')
    ensures Quiet(ws'[|ws'| - 1]) && ws'[|ws'| - 1].engine == ws[|ws| - 1].engine
  {
    var w := ws[|ws| - 1];
    var sid := w.engine.threads[t].sid;
    if sid in w.engine.plane.mem {
      ws', ms' := AppendMove(env, ws, ms, Save(K.Begin(t, sid)));
      ws', ms' := AppendMove(env, ws', ms', Save(K.Insert(t, 0, false, false)));
      assert ws'[|ws'| - 1].ckpt.saves == map[];
    } else {
      ws', ms' := AppendMove(env, ws, ms, NotFound(t));
    }
  }

  /** And every run of the engine is one with its saves left out: the saves shut out nothing. */
  lemma {:induction false} EveryRunHasSaves(env: Env, ss: seq<State>, acts: seq<Action>, n: nat)
    returns (ws: seq<World>, ms: seq<Move>)
    requires IsRun(env, ss, acts) && n < |ss|
    ensures IsWorldRun(env, ws, ms) && ws[|ws| - 1].engine == ss[n] && Quiet(ws[|ws| - 1])
  {
    if n == 0 {
      ws, ms := [START], [];
    } else {
      ws, ms := EveryRunHasSaves(env, ss, acts, n - 1);
      var w := ws[|ws| - 1];
      ws, ms := AppendMove(env, ws, ms, Act(acts[n - 1]));
      if ws[|ws| - 1].due != {} {
        assert ws[|ws| - 1].due == {acts[n - 1].t};
        ws, ms := GetOver(env, ws, ms, acts[n - 1].t);
      }
    }
  }

  // One save at a time.

  /** A run with a save due or under way is at the point of the program where the save is, and owns its session. */
  ghost predicate AtSave(w: World, t: Tid) {
    Saving(w, t) ==>
      && t in w.engine.threads && w.engine.threads[t].Run?
      && (w.engine.threads[t].pc.Executing? || w.engine.threads[t].pc.CrashCleaning?)
      && (t in w.ckpt.saves ==> t !in w.due && w.ckpt.saves[t].sid == w.engine.threads[t].sid)
  }

  /** References are kept only for sessions that exist: a created session, being new, has none. */
  ghost predicate Anchored(w: World) {
    && (forall t :: t in w.ckpt.saves ==> w.ckpt.saves[t].sid in w.engine.plane.mem)
    && w.ckpt.mem.Keys <= w.engine.plane.mem.Keys
    && w.ckpt.ref.Keys <= w.engine.plane.rows.Keys
  }

  /** The engine does not move a run past its save. */
  ghost predicate Stays(s: State, q: State, t: Tid) {
    t in s.threads && s.threads[t].Run? && (s.threads[t].pc.Executing? || s.threads[t].pc.CrashCleaning?) ==>
      && t in q.threads && q.threads[t].Run? && q.threads[t].sid == s.threads[t].sid
      && q.threads[t].pc == s.threads[t].pc
  }

  lemma OthersStay(env: Env, s: State, a: Action, t: Tid)
    requires env.Valid() && Enabled(env, s, a) && !a.Reboot? && Numbered(s)
    requires a.RunStep? ==> a.t != t
    ensures Stays(s, Next(env, s, a), t)
  {
    match a
    case RunStep(u, c) =>
      var r := s.threads[u];
      RunStepStays(env, s, u, r, StepRun(env, ViewOf(env, s, r), r, c), c, t);
    case CallStep(u, c) => CallStays(env, s, u, s.threads[u], StepCall(env, s, s.threads[u], c), t);
    case _ =>
  }

  lemma RunStepStays(env: Env, s: State, u: Tid, r: Thread, e: Effect, c: Choice, t: Tid)
    requires r.Run? && u in s.threads && u != t && Numbered(s)
    ensures Stays(s, ApplyEffect(env, s, u, r, e, c), t)
  {
  }

  lemma CallStays(env: Env, s: State, u: Tid, th: Thread, e: CallEffect, t: Tid)
    requires th.Call? && u in s.threads && s.threads[u] == th && Numbered(s)
    ensures Stays(s, ApplyCall(env, s, u, th, e), t)
  {
  }

  /** A run comes to its baseline save in Executing, and to its crash save in CrashCleaning. */
  lemma ComesToThePoint(env: Env, s: State, t: Tid, c: Choice)
    requires env.Valid() && Enabled(env, s, RunStep(t, c)) && Numbered(s)
    requires ComesToSave(s.threads[t], Next(env, s, RunStep(t, c)).threads[t])
    ensures var pc := Next(env, s, RunStep(t, c)).threads[t].pc; pc.Executing? || pc.CrashCleaning?
  {
  }

  lemma ActAtSave(env: Env, w: World, a: Action, t: Tid)
    requires env.Valid() && CanMove(env, w, Act(a)) && !a.Reboot? && Numbered(w.engine) && AtSave(w, t)
    ensures AtSave(Moved(env, w, Act(a)), t)
  {
    if a.RunStep? && a.t == t {
      var q := Next(env, w.engine, a);
      if ComesToSave(w.engine.threads[t], q.threads[t]) {
        ComesToThePoint(env, w.engine, t, a.c);
      }
    } else {
      OthersStay(env, w.engine, a, t);
    }
  }

  ghost predicate SavesInv(w: World) {
    K.Sound(w.ckpt) && Anchored(w) && forall t :: AtSave(w, t)
  }

  /** Memory and rows only grow, except that a restart empties memory. */
  lemma NamesGrow(env: Env, s: State, a: Action)
    requires env.Valid() && Enabled(env, s, a) && P.Tracks(env.hasStore, s.plane)
    ensures s.plane.rows.Keys <= Next(env, s, a).plane.rows.Keys
    ensures !a.Reboot? ==> s.plane.mem.Keys <= Next(env, s, a).plane.mem.Keys
  {
    PlaneStep(env, s, a);
    var op := PlaneOp(env, s, a);
    assert op.Some? && op.value.OpReload? ==> a.Reboot?;
  }

  lemma ActKeeps(env: Env, w: World, a: Action)
    requires env.Valid() && CanMove(env, w, Act(a)) && !a.Reboot? && SavesInv(w)
    requires Numbered(w.engine) && P.Tracks(env.hasStore, w.engine.plane)
    ensures SavesInv(Moved(env, w, Act(a)))
  {
    NamesGrow(env, w.engine, a);
    forall t ensures AtSave(Moved(env, w, Act(a)), t) {
      assert AtSave(w, t);
      ActAtSave(env, w, a, t);
    }
  }

  lemma RebootKeeps(env: Env, w: World, a: Action)
    requires env.Valid() && CanMove(env, w, Act(a)) && a.Reboot? && SavesInv(w)
    requires P.Tracks(env.hasStore, w.engine.plane)
    ensures SavesInv(Moved(env, w, Act(a)))
  {
    NamesGrow(env, w.engine, a);
    K.StepSound(w.ckpt, K.Restart);
  }

  /** The engine's single ownership is what keeps the saves of a session apart. */
  lemma OneAtATime(w: World, k: K.Action)
    requires SingleOwner(w.engine) && (forall t :: AtSave(w, t)) && !k.Restart?
    requires k.Begin? ==> k.t in w.due && k.t in w.engine.threads && w.engine.threads[k.t].sid == k.sid
    ensures K.OneSaveAtATime(w.ckpt, k)
  {
    if k.Begin? {
      forall t | t in w.ckpt.saves ensures w.ckpt.saves[t].sid != k.sid {
        assert AtSave(w, t) && AtSave(w, k.t) && Apart(w.engine, t, k.t);
      }
    }
  }

  lemma SaveKeeps(env: Env, w: World, k: K.Action)
    requires env.Valid() && CanMove(env, w, Save(k)) && SavesInv(w) && SingleOwner(w.engine)
    ensures SavesInv(Moved(env, w, Save(k)))
  {
    OneAtATime(w, k);
    K.StepSound(w.ckpt, k);
    forall t ensures AtSave(Moved(env, w, Save(k)), t) {
      assert AtSave(w, t);
    }
  }

  /** Without a store there are no saves. */
  ghost predicate Idle(w: World) { w.due == {} && w.ckpt == K.INIT }

  lemma IdleStays(env: Env, w: World, m: Move)
    requires env.Valid() && !env.hasStore && CanMove(env, w, m) && Idle(w)
    ensures Idle(Moved(env, w, m))
  {
  }

  lemma {:induction false} AlwaysSaved(env: Env, ws: seq<World>, ms: seq<Move>, i: nat)
    requires IsWorldRun(env, ws, ms) && i < |ws|
    ensures if env.hasStore then SavesInv(ws[i]) else Idle(ws[i])
  {
    if i > 0 {
      AlwaysSaved(env, ws, ms, i - 1);
      var w, m := ws[i - 1], ms[i - 1];
      if !env.hasStore {
        IdleStays(env, w, m);
      } else {
        var ss, acts := EngineBehind(env, ws, ms, i - 1);
        AlwaysSingleOwner(env, ss, acts, |ss| - 1);
        AlwaysNumbered(env, ss, acts, |ss| - 1);
        Ownership.RunTracks(env, ss, acts, |ss| - 1);
        MoveKeeps(env, w, m);
      }
    }
  }

  lemma MoveKeeps(env: Env, w: World, m: Move)
    requires env.Valid() && CanMove(env, w, m) && SavesInv(w)
    requires SingleOwner(w.engine) && Numbered(w.engine) && P.Tracks(env.hasStore, w.engine.plane)
    ensures SavesInv(Moved(env, w, m))
  {
    match m
    case Act(a) =>
      if a.Reboot? {
        RebootKeeps(env, w, a);
      } else {
        ActKeeps(env, w, a);
      }
    case Save(k) => SaveKeeps(env, w, k);
    case NotFound(t) =>
      forall u ensures AtSave(Moved(env, w, m), u) {
        assert AtSave(w, u);
      }
  }

  /** In every run of the engine with its saves, whatever fails and however often it restarts: a session's
      reference in memory is at most the durable one, which is at most the id `LastCheckpoint` returns. */
  lemma CheckpointsLag(env: Env, ws: seq<World>, ms: seq<Move>, i: nat, sid: Sid)
    requires IsWorldRun(env, ws, ms) && i < |ws|
    ensures var k := ws[i].ckpt; K.Mem(k, sid) <= K.Ref(k, sid) <= K.LastId(k.rows, sid)
  {
    AlwaysSaved(env, ws, ms, i);
    assert env.hasStore ==> K.Lagging(ws[i].ckpt, sid);
  }

  /** And a save that succeeds to the end leaves all three equal. */
  lemma CheckpointsAlign(env: Env, ws: seq<World>, ms: seq<Move>, i: nat, t: Tid)
    requires IsWorldRun(env, ws, ms) && i < |ms| && ms[i] == Save(K.Remember(t))
    ensures var sid, k := ws[i].ckpt.saves[t].sid, ws[i + 1].ckpt;
            K.Mem(k, sid) == K.Ref(k, sid) == K.LastId(k.rows, sid) > 0
  {
    AlwaysSaved(env, ws, ms, i);
    assert K.InStep(ws[i].ckpt, t);
  }

  // Every save is made.

  /** How many saves run `t` has begun before `i`; one that does not find the session is one too. */
  function SavesBegun(ms: seq<Move>, i: nat, t: Tid): nat
    requires i <= |ms|
  {
    if i == 0 then 0 else SavesBegun(ms, i - 1, t) + if BeginsSave(ms[i - 1], t) then 1 else 0
  }

  predicate BeginsSave(m: Move, t: Tid) { m == NotFound(t) || (m.Save? && m.k.Begin? && m.k.t == t) }

  /** The saves a run has made when it is at a point of its program: the baseline one before its execution, the
      crash one before its Destroy call. */
  predicate SavesMade(pc: RunPc, due: bool, n: nat) {
    match pc
    case Executing => n == if due then 0 else 1
    case CrashCleaning(_) => n == if due then 1 else 2
    case CrashDeciding(_) => n == 2 && !due
    case BackingOff(_) => n == 2 && !due
    case Failing(thenClean) => (if thenClean then n == 1 else n <= 2) && !due
    case Cleaning(_) => n <= 1 && !due
    case Exiting(why) => (if why == Ended then n <= 2 else n == 2) && !due
    case _ => n == (if InSetup(pc) then 0 else 1) && !due
  }

  ghost predicate MadeAt(w: World, t: Tid, n: nat) {
    && (t in w.engine.threads && w.engine.threads[t].Run? ==> SavesMade(w.engine.threads[t].pc, t in w.due, n))
    && (t >= w.engine.next || (t in w.engine.threads && w.engine.threads[t].Call?) ==> n == 0 && t !in w.due)
  }

  ghost predicate SaveStep(r: Thread, e: Effect)
    requires r.Run?
  {
    && e.run.Run? && (e.spawn.Some? ==> e.spawn.value.Run? && e.spawn.value.pc.Starting?)
    && forall n: nat :: SavesMade(r.pc, false, n) ==> SavesMade(e.run.pc, ComesToSave(r, e.run), n)
  }

  lemma PrepareSaves(env: Env, v: View, r: Thread, c: Choice)
    requires r.Run? && (r.pc.Starting? || r.pc.Provisioning? || r.pc.Verifying?)
    ensures SaveStep(r, StepLaunch(env, v, r, c))
  {
  }

  lemma LaunchSaves(env: Env, v: View, r: Thread, c: Choice)
    requires r.Run? && (r.pc.Launching? || r.pc.Promoting?)
    ensures SaveStep(r, StepLaunch(env, v, r, c))
  {
  }

  lemma DecideSaves(v: View, r: Thread, c: Choice)
    requires r.Run? && InDecision(r.pc)
    ensures SaveStep(r, StepDecide(v, r, c))
  {
  }

  lemma EndSaves(v: View, r: Thread, c: Choice)
    requires r.Run? && InEnd(r.pc)
    ensures SaveStep(r, StepEnd(v, r, c))
  {
  }

  lemma CrashSaves(env: Env, v: View, r: Thread, c: Choice)
    requires env.Valid() && r.Run? && InCrash(r.pc)
    requires r.pc.BackingOff? && c.ok ==> c.noise < env.backoff.jitter
    ensures SaveStep(r, StepCrash(env, v, r, c))
  {
  }

  lemma StepRunSaves(env: Env, v: View, r: Thread, c: Choice)
    requires env.Valid() && r.Run? && !r.pc.Exiting?
    requires r.pc.BackingOff? && c.ok ==> c.noise < env.backoff.jitter
    ensures SaveStep(r, StepRun(env, v, r, c))
  {
    if r.pc.Launching? || r.pc.Promoting? {
      LaunchSaves(env, v, r, c);
    } else if InSetup(r.pc) {
      PrepareSaves(env, v, r, c);
    } else if InDecision(r.pc) {
      DecideSaves(v, r, c);
    } else if InEnd(r.pc) {
      EndSaves(v, r, c);
    } else if InCrash(r.pc) {
      CrashSaves(env, v, r, c);
    }
  }

  lemma ApplyMade(env: Env, w: World, u: Tid, r: Thread, e: Effect, c: Choice, t: Tid, n: nat)
    requires u in w.engine.threads && w.engine.threads[u] == r && r.Run? && Numbered(w.engine)
    requires SaveStep(r, e) && MadeAt(w, t, n) && u !in w.due
    ensures var q := ApplyEffect(env, w.engine, u, r, e, c);
            var due := if ComesToSave(r, e.run) then w.due + {u} else w.due;
            MadeAt(World(q, w.ckpt, due), t, n)
  {
  }

  lemma RunStepMade(env: Env, w: World, u: Tid, c: Choice, t: Tid, n: nat)
    requires env.Valid() && env.hasStore && CanMove(env, w, Act(RunStep(u, c))) && Numbered(w.engine) && MadeAt(w, t, n)
    ensures MadeAt(Moved(env, w, Act(RunStep(u, c))), t, n)
  {
    var r := w.engine.threads[u];
    var e := StepRun(env, ViewOf(env, w.engine, r), r, c);
    StepRunSaves(env, ViewOf(env, w.engine, r), r, c);
    ApplyMade(env, w, u, r, e, c, t, n);
    assert Next(env, w.engine, RunStep(u, c)).threads[u] == e.run;
  }

  lemma CallMade(env: Env, w: World, u: Tid, th: Thread, e: CallEffect, t: Tid, n: nat)
    requires u in w.engine.threads && w.engine.threads[u] == th && th.Call? && Numbered(w.engine) && MadeAt(w, t, n)
    ensures MadeAt(w.(engine := ApplyCall(env, w.engine, u, th, e)), t, n)
  {
  }

  lemma QuietMade(env: Env, w: World, a: Action, t: Tid, n: nat)
    requires env.Valid() && CanMove(env, w, Act(a)) && Numbered(w.engine) && MadeAt(w, t, n)
    requires !a.RunStep? && !a.CallStep?
    ensures MadeAt(Moved(env, w, Act(a)), t, n)
  {
  }

  /** The step of a save. */
  lemma SaveMade(env: Env, w: World, m: Move, t: Tid, n: nat)
    requires env.Valid() && CanMove(env, w, m) && !m.Act? && MadeAt(w, t, n)
    requires BeginsSave(m, t) ==> t in w.due && AtSave(w, t)
    ensures MadeAt(Moved(env, w, m), t, n + if BeginsSave(m, t) then 1 else 0)
  {
  }

  lemma {:induction false} AlwaysMade(env: Env, ws: seq<World>, ms: seq<Move>, i: nat, t: Tid)
    requires IsWorldRun(env, ws, ms) && env.hasStore && i < |ws|
    ensures MadeAt(ws[i], t, SavesBegun(ms, i, t))
  {
    if i > 0 {
      AlwaysMade(env, ws, ms, i - 1, t);
      AlwaysSaved(env, ws, ms, i - 1);
      var w, m, n := ws[i - 1], ms[i - 1], SavesBegun(ms, i - 1, t);
      var ss, acts := EngineBehind(env, ws, ms, i - 1);
      AlwaysNumbered(env, ss, acts, |ss| - 1);
      MoveMade(env, w, m, t, n);
    }
  }

  lemma MoveMade(env: Env, w: World, m: Move, t: Tid, n: nat)
    requires env.Valid() && env.hasStore && CanMove(env, w, m) && Numbered(w.engine) && SavesInv(w) && MadeAt(w, t, n)
    ensures MadeAt(Moved(env, w, m), t, n + if BeginsSave(m, t) then 1 else 0)
  {
    if !m.Act? {
      assert AtSave(w, t);
      SaveMade(env, w, m, t, n);
    } else if m.a.RunStep? {
      RunStepMade(env, w, m.a.t, m.a.c, t, n);
    } else if m.a.CallStep? {
      CallMade(env, w, m.a.t, w.engine.threads[m.a.t], StepCall(env, w.engine, w.engine.threads[m.a.t], m.a.c), t, n);
    } else {
      QuietMade(env, w, m.a, t, n);
    }
  }

  /** With a store, every run makes its saves: one before its agent is executed, and, if it crashes, another one
      before the dead sandbox is destroyed; it is past neither point without it. */
  lemma EverySaveIsMade(env: Env, ws: seq<World>, ms: seq<Move>, i: nat, t: Tid)
    requires IsWorldRun(env, ws, ms) && env.hasStore && i < |ws|
    requires t in ws[i].engine.threads && ws[i].engine.threads[t].Run?
    ensures var pc, n := ws[i].engine.threads[t].pc, SavesBegun(ms, i, t);
            && (InSetup(pc) ==> n == 0)
            && (pc.Executing? ==> n == if t in ws[i].due then 0 else 1)
            && (pc.Returned? || InDecision(pc) || pc.Completing? || pc.Crashed? ==> n == 1)
            && (pc.CrashCleaning? ==> n == if t in ws[i].due then 1 else 2)
            && (pc.CrashDeciding? || pc.BackingOff? ==> n == 2)
  {
    AlwaysMade(env, ws, ms, i, t);
  }

  /** And each is over before anything else happens: the monitor beats beside an execution, and the execution comes
      back, only after the baseline save, and the dead sandbox's Destroy call comes only after the crash save. */
  lemma SavesComeFirst(env: Env, ws: seq<World>, ms: seq<Move>, i: nat, t: Tid)
    requires IsWorldRun(env, ws, ms) && env.hasStore && i < |ms| && ms[i].Act?
    requires t in ws[i].engine.threads && ws[i].engine.threads[t].Run?
    requires var pc := ws[i].engine.threads[t].pc;
             || (pc.Executing? && ((ms[i].a.BeatStep? && ms[i].a.t == t) || (ms[i].a.RunStep? && ms[i].a.t == t)))
             || (pc.CrashCleaning? && ms[i].a.RunStep? && ms[i].a.t == t)
    ensures t !in ws[i].ckpt.saves
    ensures SavesBegun(ms, i, t) == if ws[i].engine.threads[t].pc.Executing? then 1 else 2
  {
    AlwaysMade(env, ws, ms, i, t);
  }

  /** A restart forgets the references in memory and whatever save was under way. */
  lemma RestartForgets(env: Env, ws: seq<World>, ms: seq<Move>, i: nat, sid: Sid)
    requires IsWorldRun(env, ws, ms) && i < |ms| && ms[i].Act? && ms[i].a.Reboot?
    ensures var w, k := ws[i + 1], ws[i].ckpt;
            && w.due == {} && w.ckpt.saves == map[] && K.Mem(w.ckpt, sid) == 0
            && w.ckpt.rows == k.rows && K.Ref(w.ckpt, sid) == K.Ref(k, sid)
  {
  }
}
