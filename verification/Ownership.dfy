/** How the engine uses the control plane, and who owns a session. */
module Ownership {
  import opened Lifecycle
  import opened Engine
  import P = Plane

  // Every engine step makes at most one control-plane call.

  ghost function PlaneOp(env: Env, s: State, a: Action): Option<P.Op>
    requires env.Valid() && Enabled(env, s, a)
  {
    match a
    case Submit(sid, insert) =>
      if P.CreateSucceeds(env.hasStore, s.plane, sid, insert) || sid !in s.plane.mem
      then Some(P.OpCreate(sid, insert)) else None
    case CallStep(t, c) => StepCall(env, s, s.threads[t], c).op
    case RunStep(t, c) =>
      var r := s.threads[t];
      MoveOp(r.sid, StepRun(env, ViewOf(env, s, r), r, c).move, c)
    case Reboot(_) => Some(P.OpReload)
    case Recover(sid, recent, c) => MoveOp(sid, Disposition(s.todo[sid], recent).move, c)
    case _ => None
  }

  lemma CallPlane(env: Env, s: State, t: Tid, th: Thread, e: CallEffect)
    requires th.Call?
    ensures ApplyCall(env, s, t, th, e).plane == Perform(env, s.plane, e.op)
  {
  }

  lemma RunPlane(env: Env, s: State, t: Tid, r: Thread, e: Effect, c: Choice)
    requires r.Run?
    ensures ApplyEffect(env, s, t, r, e, c).plane == Perform(env, s.plane, MoveOp(r.sid, e.move, c))
  {
  }

  lemma SubmitPlane(env: Env, s: State, sid: Sid, insert: P.Insert)
    requires env.Valid() && Enabled(env, s, Submit(sid, insert)) && P.Tracks(env.hasStore, s.plane)
    ensures Next(env, s, Submit(sid, insert)).plane == Perform(env, s.plane, PlaneOp(env, s, Submit(sid, insert)))
  {
    if env.hasStore && sid in s.plane.mem {
      P.DuplicateCreateIsNoop(s.plane, sid, insert);
    }
  }

  lemma PlaneStep(env: Env, s: State, a: Action)
    requires env.Valid() && Enabled(env, s, a)
    requires P.Tracks(env.hasStore, s.plane)
    ensures Next(env, s, a).plane == Perform(env, s.plane, PlaneOp(env, s, a))
  {
    match a
    case Submit(sid, insert) => SubmitPlane(env, s, sid, insert);
    case CallStep(t, c) => CallPlane(env, s, t, s.threads[t], StepCall(env, s, s.threads[t], c));
    case RunStep(t, c) =>
      var r := s.threads[t];
      RunPlane(env, s, t, r, StepRun(env, ViewOf(env, s, r), r, c), c);
    case _ =>
  }

  /** The control plane's part of a run of the engine: the calls made up to each point of it. */
  ghost predicate PlaneRun(env: Env, ss: seq<State>, n: nat, ps: seq<P.Plane>, ops: seq<P.Op>, at: seq<nat>)
    requires n < |ss|
  {
    && P.Run(env.hasStore, ps, ops)
    && |at| == n + 1 && at[n] == |ps| - 1
    && (forall k :: 0 <= k <= n ==> at[k] < |ps| && ps[at[k]] == ss[k].plane)
    && (forall j, k :: 0 <= j <= k <= n ==> at[j] <= at[k])
  }

  /** Every run of the engine is a run of the control plane, point for point, so whatever holds of all runs of
      the control plane holds of all runs of the engine. */
  lemma {:induction false} EngineRunsThePlane(env: Env, ss: seq<State>, acts: seq<Action>, n: nat)
    returns (ps: seq<P.Plane>, ops: seq<P.Op>, at: seq<nat>)
    requires IsRun(env, ss, acts) && n < |ss|
    ensures PlaneRun(env, ss, n, ps, ops, at)
  {
    if n == 0 {
      ps, ops, at := [P.EMPTY], [], [0];
    } else {
      ps, ops, at := EngineRunsThePlane(env, ss, acts, n - 1);
      P.RunTracks(env.hasStore, ps, ops, |ps| - 1);
      PlaneStep(env, ss[n - 1], acts[n - 1]);
      var op := PlaneOp(env, ss[n - 1], acts[n - 1]);
      ps, ops, at := ExtendRun(env, ss, n - 1, ps, ops, at, op);
    }
  }

  lemma ExtendRun(env: Env, ss: seq<State>, n: nat, ps: seq<P.Plane>, ops: seq<P.Op>, at: seq<nat>, op: Option<P.Op>)
    returns (ps': seq<P.Plane>, ops': seq<P.Op>, at': seq<nat>)
    requires n + 1 < |ss| && PlaneRun(env, ss, n, ps, ops, at)
    requires ss[n + 1].plane == Perform(env, ss[n].plane, op)
    ensures PlaneRun(env, ss, n + 1, ps', ops', at')
  {
    ps', ops' := ps, ops;
    if op.Some? {
      ps', ops' := ExtendPlaneRun(env.hasStore, ps, ops, op.value);
      assert forall k :: 0 <= k < |ps| ==> ps'[k] == ps'[..|ps|][k] == ps[k];
    }
    at' := at + [|ps'| - 1];
  }

  lemma ExtendPlaneRun(hasStore: bool, ps: seq<P.Plane>, ops: seq<P.Op>, op: P.Op)
    returns (qs: seq<P.Plane>, ops': seq<P.Op>)
    requires P.Run(hasStore, ps, ops)
    ensures P.Run(hasStore, qs, ops') && |qs| == |ps| + 1 && qs[..|ps|] == ps
    ensures qs[|ps|] == P.Apply(hasStore, ps[|ps| - 1], op)
  {
    qs, ops' := ps + [P.Apply(hasStore, ps[|ps| - 1], op)], ops + [op];
    forall i | 0 <= i < |ops'| ensures qs[i + 1] == P.Apply(hasStore, qs[i], ops'[i]) {
      if i < |ops| {
        assert ops'[i] == ops[i] && qs[i] == ps[i] && qs[i + 1] == ps[i + 1];
      }
    }
  }

  lemma RunTracks(env: Env, ss: seq<State>, acts: seq<Action>, i: nat)
    requires IsRun(env, ss, acts) && i < |ss|
    ensures P.Tracks(env.hasStore, ss[i].plane)
  {
    var ps, ops, at := EngineRunsThePlane(env, ss, acts, i);
    P.RunTracks(env.hasStore, ps, ops, at[i]);
  }

  /** In every run of the engine a durable status only advances through the closure of the table. */
  lemma DurableAdvances(env: Env, ss: seq<State>, acts: seq<Action>, i: nat, j: nat, sid: Sid)
    requires IsRun(env, ss, acts) && i <= j < |ss| && sid in ss[i].plane.rows
    ensures sid in ss[j].plane.rows && P.Advances(ss[i].plane.rows[sid], ss[j].plane.rows[sid])
  {
    var ps, ops, at := EngineRunsThePlane(env, ss, acts, j);
    P.DurableStatusAdvances(env.hasStore, ps, ops, at[i], at[j], sid);
  }

  /** In every run of the engine, across crashes, restarts, resubmissions and lost writes, a durable
      COMPLETED or FAILED stays what it is. */
  lemma DurableOutcomeIsFinal(env: Env, ss: seq<State>, acts: seq<Action>, i: nat, j: nat, sid: Sid)
    requires IsRun(env, ss, acts) && i <= j < |ss|
    requires sid in ss[i].plane.rows && Terminal(ss[i].plane.rows[sid])
    ensures sid in ss[j].plane.rows && ss[j].plane.rows[sid] == ss[i].plane.rows[sid]
  {
    var ps, ops, at := EngineRunsThePlane(env, ss, acts, j);
    P.DurableTerminalIsFinal(env.hasStore, ps, ops, at[i], at[j], sid);
  }

  /** In every state of a run with a store, the durable status is one that memory has held, and the statuses
      held since form a walk from it to the present one. */
  lemma DurableLagsMemory(env: Env, ss: seq<State>, acts: seq<Action>, i: nat, sid: Sid) returns (k: nat)
    requires IsRun(env, ss, acts) && env.hasStore && i < |ss| && sid in ss[i].plane.mem
    ensures sid in ss[i].plane.rows && sid in ss[i].plane.hist
    ensures var h := ss[i].plane.hist[sid];
            && k < |h| && h[k] == ss[i].plane.rows[sid]
            && Walk(h[k..]) && h[|h| - 1] == ss[i].plane.mem[sid]
  {
    var ps, ops, at := EngineRunsThePlane(env, ss, acts, i);
    k := P.StoreLagsMemory(ps, ops, at[i], sid);
  }

  /** The store keeps the writes of an action. */
  predicate Stores(a: Action) {
    match a
    case RunStep(_, c) => c.stored
    case CallStep(_, c) => c.stored
    case Recover(_, _, c) => c.stored
    case _ => true
  }

  lemma OpStores(env: Env, s: State, a: Action)
    requires env.Valid() && Enabled(env, s, a) && Stores(a)
    ensures var op := PlaneOp(env, s, a); op.Some? && op.value.OpTransition? ==> op.value.stored
  {
  }

  /** A store that keeps every write says in every state of a run what memory says. */
  lemma {:induction false} StoreKeepsUp(env: Env, ss: seq<State>, acts: seq<Action>, i: nat, sid: Sid)
    requires IsRun(env, ss, acts) && env.hasStore && i < |ss| && sid in ss[i].plane.mem
    requires forall k :: 0 <= k < i ==> Stores(acts[k])
    ensures P.InStep(ss[i].plane, sid)
  {
    if i > 0 {
      RunTracks(env, ss, acts, i - 1);
      PlaneStep(env, ss[i - 1], acts[i - 1]);
      OpStores(env, ss[i - 1], acts[i - 1]);
      var op := PlaneOp(env, ss[i - 1], acts[i - 1]);
      if op.Some? {
        P.StepInStep(ss[i - 1].plane, op.value, sid);
      }
      if sid in ss[i - 1].plane.mem {
        StoreKeepsUp(env, ss, acts, i - 1, sid);
      }
    }
  }

  // Ownership.

  ghost predicate Placed(s: State, t: Tid) {
    t in s.threads ==>
      var th := s.threads[t];
      && t < s.next && th.sid in s.plane.mem
      && (Owns(th) ==> th.sid !in s.todo)
      && (th.Call? ==> th.sid !in s.starts && (th.at == Emitting || th.sid !in s.plane.unborn))
      && (th.Run? ==> th.sid in s.starts && th.sid !in s.plane.unborn)
  }

  ghost predicate Apart(s: State, t: Tid, u: Tid) {
    t in s.threads && u in s.threads && t != u && Owns(s.threads[t]) && Owns(s.threads[u])
    ==> s.threads[t].sid != s.threads[u].sid
  }

  ghost predicate Unclaimed(s: State, sid: Sid) {
    && (sid in s.todo ==>
          && sid in s.plane.mem && s.plane.mem[sid] == s.todo[sid] && !Terminal(s.todo[sid])
          && sid !in s.starts && sid !in s.plane.unborn)
    && (sid in s.starts ==> sid in s.plane.mem)
  }

  /** Every session has at most one owner: a submission, a resumption, a run, or the recovery loop. */
  ghost predicate SingleOwner(s: State) {
    && (forall t :: Placed(s, t))
    && (forall t, u :: Apart(s, t, u))
    && (forall sid :: Unclaimed(s, sid))
  }

  /** Transitions and announcements touch one session and add or remove none. */
  lemma PerformFrame(env: Env, p: P.Plane, op: Option<P.Op>, sid: Sid)
    requires op.Some? ==> (op.value.OpTransition? || op.value.OpAnnounce?) && op.value.sid == sid
    ensures var q := Perform(env, p, op);
            && q.mem.Keys == p.mem.Keys && q.unborn <= p.unborn
            && (op.Some? && op.value.OpTransition? ==> q.unborn == p.unborn)
            && (forall x :: x in p.mem && x != sid ==> q.mem[x] == p.mem[x])
  {
  }

  /** A step of the owner `t` of a session: it may replace itself, or end and leave the session to one
      new thread, and touches nothing that belongs to other sessions. */
  ghost predicate OwnerStep(s: State, q: State, t: Tid) {
    && t in s.threads && t < s.next <= q.next
    && var sid := s.threads[t].sid;
    && q.todo == s.todo && q.plane.mem.Keys == s.plane.mem.Keys
    && (forall x :: x in s.plane.mem && x != sid ==> q.plane.mem[x] == s.plane.mem[x])
    && q.plane.unborn <= s.plane.unborn
    && s.starts.Keys <= q.starts.Keys <= s.starts.Keys + {sid}
    && (forall u :: u != t && u != s.next ==> (u in q.threads <==> u in s.threads))
    && (forall u :: u != t && u != s.next && u in q.threads ==> q.threads[u] == s.threads[u])
    && (forall u :: u in q.threads && (u == t || u == s.next) ==> q.threads[u].sid == sid && u < q.next)
    && (t in q.threads && s.next in q.threads ==> !Owns(q.threads[t]))
    && (sid in q.starts && sid !in s.starts ==> t !in q.threads)
    && Placed(q, t) && Placed(q, s.next)
  }

  lemma OwnerStepKeeps(s: State, q: State, t: Tid)
    requires SingleOwner(s) && OwnerStep(s, q, t) && Owns(s.threads[t])
    ensures SingleOwner(q)
  {
    assert Placed(s, t);
    forall u ensures Placed(q, u) {
      assert Placed(s, u) && Apart(s, t, u);
    }
    forall u, v ensures Apart(q, u, v) {
      assert Apart(s, u, v) && Apart(s, t, u) && Apart(s, t, v) && Placed(s, s.next);
    }
    forall x ensures Unclaimed(q, x) {
      assert Unclaimed(s, x);
    }
  }

  lemma ApplyIsOwnerStep(env: Env, s: State, t: Tid, r: Thread, e: Effect, c: Choice)
    requires t in s.threads && s.threads[t] == r && r.Run? && Placed(s, t) && Owns(r)
    requires e.run.Run? && e.run.sid == r.sid && s.next !in s.threads
    requires e.spawn.Some? ==> e.spawn.value.Run? && e.spawn.value.sid == r.sid && !Owns(e.run)
    ensures OwnerStep(s, ApplyEffect(env, s, t, r, e, c), t)
  {
    PerformFrame(env, s.plane, MoveOp(r.sid, e.move, c), r.sid);
  }

  lemma StepRunShape(env: Env, v: View, r: Thread, c: Choice)
    requires env.Valid() && r.Run? && !r.pc.Exiting?
    requires r.pc.BackingOff? && c.ok ==> c.noise < env.backoff.jitter
    ensures var e := StepRun(env, v, r, c);
            && e.run.Run? && e.run.sid == r.sid
            && (e.spawn.Some? ==> e.spawn.value.Run? && e.spawn.value.sid == r.sid && !Owns(e.run))
  {
  }

  lemma RunStepOwner(env: Env, s: State, t: Tid, c: Choice)
    requires env.Valid() && Enabled(env, s, RunStep(t, c)) && SingleOwner(s)
    ensures SingleOwner(Next(env, s, RunStep(t, c)))
  {
    var r := s.threads[t];
    assert Placed(s, t) && Placed(s, s.next);
    StepRunShape(env, ViewOf(env, s, r), r, c);
    ApplyIsOwnerStep(env, s, t, r, StepRun(env, ViewOf(env, s, r), r, c), c);
    OwnerStepKeeps(s, Next(env, s, RunStep(t, c)), t);
  }

  lemma CallIsOwnerStep(env: Env, s: State, t: Tid, th: Thread, e: CallEffect)
    requires t in s.threads && s.threads[t] == th && th.Call? && Placed(s, t) && s.next !in s.threads
    requires e.op.Some? ==> (e.op.value.OpTransition? || e.op.value.OpAnnounce?) && e.op.value.sid == th.sid
    requires th.at == Emitting ==> e.op.Some? && e.op.value.OpAnnounce?
    requires e.launch ==> th.at != Emitting
    ensures OwnerStep(s, ApplyCall(env, s, t, th, e), t)
  {
    PerformFrame(env, s.plane, e.op, th.sid);
  }

  lemma CallStepOwner(env: Env, s: State, t: Tid, c: Choice)
    requires env.Valid() && Enabled(env, s, CallStep(t, c)) && SingleOwner(s)
    ensures SingleOwner(Next(env, s, CallStep(t, c)))
  {
    assert Placed(s, t) && Placed(s, s.next);
    CallIsOwnerStep(env, s, t, s.threads[t], StepCall(env, s, s.threads[t], c));
    OwnerStepKeeps(s, Next(env, s, CallStep(t, c)), t);
  }

  lemma SubmitOwner(env: Env, s: State, sid: Sid, insert: P.Insert)
    requires env.Valid() && env.Unique() && Enabled(env, s, Submit(sid, insert))
    requires SingleOwner(s) && P.Tracks(env.hasStore, s.plane)
    ensures SingleOwner(Next(env, s, Submit(sid, insert)))
  {
    var q := Next(env, s, Submit(sid, insert));
    assert P.OnTrack(env.hasStore, s.plane, sid);
    if P.CreateSucceeds(env.hasStore, s.plane, sid, insert) {
      assert sid !in s.plane.mem;
    }
    assert Unclaimed(s, sid);
    forall u ensures Placed(q, u) {
      assert Placed(s, u);
    }
    forall u, v ensures Apart(q, u, v) {
      assert Apart(s, u, v) && Placed(s, u) && Placed(s, v);
    }
    forall x ensures Unclaimed(q, x) {
      assert Unclaimed(s, x);
    }
  }

  /** A pass of the recovery loop touches only its own row and at most starts one resumption of it. */
  lemma RecoverOwner(env: Env, s: State, sid: Sid, recent: bool, c: Choice)
    requires env.Valid() && Enabled(env, s, Recover(sid, recent, c)) && SingleOwner(s)
    ensures SingleOwner(Next(env, s, Recover(sid, recent, c)))
  {
    var q := Next(env, s, Recover(sid, recent, c));
    assert Unclaimed(s, sid);
    RecoverFrame(env, s, sid, recent, c);
    forall u ensures Placed(q, u) {
      assert Placed(s, u);
    }
    forall u, v ensures Apart(q, u, v) {
      assert Apart(s, u, v) && Placed(s, u) && Placed(s, v);
    }
    forall x ensures Unclaimed(q, x) {
      assert Unclaimed(s, x);
    }
  }

  lemma RecoverFrame(env: Env, s: State, sid: Sid, recent: bool, c: Choice)
    requires sid in s.todo && sid in s.plane.mem && s.plane.mem[sid] == s.todo[sid]
    ensures var e := Disposition(s.todo[sid], recent);
            var q := ApplyRecover(env, s, sid, e, c);
            && q.plane.mem.Keys == s.plane.mem.Keys && q.plane.unborn == s.plane.unborn
            && (forall x :: x in s.plane.mem && x != sid ==> q.plane.mem[x] == s.plane.mem[x])
            && (e.again.Some? ==> q.plane.mem[sid] == e.again.value && !Terminal(e.again.value) && !e.resume)
  {
    PerformFrame(env, s.plane, MoveOp(sid, Disposition(s.todo[sid], recent).move, c), sid);
  }

  lemma OtherStepOwner(env: Env, s: State, a: Action)
    requires env.Valid() && Enabled(env, s, a) && SingleOwner(s)
    requires !a.RunStep? && !a.CallStep? && !a.Submit? && !a.Recover?
    ensures SingleOwner(Next(env, s, a))
  {
    var q := Next(env, s, a);
    forall u ensures Placed(q, u) {
      assert Placed(s, u);
    }
    forall u, v ensures Apart(q, u, v) {
      assert Apart(s, u, v);
    }
    forall x ensures Unclaimed(q, x) {
      assert Unclaimed(s, x);
    }
  }

  lemma StepOwner(env: Env, s: State, a: Action)
    requires env.Valid() && env.Unique() && Enabled(env, s, a)
    requires SingleOwner(s) && P.Tracks(env.hasStore, s.plane)
    ensures SingleOwner(Next(env, s, a))
  {
    match a
    case RunStep(t, c) => RunStepOwner(env, s, t, c);
    case CallStep(t, c) => CallStepOwner(env, s, t, c);
    case Submit(sid, insert) => SubmitOwner(env, s, sid, insert);
    case Recover(sid, recent, c) => RecoverOwner(env, s, sid, recent, c);
    case _ => OtherStepOwner(env, s, a);
  }

  /** With a store (or ids never resubmitted), no reachable state has two owners of one session. */
  lemma {:induction false} AlwaysSingleOwner(env: Env, ss: seq<State>, acts: seq<Action>, i: nat)
    requires IsRun(env, ss, acts) && env.Unique() && i < |ss|
    ensures SingleOwner(ss[i])
  {
    if i > 0 {
      AlwaysSingleOwner(env, ss, acts, i - 1);
      RunTracks(env, ss, acts, i - 1);
      StepOwner(env, ss[i - 1], acts[i - 1]);
    }
  }

  // Published events.

  /** A single owner on a bus whose Publish returns nil uses the control plane in order. */
  lemma OpIsOrderly(env: Env, s: State, a: Action)
    requires env.Valid() && env.Unique() && env.busOk && Enabled(env, s, a)
    requires SingleOwner(s) && P.Tracks(env.hasStore, s.plane)
    ensures var op := PlaneOp(env, s, a); op.Some? ==> P.Orderly(s.plane, op.value)
  {
    match a
    case Submit(sid, _) => assert P.OnTrack(env.hasStore, s.plane, sid);
    case RunStep(t, _) => assert Placed(s, t);
    case CallStep(t, _) => assert Placed(s, t);
    case Recover(sid, _, _) => assert Unclaimed(s, sid);
    case _ =>
  }

  lemma StepPublished(env: Env, s: State, a: Action)
    requires env.Valid() && env.Unique() && env.busOk && Enabled(env, s, a)
    requires SingleOwner(s) && P.Tracks(env.hasStore, s.plane) && P.Published(s.plane)
    ensures P.Published(Next(env, s, a).plane)
  {
    PlaneStep(env, s, a);
    var op := PlaneOp(env, s, a);
    OpIsOrderly(env, s, a);
    if op.Some? {
      P.ApplyPublished(env.hasStore, s.plane, op.value);
    }
  }

  /** On the memory bus, the session events a process publishes are exactly each session's history
      of statuses, in order, in every reachable state. */
  lemma {:induction false} EventsFollowHistory(env: Env, ss: seq<State>, acts: seq<Action>, i: nat)
    requires IsRun(env, ss, acts) && env.Unique() && env.busOk && i < |ss|
    ensures P.Published(ss[i].plane)
  {
    if i > 0 {
      EventsFollowHistory(env, ss, acts, i - 1);
      AlwaysSingleOwner(env, ss, acts, i - 1);
      RunTracks(env, ss, acts, i - 1);
      StepPublished(env, ss[i - 1], acts[i - 1]);
    }
  }
}
