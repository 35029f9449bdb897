/** What becomes of a session: every chain of agent runs ends COMPLETED or FAILED, and it ends. */
module Chains {
  import opened Lifecycle
  import opened Engine
  import opened Ownership
  import P = Plane

  /** The statuses an owner can find its session in at each point of its program. A run whose session is
      stranded has only its cleanup left. */
  predicate Fits(status: Status, stranded: bool, th: Thread) {
    && (stranded ==> th.Run? && (th.pc == Cleaning(false) || th.pc.Exiting?) && (status == Running || status == Approval))
    && match th
    case Call(_, resume, at) =>
      (match at
       case CallFailing => status == Allocating || status == Running
       case Resolving => status == if resume then Running else Allocating
       case _ => status == if resume then Running else Created)
    case Run(_, pc, _, _, _, _, _, _) =>
      (match pc
       case Starting => status == Allocating || status == Running
       case Provisioning => status == Allocating || status == Running
       case Verifying => status == Allocating || status == Running
       case Launching => status == Allocating || status == Running
       case Waiting(_, _) => status == Approval
       case Promoting => status == Allocating
       case Reopening(_) => status == Approval
       case Closing(_) => status == Running || status == Approval
       case Failing(_) => status == Allocating || status == Running || status == Approval
       case Cleaning(thenFail) =>
         if thenFail then status == Allocating || status == Running else Terminal(status) || stranded
       case Exiting(_) => true
       case _ => status == Running)
  }

  function After(status: Status, move: Option<Status>): Status {
    if move.Some? && Allowed(status, move.value) then move.value else status
  }

  lemma PerformMove(env: Env, p: P.Plane, sid: Sid, move: Option<Status>, c: Choice)
    requires sid in p.mem
    ensures var q := Perform(env, p, MoveOp(sid, move, c));
            && q.mem.Keys == p.mem.Keys && q.mem[sid] == After(p.mem[sid], move)
            && forall x :: x in p.mem && x != sid ==> q.mem[x] == p.mem[x]
  {
  }

  predicate Strand(status: Status, move: Option<Status>, pub: bool) {
    move.Some? && Allowed(status, move.value) && !Terminal(move.value) && !pub
  }

  /** A step keeps the status where the program expects it; a run that stops owning its session has
      ended it, stranded it, handed it over, or was cancelled. */
  predicate FitStep(status: Status, stranded: bool, pub: bool, e: Effect) {
    var now, stuck := After(status, e.move), stranded || Strand(status, e.move, pub);
    && e.run.Run? && Fits(now, stuck, e.run)
    && (e.spawn.Some? ==> e.spawn.value.Run? && Fits(now, stuck, e.spawn.value))
    && (e.run.pc == Exiting(Ended) ==> Terminal(now) || stuck)
    && (e.run.pc == Exiting(Abandoned) ==> now == Running && !stuck)
    && (e.run.pc == Exiting(HandedOver) <==> e.spawn.Some?)
  }

  lemma LaunchFits(env: Env, v: View, status: Status, stranded: bool, r: Thread, c: Choice)
    requires r.Run? && InSetup(r.pc) && v.status == Some(status) && Fits(status, stranded, r)
    ensures FitStep(status, stranded, c.pub, StepLaunch(env, v, r, c))
  {
  }

  lemma ExecuteFits(status: Status, stranded: bool, r: Thread, c: Choice)
    requires r.Run? && (r.pc.Executing? || r.pc.Returned?) && Fits(status, stranded, r)
    ensures FitStep(status, stranded, c.pub, StepExecute(r, c))
  {
  }

  lemma DecideFits(v: View, status: Status, stranded: bool, r: Thread, c: Choice)
    requires r.Run? && InDecision(r.pc) && v.status == Some(status) && Fits(status, stranded, r)
    ensures FitStep(status, stranded, c.pub, StepDecide(v, r, c))
  {
  }

  lemma EndFits(v: View, status: Status, stranded: bool, r: Thread, c: Choice)
    requires r.Run? && InEnd(r.pc) && v.status == Some(status) && Fits(status, stranded, r)
    ensures FitStep(status, stranded, c.pub, StepEnd(v, r, c))
  {
  }

  lemma CrashFits(env: Env, v: View, status: Status, stranded: bool, r: Thread, c: Choice)
    requires env.Valid() && r.Run? && InCrash(r.pc) && Fits(status, stranded, r)
    requires r.pc.BackingOff? && c.ok ==> c.noise < env.backoff.jitter
    ensures FitStep(status, stranded, c.pub, StepCrash(env, v, r, c))
  {
  }

  /** Every step of a run fits, whether or not its events are published. */
  lemma StepRunFits(env: Env, v: View, status: Status, stranded: bool, r: Thread, c: Choice)
    requires env.Valid() && r.Run? && !r.pc.Exiting? && v.status == Some(status)
    requires r.pc.BackingOff? && c.ok ==> c.noise < env.backoff.jitter
    requires Fits(status, stranded, r)
    ensures FitStep(status, stranded, c.pub, StepRun(env, v, r, c))
  {
    if InSetup(r.pc) {
      LaunchFits(env, v, status, stranded, r, c);
    } else if Early(r.pc) {
      ExecuteFits(status, stranded, r, c);
    } else if InCrash(r.pc) {
      CrashFits(env, v, status, stranded, r, c);
    } else if InDecision(r.pc) {
      DecideFits(v, status, stranded, r, c);
    } else {
      EndFits(v, status, stranded, r, c);
    }
  }

  /** What a step of a call asks for, where it goes, and how a call that returns leaves its session. */
  predicate CallFits(status: Status, th: Thread, e: CallEffect, move: Option<Status>, c: Choice)
    requires th.Call?
  {
    var now, stuck := After(status, move), Strand(status, move, c.pub);
    && (e.op == MoveOp(th.sid, move, c) || (move == None && e.op == Some(P.OpAnnounce(th.sid, c.pub))))
    && (e.at.Some? ==> Fits(now, stuck, th.(at := e.at.value)))
    && (e.launch ==> Fits(now, stuck, FirstRun(th.sid)))
    && (e.at.None? && !e.launch ==> if stuck then now == Allocating else Terminal(now) || now == Created || now == Running)
  }

  function MoveOf(e: CallEffect): Option<Status> {
    if e.op.Some? && e.op.value.OpTransition? then Some(e.op.value.to) else None
  }

  lemma StepCallFits(env: Env, s: State, th: Thread, c: Choice)
    requires th.Call? && th.sid in s.plane.mem && Fits(s.plane.mem[th.sid], false, th)
    ensures CallFits(s.plane.mem[th.sid], th, StepCall(env, s, th, c), MoveOf(StepCall(env, s, th, c)), c)
  {
  }

  // Every session in memory is accounted for.

  ghost predicate Held(s: State, sid: Sid) {
    exists t :: t in s.threads && Owns(s.threads[t]) && s.threads[t].sid == sid
  }

  /** A session nobody owns is still with the recovery loop, or finished, or stranded, or it was cancelled
      while backing off, or it was never launched: a refused submission is CREATED, a refused resumption
      RUNNING. */
  ghost predicate Settled(s: State, sid: Sid) {
    sid in s.plane.mem ==>
      || Held(s, sid)
      || sid in s.todo
      || Terminal(s.plane.mem[sid])
      || sid in s.abandoned
      || sid in s.stranded
      || (sid !in s.starts && (s.plane.mem[sid] == Created || s.plane.mem[sid] == Running))
  }

  /** An abandoned session stays RUNNING for good, and a stranded one where it was stranded. */
  ghost predicate Marked(s: State, sid: Sid) {
    && (sid in s.abandoned ==>
          && sid in s.plane.mem && s.plane.mem[sid] == Running
          && sid !in s.stranded && sid !in s.todo && !Held(s, sid))
    && (sid in s.stranded ==>
          && sid in s.plane.mem && sid !in s.todo
          && if sid in s.starts then s.plane.mem[sid] == Running || s.plane.mem[sid] == Approval
             else s.plane.mem[sid] == Allocating && !Held(s, sid))
  }

  ghost predicate Fitting(s: State, t: Tid) {
    t in s.threads && Owns(s.threads[t]) ==>
      var sid := s.threads[t].sid;
      sid in s.plane.mem && sid !in s.abandoned && Fits(s.plane.mem[sid], sid in s.stranded, s.threads[t])
  }

  ghost predicate Accounted(s: State) {
    && (forall t :: Fitting(s, t))
    && (forall sid :: Settled(s, sid) && Marked(s, sid))
  }

  /** Nothing about a session changes when another session's owner steps. */
  lemma HeldElsewhere(s: State, q: State, t: Tid, sid: Sid)
    requires SingleOwner(s) && OwnerStep(s, q, t) && Owns(s.threads[t]) && sid != s.threads[t].sid
    ensures Held(q, sid) <==> Held(s, sid)
  {
    if Held(s, sid) {
      var u :| u in s.threads && Owns(s.threads[u]) && s.threads[u].sid == sid;
      assert Placed(s, u);
      assert u in q.threads && q.threads[u] == s.threads[u];
    }
    if Held(q, sid) {
      var u :| u in q.threads && Owns(q.threads[u]) && q.threads[u].sid == sid;
      assert u in s.threads && s.threads[u] == q.threads[u];
    }
  }

  /** The marks of other sessions are left alone. */
  ghost predicate MarksElsewhere(s: State, q: State, sid: Sid) {
    forall x :: x != sid ==> (x in q.abandoned <==> x in s.abandoned) && (x in q.stranded <==> x in s.stranded)
  }

  lemma SettledElsewhere(s: State, q: State, t: Tid, sid: Sid)
    requires SingleOwner(s) && OwnerStep(s, q, t) && Owns(s.threads[t])
    requires sid != s.threads[t].sid && MarksElsewhere(s, q, s.threads[t].sid) && Settled(s, sid) && Marked(s, sid)
    ensures Settled(q, sid) && Marked(q, sid)
  {
    HeldElsewhere(s, q, t, sid);
  }

  lemma FittingElsewhere(s: State, q: State, t: Tid, u: Tid)
    requires SingleOwner(s) && OwnerStep(s, q, t) && Owns(s.threads[t]) && MarksElsewhere(s, q, s.threads[t].sid)
    requires Fitting(s, u) && u != t && u != s.next
    ensures Fitting(q, u)
  {
    assert Apart(s, t, u);
  }

  /** After the step of an owner, only it and the thread it started can hold its session. */
  lemma HeldByOwn(s: State, q: State, t: Tid)
    requires SingleOwner(s) && OwnerStep(s, q, t) && Owns(s.threads[t])
    ensures Held(q, s.threads[t].sid) <==>
              (t in q.threads && Owns(q.threads[t])) || (s.next in q.threads && Owns(q.threads[s.next]))
  {
    if Held(q, s.threads[t].sid) {
      var u :| u in q.threads && Owns(q.threads[u]) && q.threads[u].sid == s.threads[t].sid;
      assert Apart(s, t, u);
    }
  }

  /** The part of the proof that is about the stepping owner's own session. */
  lemma AccountedBut(s: State, q: State, t: Tid)
    requires SingleOwner(s) && Accounted(s) && OwnerStep(s, q, t) && Owns(s.threads[t])
    requires MarksElsewhere(s, q, s.threads[t].sid)
    requires Fitting(q, t) && Fitting(q, s.next) && Settled(q, s.threads[t].sid) && Marked(q, s.threads[t].sid)
    ensures Accounted(q)
  {
    forall u ensures Fitting(q, u) {
      if u != t && u != s.next {
        FittingElsewhere(s, q, t, u);
      }
    }
    forall sid ensures Settled(q, sid) && Marked(q, sid) {
      if sid != s.threads[t].sid {
        SettledElsewhere(s, q, t, sid);
      }
    }
  }

  lemma ApplyAccounted(env: Env, s: State, t: Tid, r: Thread, e: Effect, c: Choice)
    requires SingleOwner(s) && Accounted(s)
    requires t in s.threads && s.threads[t] == r && r.Run? && Owns(r) && s.next !in s.threads
    requires r.sid in s.plane.mem
    requires e.run.Run? && e.run.sid == r.sid
    requires e.spawn.Some? ==> e.spawn.value.Run? && e.spawn.value.sid == r.sid && Owns(e.spawn.value)
    requires FitStep(s.plane.mem[r.sid], r.sid in s.stranded, c.pub, e)
    requires OwnerStep(s, ApplyEffect(env, s, t, r, e, c), t)
    ensures Accounted(ApplyEffect(env, s, t, r, e, c))
  {
    var q := ApplyEffect(env, s, t, r, e, c);
    PerformMove(env, s.plane, r.sid, e.move, c);
    StrandsMeansStrand(s, r.sid, e.move, c);
    HeldByOwn(s, q, t);
    assert Placed(s, t) && Fitting(s, t);
    assert q.abandoned == if e.run.pc == Exiting(Abandoned) then s.abandoned + {r.sid} else s.abandoned;
    if !Owns(e.run) {
      match e.run.pc.why {
        case Ended =>
        case Abandoned =>
        case HandedOver =>
      }
    }
    AccountedBut(s, q, t);
  }

  lemma StrandsMeansStrand(s: State, sid: Sid, move: Option<Status>, c: Choice)
    requires sid in s.plane.mem
    ensures Strands(s.plane, MoveOp(sid, move, c)) <==> Strand(s.plane.mem[sid], move, c.pub)
  {
  }

  lemma RunStepAccounted(env: Env, s: State, t: Tid, c: Choice)
    requires env.Valid() && Enabled(env, s, RunStep(t, c)) && SingleOwner(s) && Accounted(s)
    ensures Accounted(Next(env, s, RunStep(t, c)))
  {
    var r := s.threads[t];
    assert Fitting(s, t) && Placed(s, t) && Placed(s, s.next);
    StepRunFits(env, ViewOf(env, s, r), s.plane.mem[r.sid], r.sid in s.stranded, r, c);
    StepRunShape(env, ViewOf(env, s, r), r, c);
    var e := StepRun(env, ViewOf(env, s, r), r, c);
    SpawnOwns(env, ViewOf(env, s, r), r, c);
    ApplyIsOwnerStep(env, s, t, r, e, c);
    ApplyAccounted(env, s, t, r, e, c);
  }

  lemma SpawnOwns(env: Env, v: View, r: Thread, c: Choice)
    requires env.Valid() && r.Run? && !r.pc.Exiting?
    requires r.pc.BackingOff? && c.ok ==> c.noise < env.backoff.jitter
    ensures var e := StepRun(env, v, r, c); e.spawn.Some? ==> Owns(e.spawn.value)
  {
  }

  /** How a step of a call leaves its own session. */
  lemma CallMarks(env: Env, s: State, t: Tid, th: Thread, e: CallEffect, move: Option<Status>, c: Choice)
    requires SingleOwner(s) && Accounted(s)
    requires t in s.threads && s.threads[t] == th && th.Call? && s.next !in s.threads && th.sid in s.plane.mem
    requires CallFits(s.plane.mem[th.sid], th, e, move, c)
    ensures var q := ApplyCall(env, s, t, th, e);
            && th.sid in q.plane.mem && q.plane.mem[th.sid] == After(s.plane.mem[th.sid], move)
            && (th.sid in q.stranded <==> Strand(s.plane.mem[th.sid], move, c.pub))
            && th.sid !in q.abandoned && MarksElsewhere(s, q, th.sid)
  {
    StrandsMeansStrand(s, th.sid, move, c);
    if e.op == MoveOp(th.sid, move, c) {
      PerformMove(env, s.plane, th.sid, move, c);
    }
    assert Placed(s, t) && Fitting(s, t);
  }

  lemma CallAccounted(env: Env, s: State, t: Tid, th: Thread, e: CallEffect, move: Option<Status>, c: Choice)
    requires SingleOwner(s) && Accounted(s)
    requires t in s.threads && s.threads[t] == th && th.Call? && s.next !in s.threads && th.sid in s.plane.mem
    requires CallFits(s.plane.mem[th.sid], th, e, move, c)
    requires OwnerStep(s, ApplyCall(env, s, t, th, e), t)
    ensures Accounted(ApplyCall(env, s, t, th, e))
  {
    var q := ApplyCall(env, s, t, th, e);
    CallMarks(env, s, t, th, e, move, c);
    HeldByOwn(s, q, t);
    assert Placed(s, t);
    AccountedBut(s, q, t);
  }

  lemma CallStepAccounted(env: Env, s: State, t: Tid, c: Choice)
    requires env.Valid() && Enabled(env, s, CallStep(t, c)) && SingleOwner(s) && Accounted(s)
    ensures Accounted(Next(env, s, CallStep(t, c)))
  {
    var th := s.threads[t];
    assert Fitting(s, t) && Placed(s, t) && Placed(s, s.next);
    StepCallFits(env, s, th, c);
    var e := StepCall(env, s, th, c);
    CallIsOwnerStep(env, s, t, th, e);
    CallAccounted(env, s, t, th, e, MoveOf(e), c);
  }

  /** A step that leaves threads, memory and marks of a session as they are. */
  lemma KeptAsItWas(s: State, q: State, sid: Sid)
    requires forall t :: t in s.threads && Owns(s.threads[t]) ==>
               t in q.threads && Owns(q.threads[t]) && q.threads[t].sid == s.threads[t].sid
    requires forall t :: t in q.threads && Owns(q.threads[t]) && q.threads[t].sid == sid ==>
               t in s.threads && Owns(s.threads[t]) && s.threads[t].sid == sid
    requires sid in q.plane.mem <==> sid in s.plane.mem
    requires sid in s.plane.mem ==> q.plane.mem[sid] == s.plane.mem[sid]
    requires sid in q.todo <==> sid in s.todo
    requires q.abandoned == s.abandoned && q.stranded == s.stranded && q.starts == s.starts
    requires Settled(s, sid) && Marked(s, sid)
    ensures Settled(q, sid) && Marked(q, sid)
  {
    HeldGrows(s, q, sid);
    HeldShrinks(s, q, sid);
  }

  /** A call appears for a session that nobody owned, and the session's status may have changed; nothing
      is known to have happened to the others. */
  ghost predicate Arrival(s: State, q: State, sid: Sid, call: Option<Thread>) {
    && q.threads == (if call.Some? then s.threads[s.next := call.value] else s.threads)
    && (call.Some? ==> call.value.Call? && call.value.sid == sid && sid in q.plane.mem
                       && Fits(q.plane.mem[sid], false, call.value))
    && q.abandoned == s.abandoned && q.stranded == s.stranded && q.starts == s.starts
    && (forall x :: x != sid ==> (x in q.todo <==> x in s.todo) && (x in q.plane.mem <==> x in s.plane.mem))
    && (forall x :: x != sid && x in s.plane.mem ==> q.plane.mem[x] == s.plane.mem[x])
  }

  lemma ArrivalAccounted(s: State, q: State, sid: Sid, call: Option<Thread>)
    requires SingleOwner(s) && Accounted(s) && s.next !in s.threads && Arrival(s, q, sid, call)
    requires forall t :: t in s.threads && Owns(s.threads[t]) ==> s.threads[t].sid != sid
    requires sid !in s.abandoned && sid !in s.stranded
    requires call.None? ==> Settled(q, sid)
    ensures Accounted(q)
  {
    forall u ensures Fitting(q, u) {
      assert Fitting(s, u);
    }
    forall x ensures Settled(q, x) && Marked(q, x) {
      assert Settled(s, x) && Marked(s, x);
      if x != sid {
        KeptAsItWas(s, q, x);
      } else if call.Some? {
        assert q.threads[s.next].sid == sid;
      }
    }
  }

  lemma SubmitAccounted(env: Env, s: State, sid: Sid, insert: P.Insert)
    requires env.Valid() && Enabled(env, s, Submit(sid, insert)) && SingleOwner(s) && Accounted(s)
    requires P.CreateSucceeds(env.hasStore, s.plane, sid, insert) && sid !in s.plane.mem
    ensures Accounted(Next(env, s, Submit(sid, insert)))
  {
    var q := Next(env, s, Submit(sid, insert));
    assert Placed(s, s.next) && Marked(s, sid);
    assert q.plane.mem == s.plane.mem[sid := Created];
    forall t | t in s.threads && Owns(s.threads[t]) ensures s.threads[t].sid != sid {
      assert Placed(s, t);
    }
    ArrivalAccounted(s, q, sid, Some(Call(sid, false, Emitting)));
  }

  /** A submission that the store refuses. */
  lemma RefusedAccounted(env: Env, s: State, sid: Sid, insert: P.Insert)
    requires env.Valid() && Enabled(env, s, Submit(sid, insert)) && Accounted(s)
    requires !P.CreateSucceeds(env.hasStore, s.plane, sid, insert)
    ensures Accounted(Next(env, s, Submit(sid, insert)))
  {
    var q := Next(env, s, Submit(sid, insert));
    assert q == s.(plane := q.plane) && q.plane.mem == s.plane.mem;
    forall u ensures Fitting(q, u) {
      assert Fitting(s, u);
    }
    forall x ensures Settled(q, x) && Marked(q, x) {
      KeptAsItWas(s, q, x);
    }
  }

  lemma HeldGrows(s: State, q: State, sid: Sid)
    requires forall t :: t in s.threads && Owns(s.threads[t]) ==>
               t in q.threads && Owns(q.threads[t]) && q.threads[t].sid == s.threads[t].sid
    ensures Held(s, sid) ==> Held(q, sid)
  {
  }

  lemma HeldShrinks(s: State, q: State, sid: Sid)
    requires forall t :: t in q.threads && Owns(q.threads[t]) && q.threads[t].sid == sid ==>
               t in s.threads && Owns(s.threads[t]) && s.threads[t].sid == sid
    ensures Held(q, sid) ==> Held(s, sid)
  {
  }

  lemma RecoverAccounted(env: Env, s: State, sid: Sid, recent: bool, c: Choice)
    requires env.Valid() && Enabled(env, s, Recover(sid, recent, c)) && SingleOwner(s) && Accounted(s)
    ensures Accounted(Next(env, s, Recover(sid, recent, c)))
  {
    var q := Next(env, s, Recover(sid, recent, c));
    assert Unclaimed(s, sid) && Placed(s, s.next) && Marked(s, sid);
    PerformMove(env, s.plane, sid, Disposition(s.todo[sid], recent).move, c);
    forall t | t in s.threads && Owns(s.threads[t]) ensures s.threads[t].sid != sid {
      assert Placed(s, t);
    }
    ArrivalAccounted(s, q, sid, if Disposition(s.todo[sid], recent).resume then Some(Call(sid, true, Checking)) else None);
  }

  lemma RebootAccounted(env: Env, s: State, reaped: set<Box>)
    ensures Accounted(Restart(s, reaped))
  {
    var q := Restart(s, reaped);
    forall x ensures Settled(q, x) && Marked(q, x) {
    }
  }

  /** The owners are the same, each at a point where it may find the same statuses. */
  ghost predicate Aside(s: State, q: State) {
    && q.plane == s.plane && q.todo == s.todo && q.starts == s.starts
    && q.abandoned == s.abandoned && q.stranded == s.stranded
    && (forall t :: (t in q.threads && Owns(q.threads[t])) <==> (t in s.threads && Owns(s.threads[t])))
    && (forall t :: t in q.threads && Owns(q.threads[t]) ==>
          && q.threads[t].sid == s.threads[t].sid
          && forall st, stuck :: Fits(st, stuck, s.threads[t]) ==> Fits(st, stuck, q.threads[t]))
  }

  lemma AsideAccounted(s: State, q: State)
    requires Accounted(s) && Aside(s, q)
    ensures Accounted(q)
  {
    forall u ensures Fitting(q, u) {
      assert Fitting(s, u);
    }
    forall x ensures Settled(q, x) && Marked(q, x) {
      KeptAsItWas(s, q, x);
    }
  }

  lemma AnswerAside(env: Env, s: State, t: Tid, granted: bool)
    requires env.Valid() && Enabled(env, s, Answer(t, granted))
    ensures Aside(s, Next(env, s, Answer(t, granted)))
  {
  }

  lemma BeatAside(env: Env, s: State, t: Tid, beat: Beat)
    requires env.Valid() && Enabled(env, s, BeatStep(t, beat))
    ensures Aside(s, Next(env, s, BeatStep(t, beat)))
  {
  }

  lemma OtherAccounted(env: Env, s: State, a: Action)
    requires env.Valid() && Enabled(env, s, a) && Accounted(s)
    requires !a.RunStep? && !a.CallStep? && !a.Submit? && !a.Recover? && !a.Reboot?
    ensures Accounted(Next(env, s, a))
  {
    if a.Answer? {
      AnswerAside(env, s, a.t, a.granted);
    } else if a.BeatStep? {
      BeatAside(env, s, a.t, a.beat);
    }
    AsideAccounted(s, Next(env, s, a));
  }

  lemma StepAccounted(env: Env, s: State, a: Action)
    requires env.Valid() && env.Unique() && Enabled(env, s, a)
    requires SingleOwner(s) && Accounted(s) && P.Tracks(env.hasStore, s.plane)
    ensures Accounted(Next(env, s, a))
  {
    match a
    case RunStep(t, c) => RunStepAccounted(env, s, t, c);
    case CallStep(t, c) => CallStepAccounted(env, s, t, c);
    case Submit(sid, insert) =>
      if !P.CreateSucceeds(env.hasStore, s.plane, sid, insert) {
        RefusedAccounted(env, s, sid, insert);
      } else {
        if env.hasStore {
          P.CreateIsFresh(s.plane, sid, insert);
        }
        SubmitAccounted(env, s, sid, insert);
      }
    case Recover(sid, recent, c) => RecoverAccounted(env, s, sid, recent, c);
    case Reboot(reaped) => RebootAccounted(env, s, reaped);
    case _ => OtherAccounted(env, s, a);
  }

  /** In every reachable state, with one owner per session, every session in memory is accounted for,
      whatever the bus does. */
  lemma {:induction false} AlwaysAccounted(env: Env, ss: seq<State>, acts: seq<Action>, i: nat)
    requires IsRun(env, ss, acts) && env.Unique() && i < |ss|
    ensures Accounted(ss[i])
  {
    if i > 0 {
      AlwaysAccounted(env, ss, acts, i - 1);
      AlwaysSingleOwner(env, ss, acts, i - 1);
      Ownership.RunTracks(env, ss, acts, i - 1);
      StepAccounted(env, ss[i - 1], acts[i - 1]);
    }
  }

  /** Every launched chain of runs that has no goroutine left is COMPLETED or FAILED, with exactly two
      exceptions: it was cancelled during backoff, or its transition to RUNNING or APPROVAL went through
      and the event was not published. In these two it is not finished, and stays so. */
  lemma ChainsEndExactly(env: Env, ss: seq<State>, acts: seq<Action>, i: nat, sid: Sid)
    requires IsRun(env, ss, acts) && env.Unique() && i < |ss|
    requires sid in ss[i].starts && !Held(ss[i], sid)
    ensures sid in ss[i].plane.mem
    ensures !Terminal(ss[i].plane.mem[sid]) <==> sid in ss[i].abandoned || sid in ss[i].stranded
    ensures sid in ss[i].abandoned ==> ss[i].plane.mem[sid] == Running
    ensures sid in ss[i].stranded ==> ss[i].plane.mem[sid] == Running || ss[i].plane.mem[sid] == Approval
  {
    AlwaysAccounted(env, ss, acts, i);
    AlwaysSingleOwner(env, ss, acts, i);
    assert Settled(ss[i], sid) && Marked(ss[i], sid) && Unclaimed(ss[i], sid);
  }

  lemma {:induction false} NoneStranded(env: Env, ss: seq<State>, acts: seq<Action>, i: nat)
    requires IsRun(env, ss, acts) && env.busOk && i < |ss|
    ensures ss[i].stranded == {}
  {
    if i > 0 {
      NoneStranded(env, ss, acts, i - 1);
      StepStrandsNone(env, ss[i - 1], acts[i - 1]);
    }
  }

  lemma StepStrandsNone(env: Env, s: State, a: Action)
    requires env.Valid() && env.busOk && Enabled(env, s, a) && s.stranded == {}
    ensures Next(env, s, a).stranded == {}
  {
    match a
    case CallStep(t, c) => assert !Strands(s.plane, StepCall(env, s, s.threads[t], c).op);
    case RunStep(t, c) =>
      var r := s.threads[t];
      assert !Strands(s.plane, MoveOp(r.sid, StepRun(env, ViewOf(env, s, r), r, c).move, c));
    case _ =>
  }

  /** With a bus whose Publish returns nil, the one exception is cancellation during backoff. */
  lemma ChainsEndTerminal(env: Env, ss: seq<State>, acts: seq<Action>, i: nat, sid: Sid)
    requires IsRun(env, ss, acts) && env.Unique() && env.busOk && i < |ss|
    requires sid in ss[i].starts && !Held(ss[i], sid)
    ensures sid in ss[i].plane.mem
    ensures Terminal(ss[i].plane.mem[sid]) <==> sid !in ss[i].abandoned
    ensures sid in ss[i].abandoned ==> ss[i].plane.mem[sid] == Running
  {
    ChainsEndExactly(env, ss, acts, i, sid);
    NoneStranded(env, ss, acts, i);
  }

  /** Once the recovery loop has dealt with a session, it is not left unowned in CANCELLING, and without an
      owner it is unfinished only if it was never launched, cancelled in backoff, or stranded. */
  lemma NothingStuck(env: Env, ss: seq<State>, acts: seq<Action>, i: nat, sid: Sid)
    requires IsRun(env, ss, acts) && env.Unique() && i < |ss|
    requires sid in ss[i].plane.mem && sid !in ss[i].todo && !Held(ss[i], sid)
    ensures var st := ss[i].plane.mem[sid];
            || Terminal(st)
            || (st == Created && sid !in ss[i].starts)
            || (st == Running && (sid in ss[i].abandoned || sid !in ss[i].starts))
            || (sid in ss[i].stranded && (st == Allocating || st == Running || st == Approval))
    ensures env.busOk ==> sid !in ss[i].stranded
  {
    AlwaysAccounted(env, ss, acts, i);
    if env.busOk {
      NoneStranded(env, ss, acts, i);
    }
    assert Settled(ss[i], sid) && Marked(ss[i], sid);
  }
}
