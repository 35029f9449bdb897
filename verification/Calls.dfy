/** What becomes of a submission, a resumption and a recovered row, told from the outcomes of the calls they
    make (internal/coordinator/coordinator.go, internal/core/builder.go). */
module Calls {
  import opened Lifecycle
  import opened Engine
  import opened Ownership
  import opened History
  import P = Plane
  import Chains

  /** The outcomes so far of `SubmitTask` or `ResumeSession`. */
  datatype Tale = Tale(
    announced: Option<bool>,    // the event of the creation was published
    admitted: Option<bool>,     // the coordinator was accepting and below its limit
    moved: Option<bool>,        // the event of the transition to ALLOCATING was published
    resolved: Option<bool>)     // the tools were resolved

  const SILENT := Tale(None, None, None, None)

  function Heard(env: Env, tale: Tale, s: State, th: Thread, c: Choice): Tale
    requires th.Call?
  {
    match th.at
    case Emitting => tale.(announced := Some(c.pub))
    case Checking => tale.(admitted := Some(s.accepting && |s.active| < env.maxConcurrent))
    case Admitted => if th.resume then tale else tale.(moved := Some(c.pub))
    case Resolving => tale.(resolved := Some(c.ok))
    case CallFailing => tale
  }

  function Tell(env: Env, tale: Tale, s: State, a: Action, t: Tid): Tale {
    if a.CallStep? && a.t == t && t in s.threads && s.threads[t].Call? then Heard(env, tale, s, s.threads[t], a.c) else tale
  }

  function TaleOf(env: Env, ss: seq<State>, acts: seq<Action>, i: nat, t: Tid): Tale
    requires i <= |acts| < |ss|
    decreases i
  {
    if i == 0 then SILENT else Tell(env, TaleOf(env, ss, acts, i - 1, t), ss[i - 1], acts[i - 1], t)
  }

  /** What is told at each point of a call; a resumption has no creation to announce and stays RUNNING. */
  predicate Told(at: CallPc, resume: bool, tale: Tale) {
    var begun := if resume then SILENT else SILENT.(announced := Some(true));
    var admitted := begun.(admitted := Some(true));
    var moved := if resume then admitted else admitted.(moved := Some(true));
    match at
    case Emitting => tale == SILENT && !resume
    case Checking => tale == begun
    case Admitted => tale == admitted
    case Resolving => tale == moved
    case CallFailing => tale == moved.(resolved := Some(false))
  }

  ghost predicate ToldOf(s: State, t: Tid, tale: Tale) {
    && (t in s.threads && s.threads[t].Call? ==> Told(s.threads[t].at, s.threads[t].resume, tale))
    && (t >= s.next || (t in s.threads && s.threads[t].Run?) ==> tale == SILENT)
  }

  lemma PointTold(env: Env, s: State, th: Thread, c: Choice, tale: Tale)
    requires th.Call? && Told(th.at, th.resume, tale)
    ensures var e := StepCall(env, s, th, c); e.at.Some? ==> Told(e.at.value, th.resume, Heard(env, tale, s, th, c))
  {
  }

  lemma ApplyTold(env: Env, s: State, u: Tid, th: Thread, e: CallEffect, t: Tid, tale: Tale, more: Tale)
    requires u in s.threads && s.threads[u] == th && th.Call? && Numbered(s) && ToldOf(s, t, tale)
    requires if u == t then e.at.Some? ==> Told(e.at.value, th.resume, more) else more == tale
    ensures ToldOf(ApplyCall(env, s, u, th, e), t, more)
  {
  }

  lemma CallTold(env: Env, s: State, u: Tid, c: Choice, t: Tid, tale: Tale)
    requires env.Valid() && Enabled(env, s, CallStep(u, c)) && Numbered(s) && ToldOf(s, t, tale)
    ensures ToldOf(Next(env, s, CallStep(u, c)), t, Tell(env, tale, s, CallStep(u, c), t))
  {
    if u == t {
      PointTold(env, s, s.threads[u], c, tale);
    }
    ApplyTold(env, s, u, s.threads[u], StepCall(env, s, s.threads[u], c), t, tale, Tell(env, tale, s, CallStep(u, c), t));
  }

  lemma RunTold(env: Env, s: State, u: Tid, r: Thread, e: Effect, c: Choice, t: Tid, tale: Tale)
    requires u in s.threads && s.threads[u] == r && r.Run? && Numbered(s) && ToldOf(s, t, tale)
    requires e.run.Run? && (e.spawn.Some? ==> e.spawn.value.Run?)
    ensures ToldOf(ApplyEffect(env, s, u, r, e, c), t, tale)
  {
  }

  lemma OtherTold(env: Env, s: State, a: Action, t: Tid, tale: Tale)
    requires env.Valid() && Enabled(env, s, a) && !a.RunStep? && !a.CallStep? && Numbered(s) && ToldOf(s, t, tale)
    ensures ToldOf(Next(env, s, a), t, tale)
  {
  }

  lemma StepTold(env: Env, s: State, a: Action, t: Tid, tale: Tale)
    requires env.Valid() && Enabled(env, s, a) && Numbered(s) && ToldOf(s, t, tale)
    ensures ToldOf(Next(env, s, a), t, Tell(env, tale, s, a, t))
  {
    if a.CallStep? {
      CallTold(env, s, a.t, a.c, t, tale);
    } else if a.RunStep? {
      var r := s.threads[a.t];
      StepRunShape(env, ViewOf(env, s, r), r, a.c);
      RunTold(env, s, a.t, r, StepRun(env, ViewOf(env, s, r), r, a.c), a.c, t, tale);
    } else {
      OtherTold(env, s, a, t, tale);
    }
  }

  lemma {:induction false} AlwaysTold(env: Env, ss: seq<State>, acts: seq<Action>, i: nat, t: Tid)
    requires IsRun(env, ss, acts) && i < |ss|
    ensures ToldOf(ss[i], t, TaleOf(env, ss, acts, i, t))
  {
    if i > 0 {
      AlwaysTold(env, ss, acts, i - 1, t);
      AlwaysNumbered(env, ss, acts, i - 1);
      StepTold(env, ss[i - 1], acts[i - 1], t, TaleOf(env, ss, acts, i - 1, t));
    }
  }

  /** The step has registered and launched the first run of the session. */
  predicate Launches(s: State, q: State, sid: Sid) {
    s.next in q.threads && q.threads[s.next] == FirstRun(sid) && sid in q.active && q.active[sid] == s.next
  }

  /** How a call that returns has left its session. */
  ghost predicate Left(s: State, q: State, sid: Sid, resume: bool, tale: Tale) {
    && sid in q.plane.mem
    && var status, waiting := q.plane.mem[sid], if resume then Running else Created;
       && (tale.resolved == Some(true) <==> Launches(s, q, sid))
       && (tale.resolved == Some(true) ==> status == if resume then Running else Allocating)
       && (tale.resolved == Some(false) <==> status == Failed)
       && (tale.announced == Some(false) || tale.admitted == Some(false) <==> !Launches(s, q, sid) && status == waiting)
       && (tale.moved == Some(false) <==> !Launches(s, q, sid) && status == Allocating)
       && (Launches(s, q, sid) <==> Chains.Held(q, sid))
  }

  /** The last step of a call. */
  lemma LastStep(env: Env, s: State, th: Thread, status: Status, c: Choice, tale: Tale)
    requires th.Call? && th.sid in s.plane.mem && s.plane.mem[th.sid] == status
    requires Told(th.at, th.resume, tale) && Chains.Fits(status, false, th) && StepCall(env, s, th, c).at.None?
    ensures var e, more := StepCall(env, s, th, c), Heard(env, tale, s, th, c);
            var now, waiting := Chains.After(status, Chains.MoveOf(e)), if th.resume then Running else Created;
            && (e.launch <==> more.resolved == Some(true))
            && (e.launch ==> now == if th.resume then Running else Allocating)
            && (more.resolved == Some(false) <==> now == Failed)
            && (more.announced == Some(false) || more.admitted == Some(false) <==> !e.launch && now == waiting)
            && (more.moved == Some(false) <==> !e.launch && now == Allocating)
  {
  }

  lemma ApplyLeaves(env: Env, s: State, t: Tid, th: Thread, e: CallEffect, status: Status, c: Choice)
    requires t in s.threads && s.threads[t] == th && th.Call? && Numbered(s) && e.at.None?
    requires th.sid in s.plane.mem && s.plane.mem[th.sid] == status && Chains.CallFits(status, th, e, Chains.MoveOf(e), c)
    ensures var q := ApplyCall(env, s, t, th, e);
            && th.sid in q.plane.mem && q.plane.mem[th.sid] == Chains.After(status, Chains.MoveOf(e))
            && (e.launch <==> Launches(s, q, th.sid)) && t !in q.threads
            && (s.next in q.threads <==> e.launch)
  {
    if e.op == MoveOp(th.sid, Chains.MoveOf(e), c) {
      Chains.PerformMove(env, s.plane, th.sid, Chains.MoveOf(e), c);
    }
  }

  lemma ReturnLeaves(env: Env, s: State, t: Tid, c: Choice, tale: Tale)
    requires env.Valid() && Enabled(env, s, CallStep(t, c)) && Numbered(s) && SingleOwner(s) && Chains.Accounted(s)
    requires ToldOf(s, t, tale) && StepCall(env, s, s.threads[t], c).at.None?
    ensures var th := s.threads[t];
            Left(s, Next(env, s, CallStep(t, c)), th.sid, th.resume, Tell(env, tale, s, CallStep(t, c), t))
  {
    var th, q := s.threads[t], Next(env, s, CallStep(t, c));
    var e := StepCall(env, s, th, c);
    assert Placed(s, t) && Placed(s, s.next) && Chains.Fitting(s, t);
    LastStep(env, s, th, s.plane.mem[th.sid], c, tale);
    Chains.StepCallFits(env, s, th, c);
    ApplyLeaves(env, s, t, th, e, s.plane.mem[th.sid], c);
    CallIsOwnerStep(env, s, t, th, e);
    Chains.HeldByOwn(s, q, t);
  }

  lemma GoneMeansReturned(env: Env, s: State, t: Tid, th: Thread, e: CallEffect)
    requires th.Call? && t !in ApplyCall(env, s, t, th, e).threads
    ensures e.at.None? || e.launch
  {
  }

  /** How every submission and resumption returns, read off the outcomes of its calls, with one owner per session.
      It has launched a run, registered in `active`, if and only if its tools were resolved; it has failed the
      session if and only if they were not; and it has left it as it was if and only if its announcement or its
      admission was refused. */
  lemma CallsReturnAsTold(env: Env, ss: seq<State>, acts: seq<Action>, i: nat, t: Tid, c: Choice)
    requires IsRun(env, ss, acts) && env.Unique() && i < |acts| && acts[i] == CallStep(t, c) && t !in ss[i + 1].threads
    ensures var th := ss[i].threads[t]; Left(ss[i], ss[i + 1], th.sid, th.resume, TaleOf(env, ss, acts, i + 1, t))
  {
    AlwaysTold(env, ss, acts, i, t);
    AlwaysNumbered(env, ss, acts, i);
    AlwaysSingleOwner(env, ss, acts, i);
    Chains.AlwaysAccounted(env, ss, acts, i);
    GoneMeansReturned(env, ss[i], t, ss[i].threads[t], StepCall(env, ss[i], ss[i].threads[t], c));
    ReturnLeaves(env, ss[i], t, c, TaleOf(env, ss, acts, i, t));
  }

  // Recovery.

  /** A pass of the recovery loop over a row, with one owner per session: a recent RUNNING session gets a call that
      resumes it and stays RUNNING; a CREATED one is left alone; an APPROVAL one is CANCELLING and gets another
      pass; every other one is FAILED. Only what is resumed has an owner afterwards. */
  lemma RecoveryPass(env: Env, ss: seq<State>, acts: seq<Action>, i: nat, sid: Sid, recent: bool, c: Choice)
    requires IsRun(env, ss, acts) && env.Unique() && i < |acts| && acts[i] == Recover(sid, recent, c)
    ensures sid in ss[i].plane.mem && sid in ss[i + 1].plane.mem
    ensures var was, status := ss[i].plane.mem[sid], ss[i + 1].plane.mem[sid];
            if was == Running && recent then
              status == Running && sid !in ss[i + 1].todo
              && ss[i].next in ss[i + 1].threads && ss[i + 1].threads[ss[i].next] == Call(sid, true, Checking)
            else
              && !Chains.Held(ss[i + 1], sid)
              && (if was == Created then status == Created && sid !in ss[i + 1].todo
                  else if was == Approval then status == Cancelling && sid in ss[i + 1].todo && ss[i + 1].todo[sid] == Cancelling
                  else status == Failed && sid !in ss[i + 1].todo)
  {
    AlwaysNumbered(env, ss, acts, i);
    AlwaysSingleOwner(env, ss, acts, i);
    var s := ss[i];
    assert Unclaimed(s, sid);
    Chains.PerformMove(env, s.plane, sid, Disposition(s.todo[sid], recent).move, c);
    forall u | u in s.threads && Owns(s.threads[u]) ensures s.threads[u].sid != sid {
      assert Placed(s, u);
    }
  }

  /** A restart: memory and the recovery loop's list are the unfinished rows, no goroutine is left, the coordinator
      accepts again with nothing active and no crash counted, and every sandbox not destroyed is an orphan. */
  lemma RestartStartsOver(env: Env, ss: seq<State>, acts: seq<Action>, i: nat, reaped: set<Box>)
    requires IsRun(env, ss, acts) && i < |acts| && acts[i] == Reboot(reaped)
    ensures var s, q := ss[i], ss[i + 1];
            && (forall sid :: sid in q.plane.mem <==> sid in s.plane.rows && !Terminal(s.plane.rows[sid]))
            && (forall sid :: sid in q.plane.mem ==> q.plane.mem[sid] == s.plane.rows[sid])
            && q.plane.rows == s.plane.rows && q.todo == q.plane.mem
            && q.threads == map[] && q.accepting && q.active == map[] && q.attempts == map[] && q.starts == map[]
            && q.boxes.Keys == s.boxes.Keys
            && (forall b :: b in s.boxes ==>
                  && q.boxes[b].destroys == s.boxes[b].destroys
                  && (q.boxes[b].lost <==> s.boxes[b].lost || s.boxes[b].destroys == 0)
                  && (q.boxes[b].live <==> s.boxes[b].live && b !in reaped))
  {
  }

  // What the surroundings may do.

  function Outcome(ok: bool, pub: bool, result: ExecResult, box: Box, wake: Wake): Choice {
    Choice(ok, true, pub, result, box, wake, 0)
  }

  /** The engine leaves the outcomes of a run's calls open: any preparation can fail or succeed, Execute can come
      back with any result, a wait can always time out, and ends with a reply exactly if there is one and by
      cancellation exactly if the context is cancelled; a backoff can be slept through, and is cut short exactly
      if the context is cancelled; Publish and Destroy can fail unless they are assumed not to. */
  lemma NothingIsExcluded(env: Env, s: State, t: Tid, ok: bool, pub: bool, result: ExecResult, box: Box, wake: Wake)
    requires env.Valid() && t in s.threads && s.threads[t].Run? && Owns(s.threads[t]) && box !in s.boxes
    requires env.busOk ==> pub
    ensures var r, a := s.threads[t], RunStep(t, Outcome(ok, pub, result, box, wake));
            match r.pc
            case Waiting(_, inbox) =>
              Enabled(env, s, a) <==> (wake == Reply ==> inbox.Some?) && (wake == CtxDone ==> r.cancelled)
            case BackingOff(_) => Enabled(env, s, a) <==> ok || r.cancelled
            case Cleaning(_) => Enabled(env, s, a) <==> ok || !env.destroyOk
            case CrashCleaning(_) => Enabled(env, s, a) <==> ok || !env.destroyOk
            case _ => Enabled(env, s, a)
  {
  }

  /** And what clients, operators and the clock do: with a store anybody may submit any id at any time, a waiting
      run can be answered either way, every run can be cancelled, the coordinator can be told to stop, the
      process can die, a row awaiting recovery can be of any age, and the heart of a watched run can beat or fail. */
  lemma AnythingMayHappen(env: Env, s: State, t: Tid, sid: Sid, insert: P.Insert, granted: bool, recent: bool, alive: bool)
    requires env.Valid()
    ensures env.hasStore ==> Enabled(env, s, Submit(sid, insert))
    ensures t in s.threads && s.threads[t].Run? ==>
              && Enabled(env, s, Cancel(t))
              && (Enabled(env, s, Answer(t, granted)) <==> s.threads[t].pc.Waiting?)
              && (s.threads[t].pc.Exiting? <==> Enabled(env, s, Exit(t)))
              && (s.threads[t].pulse.phase.Watching? ==> Enabled(env, s, BeatStep(t, if alive then Alive else Dead)))
              && (s.threads[t].pulse.phase.Watching? && s.threads[t].cancelled ==> Enabled(env, s, BeatStep(t, Stop)))
    ensures t in s.threads && s.threads[t].Call? ==> Enabled(env, s, CallStep(t, Outcome(alive, true, ExecError, 0, Reply)))
    ensures Enabled(env, s, StopAccepting) && Enabled(env, s, Reboot(set b | b in s.boxes :: b))
    ensures sid in s.todo ==> Enabled(env, s, Recover(sid, recent, Outcome(true, true, ExecError, 0, Reply)))
  {
  }
}
