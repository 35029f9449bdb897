/** The approval gate over whole histories. */
module ApprovalGate {
  import opened Lifecycle
  import opened Engine
  import opened Ownership
  import opened History
  import P = Plane

  /** Run `t` may complete its session: its agent exited 0, and either none of the tool calls it made is
      covered by an approval policy, or the first answer it got was a grant and it had not given up. */
  ghost predicate Cleared(env: Env, log: Log, t: Tid) {
    && Result(log, t).Some?
    && Result(log, t).value.exit == 0
    && (Gated(env, Result(log, t).value.lines) ==> FirstAnswer(log, t) == Some(true) && !GaveUp(log, t))
  }

  /** Every completion in a history was cleared at the time it happened. */
  ghost predicate AllCleared(env: Env, log: Log) {
    match log
    case Nil => true
    case Snoc(prev, t, _, what) => AllCleared(env, prev) && (what.DidComplete? ==> Cleared(env, prev, t))
  }

  /** Every completion in a history was by the run of its session that had been started last. */
  ghost predicate AllByLatest(log: Log) {
    match log
    case Nil => true
    case Snoc(prev, t, sid, what) =>
      AllByLatest(prev) && (what.DidComplete? ==> LastStarted(prev, sid) == Some(t))
  }

  /** What the history says about a run at each point of its program. */
  ghost predicate Witnessed(env: Env, log: Log, t: Tid, pc: RunPc) {
    match pc
    case Returned(result) =>
      && FirstAnswer(log, t).None? && !GaveUp(log, t)
      && (result.ExecDone? ==> Result(log, t) == Some(Outcome(result.exit, result.lines)))
    case Judging(exit, lines) =>
      FirstAnswer(log, t).None? && !GaveUp(log, t) && Result(log, t) == Some(Outcome(exit, lines))
    case Waiting(lines, inbox) =>
      FirstAnswer(log, t) == inbox && !GaveUp(log, t) && Result(log, t) == Some(Outcome(0, lines))
    case Closing(lines) => Result(log, t) == Some(Outcome(0, lines)) && Cleared(env, log, t)
    case Completing(lines) => Result(log, t) == Some(Outcome(0, lines)) && Cleared(env, log, t)
    case Starting => FirstAnswer(log, t).None? && !GaveUp(log, t)
    case Provisioning => FirstAnswer(log, t).None? && !GaveUp(log, t)
    case Verifying => FirstAnswer(log, t).None? && !GaveUp(log, t)
    case Launching => FirstAnswer(log, t).None? && !GaveUp(log, t)
    case Promoting => FirstAnswer(log, t).None? && !GaveUp(log, t)
    case Reopening(lines) => Result(log, t) == Some(Outcome(0, lines)) && Cleared(env, log, t)
    case Executing => FirstAnswer(log, t).None? && !GaveUp(log, t)
    case _ => true
  }

  /** A step leaves the run with what the history says about its new point, and completes only if cleared. */
  ghost predicate WitnessedStep(env: Env, log: Log, t: Tid, r: Thread, e: Effect)
    requires r.Run?
  {
    && e.run.Run? && Witnessed(env, Noted(log, t, r.sid, e.note), t, e.run.pc)
    && (e.note == Some(DidComplete) ==> Cleared(env, log, t))
    && (e.spawn.Some? ==> e.spawn.value.Run? && e.spawn.value.pc.Starting?)
  }

  lemma LaunchWitnessed(env: Env, v: View, r: Thread, c: Choice, log: Log, t: Tid)
    requires r.Run? && InSetup(r.pc) && Witnessed(env, log, t, r.pc)
    ensures WitnessedStep(env, log, t, r, StepLaunch(env, v, r, c))
  {
  }

  lemma ExecuteWitnessed(env: Env, r: Thread, c: Choice, log: Log, t: Tid)
    requires r.Run? && (r.pc.Executing? || r.pc.Returned?) && Witnessed(env, log, t, r.pc)
    ensures WitnessedStep(env, log, t, r, StepExecute(r, c))
  {
  }

  lemma JudgeWitnessed(env: Env, v: View, r: Thread, c: Choice, log: Log, t: Tid)
    requires r.Run? && r.pc.Judging? && Witnessed(env, log, t, r.pc)
    requires v.gated <==> Gated(env, r.pc.lines)
    ensures WitnessedStep(env, log, t, r, StepDecide(v, r, c))
  {
    assert r.pc.exit == 0 && !v.gated ==> Cleared(env, log, t);
  }

  lemma WaitWitnessed(env: Env, v: View, r: Thread, c: Choice, log: Log, t: Tid)
    requires r.Run? && r.pc.Waiting? && Witnessed(env, log, t, r.pc)
    requires c.wake == Reply ==> r.pc.inbox.Some?
    ensures WitnessedStep(env, log, t, r, StepDecide(v, r, c))
  {
    assert r.pc.inbox == Some(true) ==> Cleared(env, log, t);
  }

  lemma CloseWitnessed(env: Env, v: View, r: Thread, c: Choice, log: Log, t: Tid)
    requires r.Run? && (r.pc.Closing? || r.pc.Reopening?) && Witnessed(env, log, t, r.pc)
    ensures WitnessedStep(env, log, t, r, StepDecide(v, r, c))
  {
    var e := StepDecide(v, r, c);
    assert e.note.None? && e.spawn.None?;
    assert e.run.pc == Completing(r.pc.lines) || e.run.pc == Reopening(r.pc.lines) || e.run.pc == Cleaning(false);
  }

  lemma CompleteWitnessed(env: Env, v: View, r: Thread, c: Choice, log: Log, t: Tid)
    requires r.Run? && r.pc.Completing? && Witnessed(env, log, t, r.pc)
    ensures WitnessedStep(env, log, t, r, StepEnd(v, r, c))
  {
  }

  lemma EndWitnessed(env: Env, v: View, r: Thread, c: Choice, log: Log, t: Tid)
    requires r.Run? && (r.pc.Failing? || r.pc.Cleaning?) && Witnessed(env, log, t, r.pc)
    ensures WitnessedStep(env, log, t, r, StepEnd(v, r, c))
  {
    var e := StepEnd(v, r, c);
    assert e.note.None? && e.spawn.None?;
    assert e.run.Run? && (e.run.pc.Failing? || e.run.pc.Cleaning? || e.run.pc.Exiting?);
  }

  lemma CrashWitnessed(env: Env, v: View, r: Thread, c: Choice, log: Log, t: Tid)
    requires env.Valid() && r.Run? && InCrash(r.pc)
    requires r.pc.BackingOff? && c.ok ==> c.noise < env.backoff.jitter
    ensures WitnessedStep(env, log, t, r, StepCrash(env, v, r, c))
  {
    var e := StepCrash(env, v, r, c);
    assert e.note.None? && e.run.Run? && !Early(e.run.pc) && !InDecision(e.run.pc) && !e.run.pc.Completing?;
  }

  lemma StepRunWitnessed(env: Env, v: View, r: Thread, c: Choice, log: Log, t: Tid)
    requires env.Valid() && r.Run? && !r.pc.Exiting? && Witnessed(env, log, t, r.pc)
    requires r.pc.BackingOff? && c.ok ==> c.noise < env.backoff.jitter
    requires r.pc.Judging? ==> (v.gated <==> Gated(env, r.pc.lines))
    requires r.pc.Waiting? && c.wake == Reply ==> r.pc.inbox.Some?
    ensures WitnessedStep(env, log, t, r, StepRun(env, v, r, c))
  {
    if InSetup(r.pc) {
      LaunchWitnessed(env, v, r, c, log, t);
    } else if Early(r.pc) {
      ExecuteWitnessed(env, r, c, log, t);
    } else if r.pc.Judging? {
      JudgeWitnessed(env, v, r, c, log, t);
    } else if r.pc.Waiting? {
      WaitWitnessed(env, v, r, c, log, t);
    } else if InDecision(r.pc) {
      CloseWitnessed(env, v, r, c, log, t);
    } else if r.pc.Completing? {
      CompleteWitnessed(env, v, r, c, log, t);
    } else if InEnd(r.pc) {
      EndWitnessed(env, v, r, c, log, t);
    } else {
      CrashWitnessed(env, v, r, c, log, t);
    }
  }

  ghost predicate Backed(env: Env, s: State, t: Tid) {
    t in s.threads && s.threads[t].Run? ==> Witnessed(env, s.log, t, s.threads[t].pc)
  }

  lemma WitnessedElsewhere(env: Env, before: Log, after: Log, who: set<Tid>, t: Tid, pc: RunPc)
    requires Extends(before, after, who) && t !in who && Witnessed(env, before, t, pc)
    ensures Witnessed(env, after, t, pc)
  {
    ExtendsElsewhere(before, after, who, t);
  }

  lemma ApplyBacked(env: Env, s: State, t: Tid, r: Thread, e: Effect, c: Choice)
    requires t in s.threads && s.threads[t] == r && r.Run? && Numbered(s)
    requires forall u :: Backed(env, s, u)
    requires WitnessedStep(env, s.log, t, r, e)
    ensures forall u :: Backed(env, ApplyEffect(env, s, t, r, e, c), u)
  {
    var q := ApplyEffect(env, s, t, r, e, c);
    var noted := Noted(s.log, t, r.sid, e.note);
    assert Extends(s.log, noted, {t, s.next});
    assert Extends(s.log, q.log, {t, s.next});
    assert Extends(noted, q.log, {s.next});
    forall u ensures Backed(env, q, u) {
      assert Backed(env, s, u);
      if u == t {
        WitnessedElsewhere(env, noted, q.log, {s.next}, t, e.run.pc);
      } else if u == s.next && e.spawn.Some? {
        BelowIsSilent(s.log, s.next, u);
        ExtendsElsewhere(s.log, noted, {t}, u);
      } else if u in q.threads && q.threads[u].Run? {
        WitnessedElsewhere(env, s.log, q.log, {t, s.next}, u, q.threads[u].pc);
      }
    }
  }

  lemma CallBacked(env: Env, s: State, t: Tid, th: Thread, e: CallEffect)
    requires t in s.threads && s.threads[t] == th && th.Call? && Numbered(s) && forall u :: Backed(env, s, u)
    ensures forall u :: Backed(env, ApplyCall(env, s, t, th, e), u)
  {
    var q := ApplyCall(env, s, t, th, e);
    BelowIsSilent(s.log, s.next, s.next);
    assert Extends(s.log, q.log, {s.next});
    forall u ensures Backed(env, q, u) {
      assert Backed(env, s, u);
      if u in q.threads && u != s.next && q.threads[u].Run? {
        WitnessedElsewhere(env, s.log, q.log, {s.next}, u, q.threads[u].pc);
      }
    }
  }

  /** The answer goes to the inbox of a waiting run, if it is the first. */
  lemma AnswerBacked(env: Env, s: State, t: Tid, granted: bool)
    requires env.Valid() && Enabled(env, s, Answer(t, granted)) && forall u :: Backed(env, s, u)
    ensures forall u :: Backed(env, Next(env, s, Answer(t, granted)), u)
  {
    var q := Next(env, s, Answer(t, granted));
    assert Extends(s.log, q.log, {t});
    forall u ensures Backed(env, q, u) {
      assert Backed(env, s, u);
      if u in q.threads && u != t && q.threads[u].Run? {
        WitnessedElsewhere(env, s.log, q.log, {t}, u, q.threads[u].pc);
      }
    }
  }

  lemma BeatBacked(env: Env, s: State, t: Tid, beat: Beat)
    requires env.Valid() && Enabled(env, s, BeatStep(t, beat)) && forall u :: Backed(env, s, u)
    ensures forall u :: Backed(env, Next(env, s, BeatStep(t, beat)), u)
  {
    var q := Next(env, s, BeatStep(t, beat));
    assert Extends(s.log, q.log, {t});
    forall u ensures Backed(env, q, u) {
      assert Backed(env, s, u);
      if u in q.threads && u != t && q.threads[u].Run? {
        WitnessedElsewhere(env, s.log, q.log, {t}, u, q.threads[u].pc);
      }
    }
  }

  /** The remaining steps leave the history and the program counters of runs alone. */
  lemma QuietBacked(env: Env, s: State, a: Action)
    requires env.Valid() && Enabled(env, s, a) && forall u :: Backed(env, s, u)
    requires !a.RunStep? && !a.CallStep? && !a.Answer? && !a.BeatStep?
    ensures forall u :: Backed(env, Next(env, s, a), u)
  {
    var q := Next(env, s, a);
    forall u ensures Backed(env, q, u) {
      assert Backed(env, s, u);
    }
  }

  lemma OtherBacked(env: Env, s: State, a: Action)
    requires env.Valid() && Enabled(env, s, a) && !a.RunStep? && Numbered(s)
    requires forall u :: Backed(env, s, u)
    ensures forall u :: Backed(env, Next(env, s, a), u)
  {
    if a.CallStep? {
      CallBacked(env, s, a.t, s.threads[a.t], StepCall(env, s, s.threads[a.t], a.c));
    } else if a.Answer? {
      AnswerBacked(env, s, a.t, a.granted);
    } else if a.BeatStep? {
      BeatBacked(env, s, a.t, a.beat);
    } else {
      QuietBacked(env, s, a);
    }
  }

  /** Only a run at its last point completes a session, and it logs it. */
  lemma StepLogs(env: Env, s: State, a: Action)
    requires env.Valid() && Enabled(env, s, a) && forall u :: Backed(env, s, u)
    requires AllCleared(env, s.log)
    ensures AllCleared(env, Next(env, s, a).log)
  {
    if a.RunStep? {
      var t, c, r := a.t, a.c, s.threads[a.t];
      assert Backed(env, s, t);
      StepRunWitnessed(env, ViewOf(env, s, r), r, c, s.log, t);
    }
  }

  ghost predicate GateInv(env: Env, s: State) {
    && Numbered(s)
    && AllCleared(env, s.log)
    && forall u :: Backed(env, s, u)
  }

  lemma StepGate(env: Env, s: State, a: Action)
    requires env.Valid() && Enabled(env, s, a) && GateInv(env, s)
    ensures GateInv(env, Next(env, s, a))
  {
    StepNumbered(env, s, a);
    StepLogs(env, s, a);
    if a.RunStep? {
      var t, c, r := a.t, a.c, s.threads[a.t];
      assert Backed(env, s, t);
      StepRunWitnessed(env, ViewOf(env, s, r), r, c, s.log, t);
      ApplyBacked(env, s, t, r, StepRun(env, ViewOf(env, s, r), r, c), c);
    } else {
      OtherBacked(env, s, a);
    }
  }

  // A COMPLETED status always has a completion behind it.

  ghost predicate Accountable(s: State, sid: Sid) {
    (sid in s.plane.mem && s.plane.mem[sid] == Completed) || (sid in s.plane.rows && s.plane.rows[sid] == Completed)
    ==> HasCompleted(s.log, sid)
  }

  /** Which control-plane call can make a session COMPLETED, in memory or durably. */
  lemma PerformCompletes(env: Env, p: P.Plane, op: Option<P.Op>, sid: Sid)
    ensures var q := Perform(env, p, op);
            var was := (sid in p.mem && p.mem[sid] == Completed) || (sid in p.rows && p.rows[sid] == Completed);
            var now := (sid in q.mem && q.mem[sid] == Completed) || (sid in q.rows && q.rows[sid] == Completed);
            now && !was ==> op.Some? && op.value.OpTransition? && op.value.sid == sid && op.value.to == Completed
                            && P.Accepts(p, sid, Completed)
  {
  }

  lemma StepRunCompletes(env: Env, v: View, r: Thread, c: Choice)
    requires env.Valid() && r.Run? && !r.pc.Exiting?
    requires r.pc.BackingOff? && c.ok ==> c.noise < env.backoff.jitter
    requires v.status.Some? && Allowed(v.status.value, Completed)
    ensures var e := StepRun(env, v, r, c); e.move == Some(Completed) ==> e.note == Some(DidComplete)
  {
  }

  lemma OpNotComplete(env: Env, s: State, a: Action)
    requires env.Valid() && Enabled(env, s, a) && !a.RunStep?
    ensures var op := PlaneOp(env, s, a); op.Some? && op.value.OpTransition? ==> op.value.to != Completed
  {
  }

  lemma StepAccountable(env: Env, s: State, a: Action, sid: Sid)
    requires env.Valid() && Enabled(env, s, a) && P.Tracks(env.hasStore, s.plane) && Accountable(s, sid)
    ensures Accountable(Next(env, s, a), sid)
  {
    PlaneStep(env, s, a);
    PerformCompletes(env, s.plane, PlaneOp(env, s, a), sid);
    StepExtends(env, s, a);
    if HasCompleted(s.log, sid) {
      ExtendsHasCompleted(s.log, Next(env, s, a).log, Actor(a) + {s.next}, sid);
    } else if a.RunStep? {
      var r := s.threads[a.t];
      if P.Accepts(s.plane, r.sid, Completed) {
        StepRunCompletes(env, ViewOf(env, s, r), r, a.c);
      }
    } else {
      OpNotComplete(env, s, a);
    }
  }

  /** The gate: in every reachable state, across crashes, retries, restarts, lost store writes and any
      number of owners, every completion that ever happened was cleared, and a session that is
      COMPLETED in memory or durably owes it to such a completion. */
  lemma {:induction false} CompletionsAreCleared(env: Env, ss: seq<State>, acts: seq<Action>, i: nat)
    requires IsRun(env, ss, acts) && i < |ss|
    ensures GateInv(env, ss[i])
    ensures forall sid :: Accountable(ss[i], sid)
  {
    if i > 0 {
      CompletionsAreCleared(env, ss, acts, i - 1);
      StepGate(env, ss[i - 1], acts[i - 1]);
      Ownership.RunTracks(env, ss, acts, i - 1);
      forall sid ensures Accountable(ss[i], sid) {
        StepAccountable(env, ss[i - 1], acts[i - 1], sid);
      }
    }
  }

  // The completing run is the last one started.

  ghost predicate Newest(s: State, t: Tid) {
    t in s.threads && s.threads[t].Run? && Owns(s.threads[t]) ==>
      LastStarted(s.log, s.threads[t].sid) == Some(t)
  }

  lemma ApplyNewest(env: Env, s: State, t: Tid, r: Thread, e: Effect, c: Choice)
    requires t in s.threads && s.threads[t] == r && r.Run? && Owns(r) && SingleOwner(s)
    requires AllByLatest(s.log) && (forall u :: Newest(s, u))
    requires e.run.Run? && e.run.sid == r.sid && e.note != Some(DidStart)
    requires e.spawn.Some? ==> e.spawn.value.Run? && e.spawn.value.sid == r.sid && !Owns(e.run)
    ensures AllByLatest(ApplyEffect(env, s, t, r, e, c).log)
    ensures forall u :: Newest(ApplyEffect(env, s, t, r, e, c), u)
  {
    var q := ApplyEffect(env, s, t, r, e, c);
    assert Newest(s, t);
    forall u ensures Newest(q, u) {
      assert Newest(s, u) && Apart(s, t, u);
    }
  }

  lemma CallNewest(env: Env, s: State, t: Tid, th: Thread, e: CallEffect)
    requires t in s.threads && s.threads[t] == th && th.Call? && SingleOwner(s)
    requires AllByLatest(s.log) && (forall u :: Newest(s, u))
    ensures var q := ApplyCall(env, s, t, th, e); AllByLatest(q.log) && (forall u :: Newest(q, u))
  {
    var q := ApplyCall(env, s, t, th, e);
    forall u ensures Newest(q, u) {
      assert Newest(s, u) && Apart(s, t, u);
    }
  }

  lemma OtherNewest(env: Env, s: State, a: Action)
    requires env.Valid() && Enabled(env, s, a) && !a.RunStep? && !a.CallStep?
    requires AllByLatest(s.log) && (forall u :: Newest(s, u))
    ensures AllByLatest(Next(env, s, a).log) && (forall u :: Newest(Next(env, s, a), u))
  {
    var q := Next(env, s, a);
    forall u ensures Newest(q, u) {
      assert Newest(s, u);
    }
  }

  lemma StepRunNote(env: Env, v: View, r: Thread, c: Choice)
    requires env.Valid() && r.Run? && !r.pc.Exiting?
    requires r.pc.BackingOff? && c.ok ==> c.noise < env.backoff.jitter
    ensures StepRun(env, v, r, c).note != Some(DidStart)
  {
  }

  ghost predicate NewestInv(s: State) {
    AllByLatest(s.log) && forall t :: Newest(s, t)
  }

  lemma StepNewest(env: Env, s: State, a: Action)
    requires env.Valid() && Enabled(env, s, a) && SingleOwner(s) && NewestInv(s)
    ensures NewestInv(Next(env, s, a))
  {
    if a.RunStep? {
      var r := s.threads[a.t];
      StepRunShape(env, ViewOf(env, s, r), r, a.c);
      StepRunNote(env, ViewOf(env, s, r), r, a.c);
      ApplyNewest(env, s, a.t, r, StepRun(env, ViewOf(env, s, r), r, a.c), a.c);
    } else if a.CallStep? {
      CallNewest(env, s, a.t, s.threads[a.t], StepCall(env, s, s.threads[a.t], a.c));
    } else {
      OtherNewest(env, s, a);
    }
  }

  /** With one owner per session, the run that completes a session is the last one started for it. */
  lemma {:induction false} CompletedByLatest(env: Env, ss: seq<State>, acts: seq<Action>, i: nat)
    requires IsRun(env, ss, acts) && env.Unique() && i < |ss|
    ensures NewestInv(ss[i])
  {
    if i > 0 {
      CompletedByLatest(env, ss, acts, i - 1);
      AlwaysSingleOwner(env, ss, acts, i - 1);
      StepNewest(env, ss[i - 1], acts[i - 1]);
    }
  }

  // The gate, session by session.

  /** `part` is what `log` was at some earlier time, or is now. */
  predicate Earlier(part: Log, log: Log) {
    part == log || (log.Snoc? && Earlier(part, log.prev))
  }

  lemma {:induction false} FindCompletion(env: Env, log: Log, sid: Sid) returns (before: Log, t: Tid)
    requires HasCompleted(log, sid) && AllCleared(env, log)
    ensures Earlier(Snoc(before, t, sid, DidComplete), log)
    ensures Cleared(env, before, t) && (AllByLatest(log) ==> LastStarted(before, sid) == Some(t))
    decreases log
  {
    if log.sid == sid && log.what.DidComplete? {
      before, t := log.prev, log.t;
    } else {
      before, t := FindCompletion(env, log.prev, sid);
    }
  }

  /** A session that is COMPLETED, in memory or durably, was completed by a run whose agent had exited 0, and
      either no tool call it made is covered by an approval policy, or the first answer it had got was a grant
      and it had not given up waiting; with one owner per session, no later run of it had been started. */
  lemma CompletedSessionsWereCleared(env: Env, ss: seq<State>, acts: seq<Action>, i: nat, sid: Sid)
    returns (before: Log, t: Tid)
    requires IsRun(env, ss, acts) && i < |ss|
    requires var p := ss[i].plane;
             (sid in p.mem && p.mem[sid] == Completed) || (sid in p.rows && p.rows[sid] == Completed)
    ensures Earlier(Snoc(before, t, sid, DidComplete), ss[i].log)
    ensures Result(before, t).Some? && Result(before, t).value.exit == 0
    ensures Gated(env, Result(before, t).value.lines) ==> FirstAnswer(before, t) == Some(true) && !GaveUp(before, t)
    ensures env.Unique() ==> LastStarted(before, sid) == Some(t)
  {
    CompletionsAreCleared(env, ss, acts, i);
    assert Accountable(ss[i], sid);
    if env.Unique() {
      CompletedByLatest(env, ss, acts, i);
    }
    before, t := FindCompletion(env, ss[i].log, sid);
  }
}
