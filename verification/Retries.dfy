/** Crash retries: how many runs a submission gets, how long it backs off, and that it ends. */
module Retries {
  import opened Lifecycle
  import opened Engine
  import opened Ownership
  import Backoff

  /** The attempt number a run is dealing with: that of its crash once counted, else the one it was
      relaunched at. */
  function CurrentAttempt(r: Thread): nat
    requires r.Run?
  {
    match r.pc
    case CrashCleaning(n) => n
    case CrashDeciding(n) => n
    case BackingOff(n) => n
    case _ => r.last
  }

  /** The distance of a program point from the end of its run. */
  function PcRank(pc: RunPc): nat {
    match pc
    case Starting => 13
    case Provisioning => 12
    case Verifying => 11
    case Launching => 10
    case Promoting => 9
    case Executing => 8
    case Returned(_) => 7
    case Judging(_, _) => 6
    case Crashed => 5
    case Waiting(_, _) => 5
    case CrashCleaning(_) => 4
    case Closing(_) => 4
    case Reopening(_) => 3
    case CrashDeciding(_) => 3
    case Completing(_) => 2
    case BackingOff(_) => 2
    case Failing(thenClean) => if thenClean then 2 else 1
    case Cleaning(thenFail) => if thenFail then 2 else 1
    case Exiting(_) => 0
  }

  /** Local bookkeeping of a run, whatever other owners its session may have. */
  ghost predicate Counted(env: Env, attempts: nat, r: Thread)
    requires env.Valid()
  {
    r.Run? ==>
      && 1 <= r.number <= r.last + 1 && r.last <= env.maxRetries
      && r.last <= CurrentAttempt(r) <= attempts
      && (r.pc.CrashCleaning? || r.pc.CrashDeciding? || r.pc.BackingOff? ==> r.last < CurrentAttempt(r))
      && (r.pc.BackingOff? ==> CurrentAttempt(r) <= env.maxRetries)
      && Slept(env, r)
  }

  /** The backoff a chain has slept through is below the budget of the attempts it has used. */
  ghost predicate Slept(env: Env, r: Thread)
    requires env.Valid() && r.Run?
  {
    if r.last == 0 then r.waited == 0 else r.waited as real < Backoff.Budget(env.backoff, r.last)
  }

  lemma PlainStepCounted(env: Env, v: View, r: Thread, c: Choice)
    requires env.Valid() && r.Run? && !r.pc.Exiting? && !InCrash(r.pc) && Counted(env, v.attempts, r)
    ensures var e := StepRun(env, v, r, c);
            e.run.Run? && e.spawn.None? && !e.crash && Counted(env, v.attempts, e.run)
  {
    PlainStepKeeps(env, v, r, c);
    var e := StepRun(env, v, r, c);
    assert CurrentAttempt(e.run) == r.last && Slept(env, e.run);
  }

  /** A step outside `handleCrash` keeps the chain's bookkeeping and comes closer to the end. */
  predicate Plain(r: Thread, e: Effect)
    requires r.Run?
  {
    && e.run.Run? && e.spawn.None? && !e.crash
    && e.run.number == r.number && e.run.last == r.last && e.run.waited == r.waited
    && (InCrash(e.run.pc) ==> e.run.pc.Crashed?)
    && PcRank(e.run.pc) < PcRank(r.pc)
  }

  lemma LaunchIsPlain(env: Env, v: View, r: Thread, c: Choice)
    requires r.Run? && InSetup(r.pc)
    ensures Plain(r, StepLaunch(env, v, r, c))
  {
  }

  lemma ExecuteIsPlain(r: Thread, c: Choice)
    requires r.Run? && (r.pc.Executing? || r.pc.Returned?)
    ensures Plain(r, StepExecute(r, c))
  {
  }

  lemma CloseIsPlain(v: View, r: Thread, c: Choice)
    requires r.Run? && (r.pc.Closing? || r.pc.Reopening?)
    ensures Plain(r, StepDecide(v, r, c))
  {
  }

  lemma JudgeIsPlain(v: View, r: Thread, c: Choice)
    requires r.Run? && (r.pc.Judging? || r.pc.Waiting?)
    ensures Plain(r, StepDecide(v, r, c))
  {
  }

  lemma EndIsPlain(v: View, r: Thread, c: Choice)
    requires r.Run? && InEnd(r.pc)
    ensures Plain(r, StepEnd(v, r, c))
  {
  }

  lemma PlainStepKeeps(env: Env, v: View, r: Thread, c: Choice)
    requires env.Valid() && r.Run? && !r.pc.Exiting? && !InCrash(r.pc)
    ensures Plain(r, StepRun(env, v, r, c))
  {
    if InSetup(r.pc) {
      LaunchIsPlain(env, v, r, c);
    } else if Early(r.pc) {
      ExecuteIsPlain(r, c);
    } else if r.pc.Judging? || r.pc.Waiting? {
      JudgeIsPlain(v, r, c);
    } else if InDecision(r.pc) {
      CloseIsPlain(v, r, c);
    } else {
      EndIsPlain(v, r, c);
    }
  }

  lemma CrashStepCounted(env: Env, v: View, r: Thread, c: Choice)
    requires env.Valid() && r.Run? && InCrash(r.pc) && !r.pc.BackingOff? && Counted(env, v.attempts, r)
    ensures var e := StepRun(env, v, r, c);
            && e.run.Run? && e.spawn.None? && Counted(env, if e.crash then v.attempts + 1 else v.attempts, e.run)
            && e.run.last == r.last && PcRank(e.run.pc) < PcRank(r.pc)
  {
    assert Slept(env, StepRun(env, v, r, c).run);
  }

  lemma RetryCounted(env: Env, v: View, r: Thread, c: Choice)
    requires env.Valid() && r.Run? && r.pc.BackingOff? && Counted(env, v.attempts, r)
    requires c.ok ==> c.noise < env.backoff.jitter
    ensures var e := StepRun(env, v, r, c);
            && !e.crash && Counted(env, v.attempts, e.run)
            && (e.spawn.Some? ==> Counted(env, v.attempts, e.spawn.value))
  {
    if c.ok {
      if r.last == 0 {
        assert 0.0 <= Backoff.Budget(env.backoff, 0);
      }
      Backoff.WaitStaysInBudget(env.backoff, r.waited, r.last, r.pc.attempt, c.noise);
    }
  }

  lemma StepRunCounted(env: Env, v: View, r: Thread, c: Choice)
    requires env.Valid() && r.Run? && !r.pc.Exiting? && Counted(env, v.attempts, r)
    requires r.pc.BackingOff? && c.ok ==> c.noise < env.backoff.jitter
    ensures var e := StepRun(env, v, r, c);
            var now := if e.crash then v.attempts + 1 else v.attempts;
            && Counted(env, now, e.run)
            && (e.spawn.Some? ==> Counted(env, now, e.spawn.value))
  {
    if r.pc.BackingOff? {
      RetryCounted(env, v, r, c);
    } else if InCrash(r.pc) {
      CrashStepCounted(env, v, r, c);
    } else {
      PlainStepCounted(env, v, r, c);
    }
  }

  ghost predicate CountedThread(env: Env, s: State, t: Tid)
    requires env.Valid()
  {
    t in s.threads ==> Counted(env, AttemptsOf(s, s.threads[t].sid), s.threads[t])
  }

  ghost predicate AllCounted(env: Env, s: State)
    requires env.Valid()
  {
    forall t :: CountedThread(env, s, t)
  }

  lemma CountedMonotone(env: Env, a: nat, b: nat, r: Thread)
    requires env.Valid() && Counted(env, a, r) && a <= b
    ensures Counted(env, b, r)
  {
  }

  lemma ApplyCounted(env: Env, s: State, t: Tid, r: Thread, e: Effect, c: Choice)
    requires env.Valid() && t in s.threads && s.threads[t] == r && r.Run?
    requires AllCounted(env, s)
    requires e.run.Run? && e.run.sid == r.sid && (e.spawn.Some? ==> e.spawn.value.sid == r.sid)
    requires var now := if e.crash then AttemptsOf(s, r.sid) + 1 else AttemptsOf(s, r.sid);
             && Counted(env, now, e.run)
             && (e.spawn.Some? ==> Counted(env, now, e.spawn.value))
    ensures AllCounted(env, ApplyEffect(env, s, t, r, e, c))
  {
    var q := ApplyEffect(env, s, t, r, e, c);
    var now := if e.crash then AttemptsOf(s, r.sid) + 1 else AttemptsOf(s, r.sid);
    assert AttemptsOf(q, r.sid) == now;
    forall u ensures CountedThread(env, q, u) {
      assert CountedThread(env, s, u);
      if u in q.threads && u != t && !(e.spawn.Some? && u == s.next) && q.threads[u].sid == r.sid {
        CountedMonotone(env, AttemptsOf(s, r.sid), now, q.threads[u]);
      }
    }
  }

  lemma FirstRunCounted(env: Env, attempts: nat, sid: Sid)
    requires env.Valid()
    ensures Counted(env, attempts, FirstRun(sid))
  {
  }

  lemma StepCounted(env: Env, s: State, a: Action)
    requires env.Valid() && Enabled(env, s, a) && AllCounted(env, s)
    ensures AllCounted(env, Next(env, s, a))
  {
    if a.RunStep? {
      var r := s.threads[a.t];
      assert CountedThread(env, s, a.t);
      StepRunCounted(env, ViewOf(env, s, r), r, a.c);
      StepRunShape(env, ViewOf(env, s, r), r, a.c);
      ApplyCounted(env, s, a.t, r, StepRun(env, ViewOf(env, s, r), r, a.c), a.c);
    } else if a.CallStep? {
      CallStepCounted(env, s, a.t, s.threads[a.t], StepCall(env, s, s.threads[a.t], a.c));
    } else {
      OtherStepCounted(env, s, a);
    }
  }

  lemma CallStepCounted(env: Env, s: State, t: Tid, th: Thread, e: CallEffect)
    requires env.Valid() && th.Call? && AllCounted(env, s)
    ensures AllCounted(env, ApplyCall(env, s, t, th, e))
  {
    var q := ApplyCall(env, s, t, th, e);
    FirstRunCounted(env, AttemptsOf(s, th.sid), th.sid);
    forall u ensures CountedThread(env, q, u) {
      assert CountedThread(env, s, u);
    }
  }

  lemma OtherStepCounted(env: Env, s: State, a: Action)
    requires env.Valid() && Enabled(env, s, a) && !a.RunStep? && !a.CallStep? && AllCounted(env, s)
    ensures AllCounted(env, Next(env, s, a))
  {
    var q := Next(env, s, a);
    forall t ensures CountedThread(env, q, t) {
      assert CountedThread(env, s, t);
    }
  }

  lemma {:induction false} AlwaysCounted(env: Env, ss: seq<State>, acts: seq<Action>, i: nat)
    requires IsRun(env, ss, acts) && i < |ss|
    ensures AllCounted(env, ss[i])
  {
    if i > 0 {
      AlwaysCounted(env, ss, acts, i - 1);
      StepCounted(env, ss[i - 1], acts[i - 1]);
    }
  }

  /** In every reachable state, whoever else works on the session: a chain is in at most its
      (maxRetries + 1)-th run, and its total backoff is below the geometric budget. */
  lemma RetriesAreBounded(env: Env, ss: seq<State>, acts: seq<Action>, i: nat, t: Tid)
    requires IsRun(env, ss, acts) && i < |ss| && t in ss[i].threads && ss[i].threads[t].Run?
    ensures 1 <= ss[i].threads[t].number <= env.maxRetries + 1
    ensures ss[i].threads[t].waited as real < Backoff.Budget(env.backoff, env.maxRetries)
  {
    AlwaysCounted(env, ss, acts, i);
    assert CountedThread(env, ss[i], t);
    var r := ss[i].threads[t];
    Backoff.BudgetMonotone(env.backoff, r.last, env.maxRetries);
    assert env.maxRetries * env.backoff.jitter >= 0;
  }

  // Termination: a chain of runs takes a bounded number of steps, and is never stuck.

  /** The measure: attempts left, then the distance to the end of the present run. */
  function Rank(env: Env, r: Thread): nat
    requires r.Run?
  {
    (if r.last <= env.maxRetries then 14 * (env.maxRetries - r.last) else 0) + PcRank(r.pc)
  }

  lemma RetryLowersRank(env: Env, v: View, r: Thread, c: Choice)
    requires env.Valid() && r.Run? && r.pc.BackingOff? && Counted(env, v.attempts, r)
    requires c.ok ==> c.noise < env.backoff.jitter
    ensures var e := StepRun(env, v, r, c);
            && e.run.Run? && Rank(env, e.run) < Rank(env, r)
            && (e.spawn.Some? ==> e.spawn.value.Run? && Rank(env, e.spawn.value) < Rank(env, r))
  {
  }

  /** Every step of a chain lowers its measure, also when it hands over to a retry. */
  lemma StepLowersRank(env: Env, v: View, r: Thread, c: Choice)
    requires env.Valid() && r.Run? && !r.pc.Exiting? && Counted(env, v.attempts, r)
    requires r.pc.BackingOff? && c.ok ==> c.noise < env.backoff.jitter
    ensures var e := StepRun(env, v, r, c);
            && e.run.Run? && Rank(env, e.run) < Rank(env, r)
            && (e.spawn.Some? ==> e.spawn.value.Run? && Rank(env, e.spawn.value) < Rank(env, r))
  {
    if r.pc.BackingOff? {
      RetryLowersRank(env, v, r, c);
    } else if InCrash(r.pc) {
      CrashStepCounted(env, v, r, c);
    } else {
      PlainStepKeeps(env, v, r, c);
    }
  }

  /** A chain is never stuck: whatever the state, some outcome lets it go on. */
  lemma NeverStuck(env: Env, s: State, t: Tid) returns (c: Choice)
    requires env.Valid() && t in s.threads && s.threads[t].Run? && Owns(s.threads[t])
    ensures Enabled(env, s, RunStep(t, c))
  {
    c := Choice(!s.threads[t].pc.Provisioning?, true, true, ExecError, 0, TimedOut, 0);
  }

  predicate IsChainStep(s: State, a: Action, sid: Sid) {
    a.RunStep? && a.t in s.threads && s.threads[a.t].sid == sid
  }

  /** How many steps the chain of `sid` takes between two points of a run. */
  function ChainSteps(ss: seq<State>, acts: seq<Action>, sid: Sid, i: nat, j: nat): nat
    requires i <= j < |ss| && |ss| == |acts| + 1
    decreases j
  {
    if i == j then 0
    else ChainSteps(ss, acts, sid, i, j - 1) + if IsChainStep(ss[j - 1], acts[j - 1], sid) then 1 else 0
  }

  function FullRank(env: Env): nat { 14 * env.maxRetries + 13 }

  /** The steps taken so far and the measure of whoever owns the chain stay within the full measure. */
  ghost predicate WithinRank(env: Env, s: State, sid: Sid, steps: nat) {
    && steps <= FullRank(env)
    && (sid !in s.starts ==> steps == 0)
    && forall t :: t in s.threads && s.threads[t].Run? && s.threads[t].sid == sid && Owns(s.threads[t]) ==>
         steps + Rank(env, s.threads[t]) <= FullRank(env)
  }

  lemma ApplyWithinRank(env: Env, s: State, t: Tid, r: Thread, e: Effect, c: Choice, sid: Sid, steps: nat)
    requires t in s.threads && s.threads[t] == r && r.Run? && Owns(r) && SingleOwner(s)
    requires WithinRank(env, s, sid, steps) && e.run.Run? && e.run.sid == r.sid
    requires e.spawn.Some? ==> e.spawn.value.Run? && e.spawn.value.sid == r.sid
    requires Rank(env, e.run) < Rank(env, r) && (e.spawn.Some? ==> Rank(env, e.spawn.value) < Rank(env, r))
    ensures WithinRank(env, ApplyEffect(env, s, t, r, e, c), sid, if r.sid == sid then steps + 1 else steps)
  {
    var q := ApplyEffect(env, s, t, r, e, c);
    assert Placed(s, t);
    forall u | u in q.threads && q.threads[u].Run? && q.threads[u].sid == sid && Owns(q.threads[u])
      ensures (if r.sid == sid then steps + 1 else steps) + Rank(env, q.threads[u]) <= FullRank(env)
    {
      assert Apart(s, t, u);
    }
  }

  lemma StepWithinRank(env: Env, s: State, a: Action, sid: Sid, steps: nat)
    requires env.Valid() && Enabled(env, s, a) && !a.Reboot? && SingleOwner(s)
    requires AllCounted(env, s)
    requires WithinRank(env, s, sid, steps)
    ensures WithinRank(env, Next(env, s, a), sid, steps + if IsChainStep(s, a, sid) then 1 else 0)
  {
    if a.RunStep? {
      var r := s.threads[a.t];
      assert CountedThread(env, s, a.t);
      StepLowersRank(env, ViewOf(env, s, r), r, a.c);
      StepRunShape(env, ViewOf(env, s, r), r, a.c);
      ApplyWithinRank(env, s, a.t, r, StepRun(env, ViewOf(env, s, r), r, a.c), a.c, sid, steps);
    } else {
      OtherWithinRank(env, s, a, sid, steps);
    }
  }

  lemma OtherWithinRank(env: Env, s: State, a: Action, sid: Sid, steps: nat)
    requires env.Valid() && Enabled(env, s, a) && !a.Reboot? && !a.RunStep? && SingleOwner(s)
    requires WithinRank(env, s, sid, steps)
    ensures WithinRank(env, Next(env, s, a), sid, steps)
  {
    var q := Next(env, s, a);
    if a.CallStep? {
      assert Placed(s, a.t);
    }
    forall u | u in q.threads && q.threads[u].Run? && q.threads[u].sid == sid && Owns(q.threads[u])
      ensures steps + Rank(env, q.threads[u]) <= FullRank(env)
    {
    }
  }

  /** Within one process, the runs started for one session take at most 14 * maxRetries + 13 steps
      in all, however they interleave with everything else: every chain ends. */
  lemma {:induction false} ChainsAreFinite(env: Env, ss: seq<State>, acts: seq<Action>, sid: Sid, i: nat, j: nat)
    requires IsRun(env, ss, acts) && env.Unique() && i <= j < |ss| && sid !in ss[i].starts
    requires forall k :: i <= k < j ==> !acts[k].Reboot?
    ensures WithinRank(env, ss[j], sid, ChainSteps(ss, acts, sid, i, j))
    decreases j
  {
    if i == j {
      AlwaysSingleOwner(env, ss, acts, j);
      NotStartedWithinRank(env, ss[j], sid);
    } else {
      ChainsAreFinite(env, ss, acts, sid, i, j - 1);
      AlwaysSingleOwner(env, ss, acts, j - 1);
      AlwaysCounted(env, ss, acts, j - 1);
      StepWithinRank(env, ss[j - 1], acts[j - 1], sid, ChainSteps(ss, acts, sid, i, j - 1));
    }
  }

  lemma NotStartedWithinRank(env: Env, s: State, sid: Sid)
    requires SingleOwner(s) && sid !in s.starts
    ensures WithinRank(env, s, sid, 0)
  {
    forall t | t in s.threads && s.threads[t].Run? ensures s.threads[t].sid != sid {
      assert Placed(s, t);
    }
  }

  // One submission.

  /** With one owner per session, the owner is the latest of the runs the process has started for it. */
  ghost predicate Latest(env: Env, s: State, t: Tid) {
    t in s.threads && s.threads[t].Run? && Owns(s.threads[t]) ==> s.threads[t].number == StartsOf(s, s.threads[t].sid)
  }

  ghost predicate StartsBounded(env: Env, s: State) {
    && (forall t :: Latest(env, s, t))
    && (forall sid :: StartsOf(s, sid) <= env.maxRetries + 1)
  }

  lemma StepRunNumbers(env: Env, v: View, r: Thread, c: Choice)
    requires env.Valid() && r.Run? && !r.pc.Exiting?
    requires r.pc.BackingOff? && c.ok ==> c.noise < env.backoff.jitter
    ensures var e := StepRun(env, v, r, c);
            && e.run.Run? && e.run.number == r.number
            && (e.spawn.Some? ==> e.spawn.value.Run? && e.spawn.value.number == r.number + 1)
  {
  }

  lemma ApplyStarts(env: Env, s: State, t: Tid, r: Thread, e: Effect, c: Choice)
    requires t in s.threads && s.threads[t] == r && r.Run? && Owns(r) && SingleOwner(s) && StartsBounded(env, s)
    requires e.run.Run? && e.run.sid == r.sid && e.run.number == r.number
    requires e.spawn.Some? ==>
               && e.spawn.value.Run? && e.spawn.value.sid == r.sid && e.spawn.value.number == r.number + 1
               && !Owns(e.run) && r.number <= env.maxRetries
    ensures StartsBounded(env, ApplyEffect(env, s, t, r, e, c))
  {
    var q := ApplyEffect(env, s, t, r, e, c);
    assert Latest(env, s, t) && Placed(s, s.next);
    forall u ensures Latest(env, q, u) {
      assert Latest(env, s, u) && Apart(s, t, u);
    }
    forall sid ensures StartsOf(q, sid) <= env.maxRetries + 1 {
      assert StartsOf(s, sid) <= env.maxRetries + 1;
    }
  }

  lemma CallStarts(env: Env, s: State, t: Tid, th: Thread, e: CallEffect)
    requires t in s.threads && s.threads[t] == th && th.Call? && SingleOwner(s) && StartsBounded(env, s)
    ensures StartsBounded(env, ApplyCall(env, s, t, th, e))
  {
    var q := ApplyCall(env, s, t, th, e);
    assert Placed(s, t) && Placed(s, s.next);
    forall u ensures Latest(env, q, u) {
      assert Latest(env, s, u) && Apart(s, t, u);
    }
    forall sid ensures StartsOf(q, sid) <= env.maxRetries + 1 {
      assert StartsOf(s, sid) <= env.maxRetries + 1;
    }
  }

  lemma OtherStarts(env: Env, s: State, a: Action)
    requires env.Valid() && Enabled(env, s, a) && !a.RunStep? && !a.CallStep? && StartsBounded(env, s)
    ensures StartsBounded(env, Next(env, s, a))
  {
    var q := Next(env, s, a);
    forall u ensures Latest(env, q, u) {
      assert Latest(env, s, u);
    }
    forall sid ensures StartsOf(q, sid) <= env.maxRetries + 1 {
      assert StartsOf(s, sid) <= env.maxRetries + 1;
    }
  }

  lemma StepStarts(env: Env, s: State, a: Action)
    requires env.Valid() && Enabled(env, s, a) && SingleOwner(s) && AllCounted(env, s) && StartsBounded(env, s)
    ensures StartsBounded(env, Next(env, s, a))
  {
    if a.RunStep? {
      var r := s.threads[a.t];
      assert CountedThread(env, s, a.t);
      StepRunNumbers(env, ViewOf(env, s, r), r, a.c);
      StepRunShape(env, ViewOf(env, s, r), r, a.c);
      SpawnHasRetriesLeft(env, ViewOf(env, s, r), r, a.c);
      ApplyStarts(env, s, a.t, r, StepRun(env, ViewOf(env, s, r), r, a.c), a.c);
    } else if a.CallStep? {
      CallStarts(env, s, a.t, s.threads[a.t], StepCall(env, s, s.threads[a.t], a.c));
    } else {
      OtherStarts(env, s, a);
    }
  }

  /** A session is given at most maxRetries + 1 agent runs per process, and the run that owns it is
      the last one started. */
  lemma {:induction false} RunsPerProcess(env: Env, ss: seq<State>, acts: seq<Action>, i: nat)
    requires IsRun(env, ss, acts) && env.Unique() && i < |ss|
    ensures StartsBounded(env, ss[i])
  {
    if i > 0 {
      RunsPerProcess(env, ss, acts, i - 1);
      AlwaysSingleOwner(env, ss, acts, i - 1);
      AlwaysCounted(env, ss, acts, i - 1);
      StepStarts(env, ss[i - 1], acts[i - 1]);
    }
  }

  lemma SpawnHasRetriesLeft(env: Env, v: View, r: Thread, c: Choice)
    requires env.Valid() && r.Run? && !r.pc.Exiting? && Counted(env, v.attempts, r)
    requires r.pc.BackingOff? && c.ok ==> c.noise < env.backoff.jitter
    ensures StepRun(env, v, r, c).spawn.Some? ==> r.number <= env.maxRetries
  {
  }

  // One submission, exactly.

  predicate Counting(pc: RunPc) { pc.CrashCleaning? || pc.CrashDeciding? || pc.BackingOff? }

  /** With one owner, the crashes counted are those of the chain, and what it has slept is the backoff of each of
      them: no less than the exponential part, up to rounding down, and less than a jitter more. */
  ghost predicate Tally(env: Env, attempts: nat, r: Thread)
    requires env.Valid() && r.Run?
  {
    && r.number >= 1 && r.last == r.number - 1
    && (Early(r.pc) || r.pc.Crashed? ==> attempts == r.number - 1)
    && (Counting(r.pc) ==> attempts == CurrentAttempt(r) == r.number)
    && Backoff.Series(env.backoff, r.last) - r.last as real <= r.waited as real
    && r.waited as real <= Backoff.Budget(env.backoff, r.last)
  }

  lemma PlainTally(env: Env, v: View, r: Thread, c: Choice)
    requires env.Valid() && r.Run? && !r.pc.Exiting? && !InCrash(r.pc) && Tally(env, v.attempts, r)
    ensures var e := StepRun(env, v, r, c); e.run.Run? && e.spawn.None? && !e.crash && Tally(env, v.attempts, e.run)
  {
    PlainStepKeeps(env, v, r, c);
    NeverBackEarly(env, v, r, c);
  }

  lemma NeverBackEarly(env: Env, v: View, r: Thread, c: Choice)
    requires env.Valid() && r.Run? && !r.pc.Exiting? && !InCrash(r.pc)
    ensures var pc := StepRun(env, v, r, c).run.pc; Early(pc) || pc.Crashed? ==> Early(r.pc)
  {
    if InDecision(r.pc) {
      assert !Early(StepDecide(v, r, c).run.pc) && !StepDecide(v, r, c).run.pc.Crashed?;
    } else if InEnd(r.pc) {
      assert !Early(StepEnd(v, r, c).run.pc) && !StepEnd(v, r, c).run.pc.Crashed?;
    }
  }

  lemma CrashTally(env: Env, v: View, r: Thread, c: Choice)
    requires env.Valid() && r.Run? && InCrash(r.pc) && !r.pc.BackingOff? && Tally(env, v.attempts, r)
    ensures var e := StepRun(env, v, r, c);
            e.run.Run? && e.spawn.None? && Tally(env, if e.crash then v.attempts + 1 else v.attempts, e.run)
  {
  }

  lemma RetryTally(env: Env, v: View, r: Thread, c: Choice)
    requires env.Valid() && r.Run? && r.pc.BackingOff? && Tally(env, v.attempts, r)
    requires c.ok ==> c.noise < env.backoff.jitter
    ensures var e := StepRun(env, v, r, c);
            e.run.Run? && !e.crash && Tally(env, v.attempts, e.run)
            && (c.ok <==> e.spawn.Some?)
            && (e.spawn.Some? ==> e.spawn.value.Run? && Tally(env, v.attempts, e.spawn.value))
  {
    if c.ok {
      var n: nat := r.pc.attempt;
      Backoff.WaitStaysInBudget(env.backoff, r.waited, r.last, n, c.noise);
      assert Backoff.Series(env.backoff, n) == Backoff.Series(env.backoff, n - 1) + Backoff.Exponential(env.backoff, n);
    }
  }

  ghost predicate TallyAt(env: Env, s: State, t: Tid)
    requires env.Valid()
  {
    t in s.threads && s.threads[t].Run? && Owns(s.threads[t]) ==> Tally(env, AttemptsOf(s, s.threads[t].sid), s.threads[t])
  }

  ghost predicate Tallied(env: Env, s: State)
    requires env.Valid()
  {
    && (forall t :: TallyAt(env, s, t))
    && (forall sid :: sid !in s.starts ==> AttemptsOf(s, sid) == 0)
  }

  lemma ApplyTallied(env: Env, s: State, t: Tid, r: Thread, e: Effect, c: Choice)
    requires env.Valid() && t in s.threads && s.threads[t] == r && r.Run? && Owns(r) && SingleOwner(s) && Tallied(env, s)
    requires e.run.Run? && e.run.sid == r.sid && (e.spawn.Some? ==> e.spawn.value.Run? && e.spawn.value.sid == r.sid)
    requires var now := if e.crash then AttemptsOf(s, r.sid) + 1 else AttemptsOf(s, r.sid);
             Tally(env, now, e.run) && (e.spawn.Some? ==> Tally(env, now, e.spawn.value))
    ensures Tallied(env, ApplyEffect(env, s, t, r, e, c))
  {
    var q := ApplyEffect(env, s, t, r, e, c);
    assert Placed(s, t);
    forall u ensures TallyAt(env, q, u) {
      assert TallyAt(env, s, u) && Apart(s, t, u);
    }
  }

  lemma FirstTally(env: Env, sid: Sid)
    requires env.Valid()
    ensures Tally(env, 0, FirstRun(sid))
  {
    assert Backoff.Series(env.backoff, 0) == 0.0 && Backoff.Budget(env.backoff, 0) == 0.0;
  }

  lemma CallTallied(env: Env, s: State, t: Tid, th: Thread, e: CallEffect)
    requires env.Valid() && t in s.threads && s.threads[t] == th && th.Call? && SingleOwner(s) && Tallied(env, s)
    ensures Tallied(env, ApplyCall(env, s, t, th, e))
  {
    var q := ApplyCall(env, s, t, th, e);
    FirstTally(env, th.sid);
    assert Placed(s, t);
    forall u ensures TallyAt(env, q, u) {
      assert TallyAt(env, s, u);
    }
  }

  lemma RebootTallied(env: Env, s: State, reaped: set<Box>)
    requires env.Valid()
    ensures Tallied(env, Restart(s, reaped))
  {
  }

  /** The owning runs are the same as far as their tally goes. */
  ghost predicate SameTally(s: State, q: State) {
    && q.attempts == s.attempts && q.starts == s.starts
    && forall t :: t in q.threads && q.threads[t].Run? && Owns(q.threads[t]) ==>
         && t in s.threads && s.threads[t].Run? && Owns(s.threads[t]) && q.threads[t].sid == s.threads[t].sid
         && q.threads[t].number == s.threads[t].number && q.threads[t].last == s.threads[t].last
         && q.threads[t].waited == s.threads[t].waited
         && (q.threads[t].pc == s.threads[t].pc || (q.threads[t].pc.Waiting? && s.threads[t].pc.Waiting?))
  }

  lemma SameTallied(env: Env, s: State, q: State)
    requires env.Valid() && SameTally(s, q) && Tallied(env, s)
    ensures Tallied(env, q)
  {
    forall u ensures TallyAt(env, q, u) {
      assert TallyAt(env, s, u);
    }
  }

  lemma OtherTallied(env: Env, s: State, a: Action)
    requires env.Valid() && Enabled(env, s, a) && !a.RunStep? && !a.CallStep? && !a.Reboot? && Tallied(env, s)
    ensures Tallied(env, Next(env, s, a))
  {
    SameTallied(env, s, Next(env, s, a));
  }

  lemma RunStepTallied(env: Env, s: State, t: Tid, c: Choice)
    requires env.Valid() && Enabled(env, s, RunStep(t, c)) && SingleOwner(s) && Tallied(env, s)
    ensures Tallied(env, Next(env, s, RunStep(t, c)))
  {
    var r := s.threads[t];
    var v := ViewOf(env, s, r);
    assert TallyAt(env, s, t);
    StepRunShape(env, v, r, c);
    if r.pc.BackingOff? {
      RetryTally(env, v, r, c);
    } else if InCrash(r.pc) {
      CrashTally(env, v, r, c);
    } else {
      PlainTally(env, v, r, c);
    }
    ApplyTallied(env, s, t, r, StepRun(env, v, r, c), c);
  }

  lemma {:induction false} AlwaysTallied(env: Env, ss: seq<State>, acts: seq<Action>, i: nat)
    requires IsRun(env, ss, acts) && env.Unique() && i < |ss|
    ensures Tallied(env, ss[i])
  {
    if i > 0 {
      AlwaysTallied(env, ss, acts, i - 1);
      AlwaysSingleOwner(env, ss, acts, i - 1);
      StepTallied(env, ss[i - 1], acts[i - 1]);
    }
  }

  lemma StepTallied(env: Env, s: State, a: Action)
    requires env.Valid() && Enabled(env, s, a) && SingleOwner(s) && Tallied(env, s)
    ensures Tallied(env, Next(env, s, a))
  {
    if a.RunStep? {
      RunStepTallied(env, s, a.t, a.c);
    } else if a.CallStep? {
      CallTallied(env, s, a.t, s.threads[a.t], StepCall(env, s, s.threads[a.t], a.c));
    } else if a.Reboot? {
      RebootTallied(env, s, a.reaped);
    } else {
      OtherTallied(env, s, a);
    }
  }

  /** With one owner per session, in every reachable state: the n-th run of a chain was preceded by n - 1 counted
      crashes, and by a backoff for each of them that was slept through to the end. */
  lemma RetriesWaitTheirTurn(env: Env, ss: seq<State>, acts: seq<Action>, i: nat, t: Tid)
    requires IsRun(env, ss, acts) && env.Unique() && i < |ss|
    requires t in ss[i].threads && ss[i].threads[t].Run? && Owns(ss[i].threads[t])
    ensures var r := ss[i].threads[t];
            && r.number >= 1
            && (Early(r.pc) ==> AttemptsOf(ss[i], r.sid) == r.number - 1)
            && Backoff.Series(env.backoff, r.number - 1) - (r.number - 1) as real <= r.waited as real
            && r.waited as real <= Backoff.Budget(env.backoff, r.number - 1)
  {
    AlwaysTallied(env, ss, acts, i);
    assert TallyAt(env, ss[i], t);
  }
}
