/** Runs that show what the engine can do: that bounds are met, that side conditions are needed, and that
    the gate opens. Each follows one session, "s", through states in which it is alone. */
module Scenarios {
  import opened Lifecycle
  import opened Engine
  import opened Ownership
  import opened History
  import opened Admission
  import opened Witnesses
  import Chains
  import Backoff
  import CrashSignal

  /** The crash of the run has been counted. */
  predicate AfterCrash(pc: RunPc) { pc.CrashCleaning? || pc.CrashDeciding? || pc.BackingOff? }

  /** The only goroutine is the `t`-th run of session "s"; `active` knows about the first one only. */
  ghost predicate Solo(s: State, t: Tid, r: Thread, status: Status, result: Option<Outcome>) {
    && r.Run? && r.sid == "s" && r.number == t
    && s.threads == map[t := r] && s.next == t + 1 && s.active == (if t == 1 then map["s" := 1] else map[])
    && StatusOf(s, "s") == Some(status) && StartsOf(s, "s") == t && "s" in s.starts
    && s.abandoned == {} && s.todo == map[]
    && (forall b :: b in s.boxes ==> if r.pc.Starting? || r.pc.Provisioning? then b < t else b <= t)
    && (Early(r.pc) || r.pc.Crashed? ==> AttemptsOf(s, "s") == t - 1)
    && (AfterCrash(r.pc) ==> AttemptsOf(s, "s") == t)
    && (result.Some? ==> Result(s.log, t) == result)
  }

  /** Where a run that is alone stands, and what its agent has returned. */
  datatype Pos = Pos(r: Thread, status: Status, result: Option<Outcome>)

  ghost predicate SoloRun(env: Env, ss: seq<State>, acts: seq<Action>, t: Tid, p: Pos) {
    Bounded(env, ss, acts, 1) && Solo(Final(ss), t, p.r, p.status, p.result)
  }

  /** An action that leads from a state of a run to one with nothing but runs in it. */
  lemma Append(env: Env, ss: seq<State>, acts: seq<Action>, a: Action) returns (ss': seq<State>, acts': seq<Action>)
    requires Bounded(env, ss, acts, 1) && Enabled(env, Final(ss), a)
    requires forall t :: t in Next(env, Final(ss), a).threads ==> Next(env, Final(ss), a).threads[t].Run?
    ensures Bounded(env, ss', acts', 1) && Final(ss') == Next(env, Final(ss), a)
  {
    assert PendingCalls(Next(env, Final(ss), a)) == {};
    ss', acts' := Extend(env, ss, acts, 1, a);
  }

  // One step.

  predicate Forward(r: Thread, e: Effect)
    requires r.Run?
  {
    && e.run.Run? && e.run.number == r.number
    && (e.run.pc.Starting? || e.run.pc.Provisioning? ==>
          (r.pc.Starting? || r.pc.Provisioning?) && !e.provision && !e.destroy)
    && (Early(e.run.pc) || e.run.pc.Crashed? ==> (Early(r.pc) || r.pc.Crashed?) && !e.crash)
    && (AfterCrash(e.run.pc) ==> if e.crash then r.pc.Crashed? else AfterCrash(r.pc))
    && (e.spawn.None? || r.pc.BackingOff?) && (e.run.pc == Exiting(Abandoned) ==> r.pc.BackingOff?)
    && (e.provision ==> r.pc.Provisioning?) && e.note != Some(DidStart)
  }

  lemma LaunchForward(env: Env, v: View, r: Thread, c: Choice)
    requires r.Run? && InSetup(r.pc)
    ensures Forward(r, StepLaunch(env, v, r, c))
  {
  }

  lemma DecideForward(v: View, r: Thread, c: Choice)
    requires r.Run? && InDecision(r.pc)
    ensures Forward(r, StepDecide(v, r, c))
  {
  }

  lemma EndForward(v: View, r: Thread, c: Choice)
    requires r.Run? && InEnd(r.pc)
    ensures Forward(r, StepEnd(v, r, c))
  {
  }

  lemma CrashForward(env: Env, v: View, r: Thread, c: Choice)
    requires env.Valid() && r.Run? && InCrash(r.pc) && !r.pc.BackingOff?
    ensures Forward(r, StepCrash(env, v, r, c))
  {
  }

  lemma StepForward(env: Env, v: View, r: Thread, c: Choice)
    requires env.Valid() && r.Run? && !r.pc.Exiting? && !r.pc.BackingOff?
    ensures Forward(r, StepRun(env, v, r, c))
  {
    if InSetup(r.pc) {
      LaunchForward(env, v, r, c);
    } else if InDecision(r.pc) {
      DecideForward(v, r, c);
    } else if InEnd(r.pc) {
      EndForward(v, r, c);
    } else if InCrash(r.pc) {
      CrashForward(env, v, r, c);
    }
  }

  /** What a step of a run that is alone does; the attempts matter only at its crash. */
  ghost function Effects(env: Env, t: Tid, r: Thread, status: Status, c: Choice): Effect
    requires env.Valid() && t >= 1 && r.Run? && !r.pc.Exiting? && !r.pc.BackingOff?
  {
    StepRun(env, View(Some(status), t - 1, r.pc.Judging? && Gated(env, r.pc.lines)), r, c)
  }

  lemma AttemptsMatterAtCrash(env: Env, v: View, attempts: nat, r: Thread, c: Choice)
    requires env.Valid() && r.Run? && !r.pc.Exiting? && !r.pc.BackingOff?
    requires r.pc.Crashed? ==> v.attempts == attempts
    ensures StepRun(env, v, r, c) == StepRun(env, v.(attempts := attempts), r, c)
  {
    if InSetup(r.pc) {
      assert StepLaunch(env, v, r, c) == StepLaunch(env, v.(attempts := attempts), r, c);
    } else if InDecision(r.pc) {
      assert StepDecide(v, r, c) == StepDecide(v.(attempts := attempts), r, c);
    } else if InEnd(r.pc) {
      assert StepEnd(v, r, c) == StepEnd(v.(attempts := attempts), r, c);
    }
  }

  function Seen(result: Option<Outcome>, note: Option<What>): Option<Outcome> {
    if note.Some? && note.value.DidReturn? then Some(Outcome(note.value.exit, note.value.lines)) else result
  }

  lemma ApplySolo(env: Env, s: State, t: Tid, r: Thread, status: Status, result: Option<Outcome>, e: Effect, c: Choice)
    requires Solo(s, t, r, status, result) && !r.pc.BackingOff? && Forward(r, e) && e.run.sid == "s"
    requires r.pc.Provisioning? && e.provision ==> c.box == t
    ensures Solo(ApplyEffect(env, s, t, r, e, c), t, e.run, Chains.After(status, e.move), Seen(result, e.note))
  {
    Chains.PerformMove(env, s.plane, "s", e.move, c);
  }

  /** A step of the run, of its monitor, or a grant. */
  datatype Move = Step(c: Choice) | Beat(beat: Beat) | Grant

  predicate CanMove(env: Env, t: Tid, p: Pos, m: Move) {
    && p.r.Run?
    && match m
       case Step(c) =>
         && !p.r.pc.Exiting? && !p.r.pc.BackingOff? && (env.busOk ==> c.pub) && c.ok && c.box == t
         && (p.r.pc.Waiting? ==> c.wake == Reply && p.r.pc.inbox.Some?)
       case Beat(beat) => CanBeat(p.r, beat)
       case Grant => p.r.pc.Waiting? && p.r.pc.inbox.None?
  }

  ghost function Arrives(env: Env, t: Tid, p: Pos, m: Move): Pos
    requires env.Valid() && t >= 1 && CanMove(env, t, p, m)
  {
    match m
    case Step(c) =>
      var e := Effects(env, t, p.r, p.status, c);
      Pos(e.run, Chains.After(p.status, e.move), Seen(p.result, e.note))
    case Beat(beat) => p.(r := p.r.(pulse := StepPulse(env, p.r.pulse, beat)))
    case Grant => p.(r := p.r.(pc := Waiting(p.r.pc.lines, Some(true))))
  }

  function ActionOf(t: Tid, m: Move): Action {
    match m
    case Step(c) => RunStep(t, c)
    case Beat(beat) => BeatStep(t, beat)
    case Grant => Answer(t, true)
  }

  lemma EffectsAreThose(env: Env, s: State, t: Tid, p: Pos, c: Choice)
    requires env.Valid() && t >= 1 && Solo(s, t, p.r, p.status, p.result) && CanMove(env, t, p, Step(c))
    ensures StepRun(env, ViewOf(env, s, p.r), p.r, c) == Effects(env, t, p.r, p.status, c)
  {
    AttemptsMatterAtCrash(env, ViewOf(env, s, p.r), t - 1, p.r, c);
  }

  lemma StepSolo(env: Env, s: State, t: Tid, p: Pos, c: Choice)
    requires env.Valid() && t >= 1 && Solo(s, t, p.r, p.status, p.result) && CanMove(env, t, p, Step(c))
    ensures Enabled(env, s, RunStep(t, c))
    ensures var q := Arrives(env, t, p, Step(c)); Solo(Next(env, s, RunStep(t, c)), t, q.r, q.status, q.result)
  {
    StepRunShape(env, ViewOf(env, s, p.r), p.r, c);
    StepForward(env, ViewOf(env, s, p.r), p.r, c);
    EffectsAreThose(env, s, t, p, c);
    ApplySolo(env, s, t, p.r, p.status, p.result, Effects(env, t, p.r, p.status, c), c);
  }

  lemma BeatSolo(env: Env, s: State, t: Tid, p: Pos, beat: Beat)
    requires env.Valid() && t >= 1 && Solo(s, t, p.r, p.status, p.result) && CanMove(env, t, p, Beat(beat))
    ensures Enabled(env, s, BeatStep(t, beat))
    ensures var q := Arrives(env, t, p, Beat(beat)); Solo(Next(env, s, BeatStep(t, beat)), t, q.r, q.status, q.result)
  {
  }

  lemma GrantSolo(env: Env, s: State, t: Tid, p: Pos)
    requires env.Valid() && t >= 1 && Solo(s, t, p.r, p.status, p.result) && CanMove(env, t, p, Grant)
    ensures Enabled(env, s, Answer(t, true))
    ensures var q := Arrives(env, t, p, Grant); Solo(Next(env, s, Answer(t, true)), t, q.r, q.status, q.result)
  {
  }

  lemma MoveSolo(env: Env, s: State, t: Tid, p: Pos, m: Move)
    requires env.Valid() && t >= 1 && Solo(s, t, p.r, p.status, p.result) && CanMove(env, t, p, m)
    ensures Enabled(env, s, ActionOf(t, m))
    ensures var q := Arrives(env, t, p, m); Solo(Next(env, s, ActionOf(t, m)), t, q.r, q.status, q.result)
  {
    match m
    case Step(c) => StepSolo(env, s, t, p, c);
    case Beat(beat) => BeatSolo(env, s, t, p, beat);
    case Grant => GrantSolo(env, s, t, p);
  }

  // Several moves.

  datatype Trail = End(at: Pos) | Via(at: Pos, m: Move, rest: Trail)

  /** Each position on the trail is where the move before it leads. */
  ghost predicate Sound(env: Env, t: Tid, trail: Trail)
    requires env.Valid() && t >= 1
  {
    trail.Via? ==>
      && CanMove(env, t, trail.at, trail.m) && Arrives(env, t, trail.at, trail.m) == trail.rest.at
      && Sound(env, t, trail.rest)
  }

  function Goal(trail: Trail): Pos { if trail.End? then trail.at else Goal(trail.rest) }

  ghost function Cons(env: Env, t: Tid, p: Pos, m: Move, rest: Trail): (trail: Trail)
    requires env.Valid() && t >= 1 && Sound(env, t, rest) && CanMove(env, t, p, m) && Arrives(env, t, p, m) == rest.at
    ensures Sound(env, t, trail) && Goal(trail) == Goal(rest) && trail.at == p
  {
    Via(p, m, rest)
  }

  /** A sound trail can be followed. */
  lemma {:induction false} Follow(env: Env, ss: seq<State>, acts: seq<Action>, t: Tid, trail: Trail)
    returns (ss': seq<State>, acts': seq<Action>)
    requires env.Valid() && t >= 1 && SoloRun(env, ss, acts, t, trail.at) && Sound(env, t, trail)
    ensures SoloRun(env, ss', acts', t, Goal(trail))
    decreases trail
  {
    ss', acts' := ss, acts;
    if trail.Via? {
      MoveSolo(env, Final(ss), t, trail.at, trail.m);
      ss', acts' := Append(env, ss, acts, ActionOf(t, trail.m));
      ss', acts' := Follow(env, ss', acts', t, trail.rest);
    }
  }

  /** The last goroutine goes. */
  lemma Leave(env: Env, ss: seq<State>, acts: seq<Action>, t: Tid, p: Pos)
    returns (ss': seq<State>, acts': seq<Action>)
    requires env.Valid() && SoloRun(env, ss, acts, t, p) && p.r.Run? && p.r.pc.Exiting?
    ensures IsRun(env, ss', acts')
    ensures var s := Final(ss');
            && s.threads == map[] && s.active == map[] && StatusOf(s, "s") == Some(p.status)
            && StartsOf(s, "s") == t && "s" in s.starts && s.abandoned == {}
            && (p.result.Some? ==> Result(s.log, t) == p.result)
  {
    var q := Next(env, Final(ss), Exit(t));
    assert q.threads == map[] && q.active == map[];
    ss', acts' := Append(env, ss, acts, Exit(t));
  }

  // Submissions.

  const FIRST := Pos(FirstRun("s"), Allocating, None)

  lemma Launch(env: Env) returns (ss: seq<State>, acts: seq<Action>)
    requires env.Valid()
    ensures SoloRun(env, ss, acts, 1, FIRST)
    ensures Final(ss).accepting && Numbered(Final(ss)) && PendingCalls(Final(ss)) == {}
  {
    assert PendingCalls(INIT) == {};
    ss, acts := LaunchOne(env, [INIT], [], 1, "s");
    assert Final(ss).threads == map[1 := FirstRun("s")];
    assert Final(ss).active == map["s" := 1];
  }

  /** Two submissions of "s" have passed the limit check, and the later one is registered. */
  ghost predicate Doubled(s: State) {
    && s.threads == map[0 := Call("s", false, Resolving), 2 := FirstRun("s")] && s.next == 3
    && s.active == map["s" := 2]
  }

  lemma ReachOne(env: Env) returns (ss: seq<State>, acts: seq<Action>)
    requires env.Valid()
    ensures Bounded(env, ss, acts, 2) && Numbered(Final(ss)) && CallAt(INIT, Final(ss), "s", Resolving, Allocating)
    ensures PendingCalls(Final(ss)) == {0}
  {
    assert PendingCalls(INIT) == {};
    ss, acts := ResolveOne(env, [INIT], [], 2, "s");
    CallAtPending(INIT, Final(ss), "s", Resolving, Allocating);
  }

  lemma OneResolves(env: Env, s: State)
    requires env.Valid() && !env.hasStore && !env.uniqueIds && CallAt(INIT, s, "s", Resolving, Allocating)
    ensures MaySubmit(env, s, "s") && MayAdmit(env, s)
  {
  }

  lemma DoubledFrom(one: State, s: State)
    requires CallAt(INIT, one, "s", Resolving, Allocating) && LaunchedFrom(one, s, "s")
    ensures Doubled(s)
  {
    assert one.threads == map[0 := Call("s", false, Resolving)] && one.active == map[];
  }

  lemma ReachDoubled(env: Env) returns (ss: seq<State>, acts: seq<Action>)
    requires env.Valid() && !env.hasStore && !env.uniqueIds
    ensures Bounded(env, ss, acts, 2) && Doubled(Final(ss))
  {
    ss, acts := ReachOne(env);
    var one := Final(ss);
    OneResolves(env, one);
    ss, acts := ResolveOne(env, ss, acts, 2, "s");
    ss, acts := RegisterOne(env, ss, acts, 2, one, "s");
    DoubledFrom(one, Final(ss));
  }

  lemma RegisterTheOther(env: Env, s: State)
    requires env.Valid() && Doubled(s)
    ensures Enabled(env, s, CallStep(0, GOOD))
    ensures var q := Next(env, s, CallStep(0, GOOD));
            q.threads == map[2 := FirstRun("s"), 3 := FirstRun("s")] && q.active == map["s" := 3]
  {
    var q := Next(env, s, CallStep(0, GOOD));
    assert (s.threads - {0}) == map[2 := FirstRun("s")];
    assert q.threads == (s.threads - {0})[3 := FirstRun("s")];
    assert q.active == s.active["s" := 3];
  }

  /** Without a store, resubmitting a task id gives its session a second owner, whatever the limit: both
      submissions pass the limit check before either is registered, and then one of the two runs is
      unfinished, has not handed over, and is not in `active`. */
  lemma ResubmissionHidesARun(env: Env) returns (ss: seq<State>, acts: seq<Action>)
    requires env.Valid() && !env.hasStore && !env.uniqueIds
    ensures IsRun(env, ss, acts)
    ensures Final(ss).threads == map[2 := FirstRun("s"), 3 := FirstRun("s")] && Final(ss).active == map["s" := 3]
    ensures !Apart(Final(ss), 2, 3) && !Admission.Enrolled(Final(ss), 2)
  {
    ss, acts := ReachDoubled(env);
    RegisterTheOther(env, Final(ss));
    assert PendingCalls(Next(env, Final(ss), CallStep(0, GOOD))) == {};
    ss, acts := Extend(env, ss, acts, 2, CallStep(0, GOOD));
  }

  // Points of a run.

  const IDLE := Pulse(Off, false, false)

  /** The `t`-th run of a chain whose runs before it all crashed, with and without its sandbox, which is
      numbered like the run. */
  function Bare(t: Tid, waited: int, pc: RunPc, pulse: Pulse): (r: Thread)
    requires t >= 1
    ensures r.Run?
  {
    Run("s", pc, None, pulse, false, t, t - 1, waited)
  }

  function Housed(t: Tid, waited: int, pc: RunPc, pulse: Pulse): (r: Thread)
    requires t >= 1
    ensures r.Run?
  {
    Run("s", pc, Some(t), pulse, false, t, t - 1, waited)
  }

  function Good(t: Tid): Choice { Choice(true, true, true, ExecError, t, Reply, 0) }

  function Bared(t: Tid, w: int, pc: RunPc, pulse: Pulse, status: Status): Pos
    requires t >= 1
  {
    Pos(Bare(t, w, pc, pulse), status, None)
  }

  function At(t: Tid, w: int, pc: RunPc, pulse: Pulse, status: Status): Pos
    requires t >= 1
  {
    Pos(Housed(t, w, pc, pulse), status, None)
  }

  /** From the start of a run to the point where it has a sandbox and looks at the status of its session. */
  lemma ToLaunching(env: Env, t: Tid, w: int, status: Status, rest: Trail) returns (trail: Trail)
    requires env.Valid() && t >= 1 && Sound(env, t, rest) && rest.at == At(t, w, Launching, IDLE, status)
    ensures Sound(env, t, trail) && Goal(trail) == Goal(rest) && trail.at == Bared(t, w, Starting, IDLE, status)
  {
    var go := Step(Good(t));
    trail := Cons(env, t, At(t, w, Verifying, IDLE, status), go, rest);
    trail := Cons(env, t, Bared(t, w, Provisioning, IDLE, status), go, trail);
    trail := Cons(env, t, Bared(t, w, Starting, IDLE, status), go, trail);
  }

  /** The same up to the execution of the agent. */
  lemma ToExecuting(env: Env, t: Tid, w: int, status: Status, rest: Trail) returns (trail: Trail)
    requires env.Valid() && t >= 1 && Sound(env, t, rest) && rest.at == At(t, w, Executing, Watch(env), Running)
    requires status == Allocating || status == Running
    ensures Sound(env, t, trail) && Goal(trail) == Goal(rest) && trail.at == Bared(t, w, Starting, IDLE, status)
  {
    var go := Step(Good(t));
    trail := rest;
    if status == Allocating {
      trail := Cons(env, t, At(t, w, Promoting, IDLE, Allocating), go, trail);
    }
    trail := Cons(env, t, At(t, w, Launching, IDLE, status), go, trail);
    trail := ToLaunching(env, t, w, status, trail);
  }

  lemma RefusedPromotion(env: Env) returns (trail: Trail)
    requires env.Valid() && !env.busOk
    ensures Sound(env, 1, trail) && trail.at == At(1, 0, Promoting, IDLE, Allocating)
    ensures Goal(trail) == Bared(1, 0, Exiting(Ended), IDLE, Running)
  {
    trail := End(Bared(1, 0, Exiting(Ended), IDLE, Running));
    trail := Cons(env, 1, At(1, 0, Cleaning(false), IDLE, Running), Step(Good(1)), trail);
    trail := Cons(env, 1, At(1, 0, Promoting, IDLE, Allocating), Step(Good(1).(pub := false)), trail);
  }

  lemma ToStranded(env: Env) returns (trail: Trail)
    requires env.Valid() && !env.busOk
    ensures Sound(env, 1, trail) && trail.at == FIRST && Goal(trail) == Bared(1, 0, Exiting(Ended), IDLE, Running)
  {
    trail := RefusedPromotion(env);
    trail := Cons(env, 1, At(1, 0, Launching, IDLE, Allocating), Step(Good(1)), trail);
    trail := ToLaunching(env, 1, 0, Allocating, trail);
  }

  /** A publish that fails at the transition to RUNNING ends the chain there: no goroutine is left,
      nothing was cancelled, and the session stays RUNNING. */
  lemma FailedPublishStrandsASession(env: Env) returns (ss: seq<State>, acts: seq<Action>)
    requires env.Valid() && !env.busOk
    ensures IsRun(env, ss, acts)
    ensures var s := Final(ss);
            "s" in s.starts && !Chains.Held(s, "s") && StatusOf(s, "s") == Some(Running) && s.abandoned == {}
    ensures env.Unique() ==> "s" in Final(ss).stranded
  {
    var trail := ToStranded(env);
    ss, acts := Launch(env);
    ss, acts := Follow(env, ss, acts, 1, trail);
    ss, acts := Leave(env, ss, acts, 1, Bared(1, 0, Exiting(Ended), IDLE, Running));
    if env.Unique() {
      Chains.ChainsEndExactly(env, ss, acts, |ss| - 1, "s");
    }
  }

  function Watch(env: Env): Pulse { Pulse(if env.heartbeats then Watching(0) else Off, false, false) }

  // Crashes.

  /** Heartbeats fail until the monitor has counted enough of them. */
  lemma {:induction false} Flatline(env: Env, t: Tid, w: int, n: nat, rest: Trail) returns (trail: Trail)
    requires env.Valid() && t >= 1 && n < env.maxFailures && Sound(env, t, rest)
    requires rest.at == At(t, w, Executing, Pulse(Sending, false, false), Running)
    ensures Sound(env, t, trail) && Goal(trail) == Goal(rest)
    ensures trail.at == At(t, w, Executing, Pulse(Watching(n), false, false), Running)
    decreases env.maxFailures - n
  {
    trail := rest;
    if n + 1 < env.maxFailures {
      trail := Flatline(env, t, w, n + 1, rest);
    }
    trail := Cons(env, t, At(t, w, Executing, Pulse(Watching(n), false, false), Running), Beat(Dead), trail);
  }

  const POLLED := Pulse(Cutting, false, false)

  /** From the poll of the channel to the decision about a retry: the `t`-th crash is attempt `t`, and the
      dead sandbox is destroyed. */
  lemma ToDecision(env: Env, t: Tid, w: int, rest: Trail) returns (trail: Trail)
    requires env.Valid() && t >= 1 && Sound(env, t, rest)
    requires rest.at == Bared(t, w, CrashDeciding(t), POLLED, Running)
    ensures Sound(env, t, trail) && Goal(trail) == Goal(rest)
    ensures trail.at == At(t, w, Returned(ExecError), Pulse(Cutting, true, false), Running)
  {
    trail := Cons(env, t, At(t, w, CrashCleaning(t), POLLED, Running), Step(Good(t)), rest);
    trail := Cons(env, t, At(t, w, Crashed, POLLED, Running), Step(Good(t)), trail);
    trail := Cons(env, t, At(t, w, Returned(ExecError), Pulse(Cutting, true, false), Running), Step(Good(t)), trail);
  }

  /** A run that crashes: its monitor sends, and Execute comes back by itself before it is cancelled. */
  lemma Crash(env: Env, t: Tid, w: int, status: Status, rest: Trail) returns (trail: Trail)
    requires env.Valid() && env.heartbeats && t >= 1 && Sound(env, t, rest)
    requires rest.at == Bared(t, w, CrashDeciding(t), POLLED, Running)
    requires status == Allocating || status == Running
    ensures Sound(env, t, trail) && Goal(trail) == Goal(rest) && trail.at == Bared(t, w, Starting, IDLE, status)
  {
    trail := ToDecision(env, t, w, rest);
    trail := Cons(env, t, At(t, w, Executing, Pulse(Cutting, true, false), Running), Step(Good(t)), trail);
    trail := Cons(env, t, At(t, w, Executing, Pulse(Sending, false, false), Running), Beat(Dead), trail);
    trail := Flatline(env, t, w, 0, trail);
    trail := ToExecuting(env, t, w, status, trail);
  }

  /** The `t`-th run has handed over to the next one and still has its deferred cleanup to do. */
  ghost predicate Relayed(s: State, t: Tid, r: Thread, next: Thread) {
    && r.Run? && r.pc.Exiting? && r.sid == "s" && next.Run? && next.sid == "s" && next.number == t + 1 && next.pc.Starting?
    && s.threads == map[t := r, t + 1 := next] && s.next == t + 2
    && s.active == (if t == 1 then map["s" := 1] else map[])
    && StatusOf(s, "s") == Some(Running) && StartsOf(s, "s") == t + 1 && "s" in s.starts
    && s.abandoned == {} && s.todo == map[]
    && (forall b :: b in s.boxes ==> b < t + 1) && AttemptsOf(s, "s") == t
  }

  lemma RelayStep(env: Env, s: State, t: Tid, r: Thread) returns (w: int)
    requires env.Valid() && t >= 1 && Solo(s, t, r, Running, None) && r.pc == BackingOff(t) && !r.cancelled
    ensures Enabled(env, s, RunStep(t, Good(t)))
    ensures Relayed(Next(env, s, RunStep(t, Good(t))), t, r.(pc := Exiting(HandedOver)), Bare(t + 1, w, Starting, IDLE))
  {
    w := r.waited + Backoff.Duration(env.backoff, t, 0);
  }

  lemma RelayExit(env: Env, s: State, t: Tid, r: Thread, next: Thread)
    requires env.Valid() && t >= 1 && Relayed(s, t, r, next)
    ensures Enabled(env, s, Exit(t)) && Solo(Next(env, s, Exit(t)), t + 1, next, Running, None)
  {
    assert Next(env, s, Exit(t)).threads == map[t + 1 := next] && Next(env, s, Exit(t)).active == map[];
  }

  /** A run at the end of its backoff hands over to the next run of the chain. */
  lemma HandOver(env: Env, ss: seq<State>, acts: seq<Action>, t: Tid, w: int)
    returns (ss': seq<State>, acts': seq<Action>, w': int)
    requires env.Valid() && t >= 1 && SoloRun(env, ss, acts, t, Bared(t, w, BackingOff(t), POLLED, Running))
    ensures SoloRun(env, ss', acts', t + 1, Bared(t + 1, w', Starting, IDLE, Running))
  {
    var r := Bare(t, w, BackingOff(t), POLLED);
    w' := RelayStep(env, Final(ss), t, r);
    ss', acts' := Append(env, ss, acts, RunStep(t, Good(t)));
    RelayExit(env, Final(ss'), t, r.(pc := Exiting(HandedOver)), Bare(t + 1, w', Starting, IDLE));
    ss', acts' := Append(env, ss', acts', Exit(t));
  }

  lemma CrashAndBackOff(env: Env, t: Tid, w: int, status: Status) returns (trail: Trail)
    requires env.Valid() && env.heartbeats && 1 <= t <= env.maxRetries && (status == Allocating || status == Running)
    ensures Sound(env, t, trail) && trail.at == Bared(t, w, Starting, IDLE, status)
    ensures Goal(trail) == Bared(t, w, BackingOff(t), POLLED, Running)
  {
    trail := End(Bared(t, w, BackingOff(t), POLLED, Running));
    trail := Cons(env, t, Bared(t, w, CrashDeciding(t), POLLED, Running), Step(Good(t)), trail);
    trail := Crash(env, t, w, status, trail);
  }

  /** After `n` crashes the chain is at the start of its run n + 1, for every n up to the limit. */
  lemma {:induction false} CrashTimes(env: Env, n: nat) returns (ss: seq<State>, acts: seq<Action>, w: int)
    requires env.Valid() && env.heartbeats && n <= env.maxRetries
    ensures SoloRun(env, ss, acts, n + 1, Bared(n + 1, w, Starting, IDLE, if n == 0 then Allocating else Running))
  {
    if n == 0 {
      ss, acts := Launch(env);
      w := 0;
    } else {
      ss, acts, w := CrashTimes(env, n - 1);
      var trail := CrashAndBackOff(env, n, w, if n == 1 then Allocating else Running);
      ss, acts := Follow(env, ss, acts, n, trail);
      ss, acts, w := HandOver(env, ss, acts, n, w);
    }
  }

  /** Crash retries escape `Drain`: after any number of crashes up to the limit, the retry run is still
      working although `active` is empty. */
  lemma RetryEscapesDrain(env: Env, n: nat) returns (ss: seq<State>, acts: seq<Action>)
    requires env.Valid() && env.heartbeats && 1 <= n <= env.maxRetries
    ensures IsRun(env, ss, acts)
    ensures var s := Final(ss);
            s.active == map[] && n + 1 in s.threads && s.threads[n + 1].Run? && Owns(s.threads[n + 1])
  {
    var w;
    ss, acts, w := CrashTimes(env, n);
  }

  // A monitor that cancels, and a retry that is cancelled.

  /** A run whose monitor has sent and cancelled before Execute is back. */
  lemma ToCutCrash(env: Env) returns (trail: Trail)
    requires env.Valid() && env.heartbeats
    ensures Sound(env, 1, trail) && trail.at == FIRST
    ensures Goal(trail) == At(1, 0, Crashed, Pulse(Quit, false, true), Running)
  {
    var cut := Pulse(Quit, true, true);
    trail := End(At(1, 0, Crashed, Pulse(Quit, false, true), Running));
    trail := Cons(env, 1, At(1, 0, Returned(ExecError), cut, Running), Step(Good(1)), trail);
    trail := Cons(env, 1, At(1, 0, Executing, cut, Running), Step(Good(1)), trail);
    trail := ToCut(env, trail);
    trail := ToExecuting(env, 1, 0, Allocating, trail);
  }

  lemma ToCut(env: Env, rest: Trail) returns (trail: Trail)
    requires env.Valid() && env.heartbeats && Sound(env, 1, rest)
    requires rest.at == At(1, 0, Executing, Pulse(Quit, true, true), Running)
    ensures Sound(env, 1, trail) && Goal(trail) == Goal(rest)
    ensures trail.at == At(1, 0, Executing, Watch(env), Running)
  {
    trail := Cons(env, 1, At(1, 0, Executing, Pulse(Cutting, true, false), Running), Beat(Dead), rest);
    trail := Cons(env, 1, At(1, 0, Executing, Pulse(Sending, false, false), Running), Beat(Dead), trail);
    trail := Flatline(env, 1, 0, 0, trail);
  }

  /** The crash signal does occur: for every maxFailures there is a run in which that many failed heartbeats and
      two more steps of the monitor cut the execution off, and the run then takes the crash path. */
  lemma CutRunsCrash(env: Env) returns (ss: seq<State>, acts: seq<Action>)
    requires env.Valid() && env.heartbeats
    ensures IsRun(env, ss, acts)
    ensures 1 in Final(ss).threads && Final(ss).threads[1].Run? && Final(ss).threads[1].pc == Crashed && WasCut(Final(ss).log, 1)
  {
    var trail := ToCutCrash(env);
    ss, acts := Launch(env);
    ss, acts := Follow(env, ss, acts, 1, trail);
    CrashSignal.AlwaysSignalled(env, ss, acts, |ss| - 1);
    assert CrashSignal.Heard(Final(ss), 1);
  }

  /** The `t`-th run has been cancelled while it backs off, and has only its cleanup to do. */
  ghost predicate Cancelled(s: State, t: Tid) {
    && s.threads.Keys == {t} && s.threads[t].Run? && s.threads[t].sid == "s" && s.threads[t].pc == Exiting(Abandoned)
    && s.active == (if t == 1 then map["s" := 1] else map[])
    && StatusOf(s, "s") == Some(Running) && "s" in s.abandoned
  }

  lemma CancelStep(env: Env, s: State, t: Tid, r: Thread)
    requires env.Valid() && t >= 1 && Solo(s, t, r, Running, None) && r.pc.BackingOff?
    ensures Enabled(env, s, Cancel(t))
    ensures var q := Next(env, s, Cancel(t)); Solo(q, t, r.(cancelled := true), Running, None)
  {
  }

  lemma AbandonStep(env: Env, s: State, t: Tid, r: Thread)
    requires env.Valid() && t >= 1 && Solo(s, t, r, Running, None) && r.pc.BackingOff? && r.cancelled
    ensures Enabled(env, s, RunStep(t, Good(t).(ok := false)))
    ensures Cancelled(Next(env, s, RunStep(t, Good(t).(ok := false))), t)
  {
  }

  lemma LeaveCancelled(env: Env, s: State, t: Tid)
    requires env.Valid() && Cancelled(s, t)
    ensures Enabled(env, s, Exit(t))
    ensures var q := Next(env, s, Exit(t));
            q.threads == map[] && q.active == map[] && StatusOf(q, "s") == Some(Running) && "s" in q.abandoned
  {
    assert s.threads - {t} == map[] && s.active - {"s"} == map[];
  }

  lemma ReachBackoff(env: Env, n: nat) returns (ss: seq<State>, acts: seq<Action>, w: int)
    requires env.Valid() && env.heartbeats && 1 <= n <= env.maxRetries
    ensures SoloRun(env, ss, acts, n, Bared(n, w, BackingOff(n), POLLED, Running))
  {
    ss, acts, w := CrashTimes(env, n - 1);
    var trail := CrashAndBackOff(env, n, w, if n == 1 then Allocating else Running);
    ss, acts := Follow(env, ss, acts, n, trail);
  }

  lemma ReachCancelled(env: Env, n: nat) returns (ss: seq<State>, acts: seq<Action>)
    requires env.Valid() && env.heartbeats && 1 <= n <= env.maxRetries
    ensures Bounded(env, ss, acts, 1) && Cancelled(Final(ss), n)
  {
    var w;
    ss, acts, w := ReachBackoff(env, n);
    var r := Bare(n, w, BackingOff(n), POLLED);
    CancelStep(env, Final(ss), n, r);
    ss, acts := Append(env, ss, acts, Cancel(n));
    AbandonStep(env, Final(ss), n, r.(cancelled := true));
    ss, acts := Append(env, ss, acts, RunStep(n, Good(n).(ok := false)));
  }

  /** The other exception does occur: after any number of crashes up to the limit, a run cancelled in its backoff
      leaves the session RUNNING and abandoned, with nothing left running. */
  lemma CancelledBackoffAbandons(env: Env, n: nat) returns (ss: seq<State>, acts: seq<Action>)
    requires env.Valid() && env.heartbeats && 1 <= n <= env.maxRetries
    ensures IsRun(env, ss, acts)
    ensures var s := Final(ss); s.threads == map[] && StatusOf(s, "s") == Some(Running) && "s" in s.abandoned
  {
    ss, acts := ReachCancelled(env, n);
    LeaveCancelled(env, Final(ss), n);
    ss, acts := Append(env, ss, acts, Exit(n));
  }

  /** The retry bound is met: a session whose every run crashes gets exactly maxRetries + 1 of them in one
      process, and then it is FAILED and nothing of it is left running. */
  lemma RetriesAreUsedUp(env: Env) returns (ss: seq<State>, acts: seq<Action>)
    requires env.Valid() && env.heartbeats
    ensures IsRun(env, ss, acts)
    ensures var s := Final(ss);
            s.threads == map[] && StartsOf(s, "s") == env.maxRetries + 1 && StatusOf(s, "s") == Some(Failed)
  {
    var t, w := env.maxRetries + 1, 0;
    ss, acts, w := CrashTimes(env, env.maxRetries);
    var end := Bared(t, w, Exiting(Ended), POLLED, Failed);
    var trail := Cons(env, t, Bared(t, w, Failing(false), POLLED, Running), Step(Good(t)), End(end));
    trail := Cons(env, t, Bared(t, w, CrashDeciding(t), POLLED, Running), Step(Good(t)), trail);
    trail := Crash(env, t, w, Running, trail);
    ss, acts := Follow(env, ss, acts, t, trail);
    ss, acts := Leave(env, ss, acts, t, end);
  }

  // Completions.

  /** The first run once its agent has exited 0 with some output. */
  function Back(env: Env, pc: RunPc, status: Status, lines: Lines): Pos {
    Pos(Housed(1, 0, pc, Watch(env)), status, Some(Outcome(0, lines)))
  }

  /** From the exit of the agent to the run's last decision: at once if no policy covers the output, and
      through APPROVAL and a grant if one does. */
  lemma ToClosing(env: Env, lines: Lines, rest: Trail) returns (trail: Trail)
    requires env.Valid() && Sound(env, 1, rest)
    requires rest.at == Back(env, Closing(lines), if Gated(env, lines) then Approval else Running, lines)
    ensures Sound(env, 1, trail) && Goal(trail) == Goal(rest)
    ensures trail.at == At(1, 0, Executing, Watch(env), Running)
  {
    var go := Step(Good(1));
    trail := rest;
    if Gated(env, lines) {
      trail := Cons(env, 1, Back(env, Waiting(lines, Some(true)), Approval, lines), go, trail);
      trail := Cons(env, 1, Back(env, Waiting(lines, None), Approval, lines), Grant, trail);
    }
    trail := Cons(env, 1, Back(env, Judging(0, lines), Running, lines), go, trail);
    trail := ToJudging(env, lines, trail);
  }

  lemma ToJudging(env: Env, lines: Lines, rest: Trail) returns (trail: Trail)
    requires env.Valid() && Sound(env, 1, rest) && rest.at == Back(env, Judging(0, lines), Running, lines)
    ensures Sound(env, 1, trail) && Goal(trail) == Goal(rest)
    ensures trail.at == At(1, 0, Executing, Watch(env), Running)
  {
    trail := Cons(env, 1, Back(env, Returned(ExecDone(0, lines)), Running, lines), Step(Good(1)), rest);
    trail := Cons(env, 1, At(1, 0, Executing, Watch(env), Running), Step(Good(1).(result := ExecDone(0, lines))), trail);
  }

  lemma ToCompleted(env: Env, lines: Lines) returns (trail: Trail)
    requires env.Valid()
    ensures Sound(env, 1, trail) && trail.at == Back(env, Completing(lines), Running, lines)
    ensures Goal(trail) == Pos(Bare(1, 0, Exiting(Ended), Watch(env)), Completed, Some(Outcome(0, lines)))
  {
    trail := End(Pos(Bare(1, 0, Exiting(Ended), Watch(env)), Completed, Some(Outcome(0, lines))));
    trail := Cons(env, 1, Back(env, Cleaning(false), Completed, lines), Step(Good(1)), trail);
    trail := Cons(env, 1, Back(env, Completing(lines), Running, lines), Step(Good(1)), trail);
  }

  /** An approved session goes back through RUNNING. */
  lemma ToReopening(env: Env, lines: Lines, rest: Trail) returns (trail: Trail)
    requires env.Valid() && Sound(env, 1, rest) && rest.at == Back(env, Completing(lines), Running, lines)
    ensures Sound(env, 1, trail) && Goal(trail) == Goal(rest) && trail.at == Back(env, Closing(lines), Approval, lines)
  {
    trail := Cons(env, 1, Back(env, Reopening(lines), Approval, lines), Step(Good(1)), rest);
    trail := Cons(env, 1, Back(env, Closing(lines), Approval, lines), Step(Good(1)), trail);
  }

  lemma ToCompleting(env: Env, lines: Lines, rest: Trail) returns (trail: Trail)
    requires env.Valid() && Sound(env, 1, rest) && rest.at == Back(env, Completing(lines), Running, lines)
    ensures Sound(env, 1, trail) && Goal(trail) == Goal(rest)
    ensures trail.at == Back(env, Closing(lines), if Gated(env, lines) then Approval else Running, lines)
  {
    if Gated(env, lines) {
      trail := ToReopening(env, lines, rest);
    } else {
      trail := Cons(env, 1, Back(env, Closing(lines), Running, lines), Step(Good(1)), rest);
    }
  }

  /** The gate is not closed for good: for every output there is a run of the engine in which the agent
      exits 0 with that output and the session ends COMPLETED with nothing left running. */
  lemma EveryOutputCanComplete(env: Env, lines: Lines) returns (ss: seq<State>, acts: seq<Action>)
    requires env.Valid()
    ensures IsRun(env, ss, acts)
    ensures var s := Final(ss);
            s.threads == map[] && StatusOf(s, "s") == Some(Completed) && Result(s.log, 1) == Some(Outcome(0, lines))
  {
    var trail := ToCompleted(env, lines);
    var end := Goal(trail);
    trail := ToCompleting(env, lines, trail);
    trail := ToClosing(env, lines, trail);
    trail := ToExecuting(env, 1, 0, Allocating, trail);
    ss, acts := Launch(env);
    ss, acts := Follow(env, ss, acts, 1, trail);
    ss, acts := Leave(env, ss, acts, 1, end);
  }
}
