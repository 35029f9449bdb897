/** The session engine as a step system: every goroutine of the coordinator is a thread with a
    program counter, and a run is any interleaving of their steps with heartbeats, approval answers,
    cancellations, lost store writes, shutdown and process restarts
    (internal/coordinator/coordinator.go, the recovery loop of internal/core/builder.go). */
module Engine {
  import opened Lifecycle
  import P = Plane
  import Policies
  import Backoff

  type Sid = P.Sid
  type Tid = nat
  type Box = nat
  type Attempt = n: nat | n >= 1 witness 1
  type Lines = seq<Option<Policies.ToolUse>>

  /** Configuration (after the clamps of `New`) and what may be assumed of the surroundings. */
  datatype Env = Env(
    hasStore: bool,      // a state store is configured
    uniqueIds: bool,     // in memory-only mode, no task id is submitted twice in one process
    busOk: bool,         // Publish returns nil, as MemoryBus does
    destroyOk: bool,     // Destroy and the reaping of orphans succeed
    maxConcurrent: nat,
    maxRetries: nat,
    heartbeats: bool,
    maxFailures: nat,
    backoff: Backoff.Backoff,
    pats: Policies.Patterns,
    policies: seq<Policies.Policy>)
  {
    predicate Valid() { maxConcurrent >= 1 && maxRetries >= 1 && maxFailures >= 1 && backoff.Valid() }

    /** One id never gets two sessions: the primary key sees to it, or the clients do. */
    predicate Unique() { hasStore || uniqueIds }
  }

  ghost predicate Gated(env: Env, lines: Lines) {
    Policies.NeedsApproval(env.pats, env.policies, Policies.Extracted(lines))
  }

  // Threads.

  /** `SubmitTask`/`startTask` and `ResumeSession`: Checking is before the admission check, Admitted
      and Resolving are between it and the registration in `active`. */
  datatype CallPc = Emitting | Checking | Admitted | Resolving | CallFailing

  datatype ExecResult = ExecError | ExecDone(exit: int, lines: Lines)

  datatype Why = Ended | HandedOver | Abandoned

  /** `runAgent` together with `handleCrash` and `waitForApproval`. */
  datatype RunPc =
    | Starting                                          // pick, verify and configure the adapter
    | Provisioning
    | Verifying                                         // look for the binary inside the sandbox
    | Launching                                         // read the status: already RUNNING?
    | Promoting                                         // make the session RUNNING
    | Executing
    | Returned(result: ExecResult)                      // Execute is back, crashCh not polled yet
    | Judging(exit: int, lines: Lines)
    | Waiting(lines: Lines, inbox: Option<bool>)        // waitForApproval; inbox is respCh
    | Closing(lines: Lines)                             // read the status: in APPROVAL?
    | Reopening(lines: Lines)                           // back through RUNNING
    | Completing(lines: Lines)
    | Failing(thenClean: bool)                          // failSession
    | Cleaning(thenFail: bool)                          // cleanupSandbox
    | Crashed
    | CrashCleaning(attempt: Attempt)
    | CrashDeciding(attempt: Attempt)
    | BackingOff(attempt: Attempt)
    | Exiting(why: Why)                                 // only the deferred delete(active) is left

  /** The heartbeat monitor of a run. */
  datatype Phase = Off | Watching(failures: nat) | Sending | Cutting | Quit
  datatype Pulse = Pulse(phase: Phase, signal: bool /* crashCh is non-empty */, cut: bool /* heartbeatCancel called */)

  datatype Thread =
    | Call(sid: Sid, resume: bool, at: CallPc)
    | Run(sid: Sid, pc: RunPc, box: Option<Box>, pulse: Pulse, cancelled: bool,
          number: nat,     // which run of its chain this is, from 1
          last: nat,       // attempt count at which it was relaunched, 0 for a first run
          waited: int)     // backoff its chain has slept through

  function FirstRun(sid: Sid): Thread { Run(sid, Starting, None, Pulse(Off, false, false), false, 1, 0, 0) }

  /** A thread owns its session until all that is left of it is the deferred cleanup. */
  predicate Owns(th: Thread) { th.Call? || !th.pc.Exiting? }

  predicate Pending(th: Thread) { th.Call? && (th.at == Admitted || th.at == Resolving) }

  // The observable history, newest entry outermost.

  datatype What =
    | DidStart | DidReturn(exit: int, lines: Lines) | DidFailExec | DidAnswer(granted: bool)
    | DidGiveUp | DidCut | DidComplete

  datatype Log = Nil | Snoc(prev: Log, t: Tid, sid: Sid, what: What)

  // State.

  /** A sandbox ever provisioned: by which run, how many Destroy calls it got, whether the container
      still exists, and whether the process that provisioned it died before destroying it. */
  datatype Sandbox = Sandbox(run: Tid, sid: Sid, destroys: nat, live: bool, lost: bool)

  datatype State = State(
    plane: P.Plane,
    todo: map<Sid, Status>,        // recovered rows the recovery loop has not reached
    threads: map<Tid, Thread>,
    next: Tid,
    active: map<Sid, Tid>,         // the run whose cancel function is registered
    accepting: bool,
    attempts: map<Sid, nat>,
    starts: map<Sid, nat>,         // agent runs started by this process
    abandoned: set<Sid>,           // chains cancelled during backoff, in this process
    stranded: set<Sid>,            // a transition to an unfinished status went through but not its event
    boxes: map<Box, Sandbox>,
    log: Log)

  const INIT := State(P.EMPTY, map[], map[], 0, map[], true, map[], map[], {}, {}, map[], Nil)

  function StatusOf(s: State, sid: Sid): Option<Status> {
    if sid in s.plane.mem then Some(s.plane.mem[sid]) else None
  }

  function AttemptsOf(s: State, sid: Sid): nat { if sid in s.attempts then s.attempts[sid] else 0 }

  function StartsOf(s: State, sid: Sid): nat { if sid in s.starts then s.starts[sid] else 0 }

  function Perform(env: Env, p: P.Plane, op: Option<P.Op>): P.Plane {
    if op.Some? then P.Apply(env.hasStore, p, op.value) else p
  }

  /** The operation moves its session on to a status that is not an end, and the event is not published. */
  predicate Strands(p: P.Plane, op: Option<P.Op>) {
    && op.Some? && op.value.OpTransition? && !op.value.pub
    && P.Accepts(p, op.value.sid, op.value.to) && !Terminal(op.value.to)
  }

  // One step of a run.

  datatype Wake = Reply | TimedOut | CtxDone

  /** Resolves everything a step leaves open: outcomes of calls into the sandbox, store and bus. */
  datatype Choice = Choice(ok: bool, stored: bool, pub: bool, result: ExecResult, box: Box, wake: Wake, noise: nat)

  datatype Effect = Effect(
    run: Thread,                 // the run afterwards
    move: Option<Status>,        // the Transition it called
    provision: bool,
    destroy: bool,
    crash: bool,                 // sessionAttempts incremented
    spawn: Option<Thread>,       // the retry goroutine
    note: Option<What>)

  function Goto(r: Thread, pc: RunPc): Effect
    requires r.Run?
  {
    Effect(r.(pc := pc), None, false, false, false, None, None)
  }

  /** `Transition` returned nil. */
  predicate Moved(status: Option<Status>, to: Status, pub: bool) {
    status.Some? && Allowed(status.value, to) && pub
  }

  predicate CanRun(env: Env, boxes: map<Box, Sandbox>, r: Thread, c: Choice)
    requires r.Run?
  {
    && (env.busOk ==> c.pub)
    && match r.pc
       case Provisioning => c.ok ==> c.box !in boxes
       case Waiting(_, inbox) => (c.wake == Reply ==> inbox.Some?) && (c.wake == CtxDone ==> r.cancelled)
       case Cleaning(_) => env.destroyOk ==> c.ok
       case CrashCleaning(_) => env.destroyOk ==> c.ok
       case BackingOff(_) => (c.ok ==> c.noise < env.backoff.jitter) && (!c.ok ==> r.cancelled)
       case Exiting(_) => false
       case _ => true
  }

  function Execute(env: Env, r: Thread): Effect
    requires r.Run?
  {
    Goto(r.(pulse := Pulse(if env.heartbeats then Watching(0) else Off, false, false)), Executing)
  }

  /** What a run reads of the shared state: its session's status and attempt count, and the verdict of
      `checkPolicies` on the tool calls it has collected. */
  datatype View = View(status: Option<Status>, attempts: nat, gated: bool)

  ghost function ViewOf(env: Env, s: State, r: Thread): View
    requires r.Run?
  {
    View(StatusOf(s, r.sid), AttemptsOf(s, r.sid), r.pc.Judging? && Gated(env, r.pc.lines))
  }

  /** Up to the transition to RUNNING. */
  predicate InSetup(pc: RunPc) {
    pc.Starting? || pc.Provisioning? || pc.Verifying? || pc.Launching? || pc.Promoting?
  }

  /** Up to the poll of the crash channel. */
  predicate Early(pc: RunPc) { InSetup(pc) || pc.Executing? || pc.Returned? }

  /** From the exit of the agent up to the decision to complete. */
  predicate InDecision(pc: RunPc) { pc.Judging? || pc.Waiting? || pc.Closing? || pc.Reopening? }

  /** The way out. */
  predicate InEnd(pc: RunPc) { pc.Completing? || pc.Failing? || pc.Cleaning? }

  /** Inside `handleCrash`. */
  predicate InCrash(pc: RunPc) { pc.Crashed? || pc.CrashCleaning? || pc.CrashDeciding? || pc.BackingOff? }

  /** `runAgent` from choosing the adapter to the transition to RUNNING. */
  function StepLaunch(env: Env, v: View, r: Thread, c: Choice): Effect
    requires r.Run? && InSetup(r.pc)
  {
    match r.pc
    case Starting => Goto(r, if c.ok then Provisioning else Failing(false))
    case Provisioning =>
      if c.ok then Goto(r.(box := Some(c.box)), Verifying).(provision := true) else Goto(r, Failing(false))
    case Verifying => Goto(r, if c.ok then Launching else Cleaning(true))
    case Launching =>
      if v.status == Some(Running) then Execute(env, r) else Goto(r, Promoting)
    case Promoting =>
      if Moved(v.status, Running, c.pub) then Execute(env, r).(move := Some(Running))
      else Goto(r, Cleaning(false)).(move := Some(Running))
  }

  /** The execution of the agent and the poll of the crash channel. */
  function StepExecute(r: Thread, c: Choice): Effect
    requires r.Run? && (r.pc.Executing? || r.pc.Returned?)
  {
    match r.pc
    case Executing =>
      Goto(r, Returned(c.result)).(note := if c.result.ExecDone?
                                           then Some(DidReturn(c.result.exit, c.result.lines)) else None)
    case Returned(result) =>
      if r.pulse.signal then Goto(r.(pulse := r.pulse.(signal := false)), Crashed)
      else if result.ExecError? then Goto(r, Failing(true)).(note := Some(DidFailExec))
      else Goto(r, Judging(result.exit, result.lines))
  }

  /** `runAgent` after the crash channel was found empty, with `waitForApproval`. */
  function StepDecide(v: View, r: Thread, c: Choice): Effect
    requires r.Run? && InDecision(r.pc)
  {
    match r.pc
    case Judging(exit, lines) =>
      if exit != 0 then Goto(r, Failing(true))
      else if !v.gated then Goto(r, Closing(lines))
      else if Moved(v.status, Approval, c.pub) then Goto(r, Waiting(lines, None)).(move := Some(Approval))
      else Goto(r, Cleaning(false)).(move := Some(Approval))
    case Waiting(lines, inbox) =>
      if c.wake == Reply then Goto(r, if inbox == Some(true) then Closing(lines) else Failing(true))
      else Goto(r, Failing(true)).(note := Some(DidGiveUp))
    case Closing(lines) =>
      Goto(r, if v.status == Some(Approval) then Reopening(lines) else Completing(lines))
    case Reopening(lines) =>
      if Moved(v.status, Running, c.pub) then Goto(r, Completing(lines)).(move := Some(Running))
      else Goto(r, Cleaning(false)).(move := Some(Running))
  }

  /** Completion, `failSession` and `cleanupSandbox`. */
  function StepEnd(v: View, r: Thread, c: Choice): Effect
    requires r.Run? && InEnd(r.pc)
  {
    match r.pc
    case Completing(lines) =>
      Goto(r, Cleaning(false)).(move := Some(Completed),
           note := if v.status.Some? && Allowed(v.status.value, Completed) then Some(DidComplete) else None)
    case Failing(thenClean) =>
      Goto(r, if thenClean then Cleaning(false) else Exiting(Ended)).(move := Some(Failed))
    case Cleaning(thenFail) =>
      Goto(r.(box := None), if thenFail then Failing(false) else Exiting(Ended)).(destroy := true)
  }

  /** `handleCrash`. */
  function StepCrash(env: Env, v: View, r: Thread, c: Choice): Effect
    requires env.Valid() && r.Run? && InCrash(r.pc)
    requires r.pc.BackingOff? && c.ok ==> c.noise < env.backoff.jitter
  {
    match r.pc
    case Crashed => Goto(r, CrashCleaning(v.attempts + 1)).(crash := true)
    case CrashCleaning(n) => Goto(r.(box := None), CrashDeciding(n)).(destroy := true)
    case CrashDeciding(n) => Goto(r, if n > env.maxRetries then Failing(false) else BackingOff(n))
    case BackingOff(n) =>
      if c.ok then
        Goto(r, Exiting(HandedOver)).(spawn := Some(
          Run(r.sid, Starting, None, Pulse(Off, false, false), r.cancelled,
              r.number + 1, n, r.waited + Backoff.Duration(env.backoff, n, c.noise))))
      else Goto(r, Exiting(Abandoned))
  }

  function StepRun(env: Env, v: View, r: Thread, c: Choice): Effect
    requires env.Valid() && r.Run? && !r.pc.Exiting?
    requires r.pc.BackingOff? && c.ok ==> c.noise < env.backoff.jitter
  {
    if InSetup(r.pc) then StepLaunch(env, v, r, c)
    else if Early(r.pc) then StepExecute(r, c)
    else if InCrash(r.pc) then StepCrash(env, v, r, c)
    else if InDecision(r.pc) then StepDecide(v, r, c)
    else StepEnd(v, r, c)
  }

  function MoveOp(sid: Sid, move: Option<Status>, c: Choice): Option<P.Op> {
    if move.Some? then Some(P.OpTransition(sid, move.value, c.stored, c.pub)) else None
  }

  function Noted(log: Log, t: Tid, sid: Sid, note: Option<What>): Log {
    if note.Some? then Snoc(log, t, sid, note.value) else log
  }

  function Boxed(boxes: map<Box, Sandbox>, t: Tid, r: Thread, e: Effect, c: Choice): map<Box, Sandbox>
    requires r.Run?
  {
    if e.provision then boxes[c.box := Sandbox(t, r.sid, 0, true, false)]
    else if e.destroy && r.box.Some? && r.box.value in boxes then
      var b := boxes[r.box.value];
      boxes[r.box.value := b.(destroys := b.destroys + 1, live := b.live && !c.ok)]
    else boxes
  }

  ghost function ApplyEffect(env: Env, s: State, t: Tid, r: Thread, e: Effect, c: Choice): State
    requires r.Run?
  {
    var threads := s.threads[t := e.run];
    var log := Noted(s.log, t, r.sid, e.note);
    s.(plane := Perform(env, s.plane, MoveOp(r.sid, e.move, c)),
       threads := if e.spawn.Some? then threads[s.next := e.spawn.value] else threads,
       next := if e.spawn.Some? then s.next + 1 else s.next,
       attempts := if e.crash then s.attempts[r.sid := AttemptsOf(s, r.sid) + 1] else s.attempts,
       starts := if e.spawn.Some? then s.starts[r.sid := StartsOf(s, r.sid) + 1] else s.starts,
       abandoned := if e.run.Run? && e.run.pc == Exiting(Abandoned) then s.abandoned + {r.sid} else s.abandoned,
       stranded := if Strands(s.plane, MoveOp(r.sid, e.move, c)) then s.stranded + {r.sid} else s.stranded,
       boxes := Boxed(s.boxes, t, r, e, c),
       log := if e.spawn.Some? then Snoc(log, s.next, r.sid, DidStart) else log)
  }

  // The heartbeat monitor.

  datatype Beat = Alive | Dead | Stop

  predicate CanBeat(r: Thread, beat: Beat) {
    && r.Run?
    && (beat == Stop ==> r.cancelled || r.pulse.cut || r.pc.Exiting?)
    && match r.pulse.phase
       case Watching(_) => true
       case Sending => true
       case Cutting => true
       case _ => false
  }

  function StepPulse(env: Env, p: Pulse, beat: Beat): Pulse {
    match p.phase
    case Watching(n) =>
      if beat == Stop then p.(phase := Quit)
      else if beat == Alive then p.(phase := Watching(0))
      else if n + 1 >= env.maxFailures then p.(phase := Sending)
      else p.(phase := Watching(n + 1))
    case Sending => p.(phase := Cutting, signal := true)   // a buffered channel of size one
    case Cutting => p.(phase := Quit, cut := true)
    case _ => p
  }

  // Admission.

  predicate MayAdmit(env: Env, s: State) { s.accepting && |s.active| < env.maxConcurrent }

  /** One step of a call: what it asks of the control plane, where it goes (or that it returns), and
      whether it registers its session in `active` and launches the agent goroutine. */
  datatype CallEffect = CallEffect(op: Option<P.Op>, at: Option<CallPc>, launch: bool)

  function StepCall(env: Env, s: State, th: Thread, c: Choice): CallEffect
    requires th.Call?
  {
    match th.at
    case Emitting => CallEffect(Some(P.OpAnnounce(th.sid, c.pub)), if c.pub then Some(Checking) else None, false)
    case Checking => CallEffect(None, if MayAdmit(env, s) then Some(Admitted) else None, false)
    case Admitted =>
      if th.resume then CallEffect(None, if th.sid in s.plane.mem then Some(Resolving) else None, false)
      else CallEffect(MoveOp(th.sid, Some(Allocating), c),
                      if Moved(StatusOf(s, th.sid), Allocating, c.pub) then Some(Resolving) else None, false)
    case Resolving => if c.ok then CallEffect(None, None, true) else CallEffect(None, Some(CallFailing), false)
    case CallFailing => CallEffect(MoveOp(th.sid, Some(Failed), c), None, false)
  }

  function ApplyCall(env: Env, s: State, t: Tid, th: Thread, e: CallEffect): State
    requires th.Call?
  {
    var q := s.(plane := Perform(env, s.plane, e.op),
                stranded := if Strands(s.plane, e.op) then s.stranded + {th.sid} else s.stranded);
    if e.launch then
      q.(threads := (s.threads - {t})[s.next := FirstRun(th.sid)],
         next := s.next + 1,
         active := s.active[th.sid := s.next],
         starts := s.starts[th.sid := StartsOf(s, th.sid) + 1],
         log := Snoc(s.log, s.next, th.sid, DidStart))
    else q.(threads := if e.at.Some? then s.threads[t := th.(at := e.at.value)] else s.threads - {t})
  }

  // Recovery.

  /** A new process: `Recover` reloads the rows, and orphaned containers are reaped before anything runs. */
  function Restart(s: State, reaped: set<Box>): State {
    var plane := P.Reload(s.plane);
    State(plane, plane.mem, map[], s.next, map[], true, map[], map[], {}, {},
          map b | b in s.boxes ::
            s.boxes[b].(lost := s.boxes[b].lost || s.boxes[b].destroys == 0,
                        live := s.boxes[b].live && b !in reaped),
          s.log)
  }

  /** One pass of the recovery loop: the transition it makes, the row's status if it needs another
      pass, and whether the session is handed to `ResumeSession`. */
  datatype RecoverEffect = RecoverEffect(move: Option<Status>, again: Option<Status>, resume: bool)

  /** `recent` is whether the row's age is within the timeout. An APPROVAL row takes two passes. */
  function Disposition(status: Status, recent: bool): RecoverEffect {
    match status
    case Running => if recent then RecoverEffect(None, None, true) else RecoverEffect(Some(Failed), None, false)
    case Allocating => RecoverEffect(Some(Failed), None, false)
    case Cancelling => RecoverEffect(Some(Failed), None, false)
    case Approval => RecoverEffect(Some(Cancelling), Some(Cancelling), false)
    case _ => RecoverEffect(None, None, false)
  }

  function ApplyRecover(env: Env, s: State, sid: Sid, e: RecoverEffect, c: Choice): State {
    s.(plane := Perform(env, s.plane, MoveOp(sid, e.move, c)),
       todo := if e.again.Some? then s.todo[sid := e.again.value] else s.todo - {sid},
       threads := if e.resume then s.threads[s.next := Call(sid, true, Checking)] else s.threads,
       next := if e.resume then s.next + 1 else s.next)
  }

  // The whole system.

  datatype Action =
    | Submit(sid: Sid, insert: P.Insert)
    | CallStep(t: Tid, c: Choice)
    | RunStep(t: Tid, c: Choice)
    | Exit(t: Tid)
    | BeatStep(t: Tid, beat: Beat)
    | Answer(t: Tid, granted: bool)
    | Cancel(t: Tid)
    | StopAccepting
    | Reboot(reaped: set<Box>)
    | Recover(sid: Sid, recent: bool, c: Choice)

  ghost predicate Enabled(env: Env, s: State, a: Action) {
    match a
    case Submit(sid, _) => env.hasStore || (env.uniqueIds ==> sid !in s.plane.mem)
    case CallStep(t, c) => t in s.threads && s.threads[t].Call? && (env.busOk ==> c.pub)
    case RunStep(t, c) => t in s.threads && s.threads[t].Run? && CanRun(env, s.boxes, s.threads[t], c)
    case Exit(t) => t in s.threads && s.threads[t].Run? && s.threads[t].pc.Exiting?
    case BeatStep(t, beat) => t in s.threads && CanBeat(s.threads[t], beat)
    case Answer(t, _) => t in s.threads && s.threads[t].Run? && s.threads[t].pc.Waiting?
    case Cancel(t) => t in s.threads && s.threads[t].Run?
    case StopAccepting => true
    case Reboot(reaped) => env.destroyOk ==> forall b :: b in s.boxes && s.boxes[b].live ==> b in reaped
    case Recover(sid, _, c) => sid in s.todo && (env.busOk ==> c.pub)
  }

  ghost function Next(env: Env, s: State, a: Action): State
    requires env.Valid() && Enabled(env, s, a)
  {
    match a
    case Submit(sid, insert) =>
      var q := s.(plane := P.Create(env.hasStore, s.plane, sid, insert));
      if P.CreateSucceeds(env.hasStore, s.plane, sid, insert)
      then q.(threads := s.threads[s.next := Call(sid, false, Emitting)], next := s.next + 1) else q
    case CallStep(t, c) => ApplyCall(env, s, t, s.threads[t], StepCall(env, s, s.threads[t], c))
    case RunStep(t, c) =>
      var r := s.threads[t];
      ApplyEffect(env, s, t, r, StepRun(env, ViewOf(env, s, r), r, c), c)
    case Exit(t) => s.(threads := s.threads - {t}, active := s.active - {s.threads[t].sid})
    case BeatStep(t, beat) =>
      var r := s.threads[t];
      var p := StepPulse(env, r.pulse, beat);
      s.(threads := s.threads[t := r.(pulse := p)],
         log := if p.cut && !r.pulse.cut then Snoc(s.log, t, r.sid, DidCut) else s.log)
    case Answer(t, granted) =>
      var r := s.threads[t];
      var inbox := if r.pc.inbox.None? then Some(granted) else r.pc.inbox;
      s.(threads := s.threads[t := r.(pc := r.pc.(inbox := inbox))], log := Snoc(s.log, t, r.sid, DidAnswer(granted)))
    case Cancel(t) => s.(threads := s.threads[t := s.threads[t].(cancelled := true)])
    case StopAccepting => s.(accepting := false)
    case Reboot(reaped) => Restart(s, reaped)
    case Recover(sid, recent, c) => ApplyRecover(env, s, sid, Disposition(s.todo[sid], recent), c)
  }

  /** Any finite run: states joined by enabled actions, starting from an empty system. */
  ghost predicate IsRun(env: Env, ss: seq<State>, acts: seq<Action>) {
    && |ss| == |acts| + 1
    && ss[0] == INIT
    && env.Valid()
    && forall i {:trigger acts[i]} :: 0 <= i < |acts| ==> Enabled(env, ss[i], acts[i]) && ss[i + 1] == Next(env, ss[i], acts[i])
  }
}
