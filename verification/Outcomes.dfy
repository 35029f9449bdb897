/** What becomes of a run, told from nothing but the outcomes of the calls it made: whether its adapter was
    ready, what Execute returned, whether its monitor had signalled, how its approval request was answered.
    The history these give decides how `runAgent` ends and in which status its session is left
    (internal/coordinator/coordinator.go). */
module Outcomes {
  import opened Lifecycle
  import opened Engine
  import opened Ownership
  import opened History
  import P = Plane
  import Chains
  import Sandboxes
  import Admission
  import ApprovalGate
  import Policies

  /** The outcomes so far; None where the run has not come to the call. */
  datatype Tale = Tale(
    ready: Option<bool>,          // adapter picked, verified and configured
    provisioned: Option<bool>,
    verified: Option<bool>,       // the binary is in the sandbox
    promoted: Option<bool>,       // the event of the transition to RUNNING was published
    result: Option<ExecResult>,
    signal: Option<bool>,         // the poll of the crash channel found an error
    attempt: Option<nat>,         // which crash of the session this is, in this process
    slept: Option<bool>,          // the backoff was slept through
    asked: Option<bool>,          // the event of a transition to APPROVAL would be published
    answer: Option<bool>,         // the first answer while it waited
    woke: Option<Wake>,
    reopened: Option<bool>)       // the event of the transition back to RUNNING was published

  const SILENT := Tale(None, None, None, None, None, None, None, None, None, None, None, None)

  const SET_UP := SILENT.(ready := Some(true), provisioned := Some(true), verified := Some(true))

  /** The outcome `c` of the call at which a run is. */
  function Heard(tale: Tale, r: Thread, attempts: nat, c: Choice): Tale
    requires r.Run?
  {
    match r.pc
    case Starting => tale.(ready := Some(c.ok))
    case Provisioning => tale.(provisioned := Some(c.ok))
    case Verifying => tale.(verified := Some(c.ok))
    case Promoting => tale.(promoted := Some(c.pub))
    case Executing => tale.(result := Some(c.result))
    case Returned(_) => tale.(signal := Some(r.pulse.signal))
    case Judging(_, _) => tale.(asked := Some(c.pub))
    case Waiting(_, _) => tale.(woke := Some(c.wake))
    case Reopening(_) => tale.(reopened := Some(c.pub))
    case Crashed => tale.(attempt := Some(attempts + 1))
    case BackingOff(_) => tale.(slept := Some(c.ok))
    case _ => tale
  }

  /** What one action tells of run `t`. */
  function Tell(tale: Tale, s: State, a: Action, t: Tid): Tale {
    match a
    case RunStep(u, c) =>
      if u == t && t in s.threads && s.threads[t].Run?
      then Heard(tale, s.threads[t], AttemptsOf(s, s.threads[t].sid), c) else tale
    case Answer(u, granted) => if u == t && tale.answer.None? then tale.(answer := Some(granted)) else tale
    case _ => tale
  }

  /** What the actions up to `i` tell of run `t`. */
  ghost function TaleOf(ss: seq<State>, acts: seq<Action>, i: nat, t: Tid): Tale
    requires i <= |acts| < |ss|
    decreases i
  {
    if i == 0 then SILENT else Tell(TaleOf(ss, acts, i - 1, t), ss[i - 1], acts[i - 1], t)
  }

  // How a run ends.

  /** Some line of the output is a tool call that a policy asks approval for. */
  ghost predicate NeedsGrant(env: Env, lines: Lines) {
    exists k, j :: 0 <= k < |lines| && lines[k].Some? && 0 <= j < |env.policies| && AsksFor(env, j, lines[k].value)
  }

  predicate AsksFor(env: Env, j: nat, call: Policies.ToolUse)
    requires j < |env.policies|
  {
    env.policies[j].config.action == "require_approval" && Policies.Covers(env.pats, env.policies[j].config, call)
  }

  lemma GatedMeansNeedsGrant(env: Env, lines: Lines)
    ensures Gated(env, lines) <==> NeedsGrant(env, lines)
  {
    var calls := Policies.Extracted(lines);
    if Gated(env, lines) {
      var i, j :| 0 <= i < |calls| && 0 <= j < |env.policies| && Policies.Guards(env.pats, env.policies[j], calls[i]);
      assert calls[i] in calls && Some(calls[i]) in lines;
      var k :| 0 <= k < |lines| && lines[k] == Some(calls[i]);
      assert AsksFor(env, j, lines[k].value);
    }
    if NeedsGrant(env, lines) {
      var k, j :| 0 <= k < |lines| && lines[k].Some? && 0 <= j < |env.policies| && AsksFor(env, j, lines[k].value);
      assert lines[k].value in calls;
      var i :| 0 <= i < |calls| && calls[i] == lines[k].value;
      assert Policies.Guards(env.pats, env.policies[j], calls[i]);
    }
  }

  predicate ExitedZero(tale: Tale) {
    tale.signal == Some(false) && tale.result.Some? && tale.result.value.ExecDone? && tale.result.value.exit == 0
  }

  /** A policy covers the output of the agent. */
  ghost predicate Covered(env: Env, tale: Tale) {
    tale.result.Some? && tale.result.value.ExecDone? && NeedsGrant(env, tale.result.value.lines)
  }

  predicate Granted(tale: Tale) { tale.woke == Some(Reply) && tale.answer == Some(true) }

  ghost predicate Completes(env: Env, tale: Tale) {
    ExitedZero(tale) && tale.reopened != Some(false)
    && (Covered(env, tale) ==> Granted(tale) && tale.reopened == Some(true))
  }

  /** A failed preparation; a plain failure of Execute or of the agent; a refused, late or cancelled approval;
      or a crash without retries left. */
  ghost predicate Fails(env: Env, tale: Tale) {
    || tale.ready == Some(false)
    || tale.provisioned == Some(false)
    || tale.verified == Some(false)
    || (tale.signal == Some(false) && !ExitedZero(tale))
    || (Covered(env, tale) && tale.woke.Some? && !Granted(tale))
    || (tale.attempt.Some? && tale.attempt.value > env.maxRetries)
  }

  /** The session has moved on to RUNNING or APPROVAL, but not its event. */
  ghost predicate Strands(env: Env, tale: Tale) {
    || tale.promoted == Some(false)
    || (ExitedZero(tale) && Covered(env, tale) && tale.asked == Some(false))
    || tale.reopened == Some(false)
  }

  /** The order in which the calls are made. */
  ghost predicate Sequential(env: Env, tale: Tale) {
    && (tale.provisioned.Some? ==> tale.ready == Some(true))
    && (tale.verified.Some? ==> tale.provisioned == Some(true))
    && (tale.promoted.Some? || tale.result.Some? ==> tale.verified == Some(true))
    && (tale.result.Some? ==> tale.promoted != Some(false))
    && (tale.signal.Some? ==> tale.result.Some?)
    && (tale.asked.Some? ==> tale.signal == Some(false) && tale.result.value.ExecDone?)
    && (tale.answer.Some? || tale.woke.Some? ==> tale.asked == Some(true) && ExitedZero(tale) && Covered(env, tale))
    && (tale.reopened.Some? ==> tale.asked.Some? && ExitedZero(tale) && (Covered(env, tale) ==> Granted(tale)))
    && (tale.attempt.Some? ==> tale.signal == Some(true))
    && (tale.slept.Some? ==> tale.attempt.Some? && tale.attempt.value <= env.maxRetries)
  }

  /** No tale has two endings. */
  lemma OneEnding(env: Env, tale: Tale)
    requires Sequential(env, tale)
    ensures !(Completes(env, tale) && Fails(env, tale)) && !(Completes(env, tale) && Strands(env, tale))
    ensures !(Fails(env, tale) && Strands(env, tale))
    ensures tale.slept.Some? ==> !Completes(env, tale) && !Fails(env, tale) && !Strands(env, tale)
  {
  }

  // What is told at each point of the program.

  predicate RanQuietly(tale: Tale, result: ExecResult) {
    && tale.promoted != Some(false)
    && tale == SET_UP.(promoted := tale.promoted, result := Some(result), signal := Some(false))
  }

  ghost predicate Told(env: Env, pc: RunPc, tale: Tale) {
    match pc
    case Starting => tale == SILENT
    case Provisioning => tale == SILENT.(ready := Some(true))
    case Verifying => tale == SILENT.(ready := Some(true), provisioned := Some(true))
    case Launching => tale == SET_UP
    case Promoting => tale == SET_UP
    case Executing => tale.promoted != Some(false) && tale == SET_UP.(promoted := tale.promoted)
    case Returned(result) =>
      tale.promoted != Some(false) && tale == SET_UP.(promoted := tale.promoted, result := Some(result))
    case Judging(exit, lines) => RanQuietly(tale, ExecDone(exit, lines))
    case Waiting(lines, inbox) =>
      && NeedsGrant(env, lines) && tale.asked == Some(true) && tale.answer == inbox
      && RanQuietly(tale.(asked := None, answer := None), ExecDone(0, lines))
    case Closing(lines) => Decided(env, tale, lines) && tale.reopened.None?
    case Reopening(lines) => Decided(env, tale, lines) && tale.reopened.None?
    case Completing(lines) => Decided(env, tale, lines) && tale.reopened != Some(false)
    case Crashed => Crashes(tale) && tale.attempt.None? && Sequential(env, tale)
    case CrashCleaning(n) => Crashes(tale) && tale.attempt == Some(n) && Sequential(env, tale)
    case CrashDeciding(n) => Crashes(tale) && tale.attempt == Some(n) && Sequential(env, tale)
    case BackingOff(n) =>
      Crashes(tale) && tale.attempt == Some(n) && n <= env.maxRetries && Sequential(env, tale)
    case Failing(_) => Fails(env, tale) && tale.slept.None? && Sequential(env, tale)
    case Cleaning(thenFail) => (thenFail ==> Fails(env, tale)) && tale.slept.None? && Sequential(env, tale)
    case Exiting(why) =>
      && Sequential(env, tale)
      && match why
         case HandedOver => tale.slept == Some(true)
         case Abandoned => tale.slept == Some(false)
         case Ended => tale.slept.None?
  }

  ghost predicate Decided(env: Env, tale: Tale, lines: Lines) {
    && Sequential(env, tale) && ExitedZero(tale) && tale.result == Some(ExecDone(0, lines))
    && tale.promoted != Some(false)
    && tale.asked.Some? && (if NeedsGrant(env, lines) then Granted(tale) else tale.woke.None?)
  }

  predicate Crashes(tale: Tale) { tale.signal == Some(true) && tale.slept.None? && tale.promoted != Some(false) }

  ghost predicate ToldStep(env: Env, v: View, r: Thread, c: Choice, tale: Tale, e: Effect)
    requires r.Run?
  {
    && e.run.Run? && Told(env, e.run.pc, Heard(tale, r, v.attempts, c))
    && (e.spawn.Some? ==> e.spawn.value.Run? && e.spawn.value.pc.Starting?)
  }

  lemma PrepareTold(env: Env, v: View, r: Thread, c: Choice, tale: Tale)
    requires r.Run? && (r.pc.Starting? || r.pc.Provisioning? || r.pc.Verifying?) && Told(env, r.pc, tale)
    ensures ToldStep(env, v, r, c, tale, StepLaunch(env, v, r, c))
  {
  }

  lemma LaunchTold(env: Env, v: View, r: Thread, c: Choice, tale: Tale)
    requires r.Run? && (r.pc.Launching? || r.pc.Promoting?) && Told(env, r.pc, tale)
    ensures ToldStep(env, v, r, c, tale, StepLaunch(env, v, r, c))
  {
  }

  lemma ExecuteTold(env: Env, v: View, r: Thread, c: Choice, tale: Tale)
    requires r.Run? && (r.pc.Executing? || r.pc.Returned?) && Told(env, r.pc, tale)
    ensures ToldStep(env, v, r, c, tale, StepExecute(r, c))
  {
  }

  lemma JudgeTold(env: Env, v: View, r: Thread, c: Choice, tale: Tale)
    requires r.Run? && r.pc.Judging? && Told(env, r.pc, tale) && (v.gated <==> NeedsGrant(env, r.pc.lines))
    ensures ToldStep(env, v, r, c, tale, StepDecide(v, r, c))
  {
  }

  lemma WaitTold(env: Env, v: View, r: Thread, c: Choice, tale: Tale)
    requires r.Run? && r.pc.Waiting? && Told(env, r.pc, tale)
    requires c.wake == Reply ==> r.pc.inbox.Some?
    ensures ToldStep(env, v, r, c, tale, StepDecide(v, r, c))
  {
  }

  lemma CloseTold(env: Env, v: View, r: Thread, c: Choice, tale: Tale)
    requires r.Run? && (r.pc.Closing? || r.pc.Reopening?) && Told(env, r.pc, tale)
    ensures ToldStep(env, v, r, c, tale, StepDecide(v, r, c))
  {
  }

  lemma CompleteTold(env: Env, v: View, r: Thread, c: Choice, tale: Tale)
    requires r.Run? && r.pc.Completing? && Told(env, r.pc, tale)
    ensures ToldStep(env, v, r, c, tale, StepEnd(v, r, c))
  {
  }

  lemma EndTold(env: Env, v: View, r: Thread, c: Choice, tale: Tale)
    requires r.Run? && (r.pc.Failing? || r.pc.Cleaning?) && Told(env, r.pc, tale)
    ensures ToldStep(env, v, r, c, tale, StepEnd(v, r, c))
  {
  }

  lemma CrashTold(env: Env, v: View, r: Thread, c: Choice, tale: Tale)
    requires env.Valid() && r.Run? && InCrash(r.pc) && Told(env, r.pc, tale)
    requires r.pc.BackingOff? && c.ok ==> c.noise < env.backoff.jitter
    ensures ToldStep(env, v, r, c, tale, StepCrash(env, v, r, c))
  {
  }

  lemma StepRunTold(env: Env, v: View, r: Thread, c: Choice, tale: Tale)
    requires env.Valid() && r.Run? && !r.pc.Exiting? && Told(env, r.pc, tale)
    requires r.pc.BackingOff? && c.ok ==> c.noise < env.backoff.jitter
    requires r.pc.Judging? ==> (v.gated <==> NeedsGrant(env, r.pc.lines))
    requires r.pc.Waiting? && c.wake == Reply ==> r.pc.inbox.Some?
    ensures ToldStep(env, v, r, c, tale, StepRun(env, v, r, c))
  {
    if r.pc.Launching? || r.pc.Promoting? {
      LaunchTold(env, v, r, c, tale);
    } else if InSetup(r.pc) {
      PrepareTold(env, v, r, c, tale);
    } else if Early(r.pc) {
      ExecuteTold(env, v, r, c, tale);
    } else if InCrash(r.pc) {
      CrashTold(env, v, r, c, tale);
    } else if r.pc.Judging? {
      JudgeTold(env, v, r, c, tale);
    } else if r.pc.Waiting? {
      WaitTold(env, v, r, c, tale);
    } else if InDecision(r.pc) {
      CloseTold(env, v, r, c, tale);
    } else if r.pc.Completing? {
      CompleteTold(env, v, r, c, tale);
    } else {
      EndTold(env, v, r, c, tale);
    }
  }

  // Over a whole run.

  ghost predicate ToldOf(env: Env, s: State, t: Tid, tale: Tale) {
    && (t in s.threads && s.threads[t].Run? ==> Told(env, s.threads[t].pc, tale))
    && (t >= s.next || (t in s.threads && s.threads[t].Call?) ==> tale == SILENT)
  }

  lemma ApplyTold(env: Env, s: State, u: Tid, r: Thread, e: Effect, c: Choice, t: Tid, tale: Tale)
    requires u in s.threads && s.threads[u] == r && r.Run? && Numbered(s) && ToldOf(env, s, t, tale) && e.run.Run?
    requires e.spawn.Some? ==> e.spawn.value.Run? && e.spawn.value.pc.Starting?
    requires u == t ==> Told(env, e.run.pc, Heard(tale, r, AttemptsOf(s, r.sid), c))
    ensures ToldOf(env, ApplyEffect(env, s, u, r, e, c), t,
                   if u == t then Heard(tale, r, AttemptsOf(s, r.sid), c) else tale)
  {
  }

  lemma CallTold(env: Env, s: State, u: Tid, th: Thread, e: CallEffect, t: Tid, tale: Tale)
    requires u in s.threads && s.threads[u] == th && th.Call? && Numbered(s) && ToldOf(env, s, t, tale)
    ensures ToldOf(env, ApplyCall(env, s, u, th, e), t, tale)
  {
  }

  lemma AnswerTold(env: Env, s: State, u: Tid, granted: bool, t: Tid, tale: Tale)
    requires env.Valid() && Enabled(env, s, Answer(u, granted)) && Numbered(s) && ToldOf(env, s, t, tale)
    ensures ToldOf(env, Next(env, s, Answer(u, granted)), t,
                   if u == t && tale.answer.None? then tale.(answer := Some(granted)) else tale)
  {
  }

  lemma QuietTold(env: Env, s: State, a: Action, t: Tid, tale: Tale)
    requires env.Valid() && Enabled(env, s, a) && Numbered(s) && ToldOf(env, s, t, tale)
    requires !a.RunStep? && !a.CallStep? && !a.Answer?
    ensures ToldOf(env, Next(env, s, a), t, tale)
  {
  }

  lemma RunStepTold(env: Env, s: State, u: Tid, c: Choice, t: Tid, tale: Tale)
    requires env.Valid() && Enabled(env, s, RunStep(u, c)) && Numbered(s)
    requires ToldOf(env, s, t, tale)
    ensures ToldOf(env, Next(env, s, RunStep(u, c)), t,
                   if u == t then Heard(tale, s.threads[u], AttemptsOf(s, s.threads[u].sid), c) else tale)
  {
    var r := s.threads[u];
    var e := StepRun(env, ViewOf(env, s, r), r, c);
    SpawnStarts(env, ViewOf(env, s, r), r, c);
    if u == t {
      if r.pc.Judging? {
        GatedMeansNeedsGrant(env, r.pc.lines);
      }
      StepRunTold(env, ViewOf(env, s, r), r, c, tale);
    }
    ApplyTold(env, s, u, r, e, c, t, tale);
  }

  lemma SpawnStarts(env: Env, v: View, r: Thread, c: Choice)
    requires env.Valid() && r.Run? && !r.pc.Exiting?
    requires r.pc.BackingOff? && c.ok ==> c.noise < env.backoff.jitter
    ensures var e := StepRun(env, v, r, c);
            e.run.Run? && (e.spawn.Some? ==> e.spawn.value.Run? && e.spawn.value.pc.Starting?)
  {
  }

  lemma StepTold(env: Env, s: State, a: Action, t: Tid, tale: Tale)
    requires env.Valid() && Enabled(env, s, a) && Numbered(s) && ToldOf(env, s, t, tale)
    ensures ToldOf(env, Next(env, s, a), t, Tell(tale, s, a, t))
  {
    if a.RunStep? {
      RunStepTold(env, s, a.t, a.c, t, tale);
    } else if a.CallStep? {
      CallTold(env, s, a.t, s.threads[a.t], StepCall(env, s, s.threads[a.t], a.c), t, tale);
    } else if a.Answer? {
      AnswerTold(env, s, a.t, a.granted, t, tale);
    } else {
      QuietTold(env, s, a, t, tale);
    }
  }

  lemma {:induction false} AlwaysTold(env: Env, ss: seq<State>, acts: seq<Action>, i: nat, t: Tid)
    requires IsRun(env, ss, acts) && i < |ss|
    ensures ToldOf(env, ss[i], t, TaleOf(ss, acts, i, t))
  {
    if i > 0 {
      AlwaysTold(env, ss, acts, i - 1, t);
      AlwaysNumbered(env, ss, acts, i - 1);
      StepTold(env, ss[i - 1], acts[i - 1], t, TaleOf(ss, acts, i - 1, t));
    }
  }

  // The history is true.

  function OutcomeOf(result: Option<ExecResult>): Option<Outcome> {
    if result.Some? && result.value.ExecDone? then Some(Outcome(result.value.exit, result.value.lines)) else None
  }

  /** The history of the engine says of a run what its calls came back with. */
  ghost predicate LogTrue(log: Log, t: Tid, tale: Tale) {
    && Result(log, t) == OutcomeOf(tale.result)
    && FirstAnswer(log, t) == tale.answer
    && (GaveUp(log, t) <==> tale.woke == Some(TimedOut) || tale.woke == Some(CtxDone))
    && (FailedPlainly(log, t) <==> tale.result == Some(ExecError) && tale.signal == Some(false))
  }

  /** The entry of a step of run `u`, if it is about its outcome, is the outcome. */
  predicate NoteTrue(r: Thread, c: Choice, note: Option<What>)
    requires r.Run?
  {
    && (r.pc.Executing? && c.result.ExecDone? <==> note.Some? && note.value.DidReturn?)
    && (note.Some? && note.value.DidReturn? ==> note.value == DidReturn(c.result.exit, c.result.lines))
    && (r.pc.Waiting? && c.wake != Reply <==> note == Some(DidGiveUp))
    && (r.pc == Returned(ExecError) && !r.pulse.signal <==> note == Some(DidFailExec))
    && (note.Some? ==> !note.value.DidAnswer?)
  }

  lemma NotedTrue(env: Env, log: Log, u: Tid, r: Thread, c: Choice, note: Option<What>, attempts: nat, t: Tid, tale: Tale)
    requires r.Run? && NoteTrue(r, c, note) && LogTrue(log, t, tale) && (u == t ==> Told(env, r.pc, tale))
    ensures LogTrue(Noted(log, u, r.sid, note), t, if u == t then Heard(tale, r, attempts, c) else tale)
  {
  }

  lemma ApplyLog(env: Env, s: State, u: Tid, r: Thread, e: Effect, c: Choice, t: Tid, tale: Tale)
    requires r.Run? && LogTrue(Noted(s.log, u, r.sid, e.note), t, tale)
    ensures LogTrue(ApplyEffect(env, s, u, r, e, c).log, t, tale)
  {
  }

  lemma RunLogTrue(env: Env, s: State, u: Tid, c: Choice, t: Tid, tale: Tale)
    requires env.Valid() && Enabled(env, s, RunStep(u, c))
    requires ToldOf(env, s, t, tale) && LogTrue(s.log, t, tale)
    ensures LogTrue(Next(env, s, RunStep(u, c)).log, t, Tell(tale, s, RunStep(u, c), t))
  {
    var r := s.threads[u];
    var e := StepRun(env, ViewOf(env, s, r), r, c);
    NoteIsTrue(env, ViewOf(env, s, r), r, c);
    NotedTrue(env, s.log, u, r, c, e.note, AttemptsOf(s, r.sid), t, tale);
    ApplyLog(env, s, u, r, e, c, t, Tell(tale, s, RunStep(u, c), t));
  }

  lemma NoteIsTrue(env: Env, v: View, r: Thread, c: Choice)
    requires env.Valid() && r.Run? && !r.pc.Exiting?
    requires r.pc.BackingOff? && c.ok ==> c.noise < env.backoff.jitter
    ensures NoteTrue(r, c, StepRun(env, v, r, c).note)
  {
  }

  lemma OtherLogTrue(env: Env, s: State, a: Action, t: Tid, tale: Tale)
    requires env.Valid() && Enabled(env, s, a) && !a.RunStep? && LogTrue(s.log, t, tale)
    ensures LogTrue(Next(env, s, a).log, t, Tell(tale, s, a, t))
  {
    if a.CallStep? {
      CallLogTrue(env, s, a.t, s.threads[a.t], StepCall(env, s, s.threads[a.t], a.c), t, tale);
    }
  }

  lemma CallLogTrue(env: Env, s: State, u: Tid, th: Thread, e: CallEffect, t: Tid, tale: Tale)
    requires th.Call? && LogTrue(s.log, t, tale)
    ensures LogTrue(ApplyCall(env, s, u, th, e).log, t, tale)
  {
  }

  /** In every history, and for every run: the result it records is what Execute returned, the first answer it
      records is the first that was given, it records giving up exactly if the wait ended otherwise, and a plain
      failure exactly if Execute failed and no error was in the channel. */
  lemma {:induction false} HistoryIsTrue(env: Env, ss: seq<State>, acts: seq<Action>, i: nat, t: Tid)
    requires IsRun(env, ss, acts) && i < |ss|
    ensures LogTrue(ss[i].log, t, TaleOf(ss, acts, i, t))
  {
    if i > 0 {
      HistoryIsTrue(env, ss, acts, i - 1, t);
      AlwaysTold(env, ss, acts, i - 1, t);
      StepLogTrue(env, ss[i - 1], acts[i - 1], t, TaleOf(ss, acts, i - 1, t));
    }
  }

  lemma StepLogTrue(env: Env, s: State, a: Action, t: Tid, tale: Tale)
    requires env.Valid() && Enabled(env, s, a) && ToldOf(env, s, t, tale) && LogTrue(s.log, t, tale)
    ensures LogTrue(Next(env, s, a).log, t, Tell(tale, s, a, t))
  {
    if a.RunStep? {
      RunLogTrue(env, s, a.t, a.c, t, tale);
    } else {
      OtherLogTrue(env, s, a, t, tale);
    }
  }

  // The status a run leaves behind.

  /** Where the status of the session tells how the run has ended, or will. */
  ghost predicate Ends(env: Env, status: Status, stranded: bool, pc: RunPc, tale: Tale) {
    match pc
    case Closing(lines) => status == if NeedsGrant(env, lines) then Approval else Running
    case Reopening(lines) => NeedsGrant(env, lines)
    case Completing(lines) => NeedsGrant(env, lines) <==> tale.reopened == Some(true)
    case Cleaning(thenFail) => thenFail || Ended(env, status, stranded, tale)
    case Exiting(why) => why == Engine.Ended ==> Ended(env, status, stranded, tale)
    case _ => true
  }

  ghost predicate Ended(env: Env, status: Status, stranded: bool, tale: Tale) {
    || (status == Completed && Completes(env, tale))
    || (status == Failed && Fails(env, tale))
    || (stranded && !Terminal(status) && Strands(env, tale))
  }

  ghost predicate EndsStep(env: Env, status: Status, stranded: bool, v: View, r: Thread, c: Choice, tale: Tale, e: Effect)
    requires r.Run?
  {
    e.run.Run? && Ends(env, Chains.After(status, e.move), stranded || Chains.Strand(status, e.move, c.pub), e.run.pc,
                       Heard(tale, r, v.attempts, c))
  }

  /** What is known before a step. */
  ghost predicate Before(env: Env, status: Status, stranded: bool, v: View, r: Thread, tale: Tale)
    requires r.Run?
  {
    v.status == Some(status) && Chains.Fits(status, stranded, r) && Told(env, r.pc, tale) && Ends(env, status, stranded, r.pc, tale)
  }

  lemma LaunchEnds(env: Env, status: Status, stranded: bool, v: View, r: Thread, c: Choice, tale: Tale)
    requires r.Run? && InSetup(r.pc) && Before(env, status, stranded, v, r, tale)
    ensures EndsStep(env, status, stranded, v, r, c, tale, StepLaunch(env, v, r, c))
  {
  }

  lemma JudgeEnds(env: Env, status: Status, stranded: bool, v: View, r: Thread, c: Choice, tale: Tale)
    requires r.Run? && r.pc.Judging? && (v.gated <==> NeedsGrant(env, r.pc.lines)) && Before(env, status, stranded, v, r, tale)
    ensures EndsStep(env, status, stranded, v, r, c, tale, StepDecide(v, r, c))
  {
  }

  lemma WaitEnds(env: Env, status: Status, stranded: bool, v: View, r: Thread, c: Choice, tale: Tale)
    requires r.Run? && r.pc.Waiting? && Before(env, status, stranded, v, r, tale)
    ensures EndsStep(env, status, stranded, v, r, c, tale, StepDecide(v, r, c))
  {
  }

  lemma CloseEnds(env: Env, status: Status, stranded: bool, v: View, r: Thread, c: Choice, tale: Tale)
    requires r.Run? && (r.pc.Closing? || r.pc.Reopening?) && Before(env, status, stranded, v, r, tale)
    ensures EndsStep(env, status, stranded, v, r, c, tale, StepDecide(v, r, c))
  {
  }

  lemma EndEnds(env: Env, status: Status, stranded: bool, v: View, r: Thread, c: Choice, tale: Tale)
    requires r.Run? && InEnd(r.pc) && Before(env, status, stranded, v, r, tale)
    ensures EndsStep(env, status, stranded, v, r, c, tale, StepEnd(v, r, c))
  {
  }

  lemma ExecuteEnds(env: Env, status: Status, stranded: bool, v: View, r: Thread, c: Choice, tale: Tale)
    requires r.Run? && (r.pc.Executing? || r.pc.Returned?) && Before(env, status, stranded, v, r, tale)
    ensures EndsStep(env, status, stranded, v, r, c, tale, StepExecute(r, c))
  {
  }

  lemma CrashEnds(env: Env, status: Status, stranded: bool, v: View, r: Thread, c: Choice, tale: Tale)
    requires env.Valid() && r.Run? && InCrash(r.pc) && Before(env, status, stranded, v, r, tale)
    requires r.pc.BackingOff? && c.ok ==> c.noise < env.backoff.jitter
    ensures EndsStep(env, status, stranded, v, r, c, tale, StepCrash(env, v, r, c))
  {
  }

  lemma StepRunEnds(env: Env, status: Status, stranded: bool, v: View, r: Thread, c: Choice, tale: Tale)
    requires env.Valid() && r.Run? && !r.pc.Exiting? && Before(env, status, stranded, v, r, tale)
    requires r.pc.BackingOff? && c.ok ==> c.noise < env.backoff.jitter
    requires r.pc.Judging? ==> (v.gated <==> NeedsGrant(env, r.pc.lines))
    ensures EndsStep(env, status, stranded, v, r, c, tale, StepRun(env, v, r, c))
  {
    if InSetup(r.pc) {
      LaunchEnds(env, status, stranded, v, r, c, tale);
    } else if r.pc.Judging? {
      JudgeEnds(env, status, stranded, v, r, c, tale);
    } else if r.pc.Waiting? {
      WaitEnds(env, status, stranded, v, r, c, tale);
    } else if InDecision(r.pc) {
      CloseEnds(env, status, stranded, v, r, c, tale);
    } else if InEnd(r.pc) {
      EndEnds(env, status, stranded, v, r, c, tale);
    } else if InCrash(r.pc) {
      CrashEnds(env, status, stranded, v, r, c, tale);
    } else {
      ExecuteEnds(env, status, stranded, v, r, c, tale);
    }
  }

  /** Status and stranding of a session. */
  ghost predicate Standing(s: State, sid: Sid, status: Status, stranded: bool) {
    sid in s.plane.mem && s.plane.mem[sid] == status && (sid in s.stranded <==> stranded)
  }

  /** The session of run `t` is not for others to move: `t` owns it, or has ended it or left it stranded. */
  ghost predicate Settles(s: State, t: Tid) {
    && t in s.threads && s.threads[t].Run? && s.threads[t].sid in s.plane.mem
    && (Owns(s.threads[t]) || Terminal(s.plane.mem[s.threads[t].sid]) || s.threads[t].sid in s.stranded)
  }

  lemma OtherRunKeeps(env: Env, s: State, u: Tid, c: Choice, t: Tid)
    requires env.Valid() && Enabled(env, s, RunStep(u, c)) && u != t
    requires SingleOwner(s) && Chains.Accounted(s) && Settles(s, t)
    ensures var sid := s.threads[t].sid;
            Standing(Next(env, s, RunStep(u, c)), sid, s.plane.mem[sid], sid in s.stranded)
  {
    var r, sid := s.threads[u], s.threads[t].sid;
    var e := StepRun(env, ViewOf(env, s, r), r, c);
    assert Placed(s, u) && Chains.Fitting(s, u) && Apart(s, t, u);
    Chains.PerformMove(env, s.plane, r.sid, e.move, c);
    Chains.StrandsMeansStrand(s, r.sid, e.move, c);
    ApplyStands(env, s, u, r, e, c, sid);
    if r.sid == sid && sid in s.stranded {
      CleanupMovesNothing(env, ViewOf(env, s, r), r, c);
    }
  }

  lemma CleanupMovesNothing(env: Env, v: View, r: Thread, c: Choice)
    requires env.Valid() && r.Run? && r.pc == Cleaning(false)
    ensures StepRun(env, v, r, c).move.None?
  {
  }

  lemma ApplyStands(env: Env, s: State, u: Tid, r: Thread, e: Effect, c: Choice, sid: Sid)
    requires r.Run? && r.sid in s.plane.mem && sid in s.plane.mem
    ensures var q := ApplyEffect(env, s, u, r, e, c);
            Standing(q, sid, if sid == r.sid then Chains.After(s.plane.mem[sid], e.move) else s.plane.mem[sid],
                     sid in s.stranded || (sid == r.sid && Chains.Strand(s.plane.mem[sid], e.move, c.pub)))
  {
    Chains.PerformMove(env, s.plane, r.sid, e.move, c);
    Chains.StrandsMeansStrand(s, r.sid, e.move, c);
  }

  lemma OtherCallKeeps(env: Env, s: State, u: Tid, c: Choice, t: Tid)
    requires env.Valid() && Enabled(env, s, CallStep(u, c))
    requires SingleOwner(s) && Chains.Accounted(s) && Settles(s, t)
    ensures var sid := s.threads[t].sid;
            Standing(Next(env, s, CallStep(u, c)), sid, s.plane.mem[sid], sid in s.stranded)
  {
    var th := s.threads[u];
    assert Placed(s, u) && Chains.Fitting(s, u) && Apart(s, t, u);
    CallStands(env, s, u, th, StepCall(env, s, th, c), s.threads[t].sid);
  }

  lemma CallStands(env: Env, s: State, u: Tid, th: Thread, e: CallEffect, sid: Sid)
    requires th.Call? && sid in s.plane.mem && (th.sid == sid ==> Terminal(s.plane.mem[sid]))
    requires e.op.Some? ==> (e.op.value.OpTransition? || e.op.value.OpAnnounce?) && e.op.value.sid == th.sid
    ensures Standing(ApplyCall(env, s, u, th, e), sid, s.plane.mem[sid], sid in s.stranded)
  {
  }

  lemma SubmitKeeps(env: Env, s: State, sid: Sid, insert: P.Insert, x: Sid)
    requires env.Valid() && env.Unique() && Enabled(env, s, Submit(sid, insert))
    requires P.Tracks(env.hasStore, s.plane) && x in s.plane.mem
    ensures Standing(Next(env, s, Submit(sid, insert)), x, s.plane.mem[x], x in s.stranded)
  {
    if env.hasStore && P.CreateSucceeds(true, s.plane, sid, insert) {
      P.CreateIsFresh(s.plane, sid, insert);
    }
  }

  lemma RecoverKeeps(env: Env, s: State, sid: Sid, recent: bool, c: Choice, x: Sid)
    requires env.Valid() && Enabled(env, s, Recover(sid, recent, c)) && x in s.plane.mem && x != sid
    ensures Standing(Next(env, s, Recover(sid, recent, c)), x, s.plane.mem[x], x in s.stranded)
  {
    PerformFrame(env, s.plane, MoveOp(sid, Disposition(s.todo[sid], recent).move, c), sid);
  }

  lemma QuietKeeps(env: Env, s: State, a: Action, x: Sid)
    requires env.Valid() && Enabled(env, s, a) && x in s.plane.mem
    requires !a.Reboot? && !a.RunStep? && !a.CallStep? && !a.Submit? && !a.Recover?
    ensures Standing(Next(env, s, a), x, s.plane.mem[x], x in s.stranded)
  {
  }

  lemma OthersKeep(env: Env, s: State, a: Action, t: Tid)
    requires env.Valid() && env.Unique() && Enabled(env, s, a) && !a.Reboot? && (a.RunStep? ==> a.t != t)
    requires SingleOwner(s) && Chains.Accounted(s) && P.Tracks(env.hasStore, s.plane) && Settles(s, t)
    ensures var sid := s.threads[t].sid; Standing(Next(env, s, a), sid, s.plane.mem[sid], sid in s.stranded)
  {
    var sid := s.threads[t].sid;
    assert Placed(s, t);
    if a.RunStep? {
      OtherRunKeeps(env, s, a.t, a.c, t);
    } else if a.CallStep? {
      OtherCallKeeps(env, s, a.t, a.c, t);
    } else if a.Submit? {
      SubmitKeeps(env, s, a.sid, a.insert, sid);
    } else if a.Recover? {
      assert Unclaimed(s, a.sid);
      RecoverKeeps(env, s, a.sid, a.recent, a.c, sid);
    } else {
      QuietKeeps(env, s, a, sid);
    }
  }

  ghost predicate EndsAt(env: Env, s: State, t: Tid, tale: Tale) {
    t in s.threads && s.threads[t].Run? ==>
      var sid := s.threads[t].sid;
      sid in s.plane.mem && Ends(env, s.plane.mem[sid], sid in s.stranded, s.threads[t].pc, tale)
  }

  /** The thread itself is where it was, apart from its inbox. */
  ghost predicate SamePoint(s: State, q: State, t: Tid)
    requires t in s.threads && s.threads[t].Run?
  {
    && t in q.threads && q.threads[t].Run? && q.threads[t].sid == s.threads[t].sid
    && (q.threads[t].pc == s.threads[t].pc || (s.threads[t].pc.Waiting? && q.threads[t].pc.Waiting?))
  }

  lemma ThreadKept(env: Env, s: State, a: Action, t: Tid)
    requires env.Valid() && Enabled(env, s, a) && Numbered(s) && !a.Reboot? && (a.RunStep? ==> a.t != t)
    requires t in s.threads && s.threads[t].Run? && t in Next(env, s, a).threads
    ensures SamePoint(s, Next(env, s, a), t)
  {
    if a.RunStep? {
      var r := s.threads[a.t];
      RunStepKept(env, s, a.t, r, StepRun(env, ViewOf(env, s, r), r, a.c), a.c, t);
    } else if a.CallStep? {
      CallKept(env, s, a.t, s.threads[a.t], StepCall(env, s, s.threads[a.t], a.c), t);
    }
  }

  lemma RunStepKept(env: Env, s: State, u: Tid, r: Thread, e: Effect, c: Choice, t: Tid)
    requires Numbered(s) && r.Run? && u != t && t in s.threads && s.threads[t].Run?
    ensures SamePoint(s, ApplyEffect(env, s, u, r, e, c), t)
  {
  }

  lemma CallKept(env: Env, s: State, u: Tid, th: Thread, e: CallEffect, t: Tid)
    requires Numbered(s) && u in s.threads && s.threads[u] == th && th.Call? && t in s.threads && s.threads[t].Run?
    ensures SamePoint(s, ApplyCall(env, s, u, th, e), t)
  {
  }

  /** The step of the run itself. */
  lemma OwnStepEnds(env: Env, s: State, t: Tid, c: Choice, tale: Tale)
    requires env.Valid() && Enabled(env, s, RunStep(t, c)) && Numbered(s)
    requires SingleOwner(s) && Chains.Accounted(s) && ToldOf(env, s, t, tale) && EndsAt(env, s, t, tale)
    ensures EndsAt(env, Next(env, s, RunStep(t, c)), t, Tell(tale, s, RunStep(t, c), t))
  {
    var r := s.threads[t];
    var e := StepRun(env, ViewOf(env, s, r), r, c);
    assert Placed(s, t) && Chains.Fitting(s, t);
    if r.pc.Judging? {
      GatedMeansNeedsGrant(env, r.pc.lines);
    }
    StepRunEnds(env, s.plane.mem[r.sid], r.sid in s.stranded, ViewOf(env, s, r), r, c, tale);
    StepRunShape(env, ViewOf(env, s, r), r, c);
    ApplyStands(env, s, t, r, e, c, r.sid);
    RunStepLands(env, s, t, r, e, c);
  }

  lemma RunStepLands(env: Env, s: State, t: Tid, r: Thread, e: Effect, c: Choice)
    requires Numbered(s) && t in s.threads && r.Run? && e.run.Run?
    ensures var q := ApplyEffect(env, s, t, r, e, c); t in q.threads && q.threads[t] == e.run
  {
  }

  /** A run that has just been launched or relaunched has nothing to tell yet. */
  lemma NewIsSilent(env: Env, s: State, a: Action, t: Tid)
    requires env.Valid() && Enabled(env, s, a) && Numbered(s) && !(t in s.threads && s.threads[t].Run?)
    requires t in Next(env, s, a).threads && Next(env, s, a).threads[t].Run?
    requires SingleOwner(Next(env, s, a))
    ensures var q := Next(env, s, a); q.threads[t].pc.Starting? && q.threads[t].sid in q.plane.mem
  {
    assert Placed(Next(env, s, a), t);
    if a.RunStep? {
      var r := s.threads[a.t];
      SpawnStarts(env, ViewOf(env, s, r), r, a.c);
      NewInApply(env, s, a.t, r, StepRun(env, ViewOf(env, s, r), r, a.c), a.c, t);
    } else if a.CallStep? {
      NewInCall(env, s, a.t, s.threads[a.t], StepCall(env, s, s.threads[a.t], a.c), t);
    }
  }

  lemma NewInCall(env: Env, s: State, u: Tid, th: Thread, e: CallEffect, t: Tid)
    requires u in s.threads && s.threads[u] == th && th.Call? && !(t in s.threads && s.threads[t].Run?)
    ensures var q := ApplyCall(env, s, u, th, e).threads; t in q && q[t].Run? ==> q[t].pc.Starting?
  {
  }

  lemma NewInApply(env: Env, s: State, u: Tid, r: Thread, e: Effect, c: Choice, t: Tid)
    requires r.Run? && u in s.threads && s.threads[u] == r && !(t in s.threads && s.threads[t].Run?)
    requires e.spawn.Some? ==> e.spawn.value.Run? && e.spawn.value.pc.Starting?
    ensures var q := ApplyEffect(env, s, u, r, e, c).threads; t in q && q[t].Run? ==> q[t].pc.Starting?
  {
  }

  lemma StepEnds(env: Env, s: State, a: Action, t: Tid, tale: Tale)
    requires env.Valid() && env.Unique() && Enabled(env, s, a) && Numbered(s)
    requires SingleOwner(s) && SingleOwner(Next(env, s, a)) && Chains.Accounted(s) && P.Tracks(env.hasStore, s.plane)
    requires ToldOf(env, s, t, tale) && EndsAt(env, s, t, tale)
    ensures EndsAt(env, Next(env, s, a), t, Tell(tale, s, a, t))
  {
    var q := Next(env, s, a);
    if t in q.threads && q.threads[t].Run? {
      if !(t in s.threads && s.threads[t].Run?) {
        NewIsSilent(env, s, a, t);
      } else if a.RunStep? && a.t == t {
        OwnStepEnds(env, s, t, a.c, tale);
      } else {
        KeptEnds(env, s, a, t, tale);
      }
    }
  }

  lemma KeptEnds(env: Env, s: State, a: Action, t: Tid, tale: Tale)
    requires env.Valid() && env.Unique() && Enabled(env, s, a) && Numbered(s) && (a.RunStep? ==> a.t != t)
    requires SingleOwner(s) && Chains.Accounted(s) && P.Tracks(env.hasStore, s.plane)
    requires EndsAt(env, s, t, tale) && t in s.threads && s.threads[t].Run? && t in Next(env, s, a).threads
    ensures EndsAt(env, Next(env, s, a), t, Tell(tale, s, a, t))
  {
    ThreadKept(env, s, a, t);
    if Owns(s.threads[t]) || s.threads[t].pc == Exiting(Engine.Ended) {
      OthersKeep(env, s, a, t);
    } else {
      MemStays(env, s, a, s.threads[t].sid);
    }
  }

  lemma MemStays(env: Env, s: State, a: Action, sid: Sid)
    requires env.Valid() && Enabled(env, s, a) && !a.Reboot? && P.Tracks(env.hasStore, s.plane) && sid in s.plane.mem
    ensures sid in Next(env, s, a).plane.mem
  {
    PlaneStep(env, s, a);
    var op := PlaneOp(env, s, a);
    assert op.Some? && op.value.OpReload? ==> a.Reboot?;
  }

  /** What the other theorems say about a state and the step from it. */
  lemma Known(env: Env, ss: seq<State>, acts: seq<Action>, i: nat)
    requires IsRun(env, ss, acts) && env.Unique() && i < |acts|
    ensures Numbered(ss[i]) && SingleOwner(ss[i]) && SingleOwner(ss[i + 1]) && Chains.Accounted(ss[i])
    ensures P.Tracks(env.hasStore, ss[i].plane)
  {
    AlwaysNumbered(env, ss, acts, i);
    AlwaysSingleOwner(env, ss, acts, i);
    AlwaysSingleOwner(env, ss, acts, i + 1);
    Chains.AlwaysAccounted(env, ss, acts, i);
    Ownership.RunTracks(env, ss, acts, i);
  }

  lemma {:induction false} AlwaysEnds(env: Env, ss: seq<State>, acts: seq<Action>, i: nat, t: Tid)
    requires IsRun(env, ss, acts) && env.Unique() && i < |ss|
    ensures EndsAt(env, ss[i], t, TaleOf(ss, acts, i, t))
  {
    if i == 0 {
      assert t !in ss[0].threads;
    } else {
      AlwaysEnds(env, ss, acts, i - 1, t);
      EndsNext(env, ss, acts, i - 1, t);
    }
  }

  lemma EndsNext(env: Env, ss: seq<State>, acts: seq<Action>, i: nat, t: Tid)
    requires IsRun(env, ss, acts) && env.Unique() && i < |acts| && EndsAt(env, ss[i], t, TaleOf(ss, acts, i, t))
    ensures EndsAt(env, ss[i + 1], t, TaleOf(ss, acts, i + 1, t))
  {
    AlwaysTold(env, ss, acts, i, t);
    Known(env, ss, acts, i);
    StepEnds(env, ss[i], acts[i], t, TaleOf(ss, acts, i, t));
  }

  /** How every run ends, read off the outcomes of its calls. It hands over to a retry if and only if it slept
      through a backoff, and is abandoned, leaving its session RUNNING, if and only if its context was done
      first. Otherwise its session is COMPLETED if and only if the agent exited 0 unsignalled and, if a policy
      covers what it did, the first answer was a grant in time; FAILED if and only if a preparation, the agent,
      the approval or the last retry failed; and unfinished if and only if an event was refused. */
  lemma RunEndsAsTold(env: Env, ss: seq<State>, acts: seq<Action>, i: nat, t: Tid)
    requires IsRun(env, ss, acts) && env.Unique() && i < |ss|
    requires t in ss[i].threads && ss[i].threads[t].Run? && ss[i].threads[t].pc.Exiting?
    ensures ss[i].threads[t].sid in ss[i].plane.mem
    ensures var tale, why := TaleOf(ss, acts, i, t), ss[i].threads[t].pc.why;
            var status := ss[i].plane.mem[ss[i].threads[t].sid];
            && (why == HandedOver <==> tale.slept == Some(true))
            && (why == Abandoned <==> tale.slept == Some(false))
            && (why == Engine.Ended <==> Completes(env, tale) || Fails(env, tale) || Strands(env, tale))
            && (why == Engine.Ended ==>
                  && (status == Completed <==> Completes(env, tale))
                  && (status == Failed <==> Fails(env, tale))
                  && (!Terminal(status) <==> Strands(env, tale)))
  {
    AlwaysTold(env, ss, acts, i, t);
    AlwaysEnds(env, ss, acts, i, t);
    OneEnding(env, TaleOf(ss, acts, i, t));
  }

  // From the tale back to the actions that told it.

  /** The action `acts[j]` is the step of run `t` at the given kind of point. */
  ghost predicate StepAt(ss: seq<State>, acts: seq<Action>, j: nat, t: Tid) {
    && j < |acts| < |ss| && acts[j].RunStep? && acts[j].t == t
    && t in ss[j].threads && ss[j].threads[t].Run?
  }

  lemma {:induction false} WhatExecuteReturned(ss: seq<State>, acts: seq<Action>, i: nat, t: Tid) returns (j: nat)
    requires i <= |acts| < |ss| && TaleOf(ss, acts, i, t).result.Some?
    ensures j < i && StepAt(ss, acts, j, t) && ss[j].threads[t].pc.Executing?
    ensures acts[j].c.result == TaleOf(ss, acts, i, t).result.value
  {
    if TaleOf(ss, acts, i - 1, t).result == TaleOf(ss, acts, i, t).result {
      j := WhatExecuteReturned(ss, acts, i - 1, t);
    } else {
      j := i - 1;
    }
  }

  lemma {:induction false} HowItWoke(ss: seq<State>, acts: seq<Action>, i: nat, t: Tid) returns (j: nat)
    requires i <= |acts| < |ss| && TaleOf(ss, acts, i, t).woke.Some?
    ensures j < i && StepAt(ss, acts, j, t) && ss[j].threads[t].pc.Waiting?
    ensures acts[j].c.wake == TaleOf(ss, acts, i, t).woke.value
  {
    if TaleOf(ss, acts, i - 1, t).woke == TaleOf(ss, acts, i, t).woke {
      j := HowItWoke(ss, acts, i - 1, t);
    } else {
      j := i - 1;
    }
  }

  /** No answer to run `t` comes before `acts[j]`. */
  ghost predicate NoneBefore(acts: seq<Action>, j: nat, t: Tid)
    requires j <= |acts|
  {
    forall k :: 0 <= k < j ==> !(acts[k].Answer? && acts[k].t == t)
  }

  lemma {:induction false} FirstAnswerGiven(ss: seq<State>, acts: seq<Action>, i: nat, t: Tid) returns (j: nat)
    requires i <= |acts| < |ss|
    ensures TaleOf(ss, acts, i, t).answer.None? ==> NoneBefore(acts, i, t)
    ensures TaleOf(ss, acts, i, t).answer.Some? ==>
              j < i && acts[j] == Answer(t, TaleOf(ss, acts, i, t).answer.value) && NoneBefore(acts, j, t)
  {
    j := 0;
    if i > 0 {
      j := FirstAnswerGiven(ss, acts, i - 1, t);
      if TaleOf(ss, acts, i - 1, t).answer.None? {
        j := i - 1;
      }
    }
  }

  ghost predicate IsCompleted(s: State, sid: Sid) {
    (sid in s.plane.mem && s.plane.mem[sid] == Completed) || (sid in s.plane.rows && s.plane.rows[sid] == Completed)
  }

  /** The step that made a session COMPLETED. */
  lemma {:induction false} WhoCompleted(env: Env, ss: seq<State>, acts: seq<Action>, i: nat, sid: Sid) returns (k: nat)
    requires IsRun(env, ss, acts) && i < |ss| && IsCompleted(ss[i], sid)
    ensures k < i && acts[k].RunStep? && StepAt(ss, acts, k, acts[k].t)
    ensures ss[k].threads[acts[k].t].sid == sid && ss[k].threads[acts[k].t].pc.Completing?
    ensures !IsCompleted(ss[k], sid) && IsCompleted(ss[k + 1], sid)
  {
    assert i > 0;
    if IsCompleted(ss[i - 1], sid) {
      k := WhoCompleted(env, ss, acts, i - 1, sid);
    } else {
      k := i - 1;
      Ownership.RunTracks(env, ss, acts, k);
      CompletingStep(env, ss[k], acts[k], sid);
    }
  }

  lemma CompletingStep(env: Env, s: State, a: Action, sid: Sid)
    requires env.Valid() && Enabled(env, s, a) && P.Tracks(env.hasStore, s.plane)
    requires !IsCompleted(s, sid) && IsCompleted(Next(env, s, a), sid)
    ensures a.RunStep? && s.threads[a.t].sid == sid && s.threads[a.t].pc.Completing?
  {
    PlaneStep(env, s, a);
    ApprovalGate.PerformCompletes(env, s.plane, PlaneOp(env, s, a), sid);
    if a.RunStep? {
      OnlyCompletingCompletes(env, ViewOf(env, s, s.threads[a.t]), s.threads[a.t], a.c);
    } else {
      ApprovalGate.OpNotComplete(env, s, a);
    }
  }

  lemma OnlyCompletingCompletes(env: Env, v: View, r: Thread, c: Choice)
    requires env.Valid() && r.Run? && !r.pc.Exiting?
    requires r.pc.BackingOff? && c.ok ==> c.noise < env.backoff.jitter
    ensures StepRun(env, v, r, c).move == Some(Completed) ==> r.pc.Completing?
  {
  }

  /** The gate, in terms of what happened. A session that is COMPLETED, in memory or durably, was completed at
      a step `k` by a run `t` whose Execute returned at a step `j` before it, with exit code 0; and if a policy
      covers the output it returned, the first answer given to `t` was a grant, at a step `m`, and `t` took it
      at a step `w` before any timeout or cancellation. Whatever crashes, retries, restarts, lost writes and
      other owners there are. */
  lemma CompletedSessionsPassedTheGate(env: Env, ss: seq<State>, acts: seq<Action>, i: nat, sid: Sid)
    returns (t: Tid, j: nat, k: nat, m: nat, w: nat)
    requires IsRun(env, ss, acts) && i < |ss| && IsCompleted(ss[i], sid)
    ensures j < k < i && StepAt(ss, acts, k, t) && ss[k].threads[t].sid == sid
    ensures !IsCompleted(ss[k], sid) && IsCompleted(ss[k + 1], sid)
    ensures StepAt(ss, acts, j, t) && ss[j].threads[t].pc.Executing?
    ensures acts[j].c.result.ExecDone? && acts[j].c.result.exit == 0
    ensures NeedsGrant(env, acts[j].c.result.lines) ==>
              && m < w < k && acts[m] == Answer(t, true) && NoneBefore(acts, m, t)
              && StepAt(ss, acts, w, t) && ss[w].threads[t].pc.Waiting? && acts[w].c.wake == Reply
  {
    k := WhoCompleted(env, ss, acts, i, sid);
    t := acts[k].t;
    CompletingIsTold(env, ss, acts, k, t);
    j := WhatExecuteReturned(ss, acts, k, t);
    m, w := 0, 0;
    if NeedsGrant(env, acts[j].c.result.lines) {
      m, w := HowItWasGranted(env, ss, acts, k, t);
    }
  }

  lemma CompletingIsTold(env: Env, ss: seq<State>, acts: seq<Action>, k: nat, t: Tid)
    requires IsRun(env, ss, acts) && StepAt(ss, acts, k, t) && ss[k].threads[t].pc.Completing?
    ensures var tale := TaleOf(ss, acts, k, t);
            ExitedZero(tale) && (Covered(env, tale) ==> Granted(tale))
  {
    AlwaysTold(env, ss, acts, k, t);
  }

  lemma HowItWasGranted(env: Env, ss: seq<State>, acts: seq<Action>, k: nat, t: Tid) returns (m: nat, w: nat)
    requires IsRun(env, ss, acts) && k <= |acts| && Granted(TaleOf(ss, acts, k, t))
    ensures m < w < k && acts[m] == Answer(t, true) && NoneBefore(acts, m, t)
    ensures StepAt(ss, acts, w, t) && ss[w].threads[t].pc.Waiting? && acts[w].c.wake == Reply
  {
    w := HowItWoke(ss, acts, k, t);
    AlwaysTold(env, ss, acts, w, t);
    AnswerStays(ss, acts, w, k, t);
    m := FirstAnswerGiven(ss, acts, w, t);
  }

  lemma {:induction false} AnswerStays(ss: seq<State>, acts: seq<Action>, i: nat, j: nat, t: Tid)
    requires i <= j <= |acts| < |ss| && TaleOf(ss, acts, i, t).answer.Some?
    ensures TaleOf(ss, acts, j, t).answer == TaleOf(ss, acts, i, t).answer
    decreases j
  {
    if i < j {
      AnswerStays(ss, acts, i, j - 1, t);
    }
  }

  // Cancellation during backoff.

  lemma AbandonedGrows(env: Env, s: State, a: Action)
    requires env.Valid() && Enabled(env, s, a) && !a.Reboot?
    ensures s.abandoned <= Next(env, s, a).abandoned
  {
  }

  lemma {:induction false} AbandonedForGood(env: Env, ss: seq<State>, acts: seq<Action>, i: nat, j: nat, sid: Sid)
    requires IsRun(env, ss, acts) && i <= j < |ss| && sid in ss[i].abandoned && Admission.SameProcess(acts, i, j)
    ensures sid in ss[j].abandoned
    decreases j
  {
    if i < j {
      AbandonedForGood(env, ss, acts, i, j - 1, sid);
      AbandonedGrows(env, ss[j - 1], acts[j - 1]);
    }
  }

  lemma BackoffCutShort(env: Env, s: State, t: Tid, c: Choice)
    requires env.Valid() && Enabled(env, s, RunStep(t, c)) && Numbered(s) && s.threads[t].pc.BackingOff? && !c.ok
    ensures var q := Next(env, s, RunStep(t, c));
            && t in q.threads && q.threads[t].Run? && q.threads[t].pc == Exiting(Abandoned) && q.threads.Keys == s.threads.Keys
            && s.threads[t].sid in q.abandoned && q.boxes == s.boxes && q.plane == s.plane
  {
  }

  /** A run whose context is done during its backoff retries nothing and fails nothing: its session is RUNNING
      and has no owner, its sandbox has been destroyed, and so it stays until the process restarts. */
  lemma CancelledInBackoffStaysRunning(env: Env, ss: seq<State>, acts: seq<Action>, i: nat, j: nat)
    requires IsRun(env, ss, acts) && env.Unique() && i < j < |ss| && Admission.SameProcess(acts, i + 1, j)
    requires acts[i].RunStep? && ss[i].threads[acts[i].t].pc.BackingOff? && !acts[i].c.ok
    ensures var sid := ss[i].threads[acts[i].t].sid;
            sid in ss[j].plane.mem && ss[j].plane.mem[sid] == Running && !Chains.Held(ss[j], sid)
    ensures forall b :: b in ss[i].boxes && ss[i].boxes[b].run == acts[i].t && !ss[i].boxes[b].lost ==>
              ss[i + 1].boxes[b].destroys == 1
  {
    var t := acts[i].t;
    AlwaysNumbered(env, ss, acts, i);
    BackoffCutShort(env, ss[i], t, acts[i].c);
    AbandonedForGood(env, ss, acts, i + 1, j, ss[i].threads[t].sid);
    Chains.AlwaysAccounted(env, ss, acts, j);
    assert Chains.Marked(ss[j], ss[i].threads[t].sid);
    forall b | b in ss[i].boxes && ss[i].boxes[b].run == t && !ss[i].boxes[b].lost ensures ss[i + 1].boxes[b].destroys == 1 {
      Sandboxes.DestroyPrecedesRetry(env, ss, acts, i, t, b);
    }
  }

  /** A run that has slept through its backoff has ended and is followed by the next run of its chain, which starts
      from the beginning without a sandbox, and is cancelled if and only if it was: the two share their context. */
  lemma RetryTakesOver(env: Env, ss: seq<State>, acts: seq<Action>, i: nat)
    requires IsRun(env, ss, acts) && i < |acts|
    requires acts[i].RunStep? && ss[i].threads[acts[i].t].pc.BackingOff? && acts[i].c.ok
    ensures var t, r, q := acts[i].t, ss[i].threads[acts[i].t], ss[i + 1];
            && t in q.threads && q.threads[t].Run? && q.threads[t].pc == Exiting(HandedOver)
            && ss[i].next in q.threads && q.threads[ss[i].next].Run?
            && var u := q.threads[ss[i].next];
               && u.sid == r.sid && u.pc.Starting? && u.box.None? && u.number == r.number + 1
               && (u.cancelled <==> r.cancelled) && u.pulse == Pulse(Off, false, false)
    ensures ss[i + 1].plane == ss[i].plane && ss[i + 1].boxes == ss[i].boxes && ss[i + 1].active == ss[i].active
  {
    AlwaysNumbered(env, ss, acts, i);
  }

  lemma ApplyContext(env: Env, s: State, u: Tid, r: Thread, e: Effect, c: Choice, t: Tid)
    requires Numbered(s) && u in s.threads && s.threads[u] == r && r.Run? && t in s.threads && s.threads[t].Run?
    requires e.run.Run? && (e.run.cancelled <==> r.cancelled)
    ensures var q := ApplyEffect(env, s, u, r, e, c).threads;
            t in q && q[t].Run? && (q[t].cancelled <==> s.threads[t].cancelled)
  {
  }

  lemma CallContext(env: Env, s: State, u: Tid, th: Thread, e: CallEffect, t: Tid)
    requires Numbered(s) && u in s.threads && s.threads[u] == th && th.Call? && t in s.threads && s.threads[t].Run?
    ensures var q := ApplyCall(env, s, u, th, e).threads;
            t in q && q[t].Run? && (q[t].cancelled <==> s.threads[t].cancelled)
  {
  }

  /** A context is cancelled by its cancellation and by nothing else, and stays cancelled. */
  lemma CancelledForGood(env: Env, ss: seq<State>, acts: seq<Action>, i: nat, t: Tid)
    requires IsRun(env, ss, acts) && i < |acts| && t in ss[i].threads && ss[i].threads[t].Run?
    requires t in ss[i + 1].threads
    ensures ss[i + 1].threads[t].Run?
    ensures ss[i + 1].threads[t].cancelled <==> ss[i].threads[t].cancelled || acts[i] == Cancel(t)
  {
    AlwaysNumbered(env, ss, acts, i);
    var s, a := ss[i], acts[i];
    if a.RunStep? {
      var r := s.threads[a.t];
      RunKeepsContext(env, ViewOf(env, s, r), r, a.c);
      ApplyContext(env, s, a.t, r, StepRun(env, ViewOf(env, s, r), r, a.c), a.c, t);
    } else if a.CallStep? {
      CallContext(env, s, a.t, s.threads[a.t], StepCall(env, s, s.threads[a.t], a.c), t);
    }
  }

  lemma RunKeepsContext(env: Env, v: View, r: Thread, c: Choice)
    requires env.Valid() && r.Run? && !r.pc.Exiting?
    requires r.pc.BackingOff? && c.ok ==> c.noise < env.backoff.jitter
    ensures var e := StepRun(env, v, r, c); e.run.Run? && (e.run.cancelled <==> r.cancelled)
  {
  }
}
