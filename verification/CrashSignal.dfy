/** The crash signal between the heartbeat monitor and the run it watches. */
module CrashSignal {
  import opened Lifecycle
  import opened Engine
  import opened History
  import Heartbeat

  /** The monitor sends before it cancels, and what it sent stays in the channel until it is polled. */
  ghost predicate Signalled(log: Log, t: Tid, r: Thread)
    requires r.Run?
  {
    && (r.pulse.cut <==> WasCut(log, t))
    && (r.pulse.cut ==> r.pulse.phase == Quit)
    && (r.pulse.phase == Off || r.pulse.phase.Watching? || r.pulse.phase == Sending ==> !r.pulse.signal)
    && (Early(r.pc) && (r.pulse.phase == Cutting || r.pulse.cut) ==> r.pulse.signal)
    && (Early(r.pc) && !r.pc.Executing? && !r.pc.Returned? ==> r.pulse == Pulse(Off, false, false))
  }

  /** A run that takes the plain execute-failed path was never cut off by its monitor. */
  ghost predicate PlainFailuresUncut(log: Log) {
    match log
    case Nil => true
    case Snoc(prev, t, _, what) => PlainFailuresUncut(prev) && (what.DidFailExec? ==> !WasCut(prev, t))
  }

  predicate FreshlyStarted(th: Thread) {
    th.Run? && th.pc.Starting? && th.pulse == Pulse(Off, false, false)
  }

  ghost predicate SignalStep(log: Log, t: Tid, e: Effect) {
    && e.run.Run? && e.note != Some(DidCut)
    && Signalled(log, t, e.run)
    && (e.note == Some(DidFailExec) ==> !WasCut(log, t))
    && (e.spawn.Some? ==> FreshlyStarted(e.spawn.value))
  }

  lemma LaunchSignalled(env: Env, v: View, r: Thread, c: Choice, log: Log, t: Tid)
    requires r.Run? && InSetup(r.pc) && Signalled(log, t, r)
    ensures SignalStep(log, t, StepLaunch(env, v, r, c))
  {
  }

  lemma ExecuteSignalled(r: Thread, c: Choice, log: Log, t: Tid)
    requires r.Run? && (r.pc.Executing? || r.pc.Returned?) && Signalled(log, t, r)
    ensures SignalStep(log, t, StepExecute(r, c))
  {
  }

  lemma DecideSignalled(v: View, r: Thread, c: Choice, log: Log, t: Tid)
    requires r.Run? && InDecision(r.pc) && Signalled(log, t, r)
    ensures SignalStep(log, t, StepDecide(v, r, c))
  {
  }

  lemma EndSignalled(v: View, r: Thread, c: Choice, log: Log, t: Tid)
    requires r.Run? && InEnd(r.pc) && Signalled(log, t, r)
    ensures SignalStep(log, t, StepEnd(v, r, c))
  {
  }

  lemma CrashSignalled(env: Env, v: View, r: Thread, c: Choice, log: Log, t: Tid)
    requires env.Valid() && r.Run? && InCrash(r.pc) && Signalled(log, t, r)
    requires r.pc.BackingOff? && c.ok ==> c.noise < env.backoff.jitter
    ensures SignalStep(log, t, StepCrash(env, v, r, c))
  {
  }

  lemma StepRunSignalled(env: Env, v: View, r: Thread, c: Choice, log: Log, t: Tid)
    requires env.Valid() && r.Run? && !r.pc.Exiting? && Signalled(log, t, r)
    requires r.pc.BackingOff? && c.ok ==> c.noise < env.backoff.jitter
    ensures SignalStep(log, t, StepRun(env, v, r, c))
  {
    if InSetup(r.pc) {
      LaunchSignalled(env, v, r, c, log, t);
    } else if Early(r.pc) {
      ExecuteSignalled(r, c, log, t);
    } else if InCrash(r.pc) {
      CrashSignalled(env, v, r, c, log, t);
    } else if InDecision(r.pc) {
      DecideSignalled(v, r, c, log, t);
    } else {
      EndSignalled(v, r, c, log, t);
    }
  }

  ghost predicate Heard(s: State, t: Tid) {
    t in s.threads && s.threads[t].Run? ==> Signalled(s.log, t, s.threads[t])
  }

  ghost predicate SignalInv(s: State) {
    && Numbered(s)
    && PlainFailuresUncut(s.log)
    && forall t :: Heard(s, t)
  }

  lemma NoteKeepsCut(log: Log, t: Tid, sid: Sid, note: Option<What>, u: Tid)
    requires note != Some(DidCut)
    ensures WasCut(Noted(log, t, sid, note), u) == WasCut(log, u)
  {
  }

  lemma ApplySignal(env: Env, s: State, t: Tid, r: Thread, e: Effect, c: Choice)
    requires t in s.threads && s.threads[t] == r && r.Run? && SignalInv(s)
    requires SignalStep(s.log, t, e)
    ensures PlainFailuresUncut(ApplyEffect(env, s, t, r, e, c).log)
    ensures forall u :: Heard(ApplyEffect(env, s, t, r, e, c), u)
  {
    var q := ApplyEffect(env, s, t, r, e, c);
    BelowIsSilent(s.log, s.next, s.next);
    forall u ensures Heard(q, u) {
      assert Heard(s, u);
      NoteKeepsCut(s.log, t, r.sid, e.note, u);
    }
  }

  lemma BeatSignal(env: Env, s: State, t: Tid, beat: Beat)
    requires env.Valid() && Enabled(env, s, BeatStep(t, beat)) && SignalInv(s)
    ensures PlainFailuresUncut(Next(env, s, BeatStep(t, beat)).log)
    ensures forall u :: Heard(Next(env, s, BeatStep(t, beat)), u)
  {
    var q := Next(env, s, BeatStep(t, beat));
    assert Heard(s, t);
    forall u ensures Heard(q, u) {
      assert Heard(s, u);
    }
  }

  lemma CallSignal(env: Env, s: State, t: Tid, th: Thread, e: CallEffect)
    requires t in s.threads && s.threads[t] == th && th.Call? && SignalInv(s)
    ensures PlainFailuresUncut(ApplyCall(env, s, t, th, e).log)
    ensures forall u :: Heard(ApplyCall(env, s, t, th, e), u)
  {
    var q := ApplyCall(env, s, t, th, e);
    BelowIsSilent(s.log, s.next, s.next);
    forall u ensures Heard(q, u) {
      assert Heard(s, u);
    }
  }

  lemma OtherSignal(env: Env, s: State, a: Action)
    requires env.Valid() && Enabled(env, s, a) && !a.RunStep? && !a.BeatStep? && !a.CallStep? && SignalInv(s)
    ensures PlainFailuresUncut(Next(env, s, a).log)
    ensures forall u :: Heard(Next(env, s, a), u)
  {
    var q := Next(env, s, a);
    forall u ensures Heard(q, u) {
      assert Heard(s, u);
    }
  }

  lemma StepSignal(env: Env, s: State, a: Action)
    requires env.Valid() && Enabled(env, s, a) && SignalInv(s)
    ensures SignalInv(Next(env, s, a))
  {
    StepNumbered(env, s, a);
    match a
    case RunStep(t, c) =>
      var r := s.threads[t];
      assert Heard(s, t);
      StepRunSignalled(env, ViewOf(env, s, r), r, c, s.log, t);
      ApplySignal(env, s, t, r, StepRun(env, ViewOf(env, s, r), r, c), c);
    case BeatStep(t, beat) => BeatSignal(env, s, t, beat);
    case CallStep(t, c) => CallSignal(env, s, t, s.threads[t], StepCall(env, s, s.threads[t], c));
    case _ => OtherSignal(env, s, a);
  }

  lemma {:induction false} AlwaysSignalled(env: Env, ss: seq<State>, acts: seq<Action>, i: nat)
    requires IsRun(env, ss, acts) && i < |ss|
    ensures SignalInv(ss[i])
  {
    if i > 0 {
      AlwaysSignalled(env, ss, acts, i - 1);
      StepSignal(env, ss[i - 1], acts[i - 1]);
    }
  }

  /** If the monitor cancelled the execution of a run, then when Execute is back its error is already
      in the channel, and the run takes the crash path whatever Execute returned. */
  lemma NoLostCrashSignal(env: Env, ss: seq<State>, acts: seq<Action>, i: nat, t: Tid, c: Choice)
    requires IsRun(env, ss, acts) && i < |ss| && Enabled(env, ss[i], RunStep(t, c))
    requires ss[i].threads[t].pc.Returned? && WasCut(ss[i].log, t)
    ensures ss[i].threads[t].pulse.signal
    ensures Next(env, ss[i], RunStep(t, c)).threads[t].pc == Crashed
  {
    AlwaysSignalled(env, ss, acts, i);
    assert Heard(ss[i], t);
  }

  /** In no history does a run that its monitor cut off end up on the plain execute-failed path. */
  lemma CutRunsNeverFailPlainly(env: Env, ss: seq<State>, acts: seq<Action>, i: nat)
    requires IsRun(env, ss, acts) && i < |ss|
    ensures PlainFailuresUncut(ss[i].log)
  {
    AlwaysSignalled(env, ss, acts, i);
  }

  // The monitor thread and the detector loop agree.

  /** What the monitor has come to after the given beats; once it is done watching, no beat matters. */
  function Ticked(env: Env, beats: seq<Beat>): Phase {
    if beats == [] then Watching(0)
    else
      var p := Ticked(env, beats[..|beats| - 1]);
      if p.Watching? then StepPulse(env, Pulse(p, false, false), beats[|beats| - 1]).phase else p
  }

  /** The heartbeats before the monitor's context is done. */
  function Watched(beats: seq<Beat>): (ticks: seq<bool>)
    ensures |ticks| <= |beats| && forall i :: 0 <= i < |ticks| ==> beats[i] == if ticks[i] then Alive else Dead
    ensures |ticks| < |beats| <==> Stop in beats
    ensures |ticks| < |beats| ==> beats[|ticks|] == Stop
  {
    if beats == [] then []
    else
      var init := Watched(beats[..|beats| - 1]);
      if |init| < |beats| - 1 || beats[|beats| - 1] == Stop then init else init + [beats[|beats| - 1] == Alive]
  }

  /** How many failures end the trace. */
  ghost predicate TrailingFailures(ticks: seq<bool>, n: nat) {
    && n <= |ticks|
    && (forall i :: |ticks| - n <= i < |ticks| ==> !ticks[i])
    && (n < |ticks| ==> ticks[|ticks| - n - 1])
  }

  ghost predicate Lost(env: Env, ticks: seq<bool>) { exists t :: Heartbeat.LostAt(ticks, env.maxFailures, t) }

  lemma LostOrLater(env: Env, ticks: seq<bool>, alive: bool, n: nat)
    requires env.Valid() && !Lost(env, ticks) && TrailingFailures(ticks, n) && n < env.maxFailures
    ensures Lost(env, ticks + [alive]) <==> !alive && n + 1 >= env.maxFailures
  {
    var more := ticks + [alive];
    assert forall i :: 0 <= i < |ticks| ==> more[i] == ticks[i];
    if !alive && n + 1 >= env.maxFailures {
      assert Heartbeat.LostAt(more, env.maxFailures, |ticks|);
    }
    assert n < |ticks| ==> more[|ticks| - n - 1];
    forall t | Heartbeat.LostAt(more, env.maxFailures, t) ensures t == |ticks| {
      assert t < |ticks| ==> Heartbeat.LostAt(ticks, env.maxFailures, t);
    }
    if Lost(env, more) {
      assert Heartbeat.LostAt(more, env.maxFailures, |ticks|);
      assert !more[|ticks|];
    }
  }

  lemma LostForGood(env: Env, ticks: seq<bool>, alive: bool)
    requires Lost(env, ticks)
    ensures Lost(env, ticks + [alive])
  {
    var t :| Heartbeat.LostAt(ticks, env.maxFailures, t);
    assert Heartbeat.LostAt(ticks + [alive], env.maxFailures, t);
  }

  /** What the monitor's phase tells of the heartbeats before its context was done. */
  ghost predicate Tells(env: Env, p: Phase, ticks: seq<bool>, stopped: bool) {
    && (p == Sending <==> Lost(env, ticks))
    && (p == Quit <==> !Lost(env, ticks) && stopped)
    && (p == Sending || p == Quit || p.Watching?)
    && (p.Watching? ==> TrailingFailures(ticks, p.failures) && p.failures < env.maxFailures)
  }

  lemma BeatTells(env: Env, p: Phase, ticks: seq<bool>, beat: Beat)
    requires env.Valid() && beat != Stop && Tells(env, p, ticks, false)
    ensures var q := if p.Watching? then StepPulse(env, Pulse(p, false, false), beat).phase else p;
            Tells(env, q, ticks + [beat == Alive], false)
  {
    if p.Watching? {
      LostOrLater(env, ticks, beat == Alive, p.failures);
    } else {
      LostForGood(env, ticks, beat == Alive);
    }
  }

  /** Fed with the outcomes of its heartbeats and with the end of its context at any point or at none, the
      monitor thread goes on to send exactly if, before its context is done, some tick ends a run of
      maxFailures consecutive failures; otherwise it quits exactly if its context is done. */
  lemma {:induction false} MonitorDetects(env: Env, beats: seq<Beat>)
    requires env.Valid()
    ensures Tells(env, Ticked(env, beats), Watched(beats), Stop in beats)
  {
    if beats != [] {
      var init, last := beats[..|beats| - 1], beats[|beats| - 1];
      MonitorDetects(env, init);
      assert beats == init + [last];
      if Stop !in init && last != Stop {
        BeatTells(env, Ticked(env, init), Watched(init), last);
      } else if Stop !in init {
        assert Tells(env, Ticked(env, init), Watched(init), false);
      }
    }
  }

  // The monitor beside its run.

  /** The beats of the monitor of run `t` up to `i`. */
  function BeatsOf(acts: seq<Action>, i: nat, t: Tid): seq<Beat>
    requires i <= |acts|
  {
    if i == 0 then []
    else BeatsOf(acts, i - 1, t) + if acts[i - 1].BeatStep? && acts[i - 1].t == t then [acts[i - 1].beat] else []
  }

  /** The `k`-th beat is the first that ends a run of maxFailures failures. */
  ghost predicate Declares(env: Env, beats: seq<Beat>, k: nat) {
    1 <= k <= |beats| && Lost(env, Watched(beats[..k])) && !Lost(env, Watched(beats[..k - 1]))
  }

  /** What the monitor has done after its beats. As long as no failure has been declared it watches, or has quit
      because its context was done, and has neither sent nor cancelled. The next beat after the declaration sends,
      the one after that cancels, and there are no more. */
  ghost predicate Monitored(env: Env, p: Pulse, beats: seq<Beat>) {
    if Lost(env, Watched(beats)) then
      exists k :: Declares(env, beats, k) && Declared(p, |beats| - k)
    else
      !p.cut && !p.signal && Tells(env, p.phase, Watched(beats), Stop in beats)
  }

  predicate Declared(p: Pulse, since: int) {
    && 0 <= since <= 2
    && p.phase == (if since == 0 then Sending else if since == 1 then Cutting else Quit)
    && (p.cut <==> since == 2)
    && (p.signal ==> since >= 1)
  }

  lemma WatchedMore(beats: seq<Beat>, beat: Beat)
    ensures Watched(beats + [beat]) ==
            if Stop in beats || beat == Stop then Watched(beats) else Watched(beats) + [beat == Alive]
  {
    assert (beats + [beat])[..|beats|] == beats;
  }

  lemma DeclaresMore(env: Env, beats: seq<Beat>, beat: Beat, k: nat)
    requires Declares(env, beats, k)
    ensures Declares(env, beats + [beat], k) && (Lost(env, Watched(beats)) ==> Lost(env, Watched(beats + [beat])))
  {
    assert (beats + [beat])[..k] == beats[..k] && (beats + [beat])[..k - 1] == beats[..k - 1];
    WatchedMore(beats, beat);
    if Lost(env, Watched(beats)) && Stop !in beats && beat != Stop {
      LostForGood(env, Watched(beats), beat == Alive);
    }
  }

  lemma BeatMonitored(env: Env, p: Pulse, beats: seq<Beat>, beat: Beat)
    requires env.Valid() && Monitored(env, p, beats) && p.phase != Quit && p.phase != Off
    ensures Monitored(env, StepPulse(env, p, beat), beats + [beat])
  {
    var more, q := beats + [beat], StepPulse(env, p, beat);
    WatchedMore(beats, beat);
    if Lost(env, Watched(beats)) {
      var k :| Declares(env, beats, k) && Declared(p, |beats| - k);
      DeclaresMore(env, beats, beat, k);
      assert Declared(q, |more| - k);
    } else if beat != Stop {
      BeatTells(env, p.phase, Watched(beats), beat);
      if Lost(env, Watched(more)) {
        assert more[..|more|] == more && more[..|more| - 1] == beats;
        assert Declares(env, more, |more|) && Declared(q, 0);
      }
    }
  }

  /** Polling the channel takes the error out of it and changes nothing else about the monitor. */
  lemma PollMonitored(env: Env, p: Pulse, beats: seq<Beat>)
    requires Monitored(env, p, beats)
    ensures Monitored(env, p.(signal := false), beats)
  {
    if Lost(env, Watched(beats)) {
      var k :| Declares(env, beats, k) && Declared(p, |beats| - k);
      assert Declared(p.(signal := false), |beats| - k);
    }
  }

  /** The monitor runs from the start of the execution, if heartbeats are enabled. */
  ghost predicate Attended(env: Env, r: Thread, beats: seq<Beat>)
    requires r.Run?
  {
    if r.pulse.phase == Off then r.pulse == Pulse(Off, false, false) && beats == [] && !(env.heartbeats && MidRun(r.pc))
    else env.heartbeats && !InSetup(r.pc) && Monitored(env, r.pulse, beats)
  }

  predicate MidRun(pc: RunPc) { pc.Executing? || pc.Returned? || InDecision(pc) || pc.Completing? || InCrash(pc) }

  /** What a step of a run does to its pulse. */
  predicate PulseStep(env: Env, r: Thread, e: Effect)
    requires r.Run?
  {
    && e.run.Run? && (e.spawn.Some? ==> e.spawn.value.Run? && e.spawn.value.pc.Starting? && e.spawn.value.pulse == Pulse(Off, false, false))
    && (if InSetup(r.pc) && e.run.pc.Executing? then
          e.run.pulse == Pulse(if env.heartbeats then Watching(0) else Off, false, false)
        else
          && (e.run.pulse == r.pulse || e.run.pulse == r.pulse.(signal := false))
          && (InSetup(e.run.pc) ==> InSetup(r.pc))
          && (MidRun(e.run.pc) ==> MidRun(r.pc)))
  }

  lemma LaunchPulse(env: Env, v: View, r: Thread, c: Choice)
    requires r.Run? && InSetup(r.pc)
    ensures PulseStep(env, r, StepLaunch(env, v, r, c))
  {
  }

  lemma DecidePulse(env: Env, v: View, r: Thread, c: Choice)
    requires r.Run? && InDecision(r.pc)
    ensures PulseStep(env, r, StepDecide(v, r, c))
  {
  }

  lemma EndPulse(env: Env, v: View, r: Thread, c: Choice)
    requires r.Run? && InEnd(r.pc)
    ensures PulseStep(env, r, StepEnd(v, r, c))
  {
  }

  lemma CrashPulse(env: Env, v: View, r: Thread, c: Choice)
    requires env.Valid() && r.Run? && InCrash(r.pc)
    requires r.pc.BackingOff? && c.ok ==> c.noise < env.backoff.jitter
    ensures PulseStep(env, r, StepCrash(env, v, r, c))
  {
  }

  lemma StepRunPulse(env: Env, v: View, r: Thread, c: Choice)
    requires env.Valid() && r.Run? && !r.pc.Exiting?
    requires r.pc.BackingOff? && c.ok ==> c.noise < env.backoff.jitter
    ensures PulseStep(env, r, StepRun(env, v, r, c))
  {
    if InSetup(r.pc) {
      LaunchPulse(env, v, r, c);
    } else if InDecision(r.pc) {
      DecidePulse(env, v, r, c);
    } else if InEnd(r.pc) {
      EndPulse(env, v, r, c);
    } else if InCrash(r.pc) {
      CrashPulse(env, v, r, c);
    }
  }

  lemma PulseAttended(env: Env, r: Thread, e: Effect, beats: seq<Beat>)
    requires env.Valid() && r.Run? && Attended(env, r, beats) && PulseStep(env, r, e)
    ensures Attended(env, e.run, beats)
  {
    if InSetup(r.pc) && e.run.pc.Executing? {
      MonitorDetects(env, []);
    } else if r.pulse.phase != Off {
      PollMonitored(env, r.pulse, beats);
    }
  }

  ghost predicate AttendedAt(env: Env, s: State, t: Tid, beats: seq<Beat>) {
    && (t in s.threads && s.threads[t].Run? ==> Attended(env, s.threads[t], beats))
    && (t >= s.next || (t in s.threads && s.threads[t].Call?) ==> beats == [])
  }

  lemma RunStepAttended(env: Env, s: State, u: Tid, c: Choice, t: Tid, beats: seq<Beat>)
    requires env.Valid() && Enabled(env, s, RunStep(u, c)) && Numbered(s) && AttendedAt(env, s, t, beats)
    ensures AttendedAt(env, Next(env, s, RunStep(u, c)), t, beats)
  {
    var r := s.threads[u];
    var e := StepRun(env, ViewOf(env, s, r), r, c);
    StepRunPulse(env, ViewOf(env, s, r), r, c);
    if u == t {
      PulseAttended(env, r, e, beats);
    }
    ApplyAttended(env, s, u, r, e, c, t, beats);
  }

  lemma ApplyAttended(env: Env, s: State, u: Tid, r: Thread, e: Effect, c: Choice, t: Tid, beats: seq<Beat>)
    requires Numbered(s) && u in s.threads && s.threads[u] == r && r.Run? && AttendedAt(env, s, t, beats)
    requires PulseStep(env, r, e) && (u == t ==> Attended(env, e.run, beats))
    ensures AttendedAt(env, ApplyEffect(env, s, u, r, e, c), t, beats)
  {
  }

  lemma CallAttended(env: Env, s: State, u: Tid, th: Thread, e: CallEffect, t: Tid, beats: seq<Beat>)
    requires u in s.threads && s.threads[u] == th && th.Call? && Numbered(s) && AttendedAt(env, s, t, beats)
    ensures AttendedAt(env, ApplyCall(env, s, u, th, e), t, beats)
  {
  }

  lemma BeatAttended(env: Env, s: State, t: Tid, beat: Beat, beats: seq<Beat>)
    requires env.Valid() && Enabled(env, s, BeatStep(t, beat)) && Numbered(s) && AttendedAt(env, s, t, beats)
    ensures AttendedAt(env, Next(env, s, BeatStep(t, beat)), t, beats + [beat])
  {
    BeatMonitored(env, s.threads[t].pulse, beats, beat);
  }

  lemma QuietAttended(env: Env, s: State, a: Action, t: Tid, beats: seq<Beat>)
    requires env.Valid() && Enabled(env, s, a) && Numbered(s) && AttendedAt(env, s, t, beats)
    requires !a.RunStep? && !a.CallStep? && !(a.BeatStep? && a.t == t)
    ensures AttendedAt(env, Next(env, s, a), t, beats)
  {
  }

  lemma StepAttended(env: Env, s: State, a: Action, t: Tid, beats: seq<Beat>)
    requires env.Valid() && Enabled(env, s, a) && Numbered(s) && AttendedAt(env, s, t, beats)
    ensures AttendedAt(env, Next(env, s, a), t, if a.BeatStep? && a.t == t then beats + [a.beat] else beats)
  {
    if a.RunStep? {
      RunStepAttended(env, s, a.t, a.c, t, beats);
    } else if a.CallStep? {
      CallAttended(env, s, a.t, s.threads[a.t], StepCall(env, s, s.threads[a.t], a.c), t, beats);
    } else if a.BeatStep? && a.t == t {
      BeatAttended(env, s, t, a.beat, beats);
    } else {
      QuietAttended(env, s, a, t, beats);
    }
  }

  lemma {:induction false} AlwaysAttended(env: Env, ss: seq<State>, acts: seq<Action>, i: nat, t: Tid)
    requires IsRun(env, ss, acts) && i < |ss|
    ensures AttendedAt(env, ss[i], t, BeatsOf(acts, i, t))
  {
    if i > 0 {
      AlwaysAttended(env, ss, acts, i - 1, t);
      AlwaysNumbered(env, ss, acts, i - 1);
      StepAttended(env, ss[i - 1], acts[i - 1], t, BeatsOf(acts, i - 1, t));
      assert BeatsOf(acts, i - 1, t) + [] == BeatsOf(acts, i - 1, t);
    }
  }

  lemma MonitoredCut(env: Env, p: Pulse, beats: seq<Beat>)
    requires Monitored(env, p, beats)
    ensures p.cut <==> exists k: nat :: Declares(env, beats, k) && |beats| == k + 2
    ensures p.phase == Quit && !p.cut ==> Stop in beats && !Lost(env, Watched(beats))
  {
    forall k: nat | Declares(env, beats, k) ensures Lost(env, Watched(beats)) {
      LostStays(env, beats, k, |beats|);
      assert beats[..|beats|] == beats;
    }
    forall k: nat, k': nat | Declares(env, beats, k) && Declares(env, beats, k') ensures k == k' {
      DeclaredOnce(env, beats, k, k');
    }
  }

  /** When the monitor of a run cancels its execution: exactly with the second beat after the first one that
      ended a run of maxFailures consecutive failures. And a monitor that has quit without cancelling was
      stopped while it watched, before any such run of failures. */
  lemma CutExactly(env: Env, ss: seq<State>, acts: seq<Action>, i: nat, t: Tid)
    requires IsRun(env, ss, acts) && i < |ss| && t in ss[i].threads && ss[i].threads[t].Run?
    ensures var beats := BeatsOf(acts, i, t);
            && (WasCut(ss[i].log, t) <==> exists k: nat :: Declares(env, beats, k) && |beats| == k + 2)
            && (ss[i].threads[t].pulse.phase == Quit && !WasCut(ss[i].log, t) ==>
                  Stop in beats && !Lost(env, Watched(beats)))
  {
    AlwaysAttended(env, ss, acts, i, t);
    AlwaysSignalled(env, ss, acts, i);
    assert Heard(ss[i], t);
    if ss[i].threads[t].pulse.phase != Off {
      MonitoredCut(env, ss[i].threads[t].pulse, BeatsOf(acts, i, t));
    }
  }

  /** When Execute is back, the run takes the crash path if and only if its monitor has sent: with the first beat
      after the declaration, whether or not it has cancelled the execution yet. */
  lemma CrashPathExactly(env: Env, ss: seq<State>, acts: seq<Action>, i: nat, t: Tid, c: Choice)
    requires IsRun(env, ss, acts) && i < |ss| && Enabled(env, ss[i], RunStep(t, c)) && ss[i].threads[t].pc.Returned?
    ensures Next(env, ss[i], RunStep(t, c)).threads[t].pc == Crashed
            <==> exists k: nat :: Declares(env, BeatsOf(acts, i, t), k) && |BeatsOf(acts, i, t)| >= k + 1
  {
    AlwaysAttended(env, ss, acts, i, t);
    AlwaysSignalled(env, ss, acts, i);
    assert Heard(ss[i], t);
    var p, beats := ss[i].threads[t].pulse, BeatsOf(acts, i, t);
    PollDecides(env, ss[i], t, c);
    if p.phase != Off {
      MonitoredSends(env, p, beats);
    }
  }

  lemma PollDecides(env: Env, s: State, t: Tid, c: Choice)
    requires env.Valid() && Enabled(env, s, RunStep(t, c)) && s.threads[t].pc.Returned?
    ensures t in Next(env, s, RunStep(t, c)).threads && Next(env, s, RunStep(t, c)).threads[t].Run?
    ensures Next(env, s, RunStep(t, c)).threads[t].pc == Crashed <==> s.threads[t].pulse.signal
  {
  }

  lemma MonitoredSends(env: Env, p: Pulse, beats: seq<Beat>)
    requires Monitored(env, p, beats)
    ensures (exists k: nat :: Declares(env, beats, k) && |beats| >= k + 1) <==> p.phase == Cutting || p.cut
    ensures p.signal ==> p.phase == Cutting || p.cut
  {
    forall k: nat | Declares(env, beats, k) ensures Lost(env, Watched(beats)) {
      LostStays(env, beats, k, |beats|);
      assert beats[..|beats|] == beats;
    }
    forall k: nat, k': nat | Declares(env, beats, k) && Declares(env, beats, k') ensures k == k' {
      DeclaredOnce(env, beats, k, k');
    }
  }

  lemma {:induction false} LostStays(env: Env, beats: seq<Beat>, i: nat, j: nat)
    requires i <= j <= |beats| && Lost(env, Watched(beats[..i]))
    ensures Lost(env, Watched(beats[..j]))
    decreases j
  {
    if i < j {
      LostStays(env, beats, i, j - 1);
      assert beats[..j] == beats[..j - 1] + [beats[j - 1]];
      WatchedMore(beats[..j - 1], beats[j - 1]);
      if Stop !in beats[..j - 1] && beats[j - 1] != Stop {
        LostForGood(env, Watched(beats[..j - 1]), beats[j - 1] == Alive);
      }
    } 
  }

  lemma DeclaredOnce(env: Env, beats: seq<Beat>, k: nat, k': nat)
    requires Declares(env, beats, k) && Declares(env, beats, k')
    ensures k == k'
  {
    if k < k' {
      LostStays(env, beats, k, k' - 1);
    } else if k' < k {
      LostStays(env, beats, k', k - 1);
    }
  }
}
