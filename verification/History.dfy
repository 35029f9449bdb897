/** Reading the engine's history: what a run returned, how its approval request was answered, whether
    its monitor cut it off, and which run of a session was started last. */
module History {
  import opened Lifecycle
  import opened Engine

  datatype Outcome = Outcome(exit: int, lines: Lines)

  /** What the agent execution of run `t` came back with. */
  function Result(log: Log, t: Tid): Option<Outcome> {
    match log
    case Nil => None
    case Snoc(prev, u, _, what) =>
      if u == t && what.DidReturn? then Some(Outcome(what.exit, what.lines)) else Result(prev, t)
  }

  /** The first answer published to run `t` while it waited. */
  function FirstAnswer(log: Log, t: Tid): Option<bool> {
    match log
    case Nil => None
    case Snoc(prev, u, _, what) =>
      var earlier := FirstAnswer(prev, t);
      if earlier.None? && u == t && what.DidAnswer? then Some(what.granted) else earlier
  }

  /** Run `t` stopped waiting because of a timeout or a cancelled context. */
  predicate GaveUp(log: Log, t: Tid) {
    match log
    case Nil => false
    case Snoc(prev, u, _, what) => (u == t && what.DidGiveUp?) || GaveUp(prev, t)
  }

  /** Run `t` took the plain path after an execution that failed. */
  predicate FailedPlainly(log: Log, t: Tid) {
    match log
    case Nil => false
    case Snoc(prev, u, _, what) => (u == t && what.DidFailExec?) || FailedPlainly(prev, t)
  }

  /** The heartbeat monitor of run `t` cancelled its execution. */
  predicate WasCut(log: Log, t: Tid) {
    match log
    case Nil => false
    case Snoc(prev, u, _, what) => (u == t && what.DidCut?) || WasCut(prev, t)
  }

  function LastStarted(log: Log, sid: Sid): Option<Tid> {
    match log
    case Nil => None
    case Snoc(prev, u, sid', what) => if sid' == sid && what.DidStart? then Some(u) else LastStarted(prev, sid)
  }

  predicate HasCompleted(log: Log, sid: Sid) {
    match log
    case Nil => false
    case Snoc(prev, _, sid', what) => (sid' == sid && what.DidComplete?) || HasCompleted(prev, sid)
  }

  /** No entry mentions a thread from `n` on. */
  predicate Below(log: Log, n: Tid) {
    match log
    case Nil => true
    case Snoc(prev, u, _, _) => u < n && Below(prev, n)
  }

  lemma {:induction false} BelowIsSilent(log: Log, n: Tid, t: Tid)
    requires Below(log, n) && n <= t
    ensures Result(log, t).None? && FirstAnswer(log, t).None? && !GaveUp(log, t) && !WasCut(log, t)
  {
    match log
    case Nil =>
    case Snoc(prev, _, _, _) => BelowIsSilent(prev, n, t);
  }

  lemma {:induction false} BelowMonotone(log: Log, m: Tid, n: Tid)
    requires Below(log, m) && m <= n
    ensures Below(log, n)
  {
    match log
    case Nil =>
    case Snoc(prev, _, _, _) => BelowMonotone(prev, m, n);
  }

  /** One log extends another by entries of the threads in `who` only. */
  ghost predicate Extends(before: Log, after: Log, who: set<Tid>)
    decreases after
  {
    after == before || (after.Snoc? && after.t in who && Extends(before, after.prev, who))
  }

  /** Entries of other threads do not change what is known about a thread. */
  lemma {:induction false} ExtendsElsewhere(before: Log, after: Log, who: set<Tid>, t: Tid)
    requires Extends(before, after, who) && t !in who
    ensures Result(after, t) == Result(before, t) && FirstAnswer(after, t) == FirstAnswer(before, t)
    ensures GaveUp(after, t) == GaveUp(before, t) && WasCut(after, t) == WasCut(before, t)
    decreases after
  {
    if after != before {
      ExtendsElsewhere(before, after.prev, who, t);
    }
  }

  lemma {:induction false} ExtendsHasCompleted(before: Log, after: Log, who: set<Tid>, sid: Sid)
    requires Extends(before, after, who) && HasCompleted(before, sid)
    ensures HasCompleted(after, sid)
    decreases after
  {
    if after != before {
      ExtendsHasCompleted(before, after.prev, who, sid);
    }
  }

  // How each step extends the history.

  function Actor(a: Action): set<Tid> {
    match a
    case CallStep(t, _) => {t}
    case RunStep(t, _) => {t}
    case Exit(t) => {t}
    case BeatStep(t, _) => {t}
    case Answer(t, _) => {t}
    case Cancel(t) => {t}
    case _ => {}
  }

  lemma StepExtends(env: Env, s: State, a: Action)
    requires env.Valid() && Enabled(env, s, a)
    ensures Extends(s.log, Next(env, s, a).log, Actor(a) + {s.next})
  {
    match a
    case RunStep(t, c) =>
      var r := s.threads[t];
      ApplyExtends(env, s, t, r, StepRun(env, ViewOf(env, s, r), r, c), c);
    case _ =>
  }

  lemma ApplyExtends(env: Env, s: State, t: Tid, r: Thread, e: Effect, c: Choice)
    requires r.Run?
    ensures Extends(s.log, ApplyEffect(env, s, t, r, e, c).log, {t} + {s.next})
  {
    assert Extends(s.log, Noted(s.log, t, r.sid, e.note), {t} + {s.next});
  }

  /** Threads and history entries are numbered below `next`. */
  ghost predicate Numbered(s: State) {
    && Below(s.log, s.next)
    && forall t :: t in s.threads ==> t < s.next
  }

  lemma ApplyNumbered(env: Env, s: State, t: Tid, r: Thread, e: Effect, c: Choice)
    requires Numbered(s) && t in s.threads && r.Run?
    ensures Numbered(ApplyEffect(env, s, t, r, e, c))
  {
    BelowMonotone(s.log, s.next, s.next + 1);
  }

  lemma CallNumbered(env: Env, s: State, t: Tid, th: Thread, e: CallEffect)
    requires Numbered(s) && t in s.threads && th.Call?
    ensures Numbered(ApplyCall(env, s, t, th, e))
  {
    BelowMonotone(s.log, s.next, s.next + 1);
  }

  lemma StepNumbered(env: Env, s: State, a: Action)
    requires env.Valid() && Enabled(env, s, a) && Numbered(s)
    ensures Numbered(Next(env, s, a))
  {
    BelowMonotone(s.log, s.next, s.next + 1);
    match a
    case RunStep(t, c) =>
      var r := s.threads[t];
      ApplyNumbered(env, s, t, r, StepRun(env, ViewOf(env, s, r), r, c), c);
    case CallStep(t, c) => CallNumbered(env, s, t, s.threads[t], StepCall(env, s, s.threads[t], c));
    case _ =>
  }

  lemma {:induction false} AlwaysNumbered(env: Env, ss: seq<State>, acts: seq<Action>, i: nat)
    requires IsRun(env, ss, acts) && i < |ss|
    ensures Numbered(ss[i])
  {
    if i > 0 {
      AlwaysNumbered(env, ss, acts, i - 1);
      StepNumbered(env, ss[i - 1], acts[i - 1]);
    }
  }

  // Starts.

  /** The run started last for a session is the one with the highest number. */
  ghost predicate Started(s: State, t: Tid) {
    t in s.threads && s.threads[t].Run? ==>
      LastStarted(s.log, s.threads[t].sid).Some? && t <= LastStarted(s.log, s.threads[t].sid).value
  }

  lemma {:induction false} LastStartedBelow(log: Log, n: Tid, sid: Sid)
    requires Below(log, n)
    ensures LastStarted(log, sid).Some? ==> LastStarted(log, sid).value < n
  {
    match log
    case Nil =>
    case Snoc(prev, _, _, _) => LastStartedBelow(prev, n, sid);
  }

  /** A session's last start only moves on to newer runs. */
  ghost predicate StartsGrow(before: Log, after: Log) {
    forall sid :: LastStarted(before, sid).Some? ==>
                    LastStarted(after, sid).Some? && LastStarted(before, sid).value <= LastStarted(after, sid).value
  }

  lemma RunStarts(env: Env, s: State, u: Tid, r: Thread, e: Effect, c: Choice)
    requires Numbered(s) && u in s.threads && s.threads[u] == r && r.Run? && (forall t :: Started(s, t))
    requires e.run.Run? && e.run.sid == r.sid && e.note != Some(DidStart)
    requires e.spawn.Some? ==> e.spawn.value.Run? && e.spawn.value.sid == r.sid
    ensures var q := ApplyEffect(env, s, u, r, e, c); (forall t :: Started(q, t)) && StartsGrow(s.log, q.log)
  {
    var q := ApplyEffect(env, s, u, r, e, c);
    forall sid ensures LastStarted(s.log, sid).Some? ==> LastStarted(s.log, sid).value < s.next {
      LastStartedBelow(s.log, s.next, sid);
    }
    forall t ensures Started(q, t) {
      assert Started(s, t);
    }
  }

  lemma CallStarts(env: Env, s: State, u: Tid, th: Thread, e: CallEffect)
    requires Numbered(s) && u in s.threads && s.threads[u] == th && th.Call? && (forall t :: Started(s, t))
    ensures var q := ApplyCall(env, s, u, th, e); (forall t :: Started(q, t)) && StartsGrow(s.log, q.log)
  {
    var q := ApplyCall(env, s, u, th, e);
    forall sid ensures LastStarted(s.log, sid).Some? ==> LastStarted(s.log, sid).value < s.next {
      LastStartedBelow(s.log, s.next, sid);
    }
    forall t ensures Started(q, t) {
      assert Started(s, t);
    }
  }

  lemma OtherStarts(env: Env, s: State, a: Action)
    requires env.Valid() && Enabled(env, s, a) && !a.RunStep? && !a.CallStep? && (forall t :: Started(s, t))
    ensures var q := Next(env, s, a); (forall t :: Started(q, t)) && StartsGrow(s.log, q.log)
  {
    var q := Next(env, s, a);
    forall t ensures Started(q, t) {
      assert Started(s, t);
    }
  }

  lemma RunKeepsName(env: Env, v: View, r: Thread, c: Choice)
    requires env.Valid() && r.Run? && !r.pc.Exiting?
    requires r.pc.BackingOff? && c.ok ==> c.noise < env.backoff.jitter
    ensures var e := StepRun(env, v, r, c);
            && e.run.Run? && e.run.sid == r.sid && e.note != Some(DidStart)
            && (e.spawn.Some? ==> e.spawn.value.Run? && e.spawn.value.sid == r.sid)
  {
  }

  lemma StepStarts(env: Env, s: State, a: Action)
    requires env.Valid() && Enabled(env, s, a) && Numbered(s) && (forall t :: Started(s, t))
    ensures var q := Next(env, s, a); (forall t :: Started(q, t)) && StartsGrow(s.log, q.log)
  {
    if a.RunStep? {
      var r := s.threads[a.t];
      RunKeepsName(env, ViewOf(env, s, r), r, a.c);
      RunStarts(env, s, a.t, r, StepRun(env, ViewOf(env, s, r), r, a.c), a.c);
    } else if a.CallStep? {
      CallStarts(env, s, a.t, s.threads[a.t], StepCall(env, s, s.threads[a.t], a.c));
    } else {
      OtherStarts(env, s, a);
    }
  }

  lemma {:induction false} AlwaysStarted(env: Env, ss: seq<State>, acts: seq<Action>, i: nat)
    requires IsRun(env, ss, acts) && i < |ss|
    ensures forall t :: Started(ss[i], t)
  {
    if i > 0 {
      AlwaysStarted(env, ss, acts, i - 1);
      AlwaysNumbered(env, ss, acts, i - 1);
      StepStarts(env, ss[i - 1], acts[i - 1]);
    }
  }

  /** What the history calls the run of a session started last is at least as new as every run of the session
      that there has been. */
  lemma {:induction false} LastStartedIsNewest(env: Env, ss: seq<State>, acts: seq<Action>, k: nat, i: nat, t: Tid)
    requires IsRun(env, ss, acts) && k <= i < |ss| && t in ss[k].threads && ss[k].threads[t].Run?
    ensures var last := LastStarted(ss[i].log, ss[k].threads[t].sid); last.Some? && t <= last.value
    decreases i
  {
    AlwaysStarted(env, ss, acts, i);
    if k < i {
      LastStartedIsNewest(env, ss, acts, k, i - 1, t);
      AlwaysStarted(env, ss, acts, i - 1);
      AlwaysNumbered(env, ss, acts, i - 1);
      StepStarts(env, ss[i - 1], acts[i - 1]);
    } else {
      assert Started(ss[i], t);
    }
  }
}
