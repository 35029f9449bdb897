/** Admission control, shutdown, and what the `active` map tells about running goroutines. */
module Admission {
  import opened Lifecycle
  import opened Engine
  import opened Ownership
  import opened History

  /** The calls between the limit check and the registration. */
  function PendingIn(threads: map<Tid, Thread>): set<Tid> { set t | t in threads && Pending(threads[t]) }

  function PendingCalls(s: State): set<Tid> { PendingIn(s.threads) }

  function Load(s: State): nat { |s.active| + |PendingCalls(s)| }

  predicate Admits(env: Env, s: State, a: Action) {
    a.CallStep? && a.t in s.threads && s.threads[a.t].Call? && s.threads[a.t].at == Checking && MayAdmit(env, s)
  }

  lemma UpdateSize<K, V>(m: map<K, V>, k: K, v: V)
    ensures |m[k := v]| <= |m| + 1 && |m - {k}| <= |m|
  {
    assert m[k := v].Keys == m.Keys + {k};
    assert (m - {k}).Keys == m.Keys - {k};
  }

  /** Launching trades a pending call for a run. */
  lemma LaunchPending(threads: map<Tid, Thread>, t: Tid, n: Tid, r: Thread)
    requires t in threads && Pending(threads[t]) && n !in threads && r.Run?
    ensures |PendingIn((threads - {t})[n := r])| == |PendingIn(threads)| - 1
  {
    assert PendingIn((threads - {t})[n := r]) == PendingIn(threads) - {t};
  }

  lemma MovePending(threads: map<Tid, Thread>, t: Tid, th: Thread)
    requires t in threads && th.Call? && (th.at == Admitted || th.at == Resolving ==> Pending(threads[t]))
    ensures |PendingIn(threads[t := th])| <= |PendingIn(threads)|
    ensures |PendingIn(threads - {t})| <= |PendingIn(threads)|
  {
    assert PendingIn(threads[t := th]) == if Pending(th) then PendingIn(threads) else PendingIn(threads) - {t};
    assert PendingIn(threads - {t}) == PendingIn(threads) - {t};
  }

  lemma CallLoad(env: Env, s: State, t: Tid, th: Thread, e: CallEffect)
    requires t in s.threads && s.threads[t] == th && th.Call? && s.next !in s.threads
    requires e.launch ==> th.at == Resolving
    requires e.at != Some(Admitted) && (e.at == Some(Resolving) ==> Pending(th))
    ensures var q := ApplyCall(env, s, t, th, e); Load(q) <= Load(s) && q.accepting == s.accepting
  {
    UpdateSize(s.active, th.sid, s.next);
    if e.launch {
      LaunchPending(s.threads, t, s.next, FirstRun(th.sid));
    } else {
      MovePending(s.threads, t, th.(at := if e.at.Some? then e.at.value else CallFailing));
    }
  }

  lemma StepCallShape(env: Env, s: State, th: Thread, c: Choice)
    requires th.Call?
    ensures var e := StepCall(env, s, th, c);
            && (e.launch ==> th.at == Resolving && e.at.None?)
            && (e.at == Some(Resolving) ==> Pending(th))
            && (e.at == Some(Admitted) <==> th.at == Checking && MayAdmit(env, s))
  {
  }

  lemma AdmitLoad(env: Env, s: State, t: Tid, th: Thread, e: CallEffect)
    requires th.Call? && !e.launch
    ensures var q := ApplyCall(env, s, t, th, e); q.active == s.active && q.accepting == s.accepting
  {
  }

  lemma CallStepLoad(env: Env, s: State, t: Tid, c: Choice)
    requires env.Valid() && Enabled(env, s, CallStep(t, c)) && s.next !in s.threads
    ensures var q := Next(env, s, CallStep(t, c));
            && q.accepting == s.accepting
            && if Admits(env, s, CallStep(t, c)) then q.active == s.active else Load(q) <= Load(s)
  {
    var th := s.threads[t];
    StepCallShape(env, s, th, c);
    if Admits(env, s, CallStep(t, c)) {
      AdmitLoad(env, s, t, th, StepCall(env, s, th, c));
    } else {
      CallLoad(env, s, t, th, StepCall(env, s, th, c));
    }
  }

  lemma ApplyRunLoad(env: Env, s: State, t: Tid, r: Thread, e: Effect, c: Choice)
    requires t in s.threads && s.threads[t] == r && r.Run? && e.run.Run? && s.next !in s.threads
    requires e.spawn.Some? ==> e.spawn.value.Run?
    ensures var q := ApplyEffect(env, s, t, r, e, c); Load(q) <= Load(s) && q.accepting == s.accepting
  {
    assert PendingCalls(ApplyEffect(env, s, t, r, e, c)) == PendingCalls(s);
  }

  /** Threads that are not pending calls come, change and go without changing what is pending. */
  lemma SamePending(threads: map<Tid, Thread>, threads': map<Tid, Thread>, t: Tid)
    requires forall u :: u != t ==> (u in threads' <==> u in threads) && (u in threads ==> threads'[u] == threads[u])
    requires t in threads ==> !Pending(threads[t])
    requires t in threads' ==> !Pending(threads'[t])
    ensures PendingIn(threads') == PendingIn(threads)
  {
  }

  lemma ExitLoad(env: Env, s: State, t: Tid)
    requires env.Valid() && Enabled(env, s, Exit(t))
    ensures var q := Next(env, s, Exit(t)); Load(q) <= Load(s) && q.accepting == s.accepting
  {
    SamePending(s.threads, s.threads - {t}, t);
    UpdateSize(s.active, s.threads[t].sid, 0);
  }

  /** A submission or a pass of the recovery loop at most adds a call before its limit check. */
  lemma ArrivalLoad(env: Env, s: State, a: Action)
    requires env.Valid() && Enabled(env, s, a) && (a.Submit? || a.Recover?) && s.next !in s.threads
    ensures var q := Next(env, s, a); Load(q) == Load(s) && q.accepting == s.accepting
  {
    SamePending(s.threads, Next(env, s, a).threads, s.next);
  }

  lemma TouchLoad(env: Env, s: State, t: Tid, a: Action)
    requires env.Valid() && Enabled(env, s, a) && (a == Cancel(t) || (a.Answer? && a.t == t) || (a.BeatStep? && a.t == t))
    ensures var q := Next(env, s, a); Load(q) == Load(s) && q.accepting == s.accepting
  {
    SamePending(s.threads, Next(env, s, a).threads, t);
  }

  lemma OtherLoad(env: Env, s: State, a: Action)
    requires env.Valid() && Enabled(env, s, a) && !a.RunStep? && !a.CallStep? && !a.Reboot?
    requires s.next !in s.threads
    ensures Load(Next(env, s, a)) <= Load(s) && (Next(env, s, a).accepting ==> s.accepting)
  {
    match a
    case Exit(t) => ExitLoad(env, s, t);
    case BeatStep(t, _) => TouchLoad(env, s, t, a);
    case Answer(t, _) => TouchLoad(env, s, t, a);
    case Cancel(t) => TouchLoad(env, s, t, a);
    case StopAccepting =>
    case _ => ArrivalLoad(env, s, a);
  }

  /** Within a process, only an admitted limit check raises |active| + pending. */
  lemma StepLoad(env: Env, s: State, a: Action)
    requires env.Valid() && Enabled(env, s, a) && !a.Reboot? && Numbered(s)
    ensures var q := Next(env, s, a);
            && (q.accepting ==> s.accepting)
            && if Admits(env, s, a) then q.active == s.active else Load(q) <= Load(s)
  {
    match a
    case RunStep(t, c) =>
      var r := s.threads[t];
      StepRunShape(env, ViewOf(env, s, r), r, c);
      ApplyRunLoad(env, s, t, r, StepRun(env, ViewOf(env, s, r), r, c), c);
    case CallStep(t, c) => CallStepLoad(env, s, t, c);
    case _ => OtherLoad(env, s, a);
  }

  lemma StepBound(env: Env, s: State, a: Action, k: nat)
    requires env.Valid() && Enabled(env, s, a) && Numbered(s)
    requires Load(s) <= env.maxConcurrent - 1 + k && |PendingCalls(Next(env, s, a))| <= k
    ensures Load(Next(env, s, a)) <= env.maxConcurrent - 1 + k
  {
    if !a.Reboot? {
      StepLoad(env, s, a);
    }
  }

  lemma InitLoad()
    ensures Load(INIT) == 0
  {
    assert PendingIn(map[]) == {};
  }

  ghost predicate NeverMorePending(ss: seq<State>, k: nat) {
    forall j :: 0 <= j < |ss| ==> |PendingCalls(ss[j])| <= k
  }

  /** If never more than `k` calls are between the limit check and the registration, then
      |active| + pending <= maxConcurrent - 1 + k in every reachable state. */
  lemma {:induction false} AdmissionBound(env: Env, ss: seq<State>, acts: seq<Action>, k: nat, i: nat)
    requires IsRun(env, ss, acts) && NeverMorePending(ss, k) && i < |ss|
    ensures Load(ss[i]) <= env.maxConcurrent - 1 + k
  {
    if i == 0 {
      InitLoad();
    } else {
      AdmissionBound(env, ss, acts, k, i - 1);
      AlwaysNumbered(env, ss, acts, i - 1);
      assert |PendingCalls(ss[i])| <= k;
      StepBound(env, ss[i - 1], acts[i - 1], k);
    }
  }

  /** Serial admissions make the limit exact. */
  lemma SerialAdmissionsRespectLimit(env: Env, ss: seq<State>, acts: seq<Action>, i: nat)
    requires IsRun(env, ss, acts) && NeverMorePending(ss, 1) && i < |ss|
    ensures |ss[i].active| <= Load(ss[i]) <= env.maxConcurrent
  {
    AdmissionBound(env, ss, acts, 1, i);
  }

  // Shutdown.

  /** After `StopAccepting`, nothing is admitted any more and |active| + pending never grows. */
  lemma {:induction false} LoadOnlyShrinksAfterStop(env: Env, ss: seq<State>, acts: seq<Action>, i: nat, j: nat)
    requires IsRun(env, ss, acts) && i <= j < |ss| && !ss[i].accepting
    requires forall k :: i <= k < j ==> !acts[k].Reboot?
    ensures !ss[j].accepting && Load(ss[j]) <= Load(ss[i])
    decreases j
  {
    if i < j {
      LoadOnlyShrinksAfterStop(env, ss, acts, i, j - 1);
      AlwaysNumbered(env, ss, acts, j - 1);
      StepLoad(env, ss[j - 1], acts[j - 1]);
    }
  }

  /** If there is no active session, after StopAccepting and with no call pending, then `active`
      stays empty for the rest of the process. */
  lemma DrainedStaysEmpty(env: Env, ss: seq<State>, acts: seq<Action>, i: nat, j: nat)
    requires IsRun(env, ss, acts) && i <= j < |ss|
    requires !ss[i].accepting && |ss[i].active| == 0 && PendingCalls(ss[i]) == {}
    requires forall k :: i <= k < j ==> !acts[k].Reboot?
    ensures ss[j].active == map[] && PendingCalls(ss[j]) == {}
  {
    LoadOnlyShrinksAfterStop(env, ss, acts, i, j);
    assert Load(ss[i]) == 0;
    assert |ss[j].active| == 0 && |PendingCalls(ss[j])| == 0;
  }

  /** From the step that stops accepting on: no limit check admits anything until the process restarts, and
      |active| + pending never exceeds what it was. */
  lemma NothingAdmittedAfterStop(env: Env, ss: seq<State>, acts: seq<Action>, i: nat, j: nat)
    requires IsRun(env, ss, acts) && i < j < |ss| && acts[i].StopAccepting? && SameProcess(acts, i, j)
    ensures !ss[j].accepting && Load(ss[j]) <= Load(ss[i])
    ensures j < |acts| ==> !Admits(env, ss[j], acts[j])
  {
    assert ss[i + 1].threads == ss[i].threads && ss[i + 1].active == ss[i].active;
    LoadOnlyShrinksAfterStop(env, ss, acts, i + 1, j);
  }

  /** No step from `i` to `j` is a restart. */
  ghost predicate SameProcess(acts: seq<Action>, i: nat, j: nat)
    requires j <= |acts|
  {
    forall k :: i <= k < j ==> !acts[k].Reboot?
  }

  /** `Drain` beside a run of the engine: polls the number of active sessions until it is zero or the context
      expires, and then reports what it last saw. `polls` are the successive values of `ActiveCount`, read at
      the points `when` of the run; the last of them is the one read after the context expired. A report of 0
      after `StopAccepting` with no call pending means that `active` is empty from that poll on. */
  method Drain(polls: seq<nat>, ghost env: Env, ghost ss: seq<State>, ghost acts: seq<Action>, ghost when: seq<nat>)
    returns (remaining: nat, at: nat)
    requires polls != [] && IsRun(env, ss, acts) && |when| == |polls|
    requires forall k :: 0 <= k < |polls| ==> when[k] < |ss| && polls[k] == |ss[when[k]].active|
    ensures at < |polls| && remaining == polls[at]
    ensures remaining == 0 <==> exists k :: 0 <= k < |polls| && polls[k] == 0
    ensures forall k :: 0 <= k < at ==> polls[k] != 0
    ensures remaining != 0 ==> at == |polls| - 1
    ensures remaining == 0 && !ss[when[at]].accepting && PendingCalls(ss[when[at]]) == {} ==>
              forall j :: when[at] <= j < |ss| && SameProcess(acts, when[at], j) ==> ss[j].active == map[]
  {
    at := 0;
    while at < |polls| - 1 && polls[at] != 0
      invariant 0 <= at < |polls|
      invariant forall k :: 0 <= k < at ==> polls[k] != 0
    {
      at := at + 1;
    }
    remaining := polls[at];
    if remaining == 0 && !ss[when[at]].accepting && PendingCalls(ss[when[at]]) == {} {
      forall j | when[at] <= j < |ss| && SameProcess(acts, when[at], j) ensures ss[j].active == map[] {
        DrainedStaysEmpty(env, ss, acts, when[at], j);
      }
    }
  }

  // Active sessions and unfinished runs.

  ghost predicate Registered(s: State, sid: Sid) {
    sid in s.active ==>
      var t := s.active[sid];
      t in s.threads && s.threads[t].Run? && s.threads[t].sid == sid
  }

  lemma ApplyRegistered(env: Env, s: State, t: Tid, r: Thread, e: Effect, c: Choice)
    requires t in s.threads && s.threads[t] == r && r.Run? && s.next !in s.threads
    requires e.run.Run? && e.run.sid == r.sid && forall sid :: Registered(s, sid)
    ensures forall sid :: Registered(ApplyEffect(env, s, t, r, e, c), sid)
  {
    forall sid ensures Registered(ApplyEffect(env, s, t, r, e, c), sid) {
      assert Registered(s, sid);
    }
  }

  lemma CallRegistered(env: Env, s: State, t: Tid, th: Thread, e: CallEffect)
    requires t in s.threads && s.threads[t] == th && th.Call? && s.next !in s.threads
    requires forall sid :: Registered(s, sid)
    ensures forall sid :: Registered(ApplyCall(env, s, t, th, e), sid)
  {
    forall sid ensures Registered(ApplyCall(env, s, t, th, e), sid) {
      assert Registered(s, sid);
    }
  }

  lemma OtherRegistered(env: Env, s: State, a: Action)
    requires env.Valid() && Enabled(env, s, a) && !a.RunStep? && !a.CallStep? && Numbered(s)
    requires forall sid :: Registered(s, sid)
    ensures forall sid :: Registered(Next(env, s, a), sid)
  {
    forall sid ensures Registered(Next(env, s, a), sid) {
      assert Registered(s, sid);
    }
  }

  lemma StepRegistered(env: Env, s: State, a: Action)
    requires env.Valid() && Enabled(env, s, a) && Numbered(s) && forall sid :: Registered(s, sid)
    ensures forall sid :: Registered(Next(env, s, a), sid)
  {
    if a.RunStep? {
      var r := s.threads[a.t];
      StepRunShape(env, ViewOf(env, s, r), r, a.c);
      ApplyRegistered(env, s, a.t, r, StepRun(env, ViewOf(env, s, r), r, a.c), a.c);
    } else if a.CallStep? {
      CallRegistered(env, s, a.t, s.threads[a.t], StepCall(env, s, s.threads[a.t], a.c));
    } else {
      OtherRegistered(env, s, a);
    }
  }

  /** Every key of `active` belongs to a run that has not finished, whatever the owners and retries. */
  lemma {:induction false} ActiveMeansUnfinished(env: Env, ss: seq<State>, acts: seq<Action>, i: nat)
    requires IsRun(env, ss, acts) && i < |ss|
    ensures forall sid :: Registered(ss[i], sid)
  {
    if i > 0 {
      ActiveMeansUnfinished(env, ss, acts, i - 1);
      AlwaysNumbered(env, ss, acts, i - 1);
      StepRegistered(env, ss[i - 1], acts[i - 1]);
    }
  }

  predicate HasHandedOver(th: Thread) { th.Run? && th.pc == Exiting(HandedOver) }

  /** Runs of one session form a chain: an earlier one has handed over. */
  ghost predicate Ordered(s: State, t: Tid, u: Tid) {
    t in s.threads && u in s.threads && t != u && s.threads[t].Run? && s.threads[u].Run?
      && s.threads[t].sid == s.threads[u].sid
    ==> s.threads[t].number != s.threads[u].number
        && (s.threads[t].number < s.threads[u].number ==> HasHandedOver(s.threads[t]))
  }

  /** A run that has not handed over is in `active` exactly if it is the first of its chain: the retry
      goroutine is never registered. */
  ghost predicate Enrolled(s: State, t: Tid) {
    t in s.threads && s.threads[t].Run? ==>
      && s.threads[t].number >= 1
      && (!HasHandedOver(s.threads[t]) ==>
            (s.threads[t].number == 1 <==> s.threads[t].sid in s.active && s.active[s.threads[t].sid] == t))
  }

  ghost predicate ActiveInv(s: State) {
    && (forall t, u :: Ordered(s, t, u))
    && (forall t :: Enrolled(s, t))
    && (forall sid :: Registered(s, sid))
  }

  lemma ApplyActive(env: Env, s: State, t: Tid, r: Thread, e: Effect, c: Choice)
    requires t in s.threads && s.threads[t] == r && r.Run? && Owns(r) && Numbered(s) && ActiveInv(s)
    requires e.run.Run? && e.run.sid == r.sid && e.run.number == r.number
    requires HasHandedOver(e.run) <==> e.spawn.Some?
    requires e.spawn.Some? ==>
               e.spawn.value.Run? && e.spawn.value.sid == r.sid && e.spawn.value.number == r.number + 1
               && Owns(e.spawn.value)
    ensures ActiveInv(ApplyEffect(env, s, t, r, e, c))
  {
    var q := ApplyEffect(env, s, t, r, e, c);
    ApplyRegistered(env, s, t, r, e, c);
    assert Enrolled(s, t);
    forall u, v ensures Ordered(q, u, v) {
      assert Ordered(s, u, v) && Ordered(s, t, u) && Ordered(s, t, v) && Ordered(s, u, t) && Ordered(s, v, t);
    }
    forall u ensures Enrolled(q, u) {
      assert Enrolled(s, u) && Registered(s, r.sid);
    }
  }

  lemma CallActive(env: Env, s: State, t: Tid, th: Thread, e: CallEffect)
    requires t in s.threads && s.threads[t] == th && th.Call? && Numbered(s) && ActiveInv(s) && SingleOwner(s)
    ensures ActiveInv(ApplyCall(env, s, t, th, e))
  {
    var q := ApplyCall(env, s, t, th, e);
    assert Placed(s, t);
    CallRegistered(env, s, t, th, e);
    forall u, v ensures Ordered(q, u, v) {
      assert Ordered(s, u, v) && Placed(s, u) && Placed(s, v);
    }
    forall u ensures Enrolled(q, u) {
      assert Enrolled(s, u) && Placed(s, u);
    }
  }

  lemma OtherActive(env: Env, s: State, a: Action)
    requires env.Valid() && Enabled(env, s, a) && !a.RunStep? && !a.CallStep? && Numbered(s) && ActiveInv(s)
    ensures ActiveInv(Next(env, s, a))
  {
    var q := Next(env, s, a);
    OtherRegistered(env, s, a);
    forall u, v ensures Ordered(q, u, v) {
      assert Ordered(s, u, v);
    }
    forall u ensures Enrolled(q, u) {
      assert Enrolled(s, u);
      if a.Exit? {
        assert Ordered(s, u, a.t) && Enrolled(s, a.t) && Ordered(s, a.t, u);
      }
    }
  }

  /** A step of a run stays with it, and starts the next run of its chain exactly if it hands over. */
  predicate ChainStep(r: Thread, e: Effect)
    requires r.Run?
  {
    && e.run.Run? && e.run.sid == r.sid && e.run.number == r.number
    && (HasHandedOver(e.run) <==> e.spawn.Some?)
    && (e.spawn.Some? ==> e.spawn.value.Run? && e.spawn.value.sid == r.sid && Owns(e.spawn.value))
    && (e.spawn.Some? ==> e.spawn.value.number == r.number + 1)
  }

  lemma LaunchChain(env: Env, v: View, r: Thread, c: Choice)
    requires r.Run? && InSetup(r.pc)
    ensures ChainStep(r, StepLaunch(env, v, r, c))
  {
  }

  lemma DecideChain(v: View, r: Thread, c: Choice)
    requires r.Run? && InDecision(r.pc)
    ensures ChainStep(r, StepDecide(v, r, c))
  {
  }

  lemma EndChain(v: View, r: Thread, c: Choice)
    requires r.Run? && InEnd(r.pc)
    ensures ChainStep(r, StepEnd(v, r, c))
  {
  }

  lemma StepRunChain(env: Env, v: View, r: Thread, c: Choice)
    requires env.Valid() && r.Run? && !r.pc.Exiting?
    requires r.pc.BackingOff? && c.ok ==> c.noise < env.backoff.jitter
    ensures ChainStep(r, StepRun(env, v, r, c))
  {
    if InSetup(r.pc) {
      LaunchChain(env, v, r, c);
    } else if InDecision(r.pc) {
      DecideChain(v, r, c);
    } else if InEnd(r.pc) {
      EndChain(v, r, c);
    }
  }

  lemma StepActive(env: Env, s: State, a: Action)
    requires env.Valid() && Enabled(env, s, a) && Numbered(s) && SingleOwner(s) && ActiveInv(s)
    ensures ActiveInv(Next(env, s, a))
  {
    match a
    case RunStep(t, c) =>
      var r := s.threads[t];
      StepRunChain(env, ViewOf(env, s, r), r, c);
      ApplyActive(env, s, t, r, StepRun(env, ViewOf(env, s, r), r, c), c);
    case CallStep(t, c) => CallActive(env, s, t, s.threads[t], StepCall(env, s, s.threads[t], c));
    case _ => OtherActive(env, s, a);
  }

  /** With one owner per session: an unfinished run that has not handed over to a retry is in `active`
      if and only if it is the first run of its chain. So without a crash retry `active` holds exactly
      the unfinished runs, and a retry run is invisible to `Drain`. */
  lemma {:induction false} ActiveIsFirstRuns(env: Env, ss: seq<State>, acts: seq<Action>, i: nat)
    requires IsRun(env, ss, acts) && env.Unique() && i < |ss|
    ensures ActiveInv(ss[i])
  {
    if i > 0 {
      ActiveIsFirstRuns(env, ss, acts, i - 1);
      AlwaysNumbered(env, ss, acts, i - 1);
      AlwaysSingleOwner(env, ss, acts, i - 1);
      StepActive(env, ss[i - 1], acts[i - 1]);
    }
  }

  /** Drain and retries, for every reachable state: once the run that started a chain is gone, its retry
      is unfinished and yet not counted by Drain. */
  lemma RetriesAreNotCounted(env: Env, ss: seq<State>, acts: seq<Action>, i: nat, t: Tid)
    requires IsRun(env, ss, acts) && env.Unique() && i < |ss|
    requires t in ss[i].threads && ss[i].threads[t].Run? && ss[i].threads[t].number > 1 && Owns(ss[i].threads[t])
    requires forall u :: u in ss[i].threads && u != t && ss[i].threads[u].Run? ==> ss[i].threads[u].sid != ss[i].threads[t].sid
    ensures ss[i].threads[t].sid !in ss[i].active
  {
    ActiveIsFirstRuns(env, ss, acts, i);
    assert Enrolled(ss[i], t) && Registered(ss[i], ss[i].threads[t].sid);
  }
}
