/** Building runs of the engine, and the run that meets the admission bound. */
module Witnesses {
  import opened Lifecycle
  import opened Engine
  import opened History
  import opened Admission
  import P = Plane

  /** A run in which never more than `k` calls are between the limit check and the registration. */
  ghost predicate Bounded(env: Env, ss: seq<State>, acts: seq<Action>, k: nat) {
    IsRun(env, ss, acts) && NeverMorePending(ss, k)
  }

  function Final(ss: seq<State>): State
    requires ss != []
  {
    ss[|ss| - 1]
  }

  lemma Extend(env: Env, ss: seq<State>, acts: seq<Action>, k: nat, a: Action) returns (ss': seq<State>, acts': seq<Action>)
    requires Bounded(env, ss, acts, k) && Enabled(env, Final(ss), a)
    requires |PendingCalls(Next(env, Final(ss), a))| <= k
    ensures Bounded(env, ss', acts', k) && Final(ss') == Next(env, Final(ss), a)
  {
    ss', acts' := ss + [Next(env, Final(ss), a)], acts + [a];
    forall i | 0 <= i < |acts'| ensures Enabled(env, ss'[i], acts'[i]) && ss'[i + 1] == Next(env, ss'[i], acts'[i]) {
      if i < |acts| {
        assert ss'[i] == ss[i] && ss'[i + 1] == ss[i + 1] && acts'[i] == acts[i];
      }
    }
    forall j | 0 <= j < |ss'| ensures |PendingCalls(ss'[j])| <= k {
      if j < |ss| {
        assert ss'[j] == ss[j];
      }
    }
  }

  const GOOD := Choice(true, true, true, ExecError, 0, Reply, 0)

  predicate MaySubmit(env: Env, s: State, sid: Sid) {
    (env.hasStore ==> sid !in s.plane.rows) && (!env.hasStore && env.uniqueIds ==> sid !in s.plane.mem)
  }

  /** What a successful submission does to the names in use. */
  ghost predicate NamesGrow(s: State, q: State, sid: Sid) {
    && q.plane.mem.Keys == s.plane.mem.Keys + {sid}
    && q.plane.rows.Keys <= s.plane.rows.Keys + {sid}
    && q.accepting == s.accepting && q.boxes == s.boxes && q.attempts == s.attempts && q.abandoned == s.abandoned
    && q.stranded == s.stranded
    && q.todo == s.todo
  }

  /** From `base`, a submission of `sid` has come as far as `at`. */
  ghost predicate CallAt(base: State, s: State, sid: Sid, at: CallPc, status: Status) {
    && base.next !in base.threads
    && s.threads == base.threads[base.next := Call(sid, false, at)] && s.next == base.next + 1
    && s.active == base.active && s.starts == base.starts && NamesGrow(base, s, sid)
    && s.plane.mem[sid] == status
  }

  lemma CallAtPending(base: State, s: State, sid: Sid, at: CallPc, status: Status)
    requires CallAt(base, s, sid, at, status)
    ensures PendingCalls(s) == if at == Admitted || at == Resolving then PendingCalls(base) + {base.next} else PendingCalls(base)
  {
  }

  lemma SubmitStep(env: Env, s: State, sid: Sid)
    requires env.Valid() && MaySubmit(env, s, sid) && s.next !in s.threads
    ensures Enabled(env, s, Submit(sid, P.Inserted))
    ensures CallAt(s, Next(env, s, Submit(sid, P.Inserted)), sid, Emitting, Created)
  {
  }

  lemma EmitStep(env: Env, base: State, s: State, sid: Sid)
    requires env.Valid() && CallAt(base, s, sid, Emitting, Created)
    ensures Enabled(env, s, CallStep(base.next, GOOD))
    ensures CallAt(base, Next(env, s, CallStep(base.next, GOOD)), sid, Checking, Created)
  {
  }

  lemma CheckStep(env: Env, base: State, s: State, sid: Sid)
    requires env.Valid() && CallAt(base, s, sid, Checking, Created) && MayAdmit(env, base)
    ensures Enabled(env, s, CallStep(base.next, GOOD))
    ensures CallAt(base, Next(env, s, CallStep(base.next, GOOD)), sid, Admitted, Created)
  {
  }

  lemma AllocateStep(env: Env, base: State, s: State, sid: Sid)
    requires env.Valid() && CallAt(base, s, sid, Admitted, Created)
    ensures Enabled(env, s, CallStep(base.next, GOOD))
    ensures CallAt(base, Next(env, s, CallStep(base.next, GOOD)), sid, Resolving, Allocating)
  {
  }

  /** From `base`, a submission of `sid` has been launched. */
  ghost predicate LaunchedFrom(base: State, s: State, sid: Sid) {
    && s.threads == base.threads[base.next + 1 := FirstRun(sid)] && s.next == base.next + 2
    && s.active == base.active[sid := base.next + 1] && NamesGrow(base, s, sid)
    && s.plane.mem[sid] == Allocating && s.starts == base.starts[sid := StartsOf(base, sid) + 1]
  }

  lemma RegisterThreads(base: map<Tid, Thread>, t: Tid, call: Thread, run: Thread)
    requires t !in base
    ensures (base[t := call] - {t})[t + 1 := run] == base[t + 1 := run]
  {
    assert base[t := call] - {t} == base;
  }

  lemma RegisterStep(env: Env, base: State, s: State, sid: Sid)
    requires env.Valid() && CallAt(base, s, sid, Resolving, Allocating) && base.next + 1 !in base.threads
    ensures Enabled(env, s, CallStep(base.next, GOOD))
    ensures LaunchedFrom(base, Next(env, s, CallStep(base.next, GOOD)), sid)
  {
    var th := Call(sid, false, Resolving);
    RegisterThreads(base.threads, base.next, th, FirstRun(sid));
    var q := Next(env, s, CallStep(base.next, GOOD));
    assert q == ApplyCall(env, s, base.next, th, CallEffect(None, None, true));
  }

  lemma LaunchedPending(base: State, s: State, sid: Sid)
    requires LaunchedFrom(base, s, sid) && base.next + 1 !in base.threads
    ensures PendingCalls(s) == PendingCalls(base)
  {
  }

  /** A submission up to and through the limit check, in any state that admits it. */
  lemma AdmitOne(env: Env, ss: seq<State>, acts: seq<Action>, k: nat, sid: Sid) returns (ss': seq<State>, acts': seq<Action>)
    requires Bounded(env, ss, acts, k) && Numbered(Final(ss)) && |PendingCalls(Final(ss))| < k
    requires MaySubmit(env, Final(ss), sid) && MayAdmit(env, Final(ss))
    ensures Bounded(env, ss', acts', k) && Numbered(Final(ss'))
    ensures CallAt(Final(ss), Final(ss'), sid, Admitted, Created)
  {
    var s := Final(ss);
    SubmitStep(env, s, sid);
    ss', acts' := Go(env, ss, acts, k, s, Submit(sid, P.Inserted), sid, Emitting, Created);
    EmitStep(env, s, Final(ss'), sid);
    ss', acts' := Go(env, ss', acts', k, s, CallStep(s.next, GOOD), sid, Checking, Created);
    CheckStep(env, s, Final(ss'), sid);
    ss', acts' := Go(env, ss', acts', k, s, CallStep(s.next, GOOD), sid, Admitted, Created);
  }

  lemma Go(env: Env, ss: seq<State>, acts: seq<Action>, k: nat, base: State, a: Action, sid: Sid, at: CallPc, status: Status)
    returns (ss': seq<State>, acts': seq<Action>)
    requires Bounded(env, ss, acts, k) && Numbered(Final(ss)) && |PendingCalls(base)| < k
    requires Enabled(env, Final(ss), a) && CallAt(base, Next(env, Final(ss), a), sid, at, status)
    ensures Bounded(env, ss', acts', k) && Numbered(Final(ss')) && CallAt(base, Final(ss'), sid, at, status)
  {
    CallAtPending(base, Next(env, Final(ss), a), sid, at, status);
    StepNumbered(env, Final(ss), a);
    ss', acts' := Extend(env, ss, acts, k, a);
  }

  /** The same up to the point where only the registration is left. */
  lemma ResolveOne(env: Env, ss: seq<State>, acts: seq<Action>, k: nat, sid: Sid) returns (ss': seq<State>, acts': seq<Action>)
    requires Bounded(env, ss, acts, k) && Numbered(Final(ss)) && |PendingCalls(Final(ss))| < k
    requires MaySubmit(env, Final(ss), sid) && MayAdmit(env, Final(ss))
    ensures Bounded(env, ss', acts', k) && Numbered(Final(ss'))
    ensures CallAt(Final(ss), Final(ss'), sid, Resolving, Allocating)
  {
    var s := Final(ss);
    ss', acts' := AdmitOne(env, ss, acts, k, sid);
    AllocateStep(env, s, Final(ss'), sid);
    ss', acts' := Go(env, ss', acts', k, s, CallStep(s.next, GOOD), sid, Resolving, Allocating);
  }

  /** The agent goroutine is registered and launched. */
  lemma RegisterOne(env: Env, ss: seq<State>, acts: seq<Action>, k: nat, base: State, sid: Sid)
    returns (ss': seq<State>, acts': seq<Action>)
    requires Bounded(env, ss, acts, k) && Numbered(base) && Numbered(Final(ss)) && |PendingCalls(base)| <= k
    requires CallAt(base, Final(ss), sid, Resolving, Allocating)
    ensures Bounded(env, ss', acts', k) && Numbered(Final(ss'))
    ensures LaunchedFrom(base, Final(ss'), sid) && PendingCalls(Final(ss')) == PendingCalls(base)
  {
    RegisterStep(env, base, Final(ss), sid);
    LaunchedPending(base, Next(env, Final(ss), CallStep(base.next, GOOD)), sid);
    StepNumbered(env, Final(ss), CallStep(base.next, GOOD));
    ss', acts' := Extend(env, ss, acts, k, CallStep(base.next, GOOD));
  }

  /** A whole submission. */
  lemma LaunchOne(env: Env, ss: seq<State>, acts: seq<Action>, k: nat, sid: Sid) returns (ss': seq<State>, acts': seq<Action>)
    requires Bounded(env, ss, acts, k) && Numbered(Final(ss)) && |PendingCalls(Final(ss))| < k
    requires MaySubmit(env, Final(ss), sid) && MayAdmit(env, Final(ss))
    ensures Bounded(env, ss', acts', k) && Numbered(Final(ss'))
    ensures LaunchedFrom(Final(ss), Final(ss'), sid) && PendingCalls(Final(ss')) == PendingCalls(Final(ss))
  {
    ss', acts' := ResolveOne(env, ss, acts, k, sid);
    ss', acts' := RegisterOne(env, ss', acts', k, Final(ss), sid);
  }

  // The admission bound is met.

  function Name(n: nat): Sid { seq(n, _ => 'a') }

  /** All names in use are shorter than `n`. */
  ghost predicate NamesBelow(s: State, n: nat) {
    forall x :: x in s.plane.mem || x in s.plane.rows || x in s.active ==> |x| < n
  }

  lemma {:induction false} Fill(env: Env, k: nat, n: nat) returns (ss: seq<State>, acts: seq<Action>)
    requires env.Valid() && k >= 1 && n <= env.maxConcurrent - 1
    ensures Bounded(env, ss, acts, k) && Numbered(Final(ss)) && NamesBelow(Final(ss), n)
    ensures |Final(ss).active| == n && Final(ss).accepting && PendingCalls(Final(ss)) == {}
  {
    if n == 0 {
      ss, acts := [INIT], [];
      assert PendingCalls(INIT) == {};
    } else {
      ss, acts := Fill(env, k, n - 1);
      var s := Final(ss);
      ss, acts := LaunchOne(env, ss, acts, k, Name(n - 1));
      assert Final(ss).active.Keys == s.active.Keys + {Name(n - 1)};
    }
  }

  lemma {:induction false} Crowd(env: Env, k: nat, m: nat) returns (ss: seq<State>, acts: seq<Action>)
    requires env.Valid() && k >= 1 && m <= k
    ensures Bounded(env, ss, acts, k) && Numbered(Final(ss)) && NamesBelow(Final(ss), env.maxConcurrent + m)
    ensures |Final(ss).active| == env.maxConcurrent - 1 && Final(ss).accepting && |PendingCalls(Final(ss))| == m
  {
    if m == 0 {
      ss, acts := Fill(env, k, env.maxConcurrent - 1);
    } else {
      ss, acts := Crowd(env, k, m - 1);
      var s, name := Final(ss), Name(env.maxConcurrent + m - 1);
      ss, acts := AdmitOne(env, ss, acts, k, name);
      CallAtPending(s, Final(ss), name, Admitted, Created);
    }
  }

  /** For every limit and every k there is a run, with never more than k calls pending, that reaches
      |active| + pending = maxConcurrent - 1 + k: the admission bound cannot be improved, and with two
      admissions at once the limit itself is exceeded. */
  lemma AdmissionBoundIsTight(env: Env, k: nat) returns (ss: seq<State>, acts: seq<Action>)
    requires env.Valid() && k >= 1
    ensures Bounded(env, ss, acts, k)
    ensures Load(Final(ss)) == env.maxConcurrent - 1 + k
  {
    ss, acts := Crowd(env, k, k);
  }
}
