/** The coordinator's shared fields and the critical sections that guard them, each proved to do to
    those fields what the engine's step does (internal/coordinator/coordinator.go). */
module Coordinator {
  import E = Engine
  import Backoff
  import Heartbeat
  import Policies

  datatype Settings = Settings(
    maxConcurrent: int, heartbeatInterval: int, heartbeatTimeout: int, maxRetries: int, backoff: Backoff.Backoff)

  /** The clamps of `New`; an interval of zero disables the monitor. */
  function Clamp(raw: Settings): (c: Settings)
    ensures c.maxConcurrent >= 1 && c.maxRetries >= 1 && c.heartbeatInterval >= 0 && c.heartbeatTimeout > 0
    ensures c.backoff.Valid()
    ensures raw.maxConcurrent >= 1 ==> c.maxConcurrent == raw.maxConcurrent
    ensures raw.maxRetries >= 1 ==> c.maxRetries == raw.maxRetries
    ensures raw.maxConcurrent < 1 ==> c.maxConcurrent == 1
    ensures raw.maxRetries < 1 ==> c.maxRetries == 3
    ensures c.heartbeatInterval == raw.heartbeatInterval || (raw.heartbeatInterval < 0 && c.heartbeatInterval == 0)
    ensures c.heartbeatTimeout == raw.heartbeatTimeout || (raw.heartbeatTimeout <= 0 && c.heartbeatTimeout == 60 * 1_000_000_000)
    ensures raw.backoff.Valid() ==> c.backoff == raw.backoff
  {
    Settings(
      if raw.maxConcurrent <= 0 then 1 else raw.maxConcurrent,
      if raw.heartbeatInterval <= 0 then 0 else raw.heartbeatInterval,
      if raw.heartbeatTimeout <= 0 then 60_000_000_000 else raw.heartbeatTimeout,
      if raw.maxRetries <= 0 then 3 else raw.maxRetries,
      Backoff.Clamp(raw.backoff))
  }

  /** The engine configuration of a coordinator made from any settings is a valid one. */
  function EnvOf(raw: Settings, hasStore: bool, uniqueIds: bool, busOk: bool, destroyOk: bool,
                 pats: Policies.Patterns, policies: seq<Policies.Policy>): (env: E.Env)
    ensures env.Valid()
    ensures env.hasStore == hasStore && env.uniqueIds == uniqueIds && env.busOk == busOk && env.destroyOk == destroyOk
    ensures env.maxConcurrent == Clamp(raw).maxConcurrent && env.maxRetries == Clamp(raw).maxRetries
    ensures env.backoff == Clamp(raw).backoff && env.pats == pats && env.policies == policies
    ensures env.heartbeats <==> raw.heartbeatInterval > 0
    ensures env.heartbeats ==> env.maxFailures == Heartbeat.MaxFailures(Clamp(raw).heartbeatTimeout, raw.heartbeatInterval)
  {
    var c := Clamp(raw);
    E.Env(hasStore, uniqueIds, busOk, destroyOk, c.maxConcurrent, c.maxRetries, c.heartbeatInterval > 0,
          if c.heartbeatInterval > 0 then Heartbeat.MaxFailures(c.heartbeatTimeout, c.heartbeatInterval) else 1,
          c.backoff, pats, policies)
  }

  /** What the engine's crash step does to the shared fields. */
  lemma CrashStep(env: E.Env, s: E.State, t: E.Tid, c: E.Choice)
    requires env.Valid() && E.Enabled(env, s, E.RunStep(t, c)) && s.threads[t].pc.Crashed?
    ensures var q, sid := E.Next(env, s, E.RunStep(t, c)), s.threads[t].sid;
            && q.active == s.active && q.accepting == s.accepting
            && q.attempts == s.attempts[sid := E.AttemptsOf(s, sid) + 1]
            && t in q.threads && q.threads[t].Run? && q.threads[t].pc == E.CrashCleaning(E.AttemptsOf(s, sid) + 1)
  {
  }

  class Coordinator {
    const maxConcurrent: nat
    var active: map<E.Sid, E.Tid>      // session id -> the run whose cancel function is registered
    var accepting: bool
    var attempts: map<E.Sid, nat>      // sessionAttempts

    ghost predicate Mirrors(s: E.State)
      reads this
    {
      active == s.active && accepting == s.accepting && attempts == s.attempts
    }

    constructor (raw: Settings)
      ensures maxConcurrent == Clamp(raw).maxConcurrent && Mirrors(E.INIT)
    {
      maxConcurrent := Clamp(raw).maxConcurrent;
      active := map[];
      accepting := true;
      attempts := map[];
    }

    /** The limit check of `startTask` and `ResumeSession`. */
    method MayStart(ghost env: E.Env, ghost s: E.State) returns (ok: bool)
      requires Mirrors(s) && env.maxConcurrent == maxConcurrent
      ensures ok <==> E.MayAdmit(env, s)
      ensures ok <==> accepting && |active| < maxConcurrent
    {
      if !accepting {
        return false;
      }
      if |active| >= maxConcurrent {
        return false;
      }
      return true;
    }

    /** Registration of the cancel function, after the tools are resolved. */
    method Register(sid: E.Sid, run: E.Tid, ghost env: E.Env, ghost s: E.State, ghost t: E.Tid, ghost c: E.Choice)
      requires env.Valid() && Mirrors(s) && run == s.next && E.Enabled(env, s, E.CallStep(t, c))
      requires s.threads[t].sid == sid && s.threads[t].at == E.Resolving && c.ok
      modifies this`active
      ensures Mirrors(E.Next(env, s, E.CallStep(t, c)))
      ensures active == old(active)[sid := run]
    {
      active := active[sid := run];
    }

    /** The deferred delete of `runAgent`. */
    method Unregister(sid: E.Sid, ghost env: E.Env, ghost s: E.State, ghost t: E.Tid)
      requires env.Valid() && Mirrors(s) && E.Enabled(env, s, E.Exit(t)) && s.threads[t].sid == sid
      modifies this`active
      ensures Mirrors(E.Next(env, s, E.Exit(t)))
      ensures active == old(active) - {sid}
    {
      active := active - {sid};
    }

    /** The attempt count at the head of `handleCrash`. */
    method CountCrash(sid: E.Sid, ghost env: E.Env, ghost s: E.State, ghost t: E.Tid, ghost c: E.Choice)
      returns (attempt: nat)
      requires env.Valid() && Mirrors(s) && E.Enabled(env, s, E.RunStep(t, c))
      requires s.threads[t].sid == sid && s.threads[t].pc.Crashed?
      modifies this`attempts
      ensures Mirrors(E.Next(env, s, E.RunStep(t, c)))
      ensures attempt == (if sid in old(attempts) then old(attempts)[sid] + 1 else 1) && attempts == old(attempts)[sid := attempt]
      ensures attempt > 0 && E.Next(env, s, E.RunStep(t, c)).threads[t].pc == E.CrashCleaning(attempt)
    {
      CrashStep(env, s, t, c);
      attempts := attempts[sid := if sid in attempts then attempts[sid] + 1 else 1];
      attempt := attempts[sid];
    }

    method StopAccepting(ghost env: E.Env, ghost s: E.State)
      requires env.Valid() && Mirrors(s)
      modifies this`accepting
      ensures Mirrors(E.Next(env, s, E.StopAccepting)) && !accepting
    {
      accepting := false;
    }

    method ActiveCount(ghost s: E.State) returns (n: nat)
      requires Mirrors(s)
      ensures n == |s.active|
    {
      n := |active|;
    }
  }
}
