/** Sandbox conservation: what is provisioned is destroyed exactly once. */
module Sandboxes {
  import opened Lifecycle
  import opened Engine
  import opened Ownership

  /** The program points at which a run holds a sandbox. */
  predicate Holds(pc: RunPc) {
    match pc
    case Starting => false
    case Provisioning => false
    case Failing(thenClean) => thenClean
    case CrashDeciding(_) => false
    case BackingOff(_) => false
    case Exiting(_) => false
    case _ => true
  }

  predicate Grip(th: Thread) { th.Run? ==> (th.box.Some? <==> Holds(th.pc)) }

  /** What one step does with the sandbox: take hold of a new one, give up the one held, or neither. */
  predicate GripStep(r: Thread, c: Choice, e: Effect)
    requires r.Run?
  {
    && e.run.Run? && e.run.sid == r.sid && Grip(e.run)
    && (e.provision ==> r.box.None? && e.run.box == Some(c.box) && r.pc.Provisioning? && c.ok)
    && (e.destroy ==> r.box.Some? && e.run.box.None? && !e.provision)
    && (e.destroy ==> r.pc.Cleaning? || r.pc.CrashCleaning?)
    && (!e.provision && !e.destroy ==> e.run.box == r.box)
    && (e.spawn.Some? ==> e.spawn.value.Run? && e.spawn.value.box.None? && Grip(e.spawn.value))
  }

  lemma LaunchGrip(env: Env, v: View, r: Thread, c: Choice)
    requires r.Run? && InSetup(r.pc) && Grip(r)
    ensures GripStep(r, c, StepLaunch(env, v, r, c))
  {
  }

  lemma ExecuteGrip(r: Thread, c: Choice)
    requires r.Run? && (r.pc.Executing? || r.pc.Returned?) && Grip(r)
    ensures GripStep(r, c, StepExecute(r, c))
  {
  }

  lemma DecideGrip(v: View, r: Thread, c: Choice)
    requires r.Run? && InDecision(r.pc) && Grip(r)
    ensures GripStep(r, c, StepDecide(v, r, c))
  {
  }

  lemma EndGrip(v: View, r: Thread, c: Choice)
    requires r.Run? && InEnd(r.pc) && Grip(r)
    ensures GripStep(r, c, StepEnd(v, r, c))
  {
  }

  lemma CrashGrip(env: Env, v: View, r: Thread, c: Choice)
    requires env.Valid() && r.Run? && InCrash(r.pc) && Grip(r)
    requires r.pc.BackingOff? && c.ok ==> c.noise < env.backoff.jitter
    ensures GripStep(r, c, StepCrash(env, v, r, c))
  {
  }

  lemma StepRunGrip(env: Env, v: View, r: Thread, c: Choice)
    requires env.Valid() && r.Run? && !r.pc.Exiting? && Grip(r)
    requires r.pc.BackingOff? && c.ok ==> c.noise < env.backoff.jitter
    ensures GripStep(r, c, StepRun(env, v, r, c))
  {
    if InSetup(r.pc) {
      LaunchGrip(env, v, r, c);
    } else if Early(r.pc) {
      ExecuteGrip(r, c);
    } else if InCrash(r.pc) {
      CrashGrip(env, v, r, c);
    } else if InDecision(r.pc) {
      DecideGrip(v, r, c);
    } else {
      EndGrip(v, r, c);
    }
  }

  /** A thread's sandbox is its own and has not been destroyed. */
  ghost predicate HoldsOwn(s: State, t: Tid) {
    t in s.threads ==>
      && t < s.next
      && Grip(s.threads[t])
      && (s.threads[t].Run? && s.threads[t].box.Some? ==>
            var b := s.threads[t].box.value;
            && b in s.boxes && s.boxes[b].run == t && s.boxes[b].sid == s.threads[t].sid
            && s.boxes[b].destroys == 0 && !s.boxes[b].lost)
  }

  predicate IsHeld(s: State, b: Box)
    requires b in s.boxes
  {
    var t := s.boxes[b].run;
    t in s.threads && s.threads[t].Run? && s.threads[t].box == Some(b)
  }

  /** A sandbox is destroyed at most once, and if its run no longer holds it, exactly once, unless the
      whole process died first. When Destroy and reaping succeed, only held sandboxes are live. */
  ghost predicate Kept(env: Env, s: State, b: Box) {
    b in s.boxes ==>
      && s.boxes[b].run < s.next
      && s.boxes[b].destroys <= 1
      && (s.boxes[b].destroys == 0 && !s.boxes[b].lost ==> IsHeld(s, b))
      && (s.boxes[b].destroys == 0 && !s.boxes[b].lost ==> s.boxes[b].live)
      && (env.destroyOk && s.boxes[b].live ==> s.boxes[b].destroys == 0 && !s.boxes[b].lost)
  }

  ghost predicate Conserved(env: Env, s: State) {
    && (forall t :: HoldsOwn(s, t))
    && (forall b :: Kept(env, s, b))
  }

  lemma ApplyConserved(env: Env, s: State, t: Tid, r: Thread, e: Effect, c: Choice)
    requires t in s.threads && s.threads[t] == r && r.Run? && Conserved(env, s) && s.next !in s.threads
    requires GripStep(r, c, e)
    requires e.provision ==> c.box !in s.boxes
    requires e.destroy && env.destroyOk ==> c.ok
    ensures Conserved(env, ApplyEffect(env, s, t, r, e, c))
  {
    var q := ApplyEffect(env, s, t, r, e, c);
    assert HoldsOwn(s, t);
    forall u ensures HoldsOwn(q, u) {
      assert HoldsOwn(s, u);
    }
    forall b ensures Kept(env, q, b) {
      assert Kept(env, s, b);
    }
  }

  lemma CallConserved(env: Env, s: State, t: Tid, th: Thread, e: CallEffect)
    requires t in s.threads && s.threads[t] == th && th.Call? && Conserved(env, s)
    ensures Conserved(env, ApplyCall(env, s, t, th, e))
  {
    var q := ApplyCall(env, s, t, th, e);
    assert HoldsOwn(s, s.next) && HoldsOwn(s, t);
    forall u ensures HoldsOwn(q, u) {
      assert HoldsOwn(s, u);
    }
    forall b ensures Kept(env, q, b) {
      assert Kept(env, s, b);
    }
  }

  lemma RebootConserved(env: Env, s: State, reaped: set<Box>)
    requires env.Valid() && Enabled(env, s, Reboot(reaped)) && Conserved(env, s)
    ensures Conserved(env, Restart(s, reaped))
  {
    var q := Restart(s, reaped);
    forall b ensures Kept(env, q, b) {
      assert Kept(env, s, b);
    }
  }

  lemma OtherConserved(env: Env, s: State, a: Action)
    requires env.Valid() && Enabled(env, s, a) && Conserved(env, s)
    requires !a.RunStep? && !a.CallStep? && !a.Reboot?
    ensures Conserved(env, Next(env, s, a))
  {
    var q := Next(env, s, a);
    assert HoldsOwn(s, s.next);
    forall u ensures HoldsOwn(q, u) {
      assert HoldsOwn(s, u);
    }
    forall b ensures Kept(env, q, b) {
      assert Kept(env, s, b);
      if b in s.boxes {
        assert HoldsOwn(s, s.boxes[b].run);
      }
    }
  }

  lemma StepConserved(env: Env, s: State, a: Action)
    requires env.Valid() && Enabled(env, s, a) && Conserved(env, s)
    ensures Conserved(env, Next(env, s, a))
  {
    match a
    case RunStep(t, c) =>
      var r := s.threads[t];
      assert HoldsOwn(s, t) && HoldsOwn(s, s.next);
      StepRunGrip(env, ViewOf(env, s, r), r, c);
      ApplyConserved(env, s, t, r, StepRun(env, ViewOf(env, s, r), r, c), c);
    case CallStep(t, c) => CallConserved(env, s, t, s.threads[t], StepCall(env, s, s.threads[t], c));
    case Reboot(reaped) => RebootConserved(env, s, reaped);
    case _ => OtherConserved(env, s, a);
  }

  lemma {:induction false} AlwaysConserved(env: Env, ss: seq<State>, acts: seq<Action>, i: nat)
    requires IsRun(env, ss, acts) && i < |ss|
    ensures Conserved(env, ss[i])
  {
    if i > 0 {
      AlwaysConserved(env, ss, acts, i - 1);
      StepConserved(env, ss[i - 1], acts[i - 1]);
    }
  }

  /** Every successful Provision gets exactly one Destroy call by the time its run has ended or handed
      over to a retry, on every path through `runAgent` and `handleCrash`, and never a second one; only
      the death of the process can come in between. No assumption on owners, bus, store or sandbox. */
  lemma DestroyedExactlyOnce(env: Env, ss: seq<State>, acts: seq<Action>, i: nat, b: Box)
    requires IsRun(env, ss, acts) && i < |ss| && b in ss[i].boxes
    ensures ss[i].boxes[b].destroys <= 1
    ensures !ss[i].boxes[b].lost && !IsHeld(ss[i], b) ==> ss[i].boxes[b].destroys == 1
    ensures IsHeld(ss[i], b) ==>
              ss[i].boxes[b].destroys == 0 && Holds(ss[i].threads[ss[i].boxes[b].run].pc)
  {
    AlwaysConserved(env, ss, acts, i);
    assert Kept(env, ss[i], b) && HoldsOwn(ss[i], ss[i].boxes[b].run);
  }

  /** A run holds no sandbox once it is deciding about a retry, so the dead sandbox's Destroy comes
      before the retry is launched. */
  lemma DestroyPrecedesRetry(env: Env, ss: seq<State>, acts: seq<Action>, i: nat, t: Tid, b: Box)
    requires IsRun(env, ss, acts) && i < |ss| && t in ss[i].threads && ss[i].threads[t].Run?
    requires var pc := ss[i].threads[t].pc;
             pc.CrashDeciding? || pc.BackingOff? || pc == Exiting(HandedOver)
    requires b in ss[i].boxes && ss[i].boxes[b].run == t && !ss[i].boxes[b].lost
    ensures ss[i].boxes[b].destroys == 1
  {
    DestroyedExactlyOnce(env, ss, acts, i, b);
    AlwaysConserved(env, ss, acts, i);
    assert HoldsOwn(ss[i], t);
  }

  /** When Destroy and reaping succeed, a session with one owner never has two live sandboxes. */
  lemma OneLiveSandbox(env: Env, ss: seq<State>, acts: seq<Action>, i: nat, b1: Box, b2: Box)
    requires IsRun(env, ss, acts) && env.Unique() && env.destroyOk && i < |ss|
    requires b1 in ss[i].boxes && b2 in ss[i].boxes && ss[i].boxes[b1].live && ss[i].boxes[b2].live
    requires ss[i].boxes[b1].sid == ss[i].boxes[b2].sid
    ensures b1 == b2
  {
    var s := ss[i];
    AlwaysConserved(env, ss, acts, i);
    AlwaysSingleOwner(env, ss, acts, i);
    var t1, t2 := s.boxes[b1].run, s.boxes[b2].run;
    assert Kept(env, s, b1) && Kept(env, s, b2);
    assert HoldsOwn(s, t1) && HoldsOwn(s, t2);
    assert Apart(s, t1, t2);
  }

  /** The container of a sandbox is there from its provisioning on, and goes with a Destroy call that succeeds. */
  lemma LiveWhileHeld(env: Env, ss: seq<State>, acts: seq<Action>, i: nat, b: Box)
    requires IsRun(env, ss, acts) && i < |ss| && b in ss[i].boxes
    ensures IsHeld(ss[i], b) ==> ss[i].boxes[b].live
    ensures env.destroyOk ==> (ss[i].boxes[b].live <==> IsHeld(ss[i], b))
  {
    AlwaysConserved(env, ss, acts, i);
    assert Kept(env, ss[i], b) && HoldsOwn(ss[i], ss[i].boxes[b].run);
  }

  lemma DestroyRemoves(env: Env, ss: seq<State>, acts: seq<Action>, i: nat, t: Tid, c: Choice)
    requires IsRun(env, ss, acts) && i < |acts| && acts[i] == RunStep(t, c)
    requires ss[i].threads[t].pc.Cleaning? || ss[i].threads[t].pc.CrashCleaning?
    ensures ss[i].threads[t].box.Some?
    ensures var b := ss[i].threads[t].box.value;
            && b in ss[i].boxes && b in ss[i + 1].boxes && ss[i].boxes[b].live
            && ss[i + 1].boxes[b].destroys == 1 && (ss[i + 1].boxes[b].live <==> !c.ok)
  {
    AlwaysConserved(env, ss, acts, i);
    assert HoldsOwn(ss[i], t);
    assert Kept(env, ss[i], ss[i].threads[t].box.value);
  }

  /** What a provisioning that succeeds leaves: a live sandbox of this run and session. */
  lemma ProvisionAdds(env: Env, ss: seq<State>, acts: seq<Action>, i: nat, t: Tid, c: Choice)
    requires IsRun(env, ss, acts) && i < |acts| && acts[i] == RunStep(t, c) && ss[i].threads[t].pc.Provisioning?
    ensures c.ok ==> c.box !in ss[i].boxes && ss[i + 1].boxes == ss[i].boxes[c.box := Sandbox(t, ss[i].threads[t].sid, 0, true, false)]
    ensures !c.ok ==> ss[i + 1].boxes == ss[i].boxes
  {
    AlwaysConserved(env, ss, acts, i);
    assert HoldsOwn(ss[i], t);
  }
}
