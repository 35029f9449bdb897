/** The consecutive-failure detector of `monitorHeartbeat` (internal/coordinator/coordinator.go). */
module Heartbeat {
  import opened Lifecycle

  /** How many consecutive failed heartbeats are tolerated, as computed before the loop. */
  function MaxFailures(timeout: int, interval: int): (n: nat)
    requires interval > 0
    ensures n >= 1
    ensures timeout >= interval ==> timeout - interval < n * interval <= timeout
    ensures timeout < interval ==> n == 3
  {
    // Go's division truncates toward zero, so a negative timeout yields at most zero.
    var quotient := if timeout >= 0 then timeout / interval else 0;
    if quotient < 1 then 3 else quotient
  }

  /** Ticks t-n+1 .. t all failed (`true` is a successful heartbeat). */
  ghost predicate LostAt(ticks: seq<bool>, n: nat, t: int) {
    && n <= t + 1 && 0 <= t < |ticks|
    && forall i :: t + 1 - n <= i <= t ==> !ticks[i]
  }

  /** Runs the loop over a trace of heartbeat outcomes; a trace that ends is a cancelled context.
      A crash is declared at the first tick that ends a run of `maxFailures` failures, and then the
      loop returns, so it is declared at most once. */
  method Monitor(ticks: seq<bool>, maxFailures: nat) returns (declared: Option<nat>)
    requires maxFailures >= 1
    ensures declared.Some? ==>
              LostAt(ticks, maxFailures, declared.value)
              && forall t :: 0 <= t < declared.value ==> !LostAt(ticks, maxFailures, t)
    ensures declared.None? <==> forall t :: !LostAt(ticks, maxFailures, t)
  {
    var consecutiveFailures := 0;
    var t := 0;
    while t < |ticks|
      invariant 0 <= t <= |ticks| && consecutiveFailures < maxFailures && consecutiveFailures <= t
      invariant forall i :: t - consecutiveFailures <= i < t ==> !ticks[i]
      invariant consecutiveFailures < t ==> ticks[t - consecutiveFailures - 1]
      invariant forall u :: u < t ==> !LostAt(ticks, maxFailures, u)
    {
      if !ticks[t] {
        consecutiveFailures := consecutiveFailures + 1;
        if consecutiveFailures >= maxFailures {
          assert LostAt(ticks, maxFailures, t);
          return Some(t);
        }
      } else {
        consecutiveFailures := 0;
      }
      t := t + 1;
    }
    return None;
  }
}
