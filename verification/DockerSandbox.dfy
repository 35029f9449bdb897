/** The bookkeeping of provisioned containers, and the reaping of orphans after a restart
    (internal/sandbox/docker.go, `ReapOrphanedContainers` in internal/coordinator/coordinator.go). */
module DockerSandbox {

  type Name = string
  type Container = string

  /** Where `Provision` fails, if it does. */
  datatype Provisioning = NoImage | CreateFails | StartFails(removed: bool) | MkdirFails(removed: bool) | Succeeds

  /** The daemon made a container, whatever came after. */
  predicate Creates(outcome: Provisioning) { !outcome.NoImage? && !outcome.CreateFails? }

  class DockerSandbox {
    var containers: map<Name, Container>     // sandbox name -> container
    ghost var running: set<Container>        // what the daemon has

    /** Every sandbox in the map has a container of its own. */
    ghost predicate Valid()
      reads this
    {
      && (forall n :: n in containers ==> containers[n] in running)
      && (forall n, m :: n in containers && m in containers && containers[n] == containers[m] ==> n == m)
    }

    constructor ()
      ensures Valid() && containers == map[] && running == {}
    {
      containers := map[];
      running := {};
    }

    /** On success the new sandbox is in the map; on failure the map is unchanged, and a container is
        left behind only if its forced removal failed too. The daemon never creates a container under
        an id in use or under the name of another one. */
    method Provision(name: Name, id: Container, outcome: Provisioning) returns (ok: bool)
      requires Valid() && (Creates(outcome) ==> name !in containers && id !in running)
      modifies this
      ensures Valid() && (ok <==> outcome.Succeeds?)
      ensures containers == if ok then old(containers)[name := id] else old(containers)
      ensures old(running) <= running <= old(running) + {id}
      ensures id in running && id !in old(running) <==>
                ok || ((outcome.StartFails? || outcome.MkdirFails?) && !outcome.removed)
    {
      if !Creates(outcome) {
        return false;
      }
      running := running + {id};
      if outcome.StartFails? || outcome.MkdirFails? {
        if outcome.removed {
          running := running - {id};
        }
        return false;
      }
      containers := containers[name := id];
      return true;
    }

    /** Destroy succeeds exactly on a known sandbox whose container can be removed, and then forgets it,
        so that of any number of calls at most one succeeds. */
    method Destroy(name: Name, removes: bool) returns (ok: bool)
      requires Valid()
      modifies this
      ensures Valid() && (ok <==> name in old(containers) && removes)
      ensures containers == if ok then old(containers) - {name} else old(containers)
      ensures running == if ok then old(running) - {old(containers)[name]} else old(running)
    {
      if name !in containers {
        return false;
      }
      if !removes {
        return false;
      }
      running := running - {containers[name]};
      containers := containers - {name};
      return true;
    }
  }

  // Reaping.

  predicate HasPrefix(s: string, p: string) { p <= s }

  const LISTED := "/foreman-sbox-"

  /** Whether the reaper removes a listed container, given the ids it treats as active. */
  predicate Reaps(listed: string, protected: set<string>) {
    HasPrefix(listed, LISTED) && listed[1..] !in protected
  }

  /** The reaping loop over the names of all containers. */
  method Reap(names: seq<string>, protected: set<string>) returns (removed: seq<string>)
    ensures forall n :: n in removed <==> n in names && Reaps(n, protected)
    ensures forall n :: n in removed <==> n in names && "/foreman-sbox-" <= n && n[1..] !in protected
  {
    removed := [];
    for i := 0 to |names|
      invariant forall n :: n in removed <==> n in names[..i] && Reaps(n, protected)
    {
      assert names[..i + 1] == names[..i] + [names[i]];
      if HasPrefix(names[i], LISTED) {
        var name := names[i][1..];
        if name !in protected {
          removed := removed + [names[i]];
        }
      }
    }
    assert names[..|names|] == names;
  }

  /** `SubmitTask` derives every session id from a task id. */
  function SessionId(taskID: string): string { "ses_" + taskID }

  /** The set of recovered session ids that `Bootstrap` hands to the reaper protects no container: a
      container is named after its sandbox, never after its session, so every orphan is removed. */
  lemma ReaperSparesNothing(listed: string, tasks: set<string>)
    ensures Reaps(listed, set task | task in tasks :: SessionId(task)) <==> "/foreman-sbox-" <= listed
  {
    if HasPrefix(listed, LISTED) {
      assert listed[1..][0] == LISTED[1] == 'f';
      forall task | task in tasks ensures SessionId(task) != listed[1..] {
        assert SessionId(task)[0] == 's';
      }
    }
  }
}
