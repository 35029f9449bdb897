/** The session statuses, the transition table and the events that announce a status
    (internal/controlplane/session.go, internal/schemas/event.go). */
module Lifecycle {

  datatype Option<+T> = None | Some(value: T)

  datatype Status = Created | Allocating | Running | Approval | Cancelling | Completed | Failed

  predicate Terminal(s: Status) { s == Completed || s == Failed }

  /** `validTransitions`, each entry in the order of the source. A terminal status has no entry. */
  function Successors(s: Status): seq<Status> {
    match s
    case Created => [Allocating, Failed]
    case Allocating => [Running, Failed]
    case Running => [Approval, Completed, Cancelling, Failed]
    case Approval => [Running, Cancelling, Failed]
    case Cancelling => [Failed, Completed]
    case Completed => []
    case Failed => []
  }

  predicate Allowed(a: Status, b: Status) { b in Successors(a) }

  /** The transitions, pair by pair. */
  lemma TransitionTable(a: Status, b: Status)
    ensures Allowed(a, b) <==>
              (a, b) in {(Created, Allocating), (Created, Failed), (Allocating, Running), (Allocating, Failed),
                         (Running, Approval), (Running, Completed), (Running, Cancelling), (Running, Failed),
                         (Approval, Running), (Approval, Cancelling), (Approval, Failed),
                         (Cancelling, Failed), (Cancelling, Completed)}
  {
  }

  /** A walk through the table: every status is an allowed successor of the one before it. */
  ghost predicate Walk(p: seq<Status>) {
    && p != []
    && forall i :: 0 < i < |p| ==> Allowed(p[i - 1], p[i])
  }

  ghost predicate WalkBetween(p: seq<Status>, a: Status, b: Status) {
    Walk(p) && |p| > 1 && p[0] == a && p[|p| - 1] == b
  }

  /** The transitive closure of the table. */
  ghost predicate Precedes(a: Status, b: Status) {
    exists p :: WalkBetween(p, a, b)
  }

  /** The closure in closed form: nothing leaves a terminal status or re-enters CREATED,
      ALLOCATING only follows CREATED, and CANCELLING only leads to an end. */
  predicate MayFollow(a: Status, b: Status) {
    && !Terminal(a)
    && b != Created
    && (b == Allocating ==> a == Created)
    && (a == Cancelling ==> Terminal(b))
  }

  lemma {:induction false} WalkMayFollow(p: seq<Status>)
    requires Walk(p) && |p| > 1
    ensures MayFollow(p[0], p[|p| - 1])
    decreases |p|
  {
    assert Allowed(p[0], p[1]);
    if |p| > 2 {
      var q := p[1..];
      forall i | 0 < i < |q| ensures Allowed(q[i - 1], q[i]) {
        assert Allowed(p[i], p[i + 1]);
      }
      WalkMayFollow(q);
    }
  }

  /** One route for every pair the closed form admits. */
  function Route(a: Status, b: Status): (p: seq<Status>)
    requires MayFollow(a, b)
    ensures WalkBetween(p, a, b)
  {
    if Allowed(a, b) then [a, b]
    else match a
      case Created => if b == Running then [a, Allocating, b] else [a, Allocating, Running, b]
      case Allocating => [a, Running, b]
      case Running => [a, Approval, b]
      case Approval => [a, Running, b]
      case Cancelling => [a, b]
  }

  lemma ClosureIsMayFollow(a: Status, b: Status)
    ensures Precedes(a, b) <==> MayFollow(a, b)
  {
    if Precedes(a, b) {
      var p :| WalkBetween(p, a, b);
      WalkMayFollow(p);
    }
    if MayFollow(a, b) {
      var p := Route(a, b);
    }
  }

  /** A terminal status on a walk is its last status. */
  lemma TerminalEndsWalk(p: seq<Status>, k: nat)
    requires Walk(p) && k < |p| && Terminal(p[k])
    ensures k == |p| - 1
  {
    assert k + 1 < |p| ==> Allowed(p[k + 1 - 1], p[k + 1]);
  }

  /** Two positions on a walk are related by the closure. */
  lemma WalkPrecedes(p: seq<Status>, i: nat, j: nat)
    requires Walk(p) && i < j < |p|
    ensures Precedes(p[i], p[j])
  {
    var q := p[i..j + 1];
    forall k | 0 < k < |q| ensures Allowed(q[k - 1], q[k]) {
      assert Allowed(p[i + k - 1], p[i + k]);
    }
    assert WalkBetween(q, p[i], p[j]);
  }

  lemma WalkExtend(p: seq<Status>, to: Status)
    requires Walk(p) && Allowed(p[|p| - 1], to)
    ensures Walk(p + [to])
  {
  }

  // Lifecycle events.

  datatype Event =
    | EvCreated | EvAllocating | EvRunning | EvWaitingInput | EvApproval
    | EvCancelling | EvCompleted | EvFailed

  /** The switch of `Transition`, and the event `CreateSession` emits. */
  function EventFor(s: Status): Event {
    match s
    case Created => EvCreated
    case Allocating => EvAllocating
    case Running => EvRunning
    case Approval => EvApproval
    case Cancelling => EvCancelling
    case Completed => EvCompleted
    case Failed => EvFailed
  }

  function EventWord(e: Event): string {
    match e
    case EvCreated => "created"
    case EvAllocating => "allocating"
    case EvRunning => "running"
    case EvWaitingInput => "waiting_input"
    case EvApproval => "approval"
    case EvCancelling => "cancelling"
    case EvCompleted => "completed"
    case EvFailed => "failed"
  }

  /** The `EventType` constants of the session lifecycle, "session.created" and so on. */
  function EventName(e: Event): string { "session." + EventWord(e) }

  function EventsOf(h: seq<Status>): seq<Event> {
    seq(|h|, i requires 0 <= i < |h| => EventFor(h[i]))
  }

  /** The wire name of each event. */
  lemma EventNames()
    ensures EventName(EvCreated) == "session.created" && EventName(EvAllocating) == "session.allocating"
    ensures EventName(EvRunning) == "session.running" && EventName(EvWaitingInput) == "session.waiting_input"
    ensures EventName(EvApproval) == "session.approval" && EventName(EvCancelling) == "session.cancelling"
    ensures EventName(EvCompleted) == "session.completed" && EventName(EvFailed) == "session.failed"
  {
  }

  /** The name of a status in the sessions table. */
  function StatusName(s: Status): string {
    match s
    case Created => "CREATED"
    case Allocating => "ALLOCATING"
    case Running => "RUNNING"
    case Approval => "APPROVAL"
    case Cancelling => "CANCELLING"
    case Completed => "COMPLETED"
    case Failed => "FAILED"
  }

  function LowerCase(c: char): char { if 'A' <= c <= 'Z' then ((c as int) + 32) as char else c }

  function Lower(s: string): string { seq(|s|, i requires 0 <= i < |s| => LowerCase(s[i])) }

  /** The event of a transition is named after the status it leads to. */
  lemma EventNamesTheStatus(s: Status)
    ensures EventName(EventFor(s)) == "session." + Lower(StatusName(s))
  {
    assert |EventWord(EventFor(s))| == |StatusName(s)|;
    forall i | 0 <= i < |StatusName(s)| ensures EventWord(EventFor(s))[i] == Lower(StatusName(s))[i] {
    }
  }

  /** What is published on entering each status, in the words of the wire. */
  lemma PublishedNames()
    ensures EventName(EventFor(Created)) == "session.created" && EventName(EventFor(Allocating)) == "session.allocating"
    ensures EventName(EventFor(Running)) == "session.running" && EventName(EventFor(Approval)) == "session.approval"
    ensures EventName(EventFor(Cancelling)) == "session.cancelling"
    ensures EventName(EventFor(Completed)) == "session.completed" && EventName(EventFor(Failed)) == "session.failed"
  {
  }

  lemma EventTellsStatus(s: Status, s': Status)
    requires EventName(EventFor(s)) == EventName(EventFor(s'))
    ensures s == s'
  {
    var a, b := EventName(EventFor(s)), EventName(EventFor(s'));
    assert |a| == |b| && a[8] == b[8] && a[9] == b[9];
  }

  /** The names of the published events determine the history of statuses. */
  lemma EventsDetermineHistory(h: seq<Status>, k: seq<Status>)
    requires EventsOf(h) == EventsOf(k)
    ensures h == k
  {
    assert |EventsOf(h)| == |h| && |EventsOf(k)| == |k|;
    forall i | 0 <= i < |h| ensures h[i] == k[i] {
      assert EventFor(h[i]) == EventsOf(h)[i] == EventsOf(k)[i] == EventFor(k[i]);
      EventTellsStatus(h[i], k[i]);
    }
  }
}
