/** The control plane and its store as one value: what `CreateSession`, `Transition` and `Recover`
    do to the session map, the durable rows and the published session events. Store writes may be
    lost, so the rows can lag behind memory. */
module Plane {
  import opened Lifecycle

  type Sid = string

  datatype Plane = Plane(
    mem: map<Sid, Status>,          // cp.sessions, by status
    rows: map<Sid, Status>,         // the durable rows; empty in memory-only mode
    hist: map<Sid, seq<Status>>,    // statuses held in memory by this process, oldest first
    events: map<Sid, seq<Event>>,   // session events this process has published, oldest first
    unborn: set<Sid>,               // written by CreateSession, not yet announced by emit
    restored: set<Sid>)             // loaded by Recover rather than created

  /** What the insert of a new row does: it lands, it fails, or it lands but reports an error. */
  datatype Insert = Inserted | Refused | Ambiguous

  const EMPTY := Plane(map[], map[], map[], map[], {}, {})

  predicate CreateSucceeds(hasStore: bool, p: Plane, sid: Sid, insert: Insert) {
    hasStore ==> sid !in p.rows && insert == Inserted
  }

  /** `CreateSession` up to the write of the session map. The row is inserted first, so an insert
      that fails (a duplicate primary key always does) prevents the memory write. */
  function Create(hasStore: bool, p: Plane, sid: Sid, insert: Insert): Plane {
    var q := if hasStore && sid !in p.rows && insert != Refused
             then p.(rows := p.rows[sid := Created]) else p;
    if CreateSucceeds(hasStore, p, sid, insert) then
      q.(mem := p.mem[sid := Created], hist := p.hist[sid := [Created]], events := p.events[sid := []],
         unborn := p.unborn + {sid}, restored := p.restored - {sid})
    else q
  }

  /** The `emit` at the end of `CreateSession`. */
  function Announce(p: Plane, sid: Sid, pub: bool): Plane {
    if sid in p.unborn then
      p.(unborn := p.unborn - {sid},
         events := if pub && sid in p.events then p.events[sid := p.events[sid] + [EventFor(Created)]]
                   else p.events)
    else p
  }

  predicate Accepts(p: Plane, sid: Sid, to: Status) {
    sid in p.mem && Allowed(p.mem[sid], to)
  }

  /** `Transition`, which holds the session's lock throughout. A failed store write is only logged;
      a failed publish makes the call return an error although the status has changed. */
  function Transition(hasStore: bool, p: Plane, sid: Sid, to: Status, stored: bool, pub: bool): Plane {
    if !Accepts(p, sid, to) then p
    else
      p.(mem := p.mem[sid := to],
         hist := if sid in p.hist then p.hist[sid := p.hist[sid] + [to]] else p.hist,
         rows := if hasStore && stored && sid in p.rows then p.rows[sid := to] else p.rows,
         events := if pub && sid in p.events then p.events[sid := p.events[sid] + [EventFor(to)]]
                   else p.events)
  }

  /** `ListNonTerminalSessions`, as a set of rows. */
  function NonTerminal(rows: map<Sid, Status>): map<Sid, Status> {
    map sid | sid in rows && !Terminal(rows[sid]) :: rows[sid]
  }

  /** A new process: memory is gone and `Recover` loads the non-terminal rows, without events. */
  function Reload(p: Plane): Plane {
    var mem := NonTerminal(p.rows);
    Plane(mem, p.rows, map sid | sid in mem :: [mem[sid]], map sid | sid in mem :: [], {}, mem.Keys)
  }

  datatype Op =
    | OpCreate(sid: Sid, insert: Insert)
    | OpAnnounce(sid: Sid, pub: bool)
    | OpTransition(sid: Sid, to: Status, stored: bool, pub: bool)
    | OpReload

  function Apply(hasStore: bool, p: Plane, op: Op): Plane {
    match op
    case OpCreate(sid, insert) => Create(hasStore, p, sid, insert)
    case OpAnnounce(sid, pub) => Announce(p, sid, pub)
    case OpTransition(sid, to, stored, pub) => Transition(hasStore, p, sid, to, stored, pub)
    case OpReload => Reload(p)
  }

  /** Any interleaving of control-plane calls, by any clients, over any number of processes. */
  ghost predicate Run(hasStore: bool, ps: seq<Plane>, ops: seq<Op>) {
    && |ps| == |ops| + 1
    && ps[0] == EMPTY
    && forall i {:trigger ops[i]} :: 0 <= i < |ops| ==> ps[i + 1] == Apply(hasStore, ps[i], ops[i])
  }

  // What every call keeps.

  /** Memory is the end of a walk through the table, and the durable status is a point on it. */
  ghost predicate OnTrack(hasStore: bool, p: Plane, sid: Sid) {
    sid in p.mem ==>
      && sid in p.hist && Walk(p.hist[sid]) && p.hist[sid][|p.hist[sid]| - 1] == p.mem[sid]
      && (hasStore ==> sid in p.rows && p.rows[sid] in p.hist[sid])
  }

  ghost predicate Tracks(hasStore: bool, p: Plane) {
    && (forall sid :: OnTrack(hasStore, p, sid))
    && (!hasStore ==> p.rows == map[])
  }

  lemma TransitionOnTrack(hasStore: bool, p: Plane, sid: Sid, to: Status, stored: bool, pub: bool)
    requires OnTrack(hasStore, p, sid)
    ensures OnTrack(hasStore, Transition(hasStore, p, sid, to, stored, pub), sid)
  {
    if Accepts(p, sid, to) {
      var h := p.hist[sid];
      WalkExtend(h, to);
      assert (h + [to])[|h|] == to;
      assert forall x :: x in h ==> x in h + [to];
    }
  }

  lemma ApplyTracks(hasStore: bool, p: Plane, op: Op)
    requires Tracks(hasStore, p)
    ensures Tracks(hasStore, Apply(hasStore, p, op))
  {
    var q := Apply(hasStore, p, op);
    forall sid ensures OnTrack(hasStore, q, sid) {
      assert OnTrack(hasStore, p, sid);
      if op.OpTransition? && op.sid == sid {
        TransitionOnTrack(hasStore, p, sid, op.to, op.stored, op.pub);
      }
    }
  }

  lemma {:induction false} RunTracks(hasStore: bool, ps: seq<Plane>, ops: seq<Op>, i: nat)
    requires Run(hasStore, ps, ops) && i < |ps|
    ensures Tracks(hasStore, ps[i])
  {
    if i > 0 {
      RunTracks(hasStore, ps, ops, i - 1);
      ApplyTracks(hasStore, ps[i - 1], ops[i - 1]);
    }
  }

  /** Resubmitting the id of a session in memory is refused by the store and changes nothing. */
  lemma DuplicateCreateIsNoop(p: Plane, sid: Sid, insert: Insert)
    requires Tracks(true, p) && sid in p.mem
    ensures !CreateSucceeds(true, p, sid, insert) && Create(true, p, sid, insert) == p
  {
    assert OnTrack(true, p, sid);
  }

  /** With a store, only an id that is not in memory can be created. */
  lemma CreateIsFresh(p: Plane, sid: Sid, insert: Insert)
    requires Tracks(true, p) && CreateSucceeds(true, p, sid, insert)
    ensures sid !in p.mem
  {
    assert OnTrack(true, p, sid);
  }

  // The durable rows.

  ghost predicate Advances(a: Status, b: Status) { a == b || Precedes(a, b) }

  lemma AdvancesTransitive(a: Status, b: Status, c: Status)
    requires Advances(a, b) && Advances(b, c)
    ensures Advances(a, c)
  {
    ClosureIsMayFollow(a, b);
    ClosureIsMayFollow(b, c);
    ClosureIsMayFollow(a, c);
  }

  /** One call moves a durable status only forward in the closure of the table. */
  lemma ApplyAdvancesRow(hasStore: bool, p: Plane, op: Op, sid: Sid)
    requires Tracks(hasStore, p) && sid in p.rows
    ensures var q := Apply(hasStore, p, op); sid in q.rows && Advances(p.rows[sid], q.rows[sid])
  {
    if op.OpTransition? && op.sid == sid && Accepts(p, sid, op.to) && hasStore && op.stored {
      assert OnTrack(hasStore, p, sid);
      var h := p.hist[sid];
      var k :| 0 <= k < |h| && h[k] == p.rows[sid];
      WalkExtend(h, op.to);
      WalkPrecedes(h + [op.to], k, |h|);
    }
  }

  /** Over a whole run, across lost writes and restarts, the successive durable statuses of a session
      follow the transitive closure of the transition table, and a row never disappears. */
  lemma {:induction false} DurableStatusAdvances(hasStore: bool, ps: seq<Plane>, ops: seq<Op>, i: nat, j: nat, sid: Sid)
    requires Run(hasStore, ps, ops) && i <= j < |ps| && sid in ps[i].rows
    ensures sid in ps[j].rows && Advances(ps[i].rows[sid], ps[j].rows[sid])
    decreases j
  {
    if i < j {
      DurableStatusAdvances(hasStore, ps, ops, i, j - 1, sid);
      RunTracks(hasStore, ps, ops, j - 1);
      ApplyAdvancesRow(hasStore, ps[j - 1], ops[j - 1], sid);
      AdvancesTransitive(ps[i].rows[sid], ps[j - 1].rows[sid], ps[j].rows[sid]);
    }
  }

  /** A durable COMPLETED or FAILED never changes again: not by a later transition, a restart,
      a resubmission of the same id or a lost write. */
  lemma DurableTerminalIsFinal(hasStore: bool, ps: seq<Plane>, ops: seq<Op>, i: nat, j: nat, sid: Sid)
    requires Run(hasStore, ps, ops) && i <= j < |ps|
    requires sid in ps[i].rows && Terminal(ps[i].rows[sid])
    ensures sid in ps[j].rows && ps[j].rows[sid] == ps[i].rows[sid]
  {
    DurableStatusAdvances(hasStore, ps, ops, i, j, sid);
    ClosureIsMayFollow(ps[i].rows[sid], ps[j].rows[sid]);
  }

  /** A session that is durably finished is finished in memory too, with the same outcome. */
  lemma DurableTerminalBindsMemory(hasStore: bool, p: Plane, sid: Sid)
    requires hasStore && Tracks(hasStore, p)
    requires sid in p.mem && sid in p.rows && Terminal(p.rows[sid])
    ensures p.mem[sid] == p.rows[sid]
  {
    assert OnTrack(hasStore, p, sid);
    var h := p.hist[sid];
    var k :| 0 <= k < |h| && h[k] == p.rows[sid];
    TerminalEndsWalk(h, k);
  }

  /** Within a process the durable status is one that memory has held, and the statuses held since
      form a walk from it to the present one. */
  lemma StoreLagsMemory(ps: seq<Plane>, ops: seq<Op>, i: nat, sid: Sid) returns (k: nat)
    requires Run(true, ps, ops) && i < |ps| && sid in ps[i].mem
    ensures sid in ps[i].rows && sid in ps[i].hist
    ensures var h := ps[i].hist[sid];
            && k < |h| && h[k] == ps[i].rows[sid]
            && Walk(h[k..]) && h[|h| - 1] == ps[i].mem[sid]
  {
    RunTracks(true, ps, ops, i);
    assert OnTrack(true, ps[i], sid);
    var h := ps[i].hist[sid];
    var j :| 0 <= j < |h| && h[j] == ps[i].rows[sid];
    k := j;
    forall n | 0 < n < |h[k..]| ensures Allowed(h[k..][n - 1], h[k..][n]) {
      assert Allowed(h[k + n - 1], h[k + n]);
    }
  }

  /** Recovery never brings a finished session back. */
  lemma ReloadSkipsTerminal(p: Plane, sid: Sid)
    ensures sid in Reload(p).mem <==> sid in p.rows && !Terminal(p.rows[sid])
    ensures sid in Reload(p).mem ==> Reload(p).mem[sid] == p.rows[sid]
  {
  }

  // The published events.

  /** How a single owner uses the control plane on a bus whose Publish returns nil: it creates under
      a new id, announces, and only then moves the session. */
  ghost predicate Orderly(p: Plane, op: Op) {
    match op
    case OpCreate(sid, _) => sid !in p.mem
    case OpAnnounce(sid, pub) => pub
    case OpTransition(sid, _, _, pub) => pub && sid !in p.unborn
    case OpReload => true
  }

  /** The published events are the history in order; a recovered session published its first status
      in an earlier process, and an unannounced one has published nothing. */
  ghost predicate Published(p: Plane) {
    forall sid :: sid in p.mem ==>
      && sid in p.hist && sid in p.events && p.hist[sid] != []
      && (sid in p.unborn ==> p.hist[sid] == [Created] && p.events[sid] == [] && sid !in p.restored)
      && (sid !in p.unborn ==>
            p.events[sid] == EventsOf(if sid in p.restored then p.hist[sid][1..] else p.hist[sid]))
  }

  lemma EventsOfExtend(h: seq<Status>, to: Status)
    ensures EventsOf(h + [to]) == EventsOf(h) + [EventFor(to)]
  {
  }

  lemma ApplyPublished(hasStore: bool, p: Plane, op: Op)
    requires Published(p) && Orderly(p, op)
    ensures Published(Apply(hasStore, p, op))
  {
    match op
    case OpTransition(sid, to, stored, pub) =>
      if Accepts(p, sid, to) {
        var h := p.hist[sid];
        EventsOfExtend(h, to);
        EventsOfExtend(h[1..], to);
        assert (h + [to])[1..] == h[1..] + [to];
      }
    case OpAnnounce(sid, pub) =>
      assert EventsOf([Created]) == [EventFor(Created)];
    case OpReload =>
      var q := Reload(p);
      forall sid | sid in q.mem ensures q.events[sid] == EventsOf(q.hist[sid][1..]) {
        assert q.hist[sid][1..] == [];
      }
    case OpCreate(_, _) =>
  }

  lemma {:induction false} EventsAreHistory(hasStore: bool, ps: seq<Plane>, ops: seq<Op>, i: nat)
    requires Run(hasStore, ps, ops) && i < |ps|
    requires forall k :: 0 <= k < i ==> Orderly(ps[k], ops[k])
    ensures Published(ps[i])
  {
    if i > 0 {
      EventsAreHistory(hasStore, ps, ops, i - 1);
      ApplyPublished(hasStore, ps[i - 1], ops[i - 1]);
    }
  }

  // Writes that land.

  /** A transition that is accepted changes the status in memory, publishes one event if the bus takes it, and, if
      its write lands, the row of its session; it touches no other session, and one that is not accepted
      changes nothing. */
  lemma TransitionTakesEffect(hasStore: bool, p: Plane, sid: Sid, to: Status, stored: bool, pub: bool)
    requires Tracks(hasStore, p)
    ensures var q := Transition(hasStore, p, sid, to, stored, pub);
            if sid in p.mem && Allowed(p.mem[sid], to) then
              && q.mem == p.mem[sid := to]
              && q.rows == (if hasStore && stored then p.rows[sid := to] else p.rows)
              && (sid in p.events && pub ==> q.events[sid] == p.events[sid] + [EventFor(to)])
            else q == p
  {
    assert OnTrack(hasStore, p, sid);
  }

  /** The last write of the session's status before `i`, by its creation, a transition or the reload, landed. */
  ghost predicate LastLanded(hasStore: bool, ps: seq<Plane>, ops: seq<Op>, i: nat, sid: Sid)
    requires i <= |ops| < |ps|
  {
    i > 0 &&
    match ops[i - 1]
    case OpTransition(x, to, stored, _) =>
      if x == sid && Accepts(ps[i - 1], sid, to) then stored else LastLanded(hasStore, ps, ops, i - 1, sid)
    case OpCreate(x, insert) =>
      (x == sid && CreateSucceeds(hasStore, ps[i - 1], sid, insert)) || LastLanded(hasStore, ps, ops, i - 1, sid)
    case OpAnnounce(_, _) => LastLanded(hasStore, ps, ops, i - 1, sid)
    case OpReload => true
  }

  lemma StepInStep(p: Plane, op: Op, sid: Sid)
    requires Tracks(true, p) && sid in Apply(true, p, op).mem
    ensures match op
            case OpTransition(x, to, stored, _) =>
              if x == sid && Accepts(p, sid, to) then stored ==> InStep(Apply(true, p, op), sid)
              else sid in p.mem && (InStep(p, sid) ==> InStep(Apply(true, p, op), sid))
            case OpCreate(x, insert) =>
              if x == sid && CreateSucceeds(true, p, sid, insert) then InStep(Apply(true, p, op), sid)
              else sid in p.mem && (InStep(p, sid) ==> InStep(Apply(true, p, op), sid))
            case OpAnnounce(_, _) => sid in p.mem && (InStep(p, sid) ==> InStep(Apply(true, p, op), sid))
            case OpReload => InStep(Apply(true, p, op), sid)
  {
    assert OnTrack(true, p, sid);
  }

  /** The row says what memory says. */
  predicate InStep(p: Plane, sid: Sid) { sid in p.mem && sid in p.rows && p.rows[sid] == p.mem[sid] }

  /** A store that keeps up: whenever the last write of a session's status landed, its row says what memory says,
      however many writes were lost before. */
  lemma {:induction false} LandedWritesTakeEffect(ps: seq<Plane>, ops: seq<Op>, i: nat, sid: Sid)
    requires Run(true, ps, ops) && i < |ps| && sid in ps[i].mem && LastLanded(true, ps, ops, i, sid)
    ensures InStep(ps[i], sid)
  {
    RunTracks(true, ps, ops, i - 1);
    StepInStep(ps[i - 1], ops[i - 1], sid);
    if sid in ps[i - 1].mem && LastLanded(true, ps, ops, i - 1, sid) {
      LandedWritesTakeEffect(ps, ops, i - 1, sid);
    }
  }
}
