/** The in-memory event bus: subscriptions are cancelled through a remembered index
    (internal/eventbus/memory.go). A handler is identified by the subscription that added it. */
module MemoryBus {
  import opened Lifecycle
  import opened Subjects

  type Handler = nat
  type Subs = map<string, seq<Handler>>

  function Handlers(subs: Subs, subject: string): seq<Handler> {
    if subject in subs then subs[subject] else []
  }

  function Subscribed(subs: Subs, subject: string, h: Handler): Subs {
    subs[subject := Handlers(subs, subject) + [h]]
  }

  function Without(list: seq<Handler>, id: nat): seq<Handler> {
    if id < |list| then list[..id] + list[id + 1..] else list
  }

  /** The cancel closure, which knows only its index. */
  function CancelledAt(subs: Subs, subject: string, id: nat): Subs {
    if id < |Handlers(subs, subject)| then subs[subject := Without(Handlers(subs, subject), id)] else subs
  }

  ghost predicate Distinct(list: seq<Handler>) { forall i, j :: 0 <= i < j < |list| ==> list[i] != list[j] }

  /** Every subscription is in at most one place, and was made before `next`. */
  ghost predicate WellFormed(subs: Subs, next: Handler) {
    && (forall p :: p in subs ==> Distinct(subs[p]) && forall h :: h in subs[p] ==> h < next)
    && (forall p, q, h :: p in subs && q in subs && h in subs[p] && h in subs[q] ==> p == q)
  }

  lemma WithoutAt(list: seq<Handler>, id: nat, k: nat)
    requires id < |list| && k < |list| - 1
    ensures |Without(list, id)| == |list| - 1
    ensures Without(list, id)[k] == list[if k < id then k else k + 1]
  {
  }

  lemma WithoutIsDistinct(list: seq<Handler>, id: nat)
    requires Distinct(list)
    ensures Distinct(Without(list, id))
  {
    if id < |list| {
      var rest := Without(list, id);
      forall i, j | 0 <= i < j < |rest| ensures rest[i] != rest[j] {
        WithoutAt(list, id, i);
        WithoutAt(list, id, j);
      }
    }
  }

  lemma WithoutMembers(list: seq<Handler>, id: nat, h: Handler)
    requires Distinct(list) && id < |list|
    ensures h in Without(list, id) <==> h in list && list[id] != h
  {
    var rest := Without(list, id);
    if h in rest {
      var k :| 0 <= k < |rest| && rest[k] == h;
      WithoutAt(list, id, k);
    }
    if h in list && list[id] != h {
      var k :| 0 <= k < |list| && list[k] == h;
      WithoutAt(list, id, if k < id then k else k - 1);
    }
  }

  lemma WithoutDistinct(list: seq<Handler>, id: nat)
    requires Distinct(list)
    ensures Distinct(Without(list, id))
    ensures forall h :: h in Without(list, id) <==> h in list && !(id < |list| && list[id] == h)
  {
    WithoutIsDistinct(list, id);
    if id < |list| {
      forall h ensures h in Without(list, id) <==> h in list && list[id] != h {
        WithoutMembers(list, id, h);
      }
    }
  }

  lemma AppendDistinct(a: seq<Handler>, b: seq<Handler>)
    requires Distinct(a) && Distinct(b) && forall h :: h in b ==> h !in a
    ensures Distinct(a + b)
  {
    var c := a + b;
    forall i, j | 0 <= i < j < |c| ensures c[i] != c[j] {
      if i < |a| <= j {
        assert c[j] in b && c[i] in a;
      }
    }
  }

  /** Adding a new subscription keeps every subscription in one place. */
  lemma SubscribedWellFormed(subs: Subs, next: Handler, subject: string)
    requires WellFormed(subs, next)
    ensures WellFormed(Subscribed(subs, subject, next), next + 1)
  {
    assert Distinct([next]);
    AppendDistinct(Handlers(subs, subject), [next]);
  }

  lemma CancelledWellFormed(subs: Subs, next: Handler, subject: string, id: nat)
    requires WellFormed(subs, next)
    ensures WellFormed(CancelledAt(subs, subject, id), next)
  {
    WithoutDistinct(Handlers(subs, subject), id);
  }

  class MemoryBus {
    var subs: Subs
    var next: Handler

    ghost predicate Valid()
      reads this
    {
      WellFormed(subs, next)
    }

    constructor ()
      ensures Valid() && subs == map[]
    {
      subs := map[];
      next := 0;
    }

    method Subscribe(subject: string) returns (h: Handler, id: nat)
      requires Valid()
      modifies this
      ensures Valid() && h == old(next) && next == old(next) + 1
      ensures id == |Handlers(old(subs), subject)|
      ensures subs == Subscribed(old(subs), subject, h)
    {
      SubscribedWellFormed(subs, next, subject);
      h := next;
      id := |Handlers(subs, subject)|;
      subs := subs[subject := Handlers(subs, subject) + [h]];
      next := next + 1;
    }

    method Cancel(subject: string, id: nat)
      requires Valid()
      modifies this`subs
      ensures Valid() && subs == CancelledAt(old(subs), subject, id)
    {
      CancelledWellFormed(subs, next, subject, id);
      var handlers := Handlers(subs, subject);
      if id < |handlers| {
        subs := subs[subject := handlers[..id] + handlers[id + 1..]];
      }
    }

    /** Collects the handlers to call: exactly those subscribed under a matching pattern, each once,
        in whatever order the patterns are visited. */
    method Publish(subject: string) returns (called: seq<Handler>)
      requires Valid()
      ensures Distinct(called)
      ensures forall h :: h in called <==> Reached(subs, subs.Keys, subject, h)
    {
      called := [];
      var visited: set<string> := {};
      while visited != subs.Keys
        invariant visited <= subs.Keys && Distinct(called)
        invariant forall h :: h in called <==> Reached(subs, visited, subject, h)
        decreases |subs.Keys - visited|
      {
        var pattern :| pattern in subs.Keys - visited;
        var yes := MatchSubject(pattern, subject);
        Visit(subs, next, visited, subject, pattern, called);
        if yes {
          called := called + subs[pattern];
        }
        visited := visited + {pattern};
      }
    }
  }

  /** A handler subscribed under one of the given patterns that matches the subject. */
  ghost predicate Reached(subs: Subs, patterns: set<string>, subject: string, h: Handler) {
    exists p :: p in patterns && p in subs && Matches(Split(p), Split(subject)) && h in subs[p]
  }

  lemma Visit(subs: Subs, next: Handler, visited: set<string>, subject: string, pattern: string, called: seq<Handler>)
    requires WellFormed(subs, next) && Distinct(called) && pattern in subs && pattern !in visited
    requires forall h :: h in called <==> Reached(subs, visited, subject, h)
    ensures var yes := Matches(Split(pattern), Split(subject));
            var more := if yes then called + subs[pattern] else called;
            Distinct(more) && forall h :: h in more <==> Reached(subs, visited + {pattern}, subject, h)
  {
    forall h | h in subs[pattern] ensures h !in called {
      assert !Reached(subs, visited, subject, h);
    }
    AppendDistinct(called, subs[pattern]);
    forall h ensures Reached(subs, visited + {pattern}, subject, h) <==>
                     Reached(subs, visited, subject, h)
                     || (Matches(Split(pattern), Split(subject)) && h in subs[pattern])
    {
    }
  }

  // What a cancel closure removes.

  datatype Op = Sub(subject: string) | Can(subject: string, id: nat)

  datatype Bus = Bus(subs: Subs, next: Handler)

  function Step(b: Bus, op: Op): Bus {
    match op
    case Sub(subject) => Bus(Subscribed(b.subs, subject, b.next), b.next + 1)
    case Can(subject, id) => b.(subs := CancelledAt(b.subs, subject, id))
  }

  function Steps(b: Bus, ops: seq<Op>): Bus {
    if ops == [] then b else Step(Steps(b, ops[..|ops| - 1]), ops[|ops| - 1])
  }

  /** Where a handler is, and how many handlers below it have been removed since it was added. */
  datatype Fate = Fate(at: Option<nat>, lower: nat)

  function Follow(f: Fate, subject: string, op: Op): Fate {
    if op.Can? && op.subject == subject && f.at.Some? then
      if op.id < f.at.value then Fate(Some(f.at.value - 1), f.lower + 1)
      else if op.id == f.at.value then Fate(None, f.lower)
      else f
    else f
  }

  /** The fate of the handler that was added to `subject` at index `id`, over later operations. */
  function FateOf(subject: string, id: nat, ops: seq<Op>): Fate {
    if ops == [] then Fate(Some(id), 0) else Follow(FateOf(subject, id, ops[..|ops| - 1]), subject, ops[|ops| - 1])
  }

  lemma StepWellFormed(b: Bus, op: Op)
    requires WellFormed(b.subs, b.next)
    ensures WellFormed(Step(b, op).subs, Step(b, op).next)
  {
    match op
    case Sub(subject) => SubscribedWellFormed(b.subs, b.next, subject);
    case Can(subject, id) => CancelledWellFormed(b.subs, b.next, subject, id);
  }

  ghost predicate Tells(f: Fate, list: seq<Handler>, h: Handler, id: nat) {
    match f.at
    case Some(k) => k < |list| && list[k] == h && k + f.lower == id
    case None => h !in list
  }

  lemma StepTells(b: Bus, op: Op, f: Fate, subject: string, h: Handler, id: nat)
    requires WellFormed(b.subs, b.next) && h < b.next && Tells(f, Handlers(b.subs, subject), h, id)
    ensures Tells(Follow(f, subject, op), Handlers(Step(b, op).subs, subject), h, id)
  {
    if op.subject == subject && op.Can? {
      WithoutDistinct(Handlers(b.subs, subject), op.id);
    }
  }

  /** Following the indices is following the handler. */
  lemma {:induction false} FateIsReal(b: Bus, subject: string, ops: seq<Op>)
    requires WellFormed(b.subs, b.next)
    ensures var start, id := Step(b, Sub(subject)), |Handlers(b.subs, subject)|;
            var end := Steps(start, ops);
            && WellFormed(end.subs, end.next) && b.next < end.next
            && Tells(FateOf(subject, id, ops), Handlers(end.subs, subject), b.next, id)
            && Distinct(Handlers(end.subs, subject))
  {
    var start, id := Step(b, Sub(subject)), |Handlers(b.subs, subject)|;
    StepWellFormed(b, Sub(subject));
    if ops != [] {
      var init, op := ops[..|ops| - 1], ops[|ops| - 1];
      FateIsReal(b, subject, init);
      StepWellFormed(Steps(start, init), op);
      StepTells(Steps(start, init), op, FateOf(subject, id, init), subject, b.next, id);
    }
  }

  /** A cancellation took away this handler and no other. */
  ghost predicate RemovesExactly(before: Subs, after: Subs, subject: string, h: Handler) {
    && h in Handlers(before, subject) && h !in Handlers(after, subject)
    && (forall x :: x in Handlers(before, subject) && x != h ==> x in Handlers(after, subject))
    && (forall s :: s != subject ==> Handlers(after, s) == Handlers(before, s))
  }

  /** Cancelling at an index takes away a given handler and no other exactly if it is the one there. */
  lemma CancelTakesWhatIsThere(b: Bus, subject: string, id: nat, h: Handler)
    requires WellFormed(b.subs, b.next)
    ensures RemovesExactly(b.subs, Step(b, Can(subject, id)).subs, subject, h)
            <==> id < |Handlers(b.subs, subject)| && Handlers(b.subs, subject)[id] == h
  {
    WithoutDistinct(Handlers(b.subs, subject), id);
  }

  /** After any operations on the bus, the cancel closure of a subscription removes exactly its own
      handler if and only if that handler is still there and no handler below it on the same subject
      has been removed since. */
  lemma CancelRemovesOwn(b: Bus, subject: string, ops: seq<Op>)
    requires WellFormed(b.subs, b.next)
    ensures var id := |Handlers(b.subs, subject)|;
            var now := Steps(Step(b, Sub(subject)), ops);
            RemovesExactly(now.subs, Step(now, Can(subject, id)).subs, subject, b.next)
            <==> FateOf(subject, id, ops).at.Some? && FateOf(subject, id, ops).lower == 0
  {
    var id := |Handlers(b.subs, subject)|;
    var now := Steps(Step(b, Sub(subject)), ops);
    FateIsReal(b, subject, ops);
    CancelTakesWhatIsThere(now, subject, id, b.next);
    FateAtIndex(FateOf(subject, id, ops), Handlers(now.subs, subject), b.next, id);
  }

  lemma FateAtIndex(f: Fate, list: seq<Handler>, h: Handler, id: nat)
    requires Distinct(list) && Tells(f, list, h, id)
    ensures id < |list| && list[id] == h <==> f.at.Some? && f.lower == 0
  {
  }

  /** Otherwise it removes somebody else's handler, or nothing: here the second of two subscribers is
      lost when the first cancels twice. */
  lemma CancelCanRemoveAnother(subject: string)
    ensures var b := Steps(Bus(map[], 0), [Sub(subject), Sub(subject), Can(subject, 0)]);
            Handlers(b.subs, subject) == [1] && Handlers(Step(b, Can(subject, 0)).subs, subject) == []
  {
    var b0 := Bus(map[], 0);
    var ops := [Sub(subject), Sub(subject), Can(subject, 0)];
    assert ops[..2][..1][..0] == [] && ops[..2][..1] == [Sub(subject)] && ops[..2] == [Sub(subject), Sub(subject)];
    var b1 := Step(b0, Sub(subject));
    var b2 := Step(b1, Sub(subject));
    assert Steps(b0, []) == b0 && Steps(b0, ops[..2][..1]) == b1 && Steps(b0, ops[..2]) == b2;
    assert Handlers(b2.subs, subject) == [0, 1];
    assert Without([0, 1], 0) == [1] && Without([1], 0) == [];
  }

  // Well-nested use.

  /** Subscribe, do something well-nested, cancel, go on; as deferred cancels do. */
  datatype Nest = Done | Scope(subject: string, inner: Nest, rest: Nest)

  function RunNest(b: Bus, n: Nest): Bus
    decreases n
  {
    match n
    case Done => b
    case Scope(subject, inner, rest) =>
      var id := |Handlers(b.subs, subject)|;
      var entered := RunNest(Step(b, Sub(subject)), inner);
      RunNest(Step(entered, Can(subject, id)), rest)
  }

  /** Well-nested runs restore the handler lists of every subject. */
  lemma {:induction false} NestingRestores(b: Bus, n: Nest, s: string)
    ensures Handlers(RunNest(b, n).subs, s) == Handlers(b.subs, s)
    decreases n
  {
    match n
    case Done =>
    case Scope(subject, inner, rest) =>
      var id := |Handlers(b.subs, subject)|;
      var entered := RunNest(Step(b, Sub(subject)), inner);
      var left := Step(entered, Can(subject, id));
      NestingRestores(Step(b, Sub(subject)), inner, s);
      NestingRestores(Step(b, Sub(subject)), inner, subject);
      assert Without(Handlers(b.subs, subject) + [b.next], id) == Handlers(b.subs, subject);
      NestingRestores(left, rest, s);
  }
}
