/** The usage-event emitter: a bounded queue, one worker that posts ready events, retries with
    backoff and a shutdown that drops what is left. Every emitted event is a new object. */
module UsageQueue {
  import opened Common

  type EventId = nat

  datatype Item = Item(id: EventId, attempts: nat, next: int)

  datatype Config = Config(max: nat, maxAttempts: nat, hasClient: bool) {
    predicate Valid() {
      max >= 1 && maxAttempts >= 1
    }
  }

  /** The queue, the item the worker holds, and the history of accepted events. */
  datatype Queue = Queue(
    pending: seq<Item>,
    inflight: Option<Item>,
    accepting: bool,
    accepted: set<EventId>,
    delivered: set<EventId>,
    dropped: set<EventId>,
    vanished: set<EventId>,       // taken by a worker without a client, or one that was cancelled
    posts: map<EventId, nat>)

  const EMPTY := Queue([], None, true, {}, {}, {}, {}, map[])

  datatype Event =
    | Emit(id: EventId, now: int)
    | Take(now: int)
    | Deliver(ok: bool, now: int)
    | Close              // no more events are accepted; the worker goes on draining
    | TimeOut            // the drain took too long: drop what is pending
    | CancelWorker       // the end of every shutdown

  // ---------------------------------------------------------------- one step

  /** Milliseconds until the next attempt: doubling from half a second up to sixteen. */
  function Backoff(attempts: nat): int {
    Min(30_000, 250 * Pow2(Min(attempts, 6)))
  }

  function Min(a: int, b: int): int {
    if a < b then a else b
  }

  function Pow2(n: int): int {
    if n <= 0 then 1 else 2 * Pow2(n - 1)
  }

  /** Appending to a full queue drops its oldest event. */
  function Push(q: Queue, c: Config, item: Item): Queue {
    if |q.pending| >= c.max && q.pending != [] then
      q.(pending := q.pending[1..] + [item], dropped := q.dropped + {q.pending[0].id})
    else
      q.(pending := q.pending + [item])
  }

  /** The position of the first event whose time has come, or the length. */
  function FirstReady(pending: seq<Item>, now: int): (i: nat)
    ensures i <= |pending|
    ensures i < |pending| ==> pending[i].next <= now
    ensures forall j | 0 <= j < i :: pending[j].next > now
  {
    if pending == [] || pending[0].next <= now then 0 else 1 + FirstReady(pending[1..], now)
  }

  function Step(q: Queue, c: Config, e: Event): Queue {
    match e
    case Emit(id, now) =>
      if !q.accepting then q
      else Push(q, c, Item(id, 0, now)).(accepted := q.accepted + {id}, posts := q.posts[id := 0])
    case Take(now) =>
      var i := FirstReady(q.pending, now);
      if i == |q.pending| || q.inflight.Some? then q
      else q.(pending := q.pending[..i] + q.pending[i + 1..], inflight := Some(q.pending[i]))
    case Deliver(ok, now) =>
      if q.inflight == None || q.inflight.value.id !in q.posts then q
      else
        var item := q.inflight.value;
        var idle := q.(inflight := None);
        if !c.hasClient then idle.(vanished := q.vanished + {item.id})
        else
          var posted := idle.(posts := q.posts[item.id := q.posts[item.id] + 1]);
          if ok then posted.(delivered := q.delivered + {item.id})
          else if item.attempts + 1 >= c.maxAttempts then posted.(dropped := q.dropped + {item.id})
          else Push(posted, c, Item(item.id, item.attempts + 1, now + Backoff(item.attempts + 1)))
    case Close => q.(accepting := false)
    case TimeOut => q.(pending := [], dropped := q.dropped + Ids(q.pending))
    case CancelWorker => q.(inflight := None, vanished := q.vanished + Busy(q))
  }

  predicate Legal(q: Queue, e: Event) {
    e.Emit? ==> e.id !in q.accepted
  }

  function Run(q: Queue, c: Config, events: seq<Event>): Queue
    decreases |events|
  {
    if events == [] then q else Run(Step(q, c, events[0]), c, events[1..])
  }

  predicate LegalRun(q: Queue, c: Config, events: seq<Event>)
    decreases |events|
  {
    events == [] || (Legal(q, events[0]) && LegalRun(Step(q, c, events[0]), c, events[1..]))
  }

  // ---------------------------------------------------------------- invariant

  function Ids(items: seq<Item>): set<EventId> {
    set i | 0 <= i < |items| :: items[i].id
  }

  function Busy(q: Queue): set<EventId> {
    if q.inflight.Some? then {q.inflight.value.id} else {}
  }

  predicate Distinct(items: seq<Item>) {
    forall i, j | 0 <= i < j < |items| :: items[i].id != items[j].id
  }

  /** An event that is still to be posted has been posted once for each attempt so far. */
  predicate Counted(item: Item, q: Queue, c: Config) {
    item.id in q.posts && q.posts[item.id] == item.attempts < c.maxAttempts
  }

  ghost predicate Partition(q: Queue) {
    && Distinct(q.pending)
    && q.accepted == Ids(q.pending) + Busy(q) + q.delivered + q.dropped + q.vanished
    && Ids(q.pending) !! Busy(q) !! q.delivered !! q.dropped !! q.vanished
  }

  ghost predicate Posted(q: Queue, c: Config) {
    && q.posts.Keys == q.accepted
    && (forall item | item in q.pending :: Counted(item, q, c))
    && (q.inflight.Some? ==> Counted(q.inflight.value, q, c))
    && (forall id | id in q.posts :: q.posts[id] <= c.maxAttempts)
  }

  ghost predicate Inv(q: Queue, c: Config) {
    |q.pending| <= c.max && Partition(q) && Posted(q, c)
  }

  lemma PushInv(q: Queue, c: Config, item: Item)
    requires c.Valid() && |q.pending| <= c.max && Distinct(q.pending) && item.id !in Ids(q.pending)
    ensures var p := Push(q, c, item);
            && |p.pending| <= c.max && Distinct(p.pending)
            && Ids(p.pending) + p.dropped == Ids(q.pending) + q.dropped + {item.id}
            && item.id in Ids(p.pending) && Ids(p.pending) <= Ids(q.pending) + {item.id}
            && q.dropped <= p.dropped <= q.dropped + Ids(q.pending)
            && (Ids(q.pending) !! q.dropped && item.id !in q.dropped ==> Ids(p.pending) !! p.dropped)
            && (forall i | i in p.pending :: i in q.pending || i == item)
  {
    IdsSingle(item);
    if |q.pending| >= c.max {
      IdsSingle(q.pending[0]);
      assert q.pending == [q.pending[0]] + q.pending[1..];
      IdsConcat([q.pending[0]], q.pending[1..]);
      IdsConcat(q.pending[1..], [item]);
    } else {
      IdsConcat(q.pending, [item]);
    }
  }

  lemma IdsSingle(item: Item)
    ensures Ids([item]) == {item.id}
  {
    assert [item][0].id in Ids([item]);
  }

  lemma IdsConcat(a: seq<Item>, b: seq<Item>)
    ensures Ids(a + b) == Ids(a) + Ids(b)
  {
    forall id | id in Ids(a) + Ids(b) ensures id in Ids(a + b) {
      if id in Ids(a) {
        var i :| 0 <= i < |a| && a[i].id == id;
        assert (a + b)[i].id == id;
      } else {
        var i :| 0 <= i < |b| && b[i].id == id;
        assert (a + b)[|a| + i].id == id;
      }
    }
  }

  lemma EmitInv(q: Queue, c: Config, id: EventId, now: int)
    requires c.Valid() && Inv(q, c) && id !in q.accepted
    ensures Inv(Step(q, c, Emit(id, now)), c)
  {
    hide Ids;
    if q.accepting {
      PushInv(q, c, Item(id, 0, now));
    }
  }

  lemma TakenOut(pending: seq<Item>, i: nat)
    requires i < |pending| && Distinct(pending)
    ensures var rest := pending[..i] + pending[i + 1..];
            && Distinct(rest)
            && Ids(pending) == Ids(rest) + {pending[i].id} && pending[i].id !in Ids(rest)
            && (forall item | item in rest :: item in pending)
  {
    var left, right := pending[..i], pending[i + 1..];
    assert pending == left + ([pending[i]] + right);
    IdsConcat(left, [pending[i]] + right);
    IdsConcat([pending[i]], right);
    IdsConcat(left, right);
    IdsSingle(pending[i]);
  }

  lemma TakeInv(q: Queue, c: Config, now: int)
    requires Inv(q, c)
    ensures Inv(Step(q, c, Take(now)), c)
  {
    hide Ids, Distinct;
    var i := FirstReady(q.pending, now);
    if i < |q.pending| && q.inflight == None {
      TakenOut(q.pending, i);
      assert Counted(q.pending[i], q, c);
      assert q.pending[i].id !in Ids(q.pending[..i] + q.pending[i + 1..]);
    }
  }

  lemma DeliverInv(q: Queue, c: Config, ok: bool, now: int)
    requires c.Valid() && Inv(q, c)
    ensures Inv(Step(q, c, Deliver(ok, now)), c)
  {
    hide Ids, Backoff, Distinct;
    if q.inflight.Some? {
      var item := q.inflight.value;
      var posted := q.(inflight := None, posts := q.posts[item.id := q.posts[item.id] + 1]);
      OthersCounted(q, posted, c, item);
      if c.hasClient && !ok && item.attempts + 1 < c.maxAttempts {
        RetryInv(q, posted, c, item, now + Backoff(item.attempts + 1));
      } else {
        hide Push, Counted;
      }
    }
  }

  lemma RetryInv(q: Queue, posted: Queue, c: Config, item: Item, next: int)
    requires c.Valid() && Inv(q, c) && q.inflight == Some(item) && item.attempts + 1 < c.maxAttempts
    requires posted == q.(inflight := None, posts := q.posts[item.id := q.posts[item.id] + 1])
    requires forall i | i in q.pending :: Counted(i, posted, c)
    requires forall id | id in posted.posts :: posted.posts[id] <= c.maxAttempts
    ensures Inv(Push(posted, c, Item(item.id, item.attempts + 1, next)), c)
  {
    hide Ids, Distinct;
    PushInv(posted, c, Item(item.id, item.attempts + 1, next));
  }

  lemma OthersCounted(q: Queue, posted: Queue, c: Config, item: Item)
    requires Inv(q, c) && q.inflight == Some(item)
    requires item.id in q.posts && posted.posts == q.posts[item.id := q.posts[item.id] + 1]
    ensures forall i | i in q.pending :: Counted(i, posted, c)
    ensures forall id | id in posted.posts :: posted.posts[id] <= c.maxAttempts
  {
    forall i | i in q.pending ensures Counted(i, posted, c) {
      assert i.id in Ids(q.pending);
    }
  }

  lemma StepInv(q: Queue, c: Config, e: Event)
    requires c.Valid() && Inv(q, c) && Legal(q, e)
    ensures Inv(Step(q, c, e), c)
  {
    match e
    case Emit(id, now) => EmitInv(q, c, id, now);
    case Take(now) => TakeInv(q, c, now);
    case Deliver(ok, now) => DeliverInv(q, c, ok, now);
    case Close =>
    case TimeOut => assert Ids([]) == {};
    case CancelWorker =>
  }

  lemma {:induction false} RunInv(q: Queue, c: Config, events: seq<Event>)
    requires c.Valid() && Inv(q, c) && LegalRun(q, c, events)
    ensures Inv(Run(q, c, events), c)
    decreases |events|
  {
    if events != [] {
      hide Inv, Step, Legal;
      StepInv(q, c, events[0]);
      RunInv(Step(q, c, events[0]), c, events[1..]);
    }
  }

  /** Conservation. In every run the queue stays within its bound, every accepted event is in
      exactly one place, and none is posted more often than the attempt limit. */
  lemma NoEventIsLostOrDuplicated(c: Config, events: seq<Event>)
    requires c.Valid() && LegalRun(EMPTY, c, events)
    ensures var q := Run(EMPTY, c, events);
            && |q.pending| <= c.max
            && q.accepted == Ids(q.pending) + Busy(q) + q.delivered + q.dropped + q.vanished
            && Ids(q.pending) !! Busy(q) !! q.delivered !! q.dropped !! q.vanished
            && (forall id | id in q.accepted :: id in q.posts && q.posts[id] <= c.maxAttempts)
  {
    assert Ids([]) == {};
    RunInv(EMPTY, c, events);
  }

  /** With a client, events vanish uncounted only when the worker is cancelled. */
  lemma {:induction false} NothingVanishesWithClient(q: Queue, c: Config, events: seq<Event>)
    requires c.hasClient && forall i | 0 <= i < |events| :: events[i] != CancelWorker
    ensures Run(q, c, events).vanished == q.vanished
    decreases |events|
  {
    if events != [] {
      NothingVanishesWithClient(Step(q, c, events[0]), c, events[1..]);
    }
  }

  /** Shutdown. The drain waits for the pending events only. When it has ended, by emptying the
      queue or by the timeout, and the worker is cancelled, every accepted event was delivered,
      was dropped, or vanished, and what vanishes then is exactly the event in flight. */
  lemma ShutdownLosesInFlight(c: Config, events: seq<Event>)
    requires c.Valid() && LegalRun(EMPTY, c, events)
    ensures var q := Run(EMPTY, c, events);
            var r := Step(Step(Step(q, c, Close), c, TimeOut), c, CancelWorker);
            && r.pending == [] && r.inflight == None && !r.accepting
            && r.accepted == r.delivered + r.dropped + r.vanished
            && r.vanished == q.vanished + Busy(q) && r.vanished !! q.delivered !! q.dropped
            && (q.pending == [] ==> Step(Step(q, c, Close), c, CancelWorker) == r)
  {
    StartInv(c);
    RunInv(EMPTY, c, events);
    assert Ids([]) == {};
  }

  // ---------------------------------------------------------------- termination of retries

  /** Attempts left over all events that may still be posted. */
  function Remaining(items: seq<Item>, c: Config): int {
    if items == [] then 0 else (c.maxAttempts - items[0].attempts) + Remaining(items[1..], c)
  }

  function Work(q: Queue, c: Config): int {
    Remaining(q.pending, c) + if q.inflight.Some? then c.maxAttempts - q.inflight.value.attempts else 0
  }

  lemma {:induction false} RemainingConcat(a: seq<Item>, b: seq<Item>, c: Config)
    ensures Remaining(a + b, c) == Remaining(a, c) + Remaining(b, c)
  {
    if a == [] {
      assert a + b == b;
    } else {
      assert (a + b)[1..] == a[1..] + b;
      RemainingConcat(a[1..], b, c);
    }
  }

  lemma {:induction false} RemainingCounts(items: seq<Item>, q: Queue, c: Config)
    requires forall i | i in items :: Counted(i, q, c)
    ensures |items| <= Remaining(items, c) <= |items| * c.maxAttempts
  {
    if items != [] {
      RemainingCounts(items[1..], q, c);
      assert Counted(items[0], q, c);
      assert |items| * c.maxAttempts == (|items| - 1) * c.maxAttempts + c.maxAttempts;
    }
  }

  lemma PushWorks(q: Queue, c: Config, item: Item)
    requires forall i | i in q.pending :: i.attempts <= c.maxAttempts
    ensures Remaining(Push(q, c, item).pending, c) <= Remaining(q.pending, c) + c.maxAttempts - item.attempts
  {
    assert [item][1..] == [] && Remaining([item], c) == c.maxAttempts - item.attempts;
    RemainingConcat(q.pending, [item], c);
    if q.pending != [] {
      assert q.pending[0] in q.pending;
      RemainingConcat(q.pending[1..], [item], c);
    }
  }

  /** Each delivery uses up an attempt, whatever its outcome; taking an event uses up none. */
  lemma StepWorks(q: Queue, c: Config, e: Event)
    requires c.Valid() && Inv(q, c) && !e.Emit?
    ensures Work(Step(q, c, e), c) <= Work(q, c)
    ensures e.Deliver? && q.inflight.Some? ==> Work(Step(q, c, e), c) < Work(q, c)
  {
    hide Partition, Backoff;
    match e
    case Take(now) =>
      var i := FirstReady(q.pending, now);
      if i < |q.pending| {
        var left, right := q.pending[..i], q.pending[i + 1..];
        assert q.pending == left + ([q.pending[i]] + right);
        RemainingConcat(left, [q.pending[i]] + right, c);
        RemainingConcat(left, right, c);
      }
    case Deliver(ok, now) =>
      if q.inflight.Some? {
        var item := q.inflight.value;
        PushWorks(q, c, Item(item.id, item.attempts + 1, now + Backoff(item.attempts + 1)));
      }
    case Close =>
    case TimeOut => RemainingCounts(q.pending, q, c);
    case CancelWorker =>
  }

  /** Posts made during a run: deliveries that find an event in flight. */
  function Deliveries(q: Queue, c: Config, events: seq<Event>): nat
    decreases |events|
  {
    if events == [] then 0
    else (if events[0].Deliver? && q.inflight.Some? then 1 else 0)
         + Deliveries(Step(q, c, events[0]), c, events[1..])
  }

  lemma {:induction false} DeliveriesUseWork(q: Queue, c: Config, events: seq<Event>)
    requires c.Valid() && Inv(q, c) && forall i | 0 <= i < |events| :: !events[i].Emit?
    ensures Inv(Run(q, c, events), c)
    ensures Deliveries(q, c, events) + Work(Run(q, c, events), c) <= Work(q, c)
    decreases |events|
  {
    if events != [] {
      hide Inv, Step, Work;
      assert Legal(q, events[0]);
      StepInv(q, c, events[0]);
      StepWorks(q, c, events[0]);
      DeliveriesUseWork(Step(q, c, events[0]), c, events[1..]);
    }
  }

  lemma WorkCounts(q: Queue, c: Config)
    requires Inv(q, c)
    ensures 0 <= Work(q, c) <= (c.max + 1) * c.maxAttempts
    ensures Work(q, c) == 0 <==> q.pending == [] && q.inflight == None
  {
    hide Partition;
    RemainingCounts(q.pending, q, c);
    Scale(|q.pending|, c.max, c.maxAttempts);
    assert (c.max + 1) * c.maxAttempts == c.max * c.maxAttempts + c.maxAttempts;
  }

  lemma Scale(a: nat, b: nat, x: nat)
    requires a <= b
    ensures a * x <= b * x
  {
  }

  /** Without new events the worker posts at most once per remaining attempt, and once it has
      posted that often the queue is empty. */
  lemma RetriesTerminate(c: Config, before: seq<Event>, events: seq<Event>)
    requires c.Valid() && LegalRun(EMPTY, c, before)
    requires forall i | 0 <= i < |events| :: !events[i].Emit?
    ensures var q, r := Run(EMPTY, c, before), Run(Run(EMPTY, c, before), c, events);
            && Deliveries(q, c, events) <= Work(q, c) <= (c.max + 1) * c.maxAttempts
            && (Deliveries(q, c, events) == Work(q, c) ==> r.pending == [] && r.inflight == None)
  {
    hide Inv, Work;
    var q := Run(EMPTY, c, before);
    StartInv(c);
    RunInv(EMPTY, c, before);
    WorkCounts(q, c);
    DeliveriesUseWork(q, c, events);
    WorkCounts(Run(q, c, events), c);
  }

  lemma StartInv(c: Config)
    ensures Inv(EMPTY, c)
  {
    assert Ids([]) == {};
  }

  /** An idle worker makes progress: with events pending, taking at any time from the earliest
      due time on puts the first due one in flight. */
  lemma WaitingEventIsTaken(q: Queue, c: Config, i: nat, now: int)
    requires i < |q.pending| && q.pending[i].next <= now && q.inflight == None
    ensures var r := Step(q, c, Take(now));
            && r.inflight.Some? && r.inflight.value.next <= now
            && |r.pending| == |q.pending| - 1
  {
  }

  /** The cap of thirty seconds is never reached: the exponent stops at six. */
  lemma BackoffStaysBelowCap(attempts: nat)
    ensures Backoff(attempts) <= 16_000
    ensures attempts <= 6 ==> Backoff(attempts) == 250 * Pow2(attempts)
  {
    assert Pow2(1) == 2 && Pow2(2) == 4 && Pow2(3) == 8;
    assert Pow2(4) == 16 && Pow2(5) == 32 && Pow2(6) == 64;
  }

  // ---------------------------------------------------------------- steps, exactly

  /** Adding to a full queue drops its oldest event, and adds at the end; a closed queue takes
      nothing. */
  lemma FullQueueDropsOldest(q: Queue, c: Config, id: EventId, now: int)
    requires c.Valid()
    ensures !q.accepting ==> Step(q, c, Emit(id, now)) == q
    ensures q.accepting ==>
            var r := Step(q, c, Emit(id, now));
            var full := |q.pending| >= c.max;
            && r.pending == (if full then q.pending[1..] else q.pending) + [Item(id, 0, now)]
            && r.dropped == q.dropped + (if full then {q.pending[0].id} else {})
            && r.accepted == q.accepted + {id}
  {
  }

  /** The worker takes the first pending event that is due, or nothing if none is. */
  lemma TakesFirstDue(q: Queue, c: Config, i: nat, now: int)
    requires q.inflight == None && i <= |q.pending|
    requires forall j | 0 <= j < i :: q.pending[j].next > now
    requires i < |q.pending| ==> q.pending[i].next <= now
    ensures Step(q, c, Take(now)) ==
            if i == |q.pending| then q
            else q.(pending := q.pending[..i] + q.pending[i + 1..], inflight := Some(q.pending[i]))
  {
    var k := FirstReady(q.pending, now);
    assert k < |q.pending| ==> q.pending[k].next <= now;
    assert k == i;
  }

  /** A post that fails is repeated unless it was the last attempt, no sooner than after a quarter
      second times two to the number of attempts, of which six count. */
  lemma DeliveredExactly(q: Queue, c: Config, item: Item, ok: bool, now: int)
    requires c.Valid() && q.inflight == Some(item) && item.id in q.posts
    ensures !c.hasClient ==> Step(q, c, Deliver(ok, now)) == q.(inflight := None, vanished := q.vanished + {item.id})
    ensures c.hasClient ==>
            var r, n := Step(q, c, Deliver(ok, now)), item.attempts + 1;
            var full := |q.pending| >= c.max;
            && r.inflight == None && r.posts == q.posts[item.id := q.posts[item.id] + 1]
            && (ok ==> r.delivered == q.delivered + {item.id} && r.pending == q.pending && r.dropped == q.dropped)
            && (!ok && n >= c.maxAttempts ==> r.dropped == q.dropped + {item.id} && r.pending == q.pending)
            && (!ok && n < c.maxAttempts ==>
                  && r.pending == (if full then q.pending[1..] else q.pending)
                                  + [Item(item.id, n, now + 250 * Pow2(if n < 6 then n else 6))]
                  && r.dropped == q.dropped + (if full then {q.pending[0].id} else {}))
            && (!ok ==> r.delivered == q.delivered)
  {
    assert Pow2(1) == 2 && Pow2(2) == 4 && Pow2(3) == 8;
    assert Pow2(4) == 16 && Pow2(5) == 32 && Pow2(6) == 64;
    BackoffStaysBelowCap(item.attempts + 1);
  }

  // ---------------------------------------------------------------- the emitter

  class Emitter {
    const config: Config
    var pending: seq<Item>
    var accepting: bool
    var inflight: Option<Item>
    ghost var accepted: set<EventId>
    ghost var delivered: set<EventId>
    ghost var dropped: set<EventId>
    ghost var vanished: set<EventId>
    ghost var posts: map<EventId, nat>

    ghost function Abs(): Queue
      reads this
    {
      Queue(pending, inflight, accepting, accepted, delivered, dropped, vanished, posts)
    }

    constructor (config: Config)
      ensures this.config == config && Abs() == EMPTY
    {
      this.config := config;
      pending, inflight, accepting := [], None, true;
      accepted, delivered, dropped, vanished, posts := {}, {}, {}, {}, map[];
    }

    /** Appends, first dropping the oldest event of a full queue. */
    method Append(item: Item)
      requires config.Valid()
      modifies this
      ensures Abs() == Push(old(Abs()), config, item)
    {
      if |pending| >= config.max {
        dropped := dropped + {pending[0].id};
        pending := pending[1..];
      }
      pending := pending + [item];
    }

    method EmitEvent(id: EventId, now: int)
      requires config.Valid()
      modifies this
      ensures Abs() == Step(old(Abs()), config, Emit(id, now))
    {
      if !accepting {
        return;
      }
      Append(Item(id, 0, now));
      accepted := accepted + {id};
      posts := posts[id := 0];
    }

    method NextReady(now: int) returns (item: Option<Item>)
      requires inflight == None
      modifies this
      ensures Abs() == Step(old(Abs()), config, Take(now)) && item == inflight
    {
      var index := 0;
      while index < |pending|
        invariant index <= FirstReady(pending, now)
        invariant Abs() == old(Abs())
      {
        if pending[index].next <= now {
          inflight := Some(pending[index]);
          pending := pending[..index] + pending[index + 1..];
          return inflight;
        }
        index := index + 1;
      }
      return None;
    }

    method DeliverItem(ok: bool, now: int)
      requires config.Valid() && inflight.Some? && inflight.value.id in posts
      modifies this
      ensures Abs() == Step(old(Abs()), config, Deliver(ok, now))
    {
      var item := inflight.value;
      inflight := None;
      if !config.hasClient {
        vanished := vanished + {item.id};
        return;
      }
      posts := posts[item.id := posts[item.id] + 1];
      if ok {
        delivered := delivered + {item.id};
        return;
      }
      var attempts := item.attempts + 1;
      if attempts >= config.maxAttempts {
        dropped := dropped + {item.id};
        return;
      }
      Append(Item(item.id, attempts, now + Backoff(attempts)));
    }

    /** The first part of a shutdown. */
    method CloseQueue()
      modifies this`accepting
      ensures Abs() == Step(old(Abs()), config, Close)
    {
      accepting := false;
    }

    /** The drain timed out: drop everything that still waits. */
    method ClearOnTimeout() returns (count: nat)
      modifies this`pending, this`dropped
      ensures Abs() == Step(old(Abs()), config, TimeOut) && count == |old(pending)|
    {
      count := |pending|;
      dropped := dropped + Ids(pending);
      pending := [];
    }

    /** The last part: the post that is under way is given up. */
    method CancelWorkerTask()
      modifies this`inflight, this`vanished
      ensures Abs() == Step(old(Abs()), config, CancelWorker)
    {
      if inflight.Some? {
        vanished := vanished + {inflight.value.id};
      }
      inflight := None;
    }
  }
}
