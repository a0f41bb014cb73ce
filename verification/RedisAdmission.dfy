/** Admission of one replica while the fleet's leases are in Redis: a local queue ticket, a
    polling loop over the acquire script and a local in-flight counter.

    The lease set is shared, so between any two steps of this replica's tasks other replicas may
    run any script. The lock is held over the gate's script and over each counter change. */
module RedisAdmission {
  import opened Common
  import F = LeaseFleet
  import Local = LocalAdmission

  datatype Phase =
    | Waiting      // has a queue ticket, polls for a lease
    | Won          // the script granted a lease, not yet recorded
    | Leaving      // rejected, failed or cancelled, ticket not yet returned
    | Holding      // recorded as in flight
    | Returned     // lease released, counter not yet
    | Leaked       // the release raised, so the counter stays

  /** What a lease object remembers: its id and its fencing token. */
  datatype Handle = Handle(id: F.LeaseId, token: nat)

  datatype Config = Config(limit: nat, maxQueued: nat)

  datatype Replica = Replica(
    queued: int,
    inflight: int,
    tasks: map<Task, Phase>,
    handles: map<Task, Handle>,
    fleet: F.Fleet)

  const IDLE := Replica(0, 0, map[], map[], F.IDLE)

  /** A release script that raises may or may not have run. */
  datatype Outcome = Done | RaisedAfter | RaisedBefore

  datatype Event =
    | Enter(t: Task, now: int)
    | Try(t: Task, id: F.LeaseId, now: int, ttl: int)
    | GiveUp(t: Task)
    | Record(t: Task)
    | Leave(t: Task)
    | Release(t: Task, outcome: Outcome)
    | Forget(t: Task)
    | Elsewhere(e: F.Event)

  predicate In(r: Replica, t: Task, phase: Phase) {
    t in r.tasks && r.tasks[t] == phase
  }

  predicate Rejects(r: Replica, c: Config, now: int) {
    |F.Purged(r.fleet.l, now).expiry| >= c.limit && r.queued >= c.maxQueued
  }

  predicate Enabled(r: Replica, e: Event) {
    match e
    case Enter(t, _) => t !in r.tasks
    case Try(t, id, _, _) => In(r, t, Waiting) && id !in r.fleet.issued
    case GiveUp(t) => In(r, t, Waiting)
    case Record(t) => In(r, t, Won)
    case Leave(t) => In(r, t, Leaving)
    case Release(t, _) => In(r, t, Holding) && t in r.handles
    case Forget(t) => In(r, t, Returned)
    case Elsewhere(e) => F.Legal(r.fleet, e)
  }

  /** The step of the shared lease set that an event makes, if it makes one. */
  function Script(r: Replica, e: Event): Option<F.Event>
    requires Enabled(r, e)
  {
    match e
    case Enter(_, now) => Some(F.PurgeEvent(now))
    case Try(_, id, now, ttl) => Some(F.AcquireEvent(id, now, ttl))
    case Release(t, outcome) =>
      if outcome == RaisedBefore then None else Some(F.ReleaseEvent(r.handles[t].id, r.handles[t].token))
    case Elsewhere(e) => Some(e)
    case _ => None
  }

  function FleetAfter(r: Replica, c: Config, e: Event): F.Fleet
    requires Enabled(r, e)
  {
    match Script(r, e)
    case None => r.fleet
    case Some(s) => F.Step(r.fleet, c.limit, s)
  }

  function Step(r: Replica, c: Config, e: Event): Replica
    requires Enabled(r, e)
  {
    var q := r.(fleet := FleetAfter(r, c, e));
    match e
    case Enter(t, now) =>
      if Rejects(r, c, now) then q else q.(queued := r.queued + 1, tasks := r.tasks[t := Waiting])
    case Try(t, id, now, _) =>
      if F.CanAcquire(r.fleet.l, now, c.limit) then
        q.(tasks := r.tasks[t := Won], handles := r.handles[t := Handle(id, q.fleet.l.fence)])
      else if c.maxQueued == 0 then q.(tasks := r.tasks[t := Leaving])
      else q
    case GiveUp(t) => q.(tasks := r.tasks[t := Leaving])
    case Record(t) =>
      q.(queued := Max(0, r.queued - 1), inflight := r.inflight + 1, tasks := r.tasks[t := Holding])
    case Leave(t) => q.(queued := Max(0, r.queued - 1), tasks := r.tasks - {t})
    case Release(t, outcome) => q.(tasks := r.tasks[t := if outcome == Done then Returned else Leaked])
    case Forget(t) => q.(inflight := Max(0, r.inflight - 1), tasks := r.tasks - {t})
    case Elsewhere(_) => q
  }

  function Run(r: Replica, c: Config, events: seq<Event>): Replica
    requires EnabledRun(r, c, events)
    decreases |events|
  {
    if events == [] then r else Run(Step(r, c, events[0]), c, events[1..])
  }

  predicate EnabledRun(r: Replica, c: Config, events: seq<Event>)
    decreases |events|
  {
    events == [] || (Enabled(r, events[0]) && EnabledRun(Step(r, c, events[0]), c, events[1..]))
  }

  // ---------------------------------------------------------------- what every step keeps

  const QUEUED := {Waiting, Won, Leaving}
  const INFLIGHT := {Holding, Returned, Leaked}
  const LEASED := {Won, Holding}

  ghost predicate Counted(r: Replica) {
    r.queued == Count(r.tasks, QUEUED) && r.inflight == Count(r.tasks, INFLIGHT)
  }

  predicate Leased(tasks: map<Task, Phase>, t: Task) {
    t in tasks && tasks[t] in LEASED
  }

  /** The handle names an issued lease and its token, unless the lease is lost. */
  predicate Names(h: Handle, f: F.Fleet) {
    h.id in f.issued && (h.id in f.l.tokens ==> f.l.tokens[h.id] == h.token)
  }

  /** Leased tasks have handles of their own, and no lease shows another token than its handle. */
  ghost predicate Handled(tasks: map<Task, Phase>, handles: map<Task, Handle>, f: F.Fleet) {
    && (forall t | Leased(tasks, t) :: t in handles && Names(handles[t], f))
    && (forall t, u | Leased(tasks, t) && Leased(tasks, u) && t != u && t in handles && u in handles ::
          handles[t].id != handles[u].id)
  }

  ghost predicate Inv(r: Replica, c: Config) {
    Counted(r) && Handled(r.tasks, r.handles, r.fleet) && F.Inv(r.fleet, c.limit)
  }

  lemma Moved(tasks: map<Task, Phase>, t: Task, phase: Phase)
    ensures forall s | s in [QUEUED, INFLIGHT] ::
      Count(tasks[t := phase], s) == Count(tasks, s) - One(t in tasks && tasks[t] in s) + One(phase in s)
  {
    CountMoved(tasks, QUEUED, t, phase);
    CountMoved(tasks, INFLIGHT, t, phase);
  }

  lemma StepCounted(r: Replica, c: Config, e: Event)
    requires Counted(r) && Enabled(r, e)
    ensures Counted(Step(r, c, e))
    ensures e.Record? || e.Leave? ==> Step(r, c, e).queued == r.queued - 1
    ensures e.Forget? ==> Step(r, c, e).inflight == r.inflight - 1
  {
    hide Count, FleetAfter, F.CanAcquire, Rejects;
    var s := [QUEUED, INFLIGHT];
    assert s[0] in s && s[1] in s;
    match e
    case Enter(t, _) => Moved(r.tasks, t, Waiting);
    case Try(t, _, _, _) => Moved(r.tasks, t, Won); Moved(r.tasks, t, Leaving);
    case GiveUp(t) => Moved(r.tasks, t, Leaving);
    case Record(t) => Moved(r.tasks, t, Holding);
    case Leave(t) => CountGone(r.tasks, QUEUED, t); CountGone(r.tasks, INFLIGHT, t);
    case Release(t, _) => Moved(r.tasks, t, Returned); Moved(r.tasks, t, Leaked);
    case Forget(t) => CountGone(r.tasks, QUEUED, t); CountGone(r.tasks, INFLIGHT, t);
    case Elsewhere(_) =>
  }

  /** Scripts keep the tokens of issued leases, or take them away with the lease. */
  ghost predicate Kept(f: F.Fleet, g: F.Fleet) {
    f.issued <= g.issued
    && forall id | id in f.issued && id in g.l.tokens :: id in f.l.tokens && g.l.tokens[id] == f.l.tokens[id]
  }

  lemma ScriptsKeep(f: F.Fleet, limit: nat, s: F.Event)
    requires F.Legal(f, s)
    ensures Kept(f, F.Step(f, limit, s))
  {
  }

  lemma ScriptLegal(r: Replica, e: Event)
    requires Enabled(r, e)
    ensures Script(r, e).Some? ==> F.Legal(r.fleet, Script(r, e).value)
  {
  }

  lemma HandledKept(tasks: map<Task, Phase>, handles: map<Task, Handle>, f: F.Fleet, later: map<Task, Phase>, g: F.Fleet)
    requires Handled(tasks, handles, f) && Kept(f, g)
    requires forall t | Leased(later, t) :: Leased(tasks, t)
    ensures Handled(later, handles, g)
  {
  }

  lemma HandledWon(tasks: map<Task, Phase>, handles: map<Task, Handle>, g: F.Fleet, t: Task, h: Handle)
    requires Handled(tasks, handles, g) && !Leased(tasks, t) && Names(h, g)
    requires forall u | Leased(tasks, u) && u in handles :: handles[u].id != h.id
    ensures Handled(tasks[t := Won], handles[t := h], g)
  {
  }

  lemma StepKeeps(r: Replica, c: Config, e: Event)
    requires Enabled(r, e)
    ensures Kept(r.fleet, FleetAfter(r, c, e)) && Step(r, c, e).fleet == FleetAfter(r, c, e)
  {
    ScriptLegal(r, e);
    if Script(r, e).Some? {
      ScriptsKeep(r.fleet, c.limit, Script(r, e).value);
    }
  }

  /** Only a granted lease makes a task a leaseholder. */
  lemma NewlyLeased(r: Replica, c: Config, e: Event)
    requires Enabled(r, e) && !(e.Try? && F.CanAcquire(r.fleet.l, e.now, c.limit))
    ensures Step(r, c, e).handles == r.handles
    ensures forall t | Leased(Step(r, c, e).tasks, t) :: Leased(r.tasks, t)
  {
    hide FleetAfter, Rejects, F.CanAcquire;
  }

  lemma TryHandled(r: Replica, c: Config, e: Event)
    requires Handled(r.tasks, r.handles, r.fleet) && Enabled(r, e)
    requires e.Try? && F.CanAcquire(r.fleet.l, e.now, c.limit)
    ensures var s := Step(r, c, e); Handled(s.tasks, s.handles, s.fleet)
  {
    var g := FleetAfter(r, c, e);
    WonLease(r.fleet, c.limit, e.id, e.now, e.ttl);
    StepKeeps(r, c, e);
    hide Kept, F.Step, F.CanAcquire;
    HandledKept(r.tasks, r.handles, r.fleet, r.tasks, g);
    HandledWon(r.tasks, r.handles, g, e.t, Handle(e.id, g.l.fence));
  }

  lemma StepHandled(r: Replica, c: Config, e: Event)
    requires Handled(r.tasks, r.handles, r.fleet) && Enabled(r, e)
    ensures var s := Step(r, c, e); Handled(s.tasks, s.handles, s.fleet)
  {
    hide Handled, Enabled, Kept, Step, F.CanAcquire;
    if e.Try? && F.CanAcquire(r.fleet.l, e.now, c.limit) {
      TryHandled(r, c, e);
    } else {
      NewlyLeased(r, c, e);
      StepKeeps(r, c, e);
      HandledKept(r.tasks, r.handles, r.fleet, Step(r, c, e).tasks, FleetAfter(r, c, e));
    }
  }

  lemma WonLease(f: F.Fleet, limit: nat, id: F.LeaseId, now: int, ttl: int)
    requires F.CanAcquire(f.l, now, limit)
    ensures var g := F.Step(f, limit, F.AcquireEvent(id, now, ttl));
            id in g.issued && id in g.l.tokens && g.l.tokens[id] == g.l.fence
  {
  }

  lemma StepInv(r: Replica, c: Config, e: Event)
    requires Inv(r, c) && Enabled(r, e)
    ensures Inv(Step(r, c, e), c)
  {
    hide Counted, Handled, F.Inv, F.Step, F.CanAcquire, Rejects;
    StepCounted(r, c, e);
    StepHandled(r, c, e);
    ScriptLegal(r, e);
    if Script(r, e).Some? {
      F.StepInv(r.fleet, c.limit, Script(r, e).value);
    }
  }

  lemma {:induction false} RunInv(r: Replica, c: Config, events: seq<Event>)
    requires Inv(r, c) && EnabledRun(r, c, events)
    ensures Inv(Run(r, c, events), c)
    decreases |events|
  {
    if events != [] {
      hide Inv, Step;
      StepInv(r, c, events[0]);
      RunInv(Step(r, c, events[0]), c, events[1..]);
    }
  }

  lemma IdleInv(c: Config)
    ensures Inv(IDLE, c)
  {
    assert forall s: set<Phase> :: Those(map[], s) == {};
  }

  // ---------------------------------------------------------------- theorems over whole runs

  /** The tasks that hold a lease which is still in the set. */
  function Leaseholders(r: Replica): set<Task> {
    set t | t in r.tasks && Leased(r.tasks, t) && t in r.handles && r.handles[t].id in r.fleet.l.expiry
  }

  /** Whatever the other replicas do, the counters count this replica's tasks, no more of its
      tasks than the limit hold a lease at once, and every holder owns its lease with its own
      token exactly as long as the lease is in the set. */
  lemma CountersAndLeases(c: Config, events: seq<Event>)
    requires EnabledRun(IDLE, c, events)
    ensures var r := Run(IDLE, c, events);
            && r.queued == Count(r.tasks, QUEUED) && r.inflight == Count(r.tasks, INFLIGHT)
            && |Leaseholders(r)| <= c.limit
            && (forall t | Leased(r.tasks, t) ::
                  t in r.handles && (F.CanRenew(r.fleet.l, r.handles[t].id, r.handles[t].token)
                                     <==> t in Leaseholders(r)))
  {
    IdleInv(c);
    RunInv(IDLE, c, events);
    var r := Run(IDLE, c, events);
    hide Count;
    LeaseholdersFit(r, Leaseholders(r), r.fleet.l.expiry.Keys);
  }

  lemma {:induction false} LeaseholdersFit(r: Replica, holders: set<Task>, leases: set<F.LeaseId>)
    requires Handled(r.tasks, r.handles, r.fleet) && holders <= Leaseholders(r)
    requires forall t | t in holders :: r.handles[t].id in leases
    ensures |holders| <= |leases|
    decreases |holders|
  {
    if holders != {} {
      var t :| t in holders;
      var id := r.handles[t].id;
      LeaseholdersFit(r, holders - {t}, leases - {id});
    }
  }

  /** A replica at rest: all that is left of its tasks are releases that raised. */
  ghost predicate AtRest(r: Replica) {
    forall t | t in r.tasks :: r.tasks[t] == Leaked
  }

  /** The leak. When all tasks have ended, the queue counter is back to zero, but the in-flight
      counter stands at the number of releases that raised; it is zero only if none did. */
  lemma LeftoverIsFailedReleases(c: Config, events: seq<Event>)
    requires EnabledRun(IDLE, c, events) && AtRest(Run(IDLE, c, events))
    ensures var r := Run(IDLE, c, events);
            r.queued == 0 && r.inflight == |r.tasks| && (r.inflight == 0 <==> r.tasks == map[])
  {
    IdleInv(c);
    RunInv(IDLE, c, events);
    var r := Run(IDLE, c, events);
    assert Those(r.tasks, QUEUED) == {};
    assert Those(r.tasks, INFLIGHT) == r.tasks.Keys;
  }

  /** The local gate that takes over when Redis is down reads the same counters. With nothing
      running it still rejects, and it does so exactly when nobody may queue and at least as
      many releases as the limit have raised. */
  lemma LeakClosesLocalGate(c: Config, events: seq<Event>, free: int)
    requires EnabledRun(IDLE, c, events) && AtRest(Run(IDLE, c, events))
    ensures var r := Run(IDLE, c, events);
            Local.Rejects(Local.Pool(free, [], r.queued, r.inflight, map[]), Local.Config(c.limit, c.limit, c.maxQueued))
            <==> c.maxQueued == 0 && |r.tasks| >= c.limit
  {
    LeftoverIsFailedReleases(c, events);
  }

  // ---------------------------------------------------------------- the queue limit

  function Entries(first: Task, n: nat): seq<Event>
    decreases n
  {
    if n == 0 then [] else [Enter(first, 1)] + Entries(first + 1, n - 1)
  }

  /** In Redis mode the queue limit bounds the waiters of a replica if and only if no lease may be
      held at all. With any positive limit any number of tasks can wait, since arrivals take no
      lease until they poll. */
  lemma QueueLimitHolds(c: Config)
    ensures (forall events | EnabledRun(IDLE, c, events) :: Run(IDLE, c, events).queued <= c.maxQueued)
            <==> c.limit == 0
  {
    if c.limit == 0 {
      forall events | EnabledRun(IDLE, c, events) ensures Run(IDLE, c, events).queued <= c.maxQueued {
        QueueStaysBelow(IDLE, c, events);
      }
    } else {
      var events := Entries(0, c.maxQueued + 1);
      BurstQueues(IDLE, c, 0, c.maxQueued + 1);
      assert EnabledRun(IDLE, c, events) && Run(IDLE, c, events).queued == c.maxQueued + 1;
    }
  }

  lemma {:induction false} QueueStaysBelow(r: Replica, c: Config, events: seq<Event>)
    requires c.limit == 0 && EnabledRun(r, c, events) && r.queued <= c.maxQueued
    ensures Run(r, c, events).queued <= c.maxQueued
    decreases |events|
  {
    if events != [] {
      hide FleetAfter, F.CanAcquire, F.Purged;
      QueueStaysBelow(Step(r, c, events[0]), c, events[1..]);
    }
  }

  /** Any number of waiters: arrivals that no poll comes between. */
  lemma {:induction false} BurstQueues(r: Replica, c: Config, first: Task, n: nat)
    requires c.limit > 0 && r.fleet.l.expiry == map[] && forall t | t in r.tasks :: t < first
    ensures EnabledRun(r, c, Entries(first, n)) && Run(r, c, Entries(first, n)).queued == r.queued + n
    decreases n
  {
    if n > 0 {
      assert F.Purged(r.fleet.l, 1).expiry == map[];
      hide F.Purged, F.CanAcquire;
      var q := Step(r, c, Enter(first, 1));
      BurstQueues(q, c, first + 1, n - 1);
      Unroll(r, c, Enter(first, 1), Entries(first + 1, n - 1));
    }
  }

  // ---------------------------------------------------------------- gate and poll, exactly

  /** In every reachable state the gate turns a new task away if and only if the leases that expire
      later than its clock reach the limit and as many tasks as allowed are queued. */
  lemma GateExactly(c: Config, events: seq<Event>, t: Task, now: int)
    requires EnabledRun(IDLE, c, events) && t !in Run(IDLE, c, events).tasks
    ensures var r := Run(IDLE, c, events);
            && (t !in Step(r, c, Enter(t, now)).tasks <==>
                  |F.Current(r.fleet.l, now)| >= c.limit && Count(r.tasks, QUEUED) >= c.maxQueued)
            && (t in Step(r, c, Enter(t, now)).tasks ==>
                  Step(r, c, Enter(t, now)).tasks == r.tasks[t := Waiting]
                  && Step(r, c, Enter(t, now)).queued == r.queued + 1)
  {
    IdleInv(c);
    RunInv(IDLE, c, events);
    var r := Run(IDLE, c, events);
    assert F.Purged(r.fleet.l, now).expiry.Keys == F.Current(r.fleet.l, now);
    hide Count;
  }

  /** One poll: a waiting task wins a lease of its own if and only if fewer than the limit expire
      later than its clock. Otherwise it goes on waiting, or leaves where nobody may queue. */
  lemma PollExactly(r: Replica, c: Config, t: Task, id: F.LeaseId, now: int, ttl: int)
    requires Enabled(r, Try(t, id, now, ttl))
    ensures var s := Step(r, c, Try(t, id, now, ttl));
            && s.queued == r.queued && s.inflight == r.inflight
            && s.fleet.l == F.Acquire(r.fleet.l, now, ttl, c.limit, id)
            && (if |F.Current(r.fleet.l, now)| < c.limit then
                  && s.tasks == r.tasks[t := Won] && s.handles == r.handles[t := Handle(id, r.fleet.l.fence + 1)]
                  && id in s.fleet.l.expiry && s.fleet.l.expiry[id] == now + ttl
                else
                  s.tasks == (if c.maxQueued == 0 then r.tasks[t := Leaving] else r.tasks) && s.handles == r.handles)
  {
    F.AcquiredExactly(r.fleet.l, now, ttl, c.limit, id);
    assert F.CanAcquire(r.fleet.l, now, c.limit) <==> |F.Current(r.fleet.l, now)| < c.limit by {
      assert F.Purged(r.fleet.l, now).expiry.Keys == F.Current(r.fleet.l, now);
    }
    hide F.Purged, F.CanAcquire, F.Acquire, F.Current;
  }

  /** Releasing runs the script with the task's own handle, unless it raised before that, and only
      a release that did not raise leaves the counter to be lowered. */
  lemma ReleasesExactly(r: Replica, c: Config, t: Task, outcome: Outcome)
    requires Enabled(r, Release(t, outcome))
    ensures var s, h := Step(r, c, Release(t, outcome)), r.handles[t];
            && s.queued == r.queued && s.inflight == r.inflight
            && s.tasks == r.tasks[t := if outcome == Done then Returned else Leaked]
            && s.fleet.l == (if outcome == RaisedBefore then r.fleet.l else F.Release(r.fleet.l, h.id, h.token))
  {
  }

  // ---------------------------------------------------------------- a closed gate

  const SINGLE := Config(1, 0)

  const LEAKING := [Enter(0, 1), Try(0, 0, 1, 10), Record(0), Release(0, RaisedAfter)]

  /** A run after which it does: one lease is taken, and releasing it raises after the script. */
  lemma GateCanClose(free: int)
    ensures EnabledRun(IDLE, SINGLE, LEAKING) && AtRest(Run(IDLE, SINGLE, LEAKING))
    ensures var r := Run(IDLE, SINGLE, LEAKING);
            && r.fleet.l.expiry == map[]
            && Local.Rejects(Local.Pool(free, [], r.queued, r.inflight, map[]), Local.Config(1, 1, 0))
  {
    var e := LEAKING;
    var r1, r2, r3 := Queued(), Granted(), Recorded();
    LeakingSteps();
    LeakingRelease();
    hide Step;
    Unroll(r3, SINGLE, e[3], []);
    Unroll(r2, SINGLE, e[2], [e[3]] + []);
    Unroll(r1, SINGLE, e[1], [e[2]] + ([e[3]] + []));
    Unroll(IDLE, SINGLE, e[0], [e[1]] + ([e[2]] + ([e[3]] + [])));
    assert e == [e[0]] + ([e[1]] + ([e[2]] + ([e[3]] + [])));
    LeakClosesLocalGate(SINGLE, e, free);
  }

  function Queued(): Replica {
    Replica(1, 0, map[0 := Waiting], map[], F.IDLE)
  }

  function Granted(): Replica {
    Replica(1, 0, map[0 := Won], map[0 := Handle(0, 1)], HELD)
  }

  function Recorded(): Replica {
    Replica(0, 1, map[0 := Holding], map[0 := Handle(0, 1)], HELD)
  }

  lemma LeakingSteps()
    ensures Step(IDLE, SINGLE, LEAKING[0]) == Queued()
    ensures Step(Queued(), SINGLE, LEAKING[1]) == Granted()
    ensures Step(Granted(), SINGLE, LEAKING[2]) == Recorded()
  {
  }

  lemma LeakingRelease()
    ensures var r := Step(Recorded(), SINGLE, LEAKING[3]); r.tasks == map[0 := Leaked] && r.fleet.l.expiry == map[]
  {
  }

  const HELD := F.Fleet(F.Leases(map[0 := 11], map[0 := 1], 1), {0}, [1])

  lemma Unroll(r: Replica, c: Config, e: Event, rest: seq<Event>)
    requires Enabled(r, e)
    ensures EnabledRun(r, c, [e] + rest) == EnabledRun(Step(r, c, e), c, rest)
    ensures EnabledRun(r, c, [e] + rest) ==> Run(r, c, [e] + rest) == Run(Step(r, c, e), c, rest)
  {
    assert ([e] + rest)[1..] == rest;
  }

  // ---------------------------------------------------------------- the controller

  /** The controller's fields for one scope; `tasks` and `handles` follow its callers. */
  class RedisController {
    const config: Config
    const store: F.FleetStore
    var queued: int
    var inflight: int
    ghost var tasks: map<Task, Phase>
    ghost var handles: map<Task, Handle>
    ghost var fleet: F.Fleet

    ghost predicate Valid()
      reads this, store
    {
      fleet.l == store.Abs()
    }

    ghost function Abs(): Replica
      reads this
    {
      Replica(queued, inflight, tasks, handles, fleet)
    }

    constructor (config: Config)
      ensures Valid() && Abs() == IDLE && this.config == config && fresh(store)
    {
      this.config := config;
      store := new F.FleetStore();
      queued, inflight, tasks, handles, fleet := 0, 0, map[], map[], F.IDLE;
    }

    method Gate(t: Task, now: int) returns (admitted: bool)
      requires Valid() && Enabled(Abs(), Enter(t, now))
      modifies this, store
      ensures Valid() && Abs() == Step(old(Abs()), config, Enter(t, now))
      ensures admitted == !Rejects(old(Abs()), config, now)
    {
      hide F.Purged;
      fleet := F.Step(fleet, config.limit, F.PurgeEvent(now));
      var _, running := store.PurgeScript(now);
      if running >= config.limit && queued >= config.maxQueued {
        return false;
      }
      queued := queued + 1;
      tasks := tasks[t := Waiting];
      return true;
    }

    /** One pass of the polling loop: a handle, or no handle and whether to go on. */
    method TryAcquire(t: Task, id: F.LeaseId, now: int, ttl: int) returns (won: Option<Handle>, again: bool)
      requires Valid() && Enabled(Abs(), Try(t, id, now, ttl))
      modifies this, store
      ensures Valid() && Abs() == Step(old(Abs()), config, Try(t, id, now, ttl))
      ensures won.Some? <==> F.CanAcquire(old(fleet).l, now, config.limit)
      ensures won.Some? ==> handles[t] == won.value && F.Owns(fleet.l, won.value.id, won.value.token)
      ensures again <==> won.None? && config.maxQueued > 0
    {
      hide F.Purged;
      fleet := F.Step(fleet, config.limit, F.AcquireEvent(id, now, ttl));
      var granted, token, _, _ := store.AcquireScript(now, ttl, config.limit, id);
      if granted {
        tasks, handles := tasks[t := Won], handles[t := Handle(id, token)];
        return Some(Handle(id, token)), false;
      }
      if config.maxQueued == 0 {
        tasks := tasks[t := Leaving];
        return None, false;
      }
      return None, true;
    }

    /** The finally block of an acquisition. */
    method Finish(t: Task, acquired: bool)
      requires Valid() && Enabled(Abs(), if acquired then Record(t) else Leave(t))
      modifies this
      ensures Valid() && Abs() == Step(old(Abs()), config, if acquired then Record(t) else Leave(t))
    {
      queued := Max(0, queued - 1);
      if acquired {
        inflight := inflight + 1;
        tasks := tasks[t := Holding];
      } else {
        tasks := tasks - {t};
      }
    }

    /** The release script and, if it did not raise, the counter. */
    method ReleaseLease(t: Task, h: Handle, outcome: Outcome)
      requires Valid() && Enabled(Abs(), Release(t, outcome)) && handles[t] == h
      modifies this, store
      ensures Valid()
      ensures outcome != Done ==> Abs() == Step(old(Abs()), config, Release(t, outcome))
      ensures outcome == Done ==>
        Abs() == Step(Step(old(Abs()), config, Release(t, outcome)), config, Forget(t))
    {
      if outcome != RaisedBefore {
        fleet := F.Step(fleet, config.limit, F.ReleaseEvent(h.id, h.token));
        var _ := store.ReleaseScript(h.id, h.token);
      }
      if outcome != Done {
        tasks := tasks[t := Leaked];
        return;
      }
      inflight := Max(0, inflight - 1);
      tasks := tasks[t := Returned] - {t};
    }
  }
}
