/** Permits inside one process: an asyncio semaphore beside two counters, used by the
    per-tenant controller in local mode and by the global controller.

    All tasks run on one event loop, and one step of the model is what a task does between two
    suspensions. The lock is never held across an await in this mode, so taking it does not
    suspend: an arrival that finds a permit is recorded in the same step, and a release returns
    the permit and lowers the counter in one step. A task suspends only while it waits for the
    semaphore, and there it may be cancelled. */
module LocalAdmission {
  import opened Common

  /** Where a task is that the gate let through. */
  datatype Phase =
    | Waiting      // in the semaphore's queue
    | Granted      // woken with a permit, not yet running again
    | Bouncing     // cancelled after it was woken
    | Leaving      // cancelled while it waited
    | Holding      // recorded as in flight

  /** `permits` is the semaphore's size; the gate compares with the configured limits. */
  datatype Config = Config(permits: nat, maxInflight: nat, maxQueued: nat) {
    predicate Valid() {
      permits == Max(1, maxInflight)
    }
  }

  /** `value` and `waiters` are the semaphore's, `queued` and `inflight` the controller's. */
  datatype Pool = Pool(value: int, waiters: seq<Task>, queued: int, inflight: int, tasks: map<Task, Phase>)

  function Idle(c: Config): Pool {
    Pool(c.permits, [], 0, 0, map[])
  }

  predicate Rejects(p: Pool, c: Config) {
    p.inflight >= c.maxInflight && p.queued >= c.maxQueued
  }

  predicate In(p: Pool, t: Task, phase: Phase) {
    t in p.tasks && p.tasks[t] == phase
  }

  /** Tasks with a permit that they have not yet run with: a handover is under way. */
  const WOKEN := {Granted, Bouncing}

  /** Newcomers queue behind everyone who waits or was just woken. */
  predicate Locked(p: Pool) {
    p.value == 0 || p.waiters != [] || Those(p.tasks, WOKEN) != {}
  }

  // ---------------------------------------------------------------- the semaphore

  function WakeNext(p: Pool): Pool {
    if p.waiters == [] then p
    else p.(value := p.value - 1, waiters := p.waiters[1..], tasks := p.tasks[p.waiters[0] := Granted])
  }

  function WakeAll(p: Pool): (q: Pool)
    ensures q.queued == p.queued && q.inflight == p.inflight
    ensures q.value <= 0 || q.waiters == []
    decreases |p.waiters|
  {
    if p.value > 0 && p.waiters != [] then WakeAll(WakeNext(p)) else p
  }

  function Without(s: seq<Task>, t: Task): (r: seq<Task>)
    ensures forall u :: u in r ==> u in s
    ensures NoDuplicates(s) ==> NoDuplicates(r) && forall u :: u in r <==> u in s && u != t
  {
    if s == [] then []
    else
      var rest := Without(s[1..], t);
      DistinctTail(s);
      DistinctTail([s[0]] + rest);
      if s[0] == t then s[1..] else [s[0]] + rest
  }

  // ---------------------------------------------------------------- one step

  datatype Event =
    | Arrive(t: Task)      // gate, and recording if a permit is free
    | Cancel(t: Task)      // cancellation reaches a suspended task
    | Resume(t: Task)      // a woken or cancelled task runs again
    | Release(t: Task)     // a holder releases
    | Surplus              // somebody releases who holds nothing any more

  predicate Enabled(p: Pool, e: Event) {
    match e
    case Arrive(t) => t !in p.tasks
    case Cancel(t) => In(p, t, Waiting) || In(p, t, Granted)
    case Resume(t) => In(p, t, Granted) || In(p, t, Bouncing) || In(p, t, Leaving)
    case Release(t) => In(p, t, Holding)
    case Surplus => true
  }

  function Step(p: Pool, c: Config, e: Event): Pool {
    match e
    case Arrive(t) =>
      if Rejects(p, c) then p
      else if Locked(p) then
        p.(queued := p.queued + 1, waiters := p.waiters + [t], tasks := p.tasks[t := Waiting])
      else
        p.(value := p.value - 1, inflight := p.inflight + 1, tasks := p.tasks[t := Holding])
    case Cancel(t) =>
      if In(p, t, Waiting) then p.(waiters := Without(p.waiters, t), tasks := p.tasks[t := Leaving])
      else p.(tasks := p.tasks[t := Bouncing])
    case Resume(t) =>
      if In(p, t, Granted) then
        var q := WakeAll(p.(tasks := p.tasks[t := Holding]));
        q.(queued := Max(0, q.queued - 1), inflight := q.inflight + 1)
      else
        var back := if In(p, t, Bouncing) then 1 else 0;
        var q := WakeAll(p.(value := p.value + back, tasks := p.tasks - {t}));
        q.(queued := Max(0, q.queued - 1))
    case Release(t) =>
      var q := WakeNext(p.(value := p.value + 1, tasks := p.tasks - {t}));
      q.(inflight := Max(0, q.inflight - 1))
    case Surplus =>
      var q := WakeNext(p.(value := p.value + 1));
      q.(inflight := Max(0, q.inflight - 1))
  }

  /** The releases of a run that nobody's permit stood behind. */
  function Surpluses(events: seq<Event>): nat {
    if events == [] then 0 else (if events[0].Surplus? then 1 else 0) + Surpluses(events[1..])
  }

  function Run(p: Pool, c: Config, events: seq<Event>): Pool
    decreases |events|
  {
    if events == [] then p else Run(Step(p, c, events[0]), c, events[1..])
  }

  predicate EnabledRun(p: Pool, c: Config, events: seq<Event>)
    decreases |events|
  {
    events == [] || (Enabled(p, events[0]) && EnabledRun(Step(p, c, events[0]), c, events[1..]))
  }

  // ---------------------------------------------------------------- what every step keeps

  const QUEUED := {Waiting, Granted, Bouncing, Leaving}
  const INFLIGHT := {Holding}
  const PERMITTED := {Granted, Bouncing, Holding}

  /** After `k` surplus releases there are `k` permits too many, and the in-flight counter is at
      most `k` too low. Both counters are off by what the running task has yet to record. */
  ghost predicate Books(p: Pool, c: Config, k: nat, dq: int, di: int) {
    && p.queued == Count(p.tasks, QUEUED) + dq
    && Count(p.tasks, INFLIGHT) - k <= p.inflight - di <= Count(p.tasks, INFLIGHT) && p.inflight >= 0
    && p.value + Count(p.tasks, PERMITTED) == c.permits + k && p.value >= 0
  }

  ghost predicate Lined(p: Pool) {
    NoDuplicates(p.waiters) && forall t :: t in p.waiters <==> In(p, t, Waiting)
  }

  /** A free permit with tasks waiting for one is on its way: a woken task will pass it on. */
  ghost predicate HandedOn(p: Pool) {
    p.value > 0 && p.waiters != [] ==> Those(p.tasks, WOKEN) != {}
  }

  ghost predicate Inv(p: Pool, c: Config, k: nat) {
    Books(p, c, k, 0, 0) && Lined(p) && HandedOn(p)
  }

  lemma Moved(tasks: map<Task, Phase>, t: Task, phase: Phase)
    ensures forall s | s in [QUEUED, INFLIGHT, PERMITTED] ::
      Count(tasks[t := phase], s) == Count(tasks, s) - One(t in tasks && tasks[t] in s) + One(phase in s)
  {
    CountMoved(tasks, QUEUED, t, phase);
    CountMoved(tasks, INFLIGHT, t, phase);
    CountMoved(tasks, PERMITTED, t, phase);
  }

  lemma Gone(tasks: map<Task, Phase>, t: Task)
    ensures forall s | s in [QUEUED, INFLIGHT, PERMITTED] ::
      Count(tasks - {t}, s) == Count(tasks, s) - One(t in tasks && tasks[t] in s)
  {
    CountGone(tasks, QUEUED, t);
    CountGone(tasks, INFLIGHT, t);
    CountGone(tasks, PERMITTED, t);
  }

  /** Names the three sets, so that the two lemmas above can be used for them. */
  lemma Sets()
    ensures QUEUED in [QUEUED, INFLIGHT, PERMITTED] && INFLIGHT in [QUEUED, INFLIGHT, PERMITTED]
    ensures PERMITTED in [QUEUED, INFLIGHT, PERMITTED]
  {
    var s := [QUEUED, INFLIGHT, PERMITTED];
    assert s[0] == QUEUED && s[1] == INFLIGHT && s[2] == PERMITTED;
  }

  lemma WakeNextKeeps(p: Pool, c: Config, k: nat, dq: int, di: int)
    requires Books(p, c, k, dq, di) && Lined(p) && (p.waiters != [] ==> p.value > 0)
    ensures Books(WakeNext(p), c, k, dq, di) && Lined(WakeNext(p))
    ensures p.waiters != [] ==> Those(WakeNext(p).tasks, WOKEN) != {}
  {
    if p.waiters != [] {
      var t := p.waiters[0];
      assert p.waiters == [t] + p.waiters[1..];
      assert In(p, t, Waiting);
      assert t in Those(WakeNext(p).tasks, WOKEN);
      DistinctTail(p.waiters);
      Moved(p.tasks, t, Granted);
      Sets();
      hide Count, Those;
    }
  }

  lemma {:induction false} WakeAllKeeps(p: Pool, c: Config, k: nat, dq: int, di: int)
    requires Books(p, c, k, dq, di) && Lined(p)
    ensures Books(WakeAll(p), c, k, dq, di) && Lined(WakeAll(p)) && HandedOn(WakeAll(p))
    decreases |p.waiters|
  {
    hide Books, Lined, WakeNext;
    if p.value > 0 && p.waiters != [] {
      WakeNextKeeps(p, c, k, dq, di);
      WakeNextShorter(p);
      WakeAllKeeps(WakeNext(p), c, k, dq, di);
    }
  }

  lemma FirstWaits(p: Pool)
    requires Lined(p) && p.waiters != []
    ensures In(p, p.waiters[0], Waiting)
  {
    assert p.waiters[0] in p.waiters;
  }

  lemma WakeNextShorter(p: Pool)
    requires p.waiters != []
    ensures |WakeNext(p).waiters| < |p.waiters|
  {
  }

  lemma ArriveInv(p: Pool, c: Config, k: nat, t: Task)
    requires Inv(p, c, k) && t !in p.tasks
    ensures Inv(Step(p, c, Arrive(t)), c, k)
  {
    Sets();
    if Rejects(p, c) {
    } else if Locked(p) {
      QueueInv(p, c, k, t);
    } else {
      Moved(p.tasks, t, Holding);
      hide Count, Those;
    }
  }

  lemma QueueInv(p: Pool, c: Config, k: nat, t: Task)
    requires Inv(p, c, k) && t !in p.tasks && Locked(p)
    ensures Inv(p.(queued := p.queued + 1, waiters := p.waiters + [t], tasks := p.tasks[t := Waiting]), c, k)
  {
    assert Those(p.tasks[t := Waiting], WOKEN) == Those(p.tasks, WOKEN);
    Moved(p.tasks, t, Waiting);
    Sets();
    DistinctAppend(p.waiters, t);
    hide Count, Those;
  }

  lemma CancelInv(p: Pool, c: Config, k: nat, t: Task)
    requires Inv(p, c, k) && Enabled(p, Cancel(t))
    ensures Inv(Step(p, c, Cancel(t)), c, k)
  {
    var q := Step(p, c, Cancel(t));
    Moved(p.tasks, t, Leaving);
    Moved(p.tasks, t, Bouncing);
    Sets();
    forall u | u in Those(p.tasks, WOKEN) ensures u in Those(q.tasks, WOKEN) { }
    hide Count, Those;
  }

  lemma ResumeInv(p: Pool, c: Config, k: nat, t: Task)
    requires Inv(p, c, k) && Enabled(p, Resume(t))
    ensures Inv(Step(p, c, Resume(t)), c, k) && Step(p, c, Resume(t)).queued == p.queued - 1
  {
    Moved(p.tasks, t, Holding);
    Gone(p.tasks, t);
    Sets();
    hide Count, Those, WakeAll;
    if In(p, t, Granted) {
      WakeAllKeeps(p.(tasks := p.tasks[t := Holding]), c, k, 1, -1);
    } else {
      var back := if In(p, t, Bouncing) then 1 else 0;
      WakeAllKeeps(p.(value := p.value + back, tasks := p.tasks - {t}), c, k, 1, 0);
    }
  }

  lemma ReleaseInv(p: Pool, c: Config, k: nat, t: Task)
    requires Inv(p, c, k) && Enabled(p, Release(t))
    ensures Inv(Step(p, c, Release(t)), c, k)
    ensures k == 0 ==> Step(p, c, Release(t)).inflight == p.inflight - 1
  {
    Gone(p.tasks, t);
    Sets();
    hide Count, Those;
    if p.inflight > 0 {
      WakeNextKeeps(p.(value := p.value + 1, tasks := p.tasks - {t}), c, k, 0, 1);
    } else {
      WakeNextKeeps(p.(value := p.value + 1, tasks := p.tasks - {t}), c, k, 0, 0);
    }
  }

  /** A surplus release adds a permit, and unless the counter is at zero takes a task off it. */
  lemma SurplusInv(p: Pool, c: Config, k: nat)
    requires Inv(p, c, k)
    ensures Inv(Step(p, c, Surplus), c, k + 1)
  {
    hide Count, Those;
    if p.inflight > 0 {
      WakeNextKeeps(p.(value := p.value + 1), c, k + 1, 0, 1);
    } else {
      WakeNextKeeps(p.(value := p.value + 1), c, k + 1, 0, 0);
    }
  }

  lemma StepInv(p: Pool, c: Config, k: nat, e: Event)
    requires Inv(p, c, k) && Enabled(p, e)
    ensures Inv(Step(p, c, e), c, k + Surpluses([e]))
    ensures e.Resume? ==> Step(p, c, e).queued == p.queued - 1
    ensures e.Release? && k == 0 ==> Step(p, c, e).inflight == p.inflight - 1
  {
    hide Inv, Step;
    match e
    case Arrive(t) => ArriveInv(p, c, k, t);
    case Cancel(t) => CancelInv(p, c, k, t);
    case Resume(t) => ResumeInv(p, c, k, t);
    case Release(t) => ReleaseInv(p, c, k, t);
    case Surplus => SurplusInv(p, c, k);
  }

  lemma IdleInv(c: Config)
    ensures Inv(Idle(c), c, 0)
  {
    assert forall s: set<Phase> :: Those(map[], s) == {};
  }

  lemma {:induction false} RunInv(p: Pool, c: Config, k: nat, events: seq<Event>)
    requires Inv(p, c, k) && EnabledRun(p, c, events)
    ensures Inv(Run(p, c, events), c, k + Surpluses(events))
    decreases |events|
  {
    if events != [] {
      hide Inv, Step, Enabled;
      StepInv(p, c, k, events[0]);
      RunInv(Step(p, c, events[0]), c, k + Surpluses([events[0]]), events[1..]);
    }
  }

  // ---------------------------------------------------------------- theorems over whole runs

  /** Conservation: after any interleaving, with any cancellations and `k` surplus releases, free
      permits plus permit owners are the semaphore's size plus k, the queue counter is exact and
      the in-flight counter at most k too low. Without surplus releases everything is exact. */
  lemma PermitsConserved(c: Config, events: seq<Event>)
    requires EnabledRun(Idle(c), c, events)
    ensures var p, k := Run(Idle(c), c, events), Surpluses(events);
            && p.value + Count(p.tasks, PERMITTED) == c.permits + k && p.value >= 0
            && p.queued == Count(p.tasks, QUEUED)
            && 0 <= p.inflight && Count(p.tasks, INFLIGHT) - k <= p.inflight <= Count(p.tasks, INFLIGHT)
            && Count(p.tasks, INFLIGHT) <= c.permits + k
            && (k == 0 ==> p.inflight == Count(p.tasks, INFLIGHT) <= c.permits)
  {
    IdleInv(c);
    RunInv(Idle(c), c, 0, events);
    var p := Run(Idle(c), c, events);
    SubsetIsNoLarger(Those(p.tasks, INFLIGHT), Those(p.tasks, PERMITTED));
  }

  /** When all tasks have ended, only the permits of surplus releases are left over: the pool is
      as it was at the start if and only if there were none. */
  lemma EndsAsItStarted(c: Config, events: seq<Event>)
    requires EnabledRun(Idle(c), c, events) && Run(Idle(c), c, events).tasks == map[]
    ensures Run(Idle(c), c, events) == Idle(c).(value := c.permits + Surpluses(events))
    ensures Run(Idle(c), c, events) == Idle(c) <==> Surpluses(events) == 0
  {
    IdleInv(c);
    RunInv(Idle(c), c, 0, events);
    var p := Run(Idle(c), c, events);
    assert forall s: set<Phase> :: Those(map[], s) == {};
    if p.waiters != [] { FirstWaits(p); }
  }

  /** No wake-up is lost: whenever some task has not ended, a step other than a new arrival or
      a cancellation is possible. */
  lemma NeverStuck(c: Config, events: seq<Event>)
    requires c.permits > 0 && EnabledRun(Idle(c), c, events)
    requires Run(Idle(c), c, events).tasks != map[]
    ensures exists t :: Enabled(Run(Idle(c), c, events), Resume(t)) || Enabled(Run(Idle(c), c, events), Release(t))
  {
    IdleInv(c);
    RunInv(Idle(c), c, 0, events);
    var p := Run(Idle(c), c, events);
    var t :| t in p.tasks;
    if In(p, t, Waiting) {
      if p.value > 0 {
        assert t in p.waiters;
        var u :| u in Those(p.tasks, WOKEN);
        assert Enabled(p, Resume(u));
      } else {
        assert Those(p.tasks, PERMITTED) != {};
        var u :| u in Those(p.tasks, PERMITTED);
        assert Enabled(p, Resume(u)) || Enabled(p, Release(u));
      }
    } else {
      assert Enabled(p, Resume(t)) || Enabled(p, Release(t));
    }
  }

  /** A rejection means that at least as many tasks are in flight as the semaphore's size and
      the queue has reached its limit. Without surplus releases the gate rejects exactly when
      every permit belongs to a recorded task, none is free or on its way, and the queue has
      reached its limit. */
  lemma RejectionMeansFull(c: Config, events: seq<Event>)
    requires c.permits == c.maxInflight && EnabledRun(Idle(c), c, events)
    ensures var p := Run(Idle(c), c, events);
            && (Rejects(p, c) ==> Count(p.tasks, INFLIGHT) >= c.permits && Count(p.tasks, QUEUED) >= c.maxQueued)
            && (Surpluses(events) == 0 ==>
                  (Rejects(p, c) <==>
                     Count(p.tasks, INFLIGHT) == c.permits && p.value == 0 && Those(p.tasks, WOKEN) == {}
                     && Count(p.tasks, QUEUED) >= c.maxQueued))
  {
    IdleInv(c);
    RunInv(Idle(c), c, 0, events);
    var p := Run(Idle(c), c, events);
    PermitsConserved(c, events);
    PermittedParts(p.tasks);
  }

  lemma PermittedParts(tasks: map<Task, Phase>)
    ensures Count(tasks, PERMITTED) == Count(tasks, INFLIGHT) + Count(tasks, WOKEN)
  {
    assert Those(tasks, PERMITTED) == Those(tasks, INFLIGHT) + Those(tasks, WOKEN);
    assert Those(tasks, INFLIGHT) !! Those(tasks, WOKEN);
  }

  // ---------------------------------------------------------------- arrivals and wake-ups, exactly

  /** In every reachable state the gate turns a new task away if and only if the in-flight counter
      and the number of queued tasks have both reached their limits. One that passes is in
      flight at once if a permit is free and nobody waits or was just woken, and else queues
      behind all that wait. */
  lemma ArrivesExactly(c: Config, events: seq<Event>, t: Task)
    requires EnabledRun(Idle(c), c, events) && t !in Run(Idle(c), c, events).tasks
    ensures var p := Run(Idle(c), c, events);
            var q := Step(p, c, Arrive(t));
            && (t !in q.tasks <==> p.inflight >= c.maxInflight && Count(p.tasks, QUEUED) >= c.maxQueued)
            && (Surpluses(events) == 0 ==> p.inflight == Count(p.tasks, INFLIGHT))
            && (t in q.tasks ==>
                  if p.value > 0 && forall u | u in p.tasks :: p.tasks[u] == Holding || p.tasks[u] == Leaving then
                    q == p.(value := p.value - 1, inflight := p.inflight + 1, tasks := p.tasks[t := Holding])
                  else
                    q == p.(queued := p.queued + 1, waiters := p.waiters + [t], tasks := p.tasks[t := Waiting]))
  {
    IdleInv(c);
    RunInv(Idle(c), c, 0, events);
    PermitsConserved(c, events);
    LockedExactly(Run(Idle(c), c, events));
    hide Count, Run, Locked;
  }

  lemma LockedExactly(p: Pool)
    requires Lined(p) && p.value >= 0
    ensures Locked(p) <==> !(p.value > 0 && forall u | u in p.tasks :: p.tasks[u] == Holding || p.tasks[u] == Leaving)
  {
    if p.waiters != [] { FirstWaits(p); }
    if u :| u in p.tasks && p.tasks[u] != Holding && p.tasks[u] != Leaving {
      assert u in p.waiters || u in Those(p.tasks, WOKEN);
    }
  }

  function Least(a: int, b: int): int {
    if a < b then a else b
  }

  /** The first `n` waiters were woken and the others go on waiting in their order. */
  ghost predicate Woke(waiters: seq<Task>, left: seq<Task>, tasks: map<Task, Phase>, n: int) {
    && 0 <= n <= |waiters| && left == waiters[n..]
    && (forall i | 0 <= i < n :: waiters[i] in tasks && tasks[waiters[i]] == Granted)
  }

  lemma {:induction false} WakeAllInOrder(p: Pool)
    requires NoDuplicates(p.waiters) && p.value >= 0
    ensures Woke(p.waiters, WakeAll(p).waiters, WakeAll(p).tasks, Least(p.value, |p.waiters|))
    ensures WakeAll(p).value == p.value - Least(p.value, |p.waiters|)
    decreases |p.waiters|
  {
    if p.value > 0 && p.waiters != [] {
      var first, q := p.waiters[0], WakeNext(p);
      DistinctTail(p.waiters);
      WakeAllInOrder(q);
      UnwokenKept(q, first);
      forall i | 0 <= i < Least(p.value, |p.waiters|) ensures In(WakeAll(p), p.waiters[i], Granted) {
        if i > 0 { assert p.waiters[i] == q.waiters[i - 1]; }
      }
    }
  }

  /** Waking touches waiters only. */
  lemma {:induction false} UnwokenKept(p: Pool, t: Task)
    requires t !in p.waiters
    ensures t in WakeAll(p).tasks <==> t in p.tasks
    ensures t in p.tasks ==> WakeAll(p).tasks[t] == p.tasks[t]
    decreases |p.waiters|
  {
    if p.value > 0 && p.waiters != [] {
      assert forall u | u in p.waiters[1..] :: u in p.waiters;
      UnwokenKept(WakeNext(p), t);
    }
  }

  /** First come, first served: a release wakes the first waiter, a woken or cancelled task that
      runs again passes all free permits to the first waiters, and a cancelled waiter leaves the
      others in their order. */
  lemma WakesInOrder(p: Pool, c: Config, k: nat, e: Event)
    requires Inv(p, c, k) && Enabled(p, e) && !e.Arrive?
    ensures var q := Step(p, c, e);
            match e
            case Release(_) => Woke(p.waiters, q.waiters, q.tasks, Least(1, |p.waiters|))
            case Surplus => Woke(p.waiters, q.waiters, q.tasks, Least(1, |p.waiters|))
            case Resume(t) =>
              Woke(p.waiters, q.waiters, q.tasks, Least(p.value + (if p.tasks[t] == Bouncing then 1 else 0), |p.waiters|))
            case Cancel(t) =>
              if p.tasks[t] == Waiting then
                exists i :: 0 <= i < |p.waiters| && p.waiters[i] == t && q.waiters == p.waiters[..i] + p.waiters[i + 1..]
              else q.waiters == p.waiters
  {
    hide Woke, WakeNext, WakeAll, Books, HandedOn, Without;
    match e
    case Release(t) =>
      FirstWoken(p.(value := p.value + 1, tasks := p.tasks - {t}));
    case Surplus =>
      FirstWoken(p.(value := p.value + 1));
    case Resume(t) => ResumesInOrder(p, c, k, t);
    case Cancel(t) =>
      if p.tasks[t] == Waiting {
        var i := WithoutAt(p.waiters, t);
      }
  }

  /** Cancellation moves no permit and no counter: that is left to the task when it runs. */
  lemma CancelsExactly(p: Pool, c: Config, t: Task)
    requires Enabled(p, Cancel(t))
    ensures var q := Step(p, c, Cancel(t));
            && q.value == p.value && q.queued == p.queued && q.inflight == p.inflight
            && q.tasks == p.tasks[t := if p.tasks[t] == Waiting then Leaving else Bouncing]
  {
  }

  lemma ResumesInOrder(p: Pool, c: Config, k: nat, t: Task)
    requires Inv(p, c, k) && Enabled(p, Resume(t))
    ensures var q := Step(p, c, Resume(t));
            Woke(p.waiters, q.waiters, q.tasks, Least(p.value + (if p.tasks[t] == Bouncing then 1 else 0), |p.waiters|))
  {
    LineOf(p, c, k, t);
    hide Inv, NoDuplicates, Woke, WakeAll, Least;
    if In(p, t, Granted) {
      WakeAllInOrder(p.(tasks := p.tasks[t := Holding]));
    } else {
      var back := if In(p, t, Bouncing) then 1 else 0;
      WakeAllInOrder(p.(value := p.value + back, tasks := p.tasks - {t}));
    }
  }

  lemma LineOf(p: Pool, c: Config, k: nat, t: Task)
    requires Inv(p, c, k)
    ensures NoDuplicates(p.waiters) && p.value >= 0
  {
    hide Count;
  }

  lemma FirstWoken(p: Pool)
    ensures Woke(p.waiters, WakeNext(p).waiters, WakeNext(p).tasks, Least(1, |p.waiters|))
  {
  }

  lemma {:induction false} WithoutAt(s: seq<Task>, t: Task) returns (i: nat)
    requires t in s
    ensures i < |s| && s[i] == t && Without(s, t) == s[..i] + s[i + 1..]
    decreases |s|
  {
    if s[0] == t {
      i := 0;
    } else {
      var j := WithoutAt(s[1..], t);
      i := j + 1;
      assert s[..i] == [s[0]] + s[1..][..j] && s[i + 1..] == s[1..][j + 1..];
    }
  }

  // ---------------------------------------------------------------- the queue limit

  /** The gate lets a task queue beyond the limit only while a handover is under way: a permit
      was passed to a woken task that has not run yet and is not counted in flight. */
  lemma OvershootNeedsHandover(c: Config, events: seq<Event>)
    requires c.Valid() && EnabledRun(Idle(c), c, events)
    ensures var p := Run(Idle(c), c, events);
            !Rejects(p, c) && Locked(p) && p.queued >= c.maxQueued
            ==> p.inflight < c.maxInflight && Those(p.tasks, WOKEN) != {}
  {
    IdleInv(c);
    RunInv(Idle(c), c, 0, events);
    var p := Run(Idle(c), c, events);
    PermittedParts(p.tasks);
  }

  /** The queue limit is a bound if and only if it is zero or nothing may be in flight.
      Otherwise any number of tasks can be queued at once. */
  lemma QueueLimitHolds(c: Config)
    requires c.Valid()
    ensures (forall events | EnabledRun(Idle(c), c, events) :: Run(Idle(c), c, events).queued <= c.maxQueued)
            <==> c.maxInflight == 0 || c.maxQueued == 0
  {
    if c.maxInflight == 0 || c.maxQueued == 0 {
      forall events | EnabledRun(Idle(c), c, events) ensures Run(Idle(c), c, events).queued <= c.maxQueued {
        IdleInv(c);
        QueueStaysBelow(Idle(c), c, 0, events);
      }
    } else {
      var events := QueueGrows(c, c.maxQueued);
      assert EnabledRun(Idle(c), c, events) && Run(Idle(c), c, events).queued > c.maxQueued;
    }
  }

  /** Either arrivals are all turned away at the limit, or nobody ever queues. */
  ghost predicate Tame(p: Pool, c: Config) {
    p.queued <= if c.maxInflight == 0 then c.maxQueued else 0
  }

  lemma {:induction false} QueueStaysBelow(p: Pool, c: Config, k: nat, events: seq<Event>)
    requires c.Valid() && (c.maxInflight == 0 || c.maxQueued == 0)
    requires Inv(p, c, k) && Tame(p, c) && EnabledRun(p, c, events)
    ensures Tame(Run(p, c, events), c)
    decreases |events|
  {
    if events != [] {
      hide Inv, Step, Tame;
      StepInv(p, c, k, events[0]);
      TameStep(p, c, k, events[0]);
      QueueStaysBelow(Step(p, c, events[0]), c, k + Surpluses([events[0]]), events[1..]);
    }
  }

  lemma TameStep(p: Pool, c: Config, k: nat, e: Event)
    requires c.Valid() && (c.maxInflight == 0 || c.maxQueued == 0) && Inv(p, c, k) && Tame(p, c) && Enabled(p, e)
    ensures Tame(Step(p, c, e), c)
  {
    if c.maxInflight > 0 {
      assert Those(p.tasks, QUEUED) == {};
      NobodyQueues(p, c, k);
    }
  }

  lemma NobodyQueues(p: Pool, c: Config, k: nat)
    requires c.Valid() && c.maxInflight > 0 && Inv(p, c, k) && Those(p.tasks, QUEUED) == {}
    ensures p.waiters == [] && Those(p.tasks, WOKEN) == {} && p.value + p.inflight >= c.maxInflight
    ensures forall t | t in p.tasks :: p.tasks[t] == Holding
  {
    forall t | t in p.tasks ensures p.tasks[t] == Holding {
      assert t !in Those(p.tasks, QUEUED);
    }
    PermittedParts(p.tasks);
    if p.waiters != [] { FirstWaits(p); }
  }

  function Arrivals(first: Task, n: nat): seq<Event>
    decreases n
  {
    if n == 0 then [] else [Arrive(first)] + Arrivals(first + 1, n - 1)
  }

  /** Fill all permits, let one task queue, release a permit to it, and before it runs let any
      number of tasks arrive: the gate sees a task less in flight than permits are taken. */
  lemma QueueGrows(c: Config, n: nat) returns (events: seq<Event>)
    requires c.Valid() && c.maxInflight > 0 && c.maxQueued > 0
    ensures EnabledRun(Idle(c), c, events) && Run(Idle(c), c, events).queued == n + 1
  {
    var m := c.maxInflight;
    var filled := Filling(Idle(c), c, 0, m);
    var full := Step(filled, c, Arrive(m));
    var handover := Step(full, c, Release(0));
    assert In(handover, m, Granted);
    assert handover.waiters == [] && handover.inflight == m - 1 && handover.queued == 1;
    assert m in Those(handover.tasks, WOKEN);
    Queueing(handover, c, m + 1, n, m);
    var tail := [Arrive(m)] + ([Release(0)] + Arrivals(m + 1, n));
    Unroll(full, c, Release(0), Arrivals(m + 1, n));
    Unroll(filled, c, Arrive(m), [Release(0)] + Arrivals(m + 1, n));
    RunConcat(Idle(c), c, Arrivals(0, m), tail);
    events := Arrivals(0, m) + tail;
  }

  lemma {:induction false} Filling(p: Pool, c: Config, first: Task, n: nat) returns (filled: Pool)
    requires p.value >= n && 0 <= p.inflight && p.inflight + n <= c.maxInflight
    requires p.waiters == [] && p.queued == 0
    requires forall t: Task :: t in p.tasks <==> t < first
    requires forall t | t in p.tasks :: p.tasks[t] == Holding
    ensures EnabledRun(p, c, Arrivals(first, n)) && filled == Run(p, c, Arrivals(first, n))
    ensures filled.value == p.value - n && filled.inflight == p.inflight + n
    ensures filled.waiters == [] && filled.queued == 0
    ensures forall t: Task :: t in filled.tasks <==> t < first + n
    ensures forall t | t in filled.tasks :: filled.tasks[t] == Holding
    decreases n
  {
    if n == 0 {
      filled := p;
    } else {
      assert Those(p.tasks, WOKEN) == {};
      Unroll(p, c, Arrive(first), Arrivals(first + 1, n - 1));
      filled := Filling(Step(p, c, Arrive(first)), c, first + 1, n - 1);
    }
  }

  lemma {:induction false} Queueing(p: Pool, c: Config, first: Task, n: nat, woken: Task)
    requires p.inflight < c.maxInflight && In(p, woken, Granted) && forall t | t in p.tasks :: t < first
    ensures EnabledRun(p, c, Arrivals(first, n)) && Run(p, c, Arrivals(first, n)).queued == p.queued + n
    decreases n
  {
    if n > 0 {
      assert woken in Those(p.tasks, WOKEN);
      Unroll(p, c, Arrive(first), Arrivals(first + 1, n - 1));
      Queueing(Step(p, c, Arrive(first)), c, first + 1, n - 1, woken);
    }
  }

  // ---------------------------------------------------------------- the in-flight limit

  /** The requests in flight, whatever the counter says. */
  function InFlight(p: Pool): nat {
    Count(p.tasks, INFLIGHT)
  }

  /** While every holder releases once, the in-flight limit bounds the requests in flight, and the
      counter with them, if and only if it is positive or nobody may queue: a limit of zero still
      makes a semaphore of one permit. */
  lemma InflightLimitHolds(c: Config)
    requires c.Valid()
    ensures (forall events | EnabledRun(Idle(c), c, events) && Surpluses(events) == 0 ::
               Run(Idle(c), c, events).inflight == InFlight(Run(Idle(c), c, events)) <= c.maxInflight)
            <==> c.maxInflight > 0 || c.maxQueued == 0
  {
    if c.maxInflight > 0 || c.maxQueued == 0 {
      forall events | EnabledRun(Idle(c), c, events) && Surpluses(events) == 0
        ensures Run(Idle(c), c, events).inflight == InFlight(Run(Idle(c), c, events)) <= c.maxInflight
      {
        PermitsConserved(c, events);
        if c.maxInflight == 0 { NothingEnters(Idle(c), c, events); }
      }
    } else {
      OneEnters(c);
      PermitsConserved(c, [Arrive(0)]);
    }
  }

  lemma OneEnters(c: Config)
    requires c.permits > 0 && (c.maxInflight > 0 || c.maxQueued > 0)
    ensures EnabledRun(Idle(c), c, [Arrive(0)]) && Surpluses([Arrive(0)]) == 0
    ensures Run(Idle(c), c, [Arrive(0)])
         == Idle(c).(value := c.permits - 1, inflight := 1, tasks := map[0 := Holding])
    ensures InFlight(Run(Idle(c), c, [Arrive(0)])) == 1
  {
    assert Those(Idle(c).tasks, WOKEN) == {};
    Unroll(Idle(c), c, Arrive(0), []);
    assert [Arrive(0)] + [] == [Arrive(0)];
    assert Those(map[0 := Holding], INFLIGHT) == {0};
  }

  lemma {:induction false} NothingEnters(p: Pool, c: Config, events: seq<Event>)
    requires c.maxInflight == 0 && c.maxQueued == 0 && EnabledRun(p, c, events)
    requires p.tasks == map[] && p.waiters == [] && p.queued >= 0 && p.inflight == 0
    ensures Run(p, c, events).inflight == 0 && Run(p, c, events).tasks == map[]
    ensures InFlight(Run(p, c, events)) == 0
    decreases |events|
  {
    if events == [] {
      assert Those(p.tasks, INFLIGHT) == {};
    } else {
      NothingEnters(Step(p, c, events[0]), c, events[1..]);
    }
  }

  /** With surplus releases at any time the limit bounds the requests in flight if and only if
      nothing is let through at all. */
  lemma InflightLimitUnderSurplus(c: Config)
    requires c.Valid()
    ensures (forall events | EnabledRun(Idle(c), c, events) :: InFlight(Run(Idle(c), c, events)) <= c.maxInflight)
            <==> c.maxInflight == 0 && c.maxQueued == 0
  {
    if c.maxInflight == 0 && c.maxQueued == 0 {
      forall events | EnabledRun(Idle(c), c, events) ensures InFlight(Run(Idle(c), c, events)) <= c.maxInflight {
        NothingEnters(Idle(c), c, events);
      }
    } else if c.maxInflight == 0 {
      OneEnters(c);
    } else {
      var events := SurplusAdmitsMore(c, 1);
      assert EnabledRun(Idle(c), c, events) && InFlight(Run(Idle(c), c, events)) > c.maxInflight;
    }
  }

  /** The counter alone, which surplus releases leave too low, keeps to the limit if and only if
      nobody may queue. */
  lemma CounterLimitUnderSurplus(c: Config)
    requires c.Valid()
    ensures (forall events | EnabledRun(Idle(c), c, events) :: Run(Idle(c), c, events).inflight <= c.maxInflight)
            <==> c.maxQueued == 0
  {
    if c.maxQueued == 0 {
      forall events | EnabledRun(Idle(c), c, events) ensures Run(Idle(c), c, events).inflight <= c.maxInflight {
        IdleInv(c);
        InflightStaysBelow(Idle(c), c, 0, events);
      }
    } else if c.maxInflight == 0 {
      OneEnters(c);
    } else {
      var events := Overfill(c);
      assert EnabledRun(Idle(c), c, events) && Run(Idle(c), c, events).inflight > c.maxInflight;
    }
  }

  lemma {:induction false} InflightStaysBelow(p: Pool, c: Config, k: nat, events: seq<Event>)
    requires c.Valid() && c.maxQueued == 0 && Inv(p, c, k) && Tame(p, c) && EnabledRun(p, c, events)
    requires p.inflight <= c.maxInflight
    ensures Run(p, c, events).inflight <= c.maxInflight
    decreases |events|
  {
    if events != [] {
      StepInv(p, c, k, events[0]);
      TameStep(p, c, k, events[0]);
      NobodyResumes(p, c, k);
      hide Inv;
      InflightStaysBelow(Step(p, c, events[0]), c, k + Surpluses([events[0]]), events[1..]);
    }
  }

  lemma NobodyResumes(p: Pool, c: Config, k: nat)
    requires Inv(p, c, k) && p.queued <= 0
    ensures forall t :: !Enabled(p, Resume(t)) && !Enabled(p, Cancel(t))
  {
    assert Those(p.tasks, QUEUED) == {};
    forall t ensures !Enabled(p, Resume(t)) && !Enabled(p, Cancel(t)) {
      assert t !in Those(p.tasks, QUEUED);
    }
  }

  /** One surplus release, then as many arrivals as there are permits: the gate lets the last one
      in because it may queue, and it finds the surplus permit. */
  lemma Overfill(c: Config) returns (events: seq<Event>)
    requires c.Valid() && c.maxInflight > 0 && c.maxQueued > 0
    ensures EnabledRun(Idle(c), c, events) && Run(Idle(c), c, events).inflight == c.maxInflight + 1
  {
    var more := Step(Idle(c), c, Surplus);
    var m := c.maxInflight;
    var filled := Filling(more, c, 0, m);
    assert Those(filled.tasks, WOKEN) == {};
    Unroll(filled, c, Arrive(m), []);
    RunConcat(more, c, Arrivals(0, m), [Arrive(m)] + []);
    Unroll(Idle(c), c, Surplus, Arrivals(0, m) + ([Arrive(m)] + []));
    events := [Surplus] + (Arrivals(0, m) + ([Arrive(m)] + []));
  }

  /** Each surplus release lets one more task run at once: `k` of them are followed by a run in
      which as many hold a permit as the semaphore's size and k more. */
  lemma SurplusAdmitsMore(c: Config, k: nat) returns (events: seq<Event>)
    requires c.Valid() && c.maxInflight > 0
    ensures EnabledRun(Idle(c), c, events) && Surpluses(events) == k
    ensures InFlight(Run(Idle(c), c, events)) == c.permits + k
  {
    var holders, _ := MoreHolders(c, k);
    events := holders;
    PermitsConserved(c, events);
    var p := Run(Idle(c), c, events);
    assert Those(p.tasks, PERMITTED) == Those(p.tasks, INFLIGHT);
  }

  lemma {:induction false} MoreHolders(c: Config, k: nat) returns (events: seq<Event>, p: Pool)
    requires c.Valid() && c.maxInflight > 0
    ensures EnabledRun(Idle(c), c, events) && Surpluses(events) == k && p == Run(Idle(c), c, events)
    ensures p.value == 0 && p.waiters == [] && p.inflight == c.maxInflight
    ensures forall t: Task :: t in p.tasks <==> t < c.permits + k
    ensures forall t | t in p.tasks :: p.tasks[t] == Holding
    decreases k
  {
    if k == 0 {
      p := Filling(Idle(c), c, 0, c.maxInflight);
      events := Arrivals(0, c.maxInflight);
      ArrivalsAreNoSurplus(0, c.maxInflight);
    } else {
      var before, q := MoreHolders(c, k - 1);
      var t := c.permits + k - 1;
      var more := Step(q, c, Surplus);
      assert Those(more.tasks, WOKEN) == {};
      p := Step(more, c, Arrive(t));
      var tail := [Surplus] + ([Arrive(t)] + []);
      Unroll(more, c, Arrive(t), []);
      Unroll(q, c, Surplus, [Arrive(t)] + []);
      RunConcat(Idle(c), c, before, tail);
      SurplusesConcat(before, tail);
      assert tail[1..] == [Arrive(t)] && Surpluses([Arrive(t)]) == 0;
      events := before + tail;
    }
  }

  // ---------------------------------------------------------------- double releases

  /** A request that releases its slot twice does so without suspending in between: every surplus
      release follows a release at once. */
  predicate Paired(events: seq<Event>) {
    forall i | 0 <= i < |events| && events[i].Surplus? :: i > 0 && events[i - 1].Release?
  }

  /** Under double releases the limit bounds the requests in flight if and only if it is at most
      one and nobody may queue. */
  lemma LimitUnderDoubleReleases(c: Config)
    requires c.Valid()
    ensures (forall events | EnabledRun(Idle(c), c, events) && Paired(events) ::
               InFlight(Run(Idle(c), c, events)) <= c.maxInflight)
            <==> c.maxInflight <= 1 && c.maxQueued == 0
  {
    if c.maxInflight <= 1 && c.maxQueued == 0 {
      forall events | EnabledRun(Idle(c), c, events) && Paired(events)
        ensures InFlight(Run(Idle(c), c, events)) <= c.maxInflight
      {
        if c.maxInflight == 0 {
          NothingEnters(Idle(c), c, events);
        } else {
          assert Those(Idle(c).tasks, INFLIGHT) == {};
          OneAtATime(Idle(c), c, events);
        }
      }
    } else {
      var events := DoublesAdmitMore(c, 1);
      assert EnabledRun(Idle(c), c, events) && Paired(events) && InFlight(Run(Idle(c), c, events)) > c.maxInflight;
    }
  }

  /** At most one task, which holds a permit and is counted. */
  ghost predicate Single(p: Pool) {
    && p.waiters == [] && p.queued == 0 && p.value + p.inflight >= 1
    && (if p.tasks == map[] then p.inflight == 0 else p.inflight == 1 && exists t :: p.tasks == map[t := Holding])
  }

  lemma SingleCount(p: Pool)
    requires Single(p)
    ensures InFlight(p) <= 1 && Those(p.tasks, WOKEN) == {}
  {
    if p.tasks == map[] {
      assert Those(p.tasks, INFLIGHT) == {};
    } else {
      var t :| p.tasks == map[t := Holding];
      assert Those(p.tasks, INFLIGHT) == {t};
    }
  }

  lemma SingleStep(p: Pool, c: Config, e: Event)
    requires c.maxInflight == 1 && c.maxQueued == 0 && Single(p) && Enabled(p, e)
    requires e.Surplus? ==> p.tasks == map[]
    ensures Single(Step(p, c, e)) && (e.Release? ==> Step(p, c, e).tasks == map[])
  {
    SingleCount(p);
    var q := Step(p, c, e);
    match e
    case Arrive(t) =>
      if p.tasks == map[] { assert q.tasks == map[t := Holding]; }
    case Release(t) =>
      assert q.tasks == map[];
    case _ =>
  }

  lemma {:induction false} OneAtATime(p: Pool, c: Config, events: seq<Event>)
    requires c.maxInflight == 1 && c.maxQueued == 0 && Single(p) && EnabledRun(p, c, events)
    requires forall i | 0 < i < |events| && events[i].Surplus? :: events[i - 1].Release?
    requires events != [] && events[0].Surplus? ==> p.tasks == map[]
    ensures InFlight(Run(p, c, events)) <= 1
    decreases |events|
  {
    if events == [] {
      SingleCount(p);
    } else {
      hide Single, Step;
      SingleStep(p, c, events[0]);
      var rest := events[1..];
      forall i | 0 < i < |rest| && rest[i].Surplus? ensures rest[i - 1].Release? {
        assert events[i + 1] == rest[i];
      }
      if rest != [] && rest[0].Surplus? { assert events[1] == rest[0]; }
      OneAtATime(Step(p, c, events[0]), c, rest);
    }
  }

  /** In all other cases `k` double releases are followed by as many tasks in flight as the
      semaphore's size and k more. */
  lemma DoublesAdmitMore(c: Config, k: nat) returns (events: seq<Event>)
    requires c.Valid() && (c.maxInflight > 1 || c.maxQueued > 0)
    ensures EnabledRun(Idle(c), c, events) && Paired(events) && Surpluses(events) == k
    ensures InFlight(Run(Idle(c), c, events)) == c.permits + k
  {
    var doubles, p, _, _ := Doubles(c, k);
    events := doubles;
    PermitsConserved(c, events);
    assert Those(p.tasks, PERMITTED) == Those(p.tasks, INFLIGHT);
  }

  /** All permits are taken, `last` by the newest task, and the next arrivals will pass the gate
      after a double release. */
  ghost predicate Ready(p: Pool, c: Config, last: Task, next: Task) {
    && p.value == 0 && p.waiters == [] && p.queued == 0 && p.inflight >= 0
    && (c.maxQueued > 0 || (p.inflight == c.maxInflight > 1))
    && In(p, last, Holding) && (forall t | t in p.tasks :: t < next && p.tasks[t] == Holding)
  }

  lemma {:induction false} Doubles(c: Config, k: nat) returns (events: seq<Event>, p: Pool, last: Task, next: Task)
    requires c.Valid() && (c.maxInflight > 1 || c.maxQueued > 0)
    ensures EnabledRun(Idle(c), c, events) && Paired(events) && Surpluses(events) == k && p == Run(Idle(c), c, events)
    ensures Ready(p, c, last, next)
    decreases k
  {
    if k == 0 {
      events, p, last, next := Saturate(c);
    } else {
      var before, q, t, n := Doubles(c, k - 1);
      var round := [Release(t)] + ([Surplus] + ([Arrive(n)] + ([Arrive(n + 1)] + [])));
      p := Round(q, c, t, n);
      RunConcat(Idle(c), c, before, round);
      SurplusesConcat(before, round);
      RoundSurplus(t, n);
      events, last, next := before + round, n + 1, n + 2;
      PairedConcat(before, round);
    }
  }

  lemma Saturate(c: Config) returns (events: seq<Event>, p: Pool, last: Task, next: Task)
    requires c.Valid() && (c.maxInflight > 1 || c.maxQueued > 0)
    ensures EnabledRun(Idle(c), c, events) && Paired(events) && Surpluses(events) == 0 && p == Run(Idle(c), c, events)
    ensures Ready(p, c, last, next)
  {
    if c.maxInflight == 0 {
      OneEnters(c);
      events, last, next := [Arrive(0)], 0, 1;
      p := Run(Idle(c), c, events);
    } else {
      p := Filling(Idle(c), c, 0, c.maxInflight);
      events, last, next := Arrivals(0, c.maxInflight), 0, c.maxInflight;
      ArrivalsAreNoSurplus(0, c.maxInflight);
    }
    NoSurplusIsPaired(events);
  }

  lemma Round(q: Pool, c: Config, t: Task, n: Task) returns (p: Pool)
    requires Ready(q, c, t, n)
    ensures var round := [Release(t)] + ([Surplus] + ([Arrive(n)] + ([Arrive(n + 1)] + [])));
            EnabledRun(q, c, round) && p == Run(q, c, round) && Ready(p, c, n + 1, n + 2)
  {
    var q1 := Step(q, c, Release(t));
    var q2 := Step(q1, c, Surplus);
    var q3 := Step(q2, c, Arrive(n));
    p := Step(q3, c, Arrive(n + 1));
    assert Those(q2.tasks, WOKEN) == {} && Those(q3.tasks, WOKEN) == {};
    Unroll(q3, c, Arrive(n + 1), []);
    Unroll(q2, c, Arrive(n), [Arrive(n + 1)] + []);
    Unroll(q1, c, Surplus, [Arrive(n)] + ([Arrive(n + 1)] + []));
    Unroll(q, c, Release(t), [Surplus] + ([Arrive(n)] + ([Arrive(n + 1)] + [])));
  }

  lemma RoundSurplus(t: Task, n: Task)
    ensures var round := [Release(t)] + ([Surplus] + ([Arrive(n)] + ([Arrive(n + 1)] + [])));
            Surpluses(round) == 1 && Paired(round) && !round[0].Surplus?
  {
    var round := [Release(t)] + ([Surplus] + ([Arrive(n)] + ([Arrive(n + 1)] + [])));
    assert round == [Release(t), Surplus, Arrive(n), Arrive(n + 1)];
    assert round[1..] == [Surplus, Arrive(n), Arrive(n + 1)] && round[1..][1..] == [Arrive(n), Arrive(n + 1)];
    assert [Arrive(n), Arrive(n + 1)][1..] == [Arrive(n + 1)];
    assert Surpluses([Arrive(n + 1)]) == 0 && Surpluses([Arrive(n), Arrive(n + 1)]) == 0;
    assert Surpluses(round[1..]) == 1;
  }

  lemma PairedConcat(a: seq<Event>, b: seq<Event>)
    requires Paired(a) && Paired(b)
    ensures Paired(a + b)
  {
    var all := a + b;
    forall i | 0 <= i < |all| && all[i].Surplus? ensures i > 0 && all[i - 1].Release? {
      if i >= |a| { assert all[i] == b[i - |a|]; }
    }
  }

  lemma {:induction false} NoSurplusIsPaired(events: seq<Event>)
    requires Surpluses(events) == 0
    ensures Paired(events) && forall i | 0 <= i < |events| :: !events[i].Surplus?
    decreases |events|
  {
    if events != [] {
      NoSurplusIsPaired(events[1..]);
      forall i | 0 <= i < |events| ensures !events[i].Surplus? {
        if i > 0 { assert events[i] == events[1..][i - 1]; }
      }
    }
  }

  lemma {:induction false} ArrivalsAreNoSurplus(first: Task, n: nat)
    ensures Surpluses(Arrivals(first, n)) == 0
    decreases n
  {
    if n > 0 {
      ArrivalsAreNoSurplus(first + 1, n - 1);
      assert Arrivals(first, n)[1..] == Arrivals(first + 1, n - 1);
    }
  }

  lemma {:induction false} SurplusesConcat(a: seq<Event>, b: seq<Event>)
    ensures Surpluses(a + b) == Surpluses(a) + Surpluses(b)
    decreases |a|
  {
    if a == [] {
      assert a + b == b;
    } else {
      assert (a + b)[1..] == a[1..] + b;
      SurplusesConcat(a[1..], b);
    }
  }

  lemma Unroll(p: Pool, c: Config, e: Event, rest: seq<Event>)
    ensures Run(p, c, [e] + rest) == Run(Step(p, c, e), c, rest)
    ensures EnabledRun(p, c, [e] + rest) == (Enabled(p, e) && EnabledRun(Step(p, c, e), c, rest))
  {
    assert ([e] + rest)[1..] == rest;
  }

  lemma {:induction false} RunConcat(p: Pool, c: Config, a: seq<Event>, b: seq<Event>)
    ensures Run(p, c, a + b) == Run(Run(p, c, a), c, b)
    ensures EnabledRun(p, c, a + b) == (EnabledRun(p, c, a) && EnabledRun(Run(p, c, a), c, b))
    decreases |a|
  {
    if a == [] {
      assert a + b == b;
    } else {
      assert (a + b)[1..] == a[1..] + b;
      RunConcat(Step(p, c, a[0]), c, a[1..], b);
    }
  }

  // ---------------------------------------------------------------- the controller

  datatype Arrival = Rejected | Entered | Queued

  /** The controller and its semaphore. `woken` are the queued futures that are done but whose
      tasks have not run; `tasks` is bookkeeping of the model. */
  class Controller {
    const config: Config
    var value: int
    var waiters: seq<Task>
    var woken: set<Task>
    var queued: int
    var inflight: int
    ghost var tasks: map<Task, Phase>

    ghost predicate Valid()
      reads this
    {
      woken == Those(tasks, WOKEN)
    }

    ghost function Abs(): Pool
      reads this
    {
      Pool(value, waiters, queued, inflight, tasks)
    }

    constructor (config: Config)
      ensures Valid() && this.config == config && Abs() == Idle(config)
    {
      this.config := config;
      value, waiters, woken, queued, inflight, tasks := config.permits, [], {}, 0, 0, map[];
    }

    /** Gate, and the semaphore's fast path with the finally block. */
    method Acquire(t: Task) returns (arrival: Arrival)
      requires Valid() && Enabled(Abs(), Arrive(t))
      modifies this
      ensures Valid() && Abs() == Step(old(Abs()), config, Arrive(t))
      ensures arrival.Rejected? <==> Rejects(old(Abs()), config)
      ensures arrival.Entered? <==> !Rejects(old(Abs()), config) && !Locked(old(Abs()))
    {
      hide WakeAll;
      if inflight >= config.maxInflight && queued >= config.maxQueued {
        return Rejected;
      }
      queued := queued + 1;
      if value == 0 || waiters != [] || woken != {} {
        waiters, tasks := waiters + [t], tasks[t := Waiting];
        assert Those(tasks, WOKEN) == Those(old(tasks), WOKEN);
        return Queued;
      }
      value := value - 1;
      queued, inflight := queued - 1, inflight + 1;
      tasks := tasks[t := Holding];
      assert Those(tasks, WOKEN) == Those(old(tasks), WOKEN);
      return Entered;
    }

    method WakeUpNext()
      requires Valid()
      modifies this`value, this`waiters, this`woken, this`tasks
      ensures Valid() && Abs() == WakeNext(old(Abs()))
    {
      if waiters != [] {
        var next := waiters[0];
        value, waiters := value - 1, waiters[1..];
        woken, tasks := woken + {next}, tasks[next := Granted];
        assert Those(tasks, WOKEN) == Those(old(tasks), WOKEN) + {next};
      }
    }

    method WakeUpAll()
      requires Valid()
      modifies this`value, this`waiters, this`woken, this`tasks
      ensures Valid() && Abs() == WakeAll(old(Abs()))
    {
      hide Those;
      while value > 0 && waiters != []
        invariant Valid() && WakeAll(Abs()) == WakeAll(old(Abs()))
        decreases |waiters|
      {
        WakeUpNext();
      }
    }

    /** A waiting future is cancelled and skipped from now on; a done one stays done. */
    method CancelTask(t: Task)
      requires Valid() && Enabled(Abs(), Cancel(t))
      modifies this
      ensures Valid() && Abs() == Step(old(Abs()), config, Cancel(t))
    {
      if t in woken {
        tasks := tasks[t := Bouncing];
      } else {
        waiters, tasks := Without(waiters, t), tasks[t := Leaving];
      }
      assert Those(tasks, WOKEN) == Those(old(tasks), WOKEN);
    }

    /** The task runs again after its wait, with the CancelledError if it was cancelled: the
        end of the semaphore's acquire, then the finally block. */
    method ResumeTask(t: Task, cancelled: bool)
      requires Valid() && Enabled(Abs(), Resume(t)) && cancelled == !In(Abs(), t, Granted)
      modifies this
      ensures Valid() && Abs() == Step(old(Abs()), config, Resume(t))
    {
      hide WakeAll;
      if cancelled && t in woken {
        value := value + 1;
      }
      woken := woken - {t};
      tasks := if cancelled then tasks - {t} else tasks[t := Holding];
      assert Those(tasks, WOKEN) == Those(old(tasks), WOKEN) - {t};
      WakeUpAll();
      queued := Max(0, queued - 1);
      if !cancelled {
        inflight := inflight + 1;
      }
    }

    /** The permit goes back or on to the next waiter, and the counter falls. The method cannot
        tell whether its caller, `holder`, holds a permit. */
    method ReleasePermit(ghost holder: Option<Task>)
      requires Valid() && (holder.Some? ==> Enabled(Abs(), Release(holder.value)))
      modifies this
      ensures Valid()
      ensures Abs() == Step(old(Abs()), config, if holder.Some? then Release(holder.value) else Surplus)
    {
      value := value + 1;
      if holder.Some? {
        tasks := tasks - {holder.value};
      }
      assert Those(tasks, WOKEN) == Those(old(tasks), WOKEN);
      WakeUpNext();
      inflight := Max(0, inflight - 1);
    }
  }
}
