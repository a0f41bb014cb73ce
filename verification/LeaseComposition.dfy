/** Renewal and admission of one replica together: as long as all its holders renew in time, its
    leased tasks number at most the limit; when leases lapse, more can run. */
module LeaseComposition {
  import opened Common
  import F = LeaseFleet
  import T = LeaseTiming
  import R = RedisAdmission

  /** A step of the replica at `at`; `reply` is when the answer of its script arrives. */
  datatype Timed = Timed(at: int, reply: int, e: R.Event)

  function HolderOf(h: R.Handle): T.Holder {
    T.Holder(h.id, h.token)
  }

  /** The step as the lease set sees it. */
  function Landed(t: Timed, s: F.Event): T.Timed {
    T.Timed(t.at, t.reply, s)
  }

  predicate Grants(r: R.Replica, c: R.Config, e: R.Event) {
    e.Try? && F.CanAcquire(r.fleet.l, e.now, c.limit)
  }

  /** What each leaseholder last did: a grant starts a watch, and scripts move the others on. */
  function Watched(r: R.Replica, c: R.Config, watches: map<Task, T.Watch>, t: Timed): map<Task, T.Watch>
    requires R.Enabled(r, t.e)
  {
    var script := R.Script(r, t.e);
    var moved := map u | u in watches && u in r.handles ::
                   if script.Some? then T.Next(watches[u], HolderOf(r.handles[u]), Landed(t, script.value))
                   else watches[u];
    if Grants(r, c, t.e) then moved[t.e.t := T.Watch(t.e.now, t.reply, t.at)] else moved
  }

  predicate GivesUp(e: R.Event, u: Task) {
    e.Release? && e.t == u
  }

  /** Every holder that keeps its lease is punctual with respect to the step, and acquisitions
      use the pace's TTL and get their answer in time. */
  ghost predicate AllPunctual(r: R.Replica, p: T.Pace, watches: map<Task, T.Watch>, t: Timed) {
    && R.Enabled(r, t.e)
    && (t.e.Try? ==> t.e.ttl == p.ttl && t.reply - t.e.now <= p.lag)
    && (R.Script(r, t.e).Some? ==>
          forall u | R.Leased(r.tasks, u) && u in watches && u in r.handles && !GivesUp(t.e, u) ::
            T.Punctual(watches[u], p, HolderOf(r.handles[u]), Landed(t, R.Script(r, t.e).value)))
  }

  ghost predicate PunctualRun(r: R.Replica, c: R.Config, p: T.Pace, watches: map<Task, T.Watch>, run: seq<Timed>)
    decreases |run|
  {
    run == []
    || (AllPunctual(r, p, watches, run[0])
        && PunctualRun(R.Step(r, c, run[0].e), c, p, Watched(r, c, watches, run[0]), run[1..]))
  }

  ghost function RunTimed(r: R.Replica, c: R.Config, p: T.Pace, watches: map<Task, T.Watch>, run: seq<Timed>): R.Replica
    requires PunctualRun(r, c, p, watches, run)
    decreases |run|
  {
    if run == [] then r
    else RunTimed(R.Step(r, c, run[0].e), c, p, Watched(r, c, watches, run[0]), run[1..])
  }

  /** Every leased task has a lease that is set to outlast the next step. */
  ghost predicate Covered(r: R.Replica, p: T.Pace, watches: map<Task, T.Watch>) {
    forall u | R.Leased(r.tasks, u) ::
      u in watches && u in r.handles && T.Holding(r.fleet, watches[u], p, HolderOf(r.handles[u]))
  }

  lemma HolderCovered(r: R.Replica, c: R.Config, p: T.Pace, watches: map<Task, T.Watch>, t: Timed, u: Task)
    requires p.Valid() && AllPunctual(r, p, watches, t)
    requires R.Leased(r.tasks, u) && u in watches && u in r.handles && !GivesUp(t.e, u)
    requires T.Holding(r.fleet, watches[u], p, HolderOf(r.handles[u]))
    ensures R.Script(r, t.e).Some? ==>
              T.Holding(R.FleetAfter(r, c, t.e), T.Next(watches[u], HolderOf(r.handles[u]), Landed(t, R.Script(r, t.e).value)),
                        p, HolderOf(r.handles[u]))
    ensures R.Script(r, t.e).None? ==> R.FleetAfter(r, c, t.e) == r.fleet
  {
    R.ScriptLegal(r, t.e);
    hide T.Holding, T.Punctual, F.Step, F.Legal, T.Next;
    if R.Script(r, t.e).Some? {
      T.StepKeepsLease(r.fleet, c.limit, watches[u], p, HolderOf(r.handles[u]), Landed(t, R.Script(r, t.e).value));
    }
  }

  /** Who is leased after a step: the task it was granted to, or one that was and has not given
      up, with the handle it had. */
  lemma LeasedAfter(r: R.Replica, c: R.Config, e: R.Event, u: Task)
    requires R.Enabled(r, e) && R.Leased(R.Step(r, c, e).tasks, u)
    ensures if Grants(r, c, e) && u == e.t then true
            else R.Leased(r.tasks, u) && !GivesUp(e, u)
                 && (u in r.handles ==> u in R.Step(r, c, e).handles && R.Step(r, c, e).handles[u] == r.handles[u])
  {
    hide R.FleetAfter, R.Rejects, F.CanAcquire;
  }

  lemma GrantCovered(r: R.Replica, c: R.Config, p: T.Pace, watches: map<Task, T.Watch>, t: Timed)
    requires AllPunctual(r, p, watches, t) && Grants(r, c, t.e)
    ensures var s := R.Step(r, c, t.e);
            && t.e.t in s.handles
            && T.Holding(s.fleet, T.Watch(t.e.now, t.reply, t.at), p, HolderOf(s.handles[t.e.t]))
  {
    T.GrantStartsHolding(r.fleet, c.limit, p, t.e.id, t.e.now, t.reply, t.at);
    hide T.Holding, F.Step, F.CanAcquire;
  }

  lemma StepCovered(r: R.Replica, c: R.Config, p: T.Pace, watches: map<Task, T.Watch>, t: Timed)
    requires p.Valid() && Covered(r, p, watches) && AllPunctual(r, p, watches, t)
    ensures Covered(R.Step(r, c, t.e), p, Watched(r, c, watches, t))
  {
    var s, w := R.Step(r, c, t.e), Watched(r, c, watches, t);
    R.StepKeeps(r, c, t.e);
    forall u | R.Leased(s.tasks, u)
      ensures u in w && u in s.handles && T.Holding(s.fleet, w[u], p, HolderOf(s.handles[u]))
    {
      LeasedAfter(r, c, t.e, u);
      if Grants(r, c, t.e) && u == t.e.t {
        GrantCovered(r, c, p, watches, t);
      } else {
        assert u in watches && u in r.handles;
        HolderCovered(r, c, p, watches, t, u);
      }
      hide R.Step, T.Holding, T.Next, F.CanAcquire, R.Leased, R.Script, R.FleetAfter;
    }
  }

  lemma {:induction false} RunCovered(r: R.Replica, c: R.Config, p: T.Pace, watches: map<Task, T.Watch>, run: seq<Timed>)
    returns (later: map<Task, T.Watch>)
    requires p.Valid() && R.Inv(r, c) && Covered(r, p, watches) && PunctualRun(r, c, p, watches, run)
    ensures Covered(RunTimed(r, c, p, watches, run), p, later) && R.Inv(RunTimed(r, c, p, watches, run), c)
    decreases |run|
  {
    if run == [] {
      later := watches;
    } else {
      StepCovered(r, c, p, watches, run[0]);
      R.StepInv(r, c, run[0].e);
      hide R.Inv, R.Step, Covered;
      later := RunCovered(R.Step(r, c, run[0].e), c, p, Watched(r, c, watches, run[0]), run[1..]);
    }
  }

  /** Punctual replicas respect the limit: whatever the other replicas do, if all holders of a
      replica renew in time, at every moment its tasks with a lease to their name number at most
      the limit, and each can renew. */
  lemma PunctualReplicaRespectsLimit(c: R.Config, p: T.Pace, run: seq<Timed>)
    requires p.Valid() && PunctualRun(R.IDLE, c, p, map[], run)
    ensures var r := RunTimed(R.IDLE, c, p, map[], run);
            && Count(r.tasks, R.LEASED) <= c.limit
            && forall u | R.Leased(r.tasks, u) ::
                 u in r.handles && F.CanRenew(r.fleet.l, r.handles[u].id, r.handles[u].token)
  {
    R.IdleInv(c);
    var later := RunCovered(R.IDLE, c, p, map[], run);
    var r := RunTimed(R.IDLE, c, p, map[], run);
    assert Those(r.tasks, R.LEASED) <= R.Leaseholders(r);
    R.LeaseholdersFit(r, Those(r.tasks, R.LEASED), r.fleet.l.expiry.Keys);
  }

  // ---------------------------------------------------------------- the whole fleet

  /** The holder was granted its lease by the script at `i` of a run of the fleet, and has renewed
      in time since, without releasing. */
  ghost predicate PunctualSince(limit: nat, p: T.Pace, run: seq<T.Timed>, h: T.Holder, i: nat) {
    && i < |run| && run[i].e.AcquireEvent?
    && var f, t, e := F.Run(F.IDLE, limit, T.Events(run[..i])), run[i], run[i].e;
       && e.id == h.id && e.ttl == p.ttl && t.reply - e.now <= p.lag
       && F.CanAcquire(f.l, e.now, limit) && h.token == F.Step(f, limit, e).l.fence
       && T.PunctualRun(F.Step(f, limit, e), limit, T.Watch(e.now, t.reply, t.at), p, h, run[i + 1..])
  }

  lemma {:induction false} EventsConcat(a: seq<T.Timed>, b: seq<T.Timed>)
    ensures T.Events(a + b) == T.Events(a) + T.Events(b)
    decreases |a|
  {
    if a == [] {
      assert a + b == b;
    } else {
      assert (a + b)[0] == a[0] && (a + b)[1..] == a[1..] + b;
      EventsConcat(a[1..], b);
    }
  }

  /** A run of the fleet, cut at one of its scripts. */
  lemma CutAt(limit: nat, run: seq<T.Timed>, i: nat)
    requires i < |run| && F.LegalRun(F.IDLE, limit, T.Events(run))
    ensures var f := F.Run(F.IDLE, limit, T.Events(run[..i]));
            && F.Legal(f, run[i].e)
            && F.Run(F.IDLE, limit, T.Events(run)) == F.Run(F.Step(f, limit, run[i].e), limit, T.Events(run[i + 1..]))
  {
    hide F.Step, F.Legal;
    var before, t, after := run[..i], run[i], run[i + 1..];
    assert run == before + ([t] + after);
    EventsConcat(before, [t] + after);
    assert ([t] + after)[1..] == after;
    F.RunConcat(F.IDLE, limit, T.Events(before), [t.e] + T.Events(after));
    assert ([t.e] + T.Events(after))[1..] == T.Events(after);
  }

  lemma PunctualHolderKeeps(limit: nat, p: T.Pace, run: seq<T.Timed>, h: T.Holder, i: nat)
    requires p.Valid() && F.LegalRun(F.IDLE, limit, T.Events(run)) && PunctualSince(limit, p, run, h, i)
    ensures F.CanRenew(F.Run(F.IDLE, limit, T.Events(run)).l, h.id, h.token)
  {
    hide F.Run, F.LegalRun, F.Step, F.CanAcquire, F.Legal, T.Holding, T.PunctualRun;
    CutAt(limit, run, i);
    var f, t := F.Run(F.IDLE, limit, T.Events(run[..i])), run[i];
    T.GrantStartsHolding(f, limit, p, h.id, t.e.now, t.reply, t.at);
    T.TimelyHolderKeepsLease(F.Step(f, limit, t.e), limit, T.Watch(t.e.now, t.reply, t.at), p, h, run[i + 1..]);
  }

  /** The limit holds over the whole fleet: at the end of every run, the holders of all replicas
      that have renewed in time since their grants number at most the limit. */
  lemma PunctualHoldersFitLimit(limit: nat, p: T.Pace, run: seq<T.Timed>, holders: set<T.Holder>)
    requires p.Valid() && F.LegalRun(F.IDLE, limit, T.Events(run))
    requires forall h | h in holders :: exists i :: PunctualSince(limit, p, run, h, i)
    ensures |holders| <= limit
    ensures forall h | h in holders :: F.CanRenew(F.Run(F.IDLE, limit, T.Events(run)).l, h.id, h.token)
  {
    var f := F.Run(F.IDLE, limit, T.Events(run));
    F.RunInv(F.IDLE, limit, T.Events(run));
    forall h | h in holders ensures F.CanRenew(f.l, h.id, h.token) {
      var i :| PunctualSince(limit, p, run, h, i);
      PunctualHolderKeeps(limit, p, run, h, i);
    }
    HoldersFit(f.l, holders, f.l.expiry.Keys);
  }

  lemma {:induction false} HoldersFit(l: F.Leases, holders: set<T.Holder>, leases: set<F.LeaseId>)
    requires forall h | h in holders :: F.CanRenew(l, h.id, h.token) && h.id in leases
    ensures |holders| <= |leases|
    decreases |holders|
  {
    if holders != {} {
      var h :| h in holders;
      HoldersFit(l, holders - {h}, leases - {h.id});
    }
  }

  // ---------------------------------------------------------------- lapsed leases

  const ONE := R.Config(1, 0)

  const LAPSING := [R.Enter(0, 1), R.Try(0, 0, 1, 10), R.Record(0), R.Enter(1, 11), R.Try(1, 1, 11, 10), R.Record(1)]

  /** A holder that does not renew: its lease lapses, another task gets the only lease, and both
      run under a limit of one. */
  lemma LapsedLeasesLetMoreRun()
    ensures R.EnabledRun(R.IDLE, ONE, LAPSING)
    ensures var r := R.Run(R.IDLE, ONE, LAPSING);
            Those(r.tasks, {R.Holding}) == {0, 1} && Count(r.tasks, {R.Holding}) == 2 > ONE.limit
  {
    hide R.Step, R.Run, R.EnabledRun, Count, Those;
    var e := LAPSING;
    var tail := [e[3]] + ([e[4]] + ([e[5]] + []));
    FirstLease();
    SecondLease();
    BothHold();
    SecondHalf();
    R.Unroll(R.Granted(), ONE, e[2], tail);
    R.Unroll(R.Queued(), ONE, e[1], [e[2]] + tail);
    R.Unroll(R.IDLE, ONE, e[0], [e[1]] + ([e[2]] + tail));
    assert e == [e[0]] + ([e[1]] + ([e[2]] + tail));
  }

  lemma SecondHalf()
    ensures var e := LAPSING;
            var tail := [e[3]] + ([e[4]] + ([e[5]] + []));
            R.EnabledRun(Held(), ONE, tail) && R.Run(Held(), ONE, tail) == R.Step(Won(), ONE, e[5])
  {
    hide R.Step;
    var e := LAPSING;
    SecondLease();
    R.Unroll(Won(), ONE, e[5], []);
    R.Unroll(Asking(), ONE, e[4], [e[5]] + []);
    R.Unroll(Held(), ONE, e[3], [e[4]] + ([e[5]] + []));
  }

  lemma BothHold()
    ensures var tasks := R.Step(Won(), ONE, LAPSING[5]).tasks;
            Those(tasks, {R.Holding}) == {0, 1} && Count(tasks, {R.Holding}) == 2
  {
    var tasks := R.Step(Won(), ONE, LAPSING[5]).tasks;
    assert tasks == map[0 := R.Holding, 1 := R.Holding];
    assert Those(tasks, {R.Holding}) == {0, 1};
  }

  function Held(): R.Replica {
    R.Recorded()
  }

  function Asking(): R.Replica {
    R.Replica(1, 1, map[0 := R.Holding, 1 := R.Waiting], map[0 := R.Handle(0, 1)],
              F.Fleet(F.Leases(map[], map[], 1), {0}, [1]))
  }

  function Won(): R.Replica {
    R.Replica(1, 1, map[0 := R.Holding, 1 := R.Won], map[0 := R.Handle(0, 1), 1 := R.Handle(1, 2)],
              F.Fleet(F.Leases(map[1 := 21], map[1 := 2], 2), {0, 1}, [1, 2]))
  }

  lemma FirstLease()
    ensures R.Step(R.IDLE, ONE, LAPSING[0]) == R.Queued()
    ensures R.Step(R.Queued(), ONE, LAPSING[1]) == R.Granted()
    ensures R.Step(R.Granted(), ONE, LAPSING[2]) == Held()
  {
    R.LeakingSteps();
  }

  lemma SecondLease()
    ensures R.Step(Held(), ONE, LAPSING[3]) == Asking()
    ensures R.Step(Asking(), ONE, LAPSING[4]) == Won()
  {
    Lapses();
    Wins();
  }

  lemma Lapses()
    ensures R.Step(Held(), ONE, LAPSING[3]) == Asking()
  {
    assert F.Due(Held().fleet.l, 11) == {0};
    assert F.Purged(Held().fleet.l, 11) == F.Leases(map[], map[], 1);
  }

  lemma Wins()
    ensures R.Step(Asking(), ONE, LAPSING[4]) == Won()
  {
    assert F.Due(Asking().fleet.l, 11) == {};
    assert F.Purged(Asking().fleet.l, 11) == Asking().fleet.l;
  }
}
