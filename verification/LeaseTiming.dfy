/** The renewal loop of a lease holder under one common clock.

    A holder sleeps for the renewal interval, stamps a renewal and sends it; the script lands
    later and the reply arrives later still. In between any other replica may acquire, renew,
    release or purge. */
module LeaseTiming {
  import opened LeaseFleet

  datatype Pace = Pace(
    ttl: int,
    interval: int,     // sleep between a reply and the next wake-up
    slack: int,        // a renewal lands less than this after its wake-up
    lag: int)          // a reply arrives at most this long after the stamp
  {
    /** The loop never sleeps longer than half the TTL; delays may use up the other half. */
    predicate Valid() {
      0 < interval && 2 * interval <= ttl && 0 <= lag && 0 < slack && 2 * (slack + lag) <= ttl
    }
  }

  function Interval(renewInterval: int, ttl: int): int {
    if renewInterval < ttl / 2 then renewInterval else ttl / 2
  }

  /** A script that lands at `at`; `reply` matters for the holder's renewals only. */
  datatype Timed = Timed(at: int, reply: int, e: Event)

  /** What the holder last did: the stamp of the call that set its expiry and its reply. */
  datatype Watch = Watch(stamp: int, reply: int, at: int)

  datatype Holder = Holder(id: LeaseId, token: nat)

  predicate IsRenewal(h: Holder, e: Event) {
    e.RenewEvent? && e.id == h.id && e.token == h.token
  }

  function Stamp(e: Event, at: int): int {
    if e.AcquireEvent? || e.RenewEvent? || e.PurgeEvent? then e.now else at
  }

  function Next(w: Watch, h: Holder, t: Timed): Watch {
    if IsRenewal(h, t.e) then Watch(t.e.now, t.reply, t.at) else w.(at := t.at)
  }

  /** Time moves forward, nobody stamps the future, the holder renews in time and has not
      released; Redis drops the lease keys no earlier than four TTLs after a renewal. */
  predicate Punctual(w: Watch, p: Pace, h: Holder, t: Timed) {
    && w.at <= t.at < w.reply + p.interval + p.slack
    && Stamp(t.e, t.at) <= t.at
    && !(t.e.ReleaseEvent? && t.e.id == h.id)
    && (t.e.LeaseKeysExpire? ==> t.at >= w.stamp + 4 * p.ttl)
    && (IsRenewal(h, t.e) ==> t.e.ttl == p.ttl && t.at <= t.reply <= t.e.now + p.lag)
  }

  predicate PunctualRun(f: Fleet, limit: nat, w: Watch, p: Pace, h: Holder, run: seq<Timed>)
    decreases |run|
  {
    run == [] ||
    (Legal(f, run[0].e) && Punctual(w, p, h, run[0])
     && PunctualRun(Step(f, limit, run[0].e), limit, Next(w, h, run[0]), p, h, run[1..]))
  }

  function Events(run: seq<Timed>): seq<Event> {
    if run == [] then [] else [run[0].e] + Events(run[1..])
  }

  predicate Holding(f: Fleet, w: Watch, p: Pace, h: Holder) {
    && h.id in f.issued
    && CanRenew(f.l, h.id, h.token)
    && f.l.expiry[h.id] == w.stamp + p.ttl
    && w.reply - w.stamp <= p.lag
  }

  lemma StepKeepsLease(f: Fleet, limit: nat, w: Watch, p: Pace, h: Holder, t: Timed)
    requires p.Valid() && Holding(f, w, p, h) && Legal(f, t.e) && Punctual(w, p, h, t)
    ensures t.at < f.l.expiry[h.id]
    ensures Holding(Step(f, limit, t.e), Next(w, h, t), p, h)
  {
  }

  /** A timely holder is never purged. If it sleeps at most half the TTL and its delays stay
      within the other half, its lease outlasts every script that lands before it releases,
      so every renewal of it succeeds. */
  lemma {:induction false} TimelyHolderKeepsLease(f: Fleet, limit: nat, w: Watch, p: Pace, h: Holder, run: seq<Timed>)
    requires p.Valid() && Holding(f, w, p, h) && PunctualRun(f, limit, w, p, h, run)
    ensures CanRenew(Run(f, limit, Events(run)).l, h.id, h.token)
    ensures run != [] ==> run[|run| - 1].at < Run(f, limit, Events(run)).l.expiry[h.id]
    decreases |run|
  {
    if run != [] {
      hide Step, Legal, Punctual, Holding;
      StepKeepsLease(f, limit, w, p, h, run[0]);
      var f', w' := Step(f, limit, run[0].e), Next(w, h, run[0]);
      assert Events(run)[0] == run[0].e && Events(run)[1..] == Events(run[1..]);
      TimelyHolderKeepsLease(f', limit, w', p, h, run[1..]);
      if |run| == 1 {
        LastScriptIsEarly(f, limit, w, p, h, run[0]);
        assert Run(f, limit, Events(run)) == f';
      }
    }
  }

  lemma LastScriptIsEarly(f: Fleet, limit: nat, w: Watch, p: Pace, h: Holder, t: Timed)
    requires p.Valid() && Holding(f, w, p, h) && Legal(f, t.e) && Punctual(w, p, h, t)
    ensures h.id in Step(f, limit, t.e).l.expiry && t.at < Step(f, limit, t.e).l.expiry[h.id]
  {
  }

  /** A granted acquisition puts the holder under the theorem's premises. */
  lemma GrantStartsHolding(f: Fleet, limit: nat, p: Pace, id: LeaseId, stamp: int, reply: int, at: int)
    requires Legal(f, AcquireEvent(id, stamp, p.ttl)) && CanAcquire(f.l, stamp, limit)
    requires reply - stamp <= p.lag
    ensures var f' := Step(f, limit, AcquireEvent(id, stamp, p.ttl));
            Holding(f', Watch(stamp, reply, at), p, Holder(id, f'.l.fence))
  {
  }

  /** The margin is exact: a purge stamped `now` leaves the lease alone if and only if fewer
      than a TTL has passed since the stamp of the last renewal. */
  lemma PurgeTakesOverdue(f: Fleet, limit: nat, w: Watch, p: Pace, h: Holder, now: int)
    requires Holding(f, w, p, h)
    ensures CanRenew(Step(f, limit, PurgeEvent(now)).l, h.id, h.token) <==> now < w.stamp + p.ttl
  {
  }

  /** The configured interval is cut to half the TTL. */
  lemma IntervalIsHalfTtl(renewInterval: int, ttl: int)
    requires renewInterval > 0 && ttl >= 2
    ensures var i := Interval(renewInterval, ttl); 0 < i <= renewInterval && 2 * i <= ttl
    ensures var i := Interval(renewInterval, ttl); i == renewInterval || i == ttl / 2
  {
  }
}
