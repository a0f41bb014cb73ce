/** Fleet-wide admission: a counting semaphore of expiring leases with fencing tokens, kept by
    four Lua scripts in three Redis keys.

    Every replica stamps its calls with its own clock, so stamps need not be ordered. */
module LeaseFleet {
  import opened Common

  /** A lease id: a UUID, read as a number. */
  type LeaseId = nat

  datatype Leases = Leases(
    expiry: map<LeaseId, int>,    // zset of leases
    tokens: map<LeaseId, nat>,    // fencing tokens
    fence: nat)                   // fence counter

  const NO_LEASES := Leases(map[], map[], 0)

  // ---------------------------------------------------------------- scripts as functions

  function Due(l: Leases, now: int): set<LeaseId> {
    set id | id in l.expiry && l.expiry[id] <= now
  }

  function Purged(l: Leases, now: int): Leases {
    l.(expiry := l.expiry - Due(l, now), tokens := l.tokens - Due(l, now))
  }

  /** The leases that a caller with this clock still counts. */
  function Current(l: Leases, now: int): set<LeaseId> {
    set id | id in l.expiry && l.expiry[id] > now
  }

  predicate CanAcquire(l: Leases, now: int, limit: nat) {
    |Purged(l, now).expiry| < limit
  }

  function Acquire(l: Leases, now: int, ttl: int, limit: nat, id: LeaseId): Leases {
    var p := Purged(l, now);
    if CanAcquire(l, now, limit) then
      Leases(p.expiry[id := now + ttl], p.tokens[id := p.fence + 1], p.fence + 1)
    else p
  }

  predicate Owns(l: Leases, id: LeaseId, token: nat) {
    id in l.tokens && l.tokens[id] == token
  }

  predicate CanRenew(l: Leases, id: LeaseId, token: nat) {
    Owns(l, id, token) && id in l.expiry
  }

  function Renew(l: Leases, now: int, ttl: int, id: LeaseId, token: nat): Leases {
    if CanRenew(l, id, token) then l.(expiry := l.expiry[id := now + ttl]) else l
  }

  function Release(l: Leases, id: LeaseId, token: nat): Leases {
    if Owns(l, id, token) then l.(expiry := l.expiry - {id}, tokens := l.tokens - {id}) else l
  }

  // ---------------------------------------------------------------- runs of a fleet

  /** One script run by some replica, or Redis dropping keys whose TTL has passed. */
  datatype Event =
    | AcquireEvent(id: LeaseId, now: int, ttl: int)
    | RenewEvent(id: LeaseId, token: nat, now: int, ttl: int)
    | ReleaseEvent(id: LeaseId, token: nat)
    | PurgeEvent(now: int)
    | LeaseKeysExpire
    | FenceKeyExpires

  datatype Fleet = Fleet(
    l: Leases,
    issued: set<LeaseId>,     // every id that was ever granted a lease
    grants: seq<nat>)         // tokens granted in this lifetime of the fence counter

  const IDLE := Fleet(NO_LEASES, {}, [])

  function Step(f: Fleet, limit: nat, e: Event): Fleet {
    match e
    case AcquireEvent(id, now, ttl) =>
      var l := Acquire(f.l, now, ttl, limit, id);
      if CanAcquire(f.l, now, limit) then Fleet(l, f.issued + {id}, f.grants + [l.fence]) else f.(l := l)
    case RenewEvent(id, token, now, ttl) => f.(l := Renew(f.l, now, ttl, id, token))
    case ReleaseEvent(id, token) => f.(l := Release(f.l, id, token))
    case PurgeEvent(now) => f.(l := Purged(f.l, now))
    case LeaseKeysExpire => f.(l := f.l.(expiry := map[], tokens := map[]))
    case FenceKeyExpires => f.(l := f.l.(fence := 0), grants := [])
  }

  /** Lease ids are never reused. */
  predicate Legal(f: Fleet, e: Event) {
    e.AcquireEvent? ==> e.id !in f.issued
  }

  function Run(f: Fleet, limit: nat, events: seq<Event>): Fleet
    decreases |events|
  {
    if events == [] then f else Run(Step(f, limit, events[0]), limit, events[1..])
  }

  predicate LegalRun(f: Fleet, limit: nat, events: seq<Event>)
    decreases |events|
  {
    events == [] || (Legal(f, events[0]) && LegalRun(Step(f, limit, events[0]), limit, events[1..]))
  }

  ghost predicate Increasing(tokens: seq<nat>) {
    forall i, j | 0 <= i < j < |tokens| :: tokens[i] < tokens[j]
  }

  ghost predicate Inv(f: Fleet, limit: nat) {
    && |f.l.expiry| <= limit
    && f.l.expiry.Keys == f.l.tokens.Keys <= f.issued
    && Increasing(f.grants)
    && f.l.fence == if f.grants == [] then 0 else f.grants[|f.grants| - 1]
  }

  lemma SubmapIsNoLarger(m: map<LeaseId, int>, n: map<LeaseId, int>)
    requires m.Keys <= n.Keys
    ensures |m| <= |n|
  {
    SubsetIsNoLarger(m.Keys, n.Keys);
  }

  lemma AcquireInv(f: Fleet, limit: nat, id: LeaseId, now: int, ttl: int)
    requires Inv(f, limit) && id !in f.issued
    ensures Inv(Step(f, limit, AcquireEvent(id, now, ttl)), limit)
  {
    hide Purged;
    PurgedKeys(f.l, now);
    SubmapIsNoLarger(Purged(f.l, now).expiry, f.l.expiry);
  }

  lemma PurgedKeys(l: Leases, now: int)
    ensures var p := Purged(l, now);
            && p.expiry.Keys <= l.expiry.Keys && p.tokens.Keys <= l.tokens.Keys && p.fence == l.fence
            && (l.expiry.Keys == l.tokens.Keys ==> p.expiry.Keys == p.tokens.Keys)
  {
  }

  lemma StepInv(f: Fleet, limit: nat, e: Event)
    requires Inv(f, limit) && Legal(f, e)
    ensures Inv(Step(f, limit, e), limit)
  {
    if e.AcquireEvent? {
      AcquireInv(f, limit, e.id, e.now, e.ttl);
    } else {
      hide Acquire, CanAcquire, Increasing;
      SubmapIsNoLarger(Step(f, limit, e).l.expiry, f.l.expiry);
    }
  }

  lemma {:induction false} RunInv(f: Fleet, limit: nat, events: seq<Event>)
    requires Inv(f, limit) && LegalRun(f, limit, events)
    ensures Inv(Run(f, limit, events), limit)
    decreases |events|
  {
    if events != [] {
      StepInv(f, limit, events[0]);
      RunInv(Step(f, limit, events[0]), limit, events[1..]);
    }
  }

  /** Lease cap. Any number of replicas with any clocks, interleaving all scripts and key
      expiry, never hold more leases than the limit; every lease has a token and every token
      a lease; and within one lifetime of the fence counter tokens strictly increase. */
  lemma LeaseCap(limit: nat, events: seq<Event>)
    requires LegalRun(IDLE, limit, events)
    ensures var f := Run(IDLE, limit, events);
            && |f.l.expiry| <= limit
            && f.l.expiry.Keys == f.l.tokens.Keys
            && Increasing(f.grants)
  {
    RunInv(IDLE, limit, events);
  }

  /** In every reachable state an acquisition stamped `now` succeeds exactly when fewer than
      `limit` leases expire later than `now`. */
  lemma AcquireSucceedsExactly(limit: nat, events: seq<Event>, now: int, ttl: int, id: LeaseId)
    requires LegalRun(IDLE, limit, events) && id !in Run(IDLE, limit, events).issued
    ensures var l := Run(IDLE, limit, events).l;
            && (id in Acquire(l, now, ttl, limit, id).expiry <==> |Current(l, now)| < limit)
            && (forall j | j != id :: j in Acquire(l, now, ttl, limit, id).expiry <==> j in Current(l, now))
  {
    RunInv(IDLE, limit, events);
    var l := Run(IDLE, limit, events).l;
    assert Purged(l, now).expiry.Keys == Current(l, now);
  }

  // ---------------------------------------------------------------- scripts, key by key

  /** What the scripts do in terms of the three keys. Only the holder's own token counts. */
  lemma ScriptsExactly(l: Leases, id: LeaseId, token: nat, now: int, ttl: int)
    ensures var own := id in l.tokens && l.tokens[id] == token;
            && Renew(l, now, ttl, id, token)
               == (if own && id in l.expiry then l.(expiry := l.expiry[id := now + ttl]) else l)
            && Release(l, id, token)
               == (if own then l.(expiry := l.expiry - {id}, tokens := l.tokens - {id}) else l)
    ensures var p := Purged(l, now);
            && (forall j :: j in p.expiry <==> j in l.expiry && l.expiry[j] > now)
            && (forall j | j in p.expiry :: p.expiry[j] == l.expiry[j])
            && (forall j :: j in p.tokens <==> j in l.tokens && !(j in l.expiry && l.expiry[j] <= now))
            && (forall j | j in p.tokens :: p.tokens[j] == l.tokens[j]) && p.fence == l.fence
  {
  }

  /** A granted acquisition adds one lease for the TTL under the next token; a refused one purges. */
  lemma AcquiredExactly(l: Leases, now: int, ttl: int, limit: nat, id: LeaseId)
    ensures var a, p := Acquire(l, now, ttl, limit, id), Purged(l, now);
            if |Current(l, now)| < limit then
              a == Leases(p.expiry[id := now + ttl], p.tokens[id := l.fence + 1], l.fence + 1)
            else a == p
  {
    assert Purged(l, now).expiry.Keys == Current(l, now);
  }

  // ---------------------------------------------------------------- losing a lease

  /** A holder whose lease was released, purged or dropped. */
  ghost predicate Lost(f: Fleet, id: LeaseId) {
    id in f.issued && id !in f.l.expiry && id !in f.l.tokens
  }

  lemma StepKeepsLost(f: Fleet, limit: nat, e: Event, id: LeaseId)
    requires Legal(f, e) && Lost(f, id)
    ensures Lost(Step(f, limit, e), id)
  {
  }

  lemma {:induction false} LostRun(f: Fleet, limit: nat, events: seq<Event>, id: LeaseId)
    requires LegalRun(f, limit, events) && Lost(f, id)
    ensures Lost(Run(f, limit, events), id)
    decreases |events|
  {
    if events != [] {
      StepKeepsLost(f, limit, events[0], id);
      LostRun(Step(f, limit, events[0]), limit, events[1..], id);
    }
  }

  /** Lost stays lost: once a granted id has left the lease set, then after any further run
      no renewal or release with it succeeds or changes anything, whatever token it shows. */
  lemma LostStaysLost(limit: nat, before: seq<Event>, after: seq<Event>, id: LeaseId, token: nat, now: int, ttl: int)
    requires LegalRun(IDLE, limit, before)
    requires var f := Run(IDLE, limit, before);
             LegalRun(f, limit, after) && id in f.issued && id !in f.l.expiry
    ensures var f := Run(Run(IDLE, limit, before), limit, after);
            && !CanRenew(f.l, id, token) && !Owns(f.l, id, token)
            && Renew(f.l, now, ttl, id, token) == f.l && Release(f.l, id, token) == f.l
            && id !in f.l.expiry
  {
    RunInv(IDLE, limit, before);
    LostRun(Run(IDLE, limit, before), limit, after, id);
  }

  /** Renewing and releasing touch the caller's own lease only, and only with its token. */
  lemma OwnLeaseOnly(l: Leases, id: LeaseId, token: nat, now: int, ttl: int)
    ensures var r := Renew(l, now, ttl, id, token);
            && r.expiry - {id} == l.expiry - {id} && r.tokens == l.tokens && r.fence == l.fence
            && (!Owns(l, id, token) ==> r == l)
    ensures var r := Release(l, id, token);
            && r.expiry - {id} == l.expiry - {id} && r.tokens - {id} == l.tokens - {id} && r.fence == l.fence
            && (if Owns(l, id, token) then id !in r.expiry && id !in r.tokens else r == l)
  {
  }

  /** Fencing: of two grants in one lifetime of the counter, the later shows the larger token. */
  lemma LaterGrantsFenceEarlier(limit: nat, before: seq<Event>, events: seq<Event>)
    requires LegalRun(IDLE, limit, before)
    requires LegalRun(Run(IDLE, limit, before), limit, events)
    requires forall e | e in events :: !e.FenceKeyExpires?
    ensures var f, g := Run(IDLE, limit, before), Run(Run(IDLE, limit, before), limit, events);
            && f.grants <= g.grants
            && (forall i, j | 0 <= i < |f.grants| <= j < |g.grants| :: f.grants[i] < g.grants[j])
  {
    RunInv(IDLE, limit, before);
    RunInv(Run(IDLE, limit, before), limit, events);
    GrantsGrow(Run(IDLE, limit, before), limit, events);
  }

  lemma {:induction false} GrantsGrow(f: Fleet, limit: nat, events: seq<Event>)
    requires forall e | e in events :: !e.FenceKeyExpires?
    ensures f.grants <= Run(f, limit, events).grants
    decreases |events|
  {
    if events != [] {
      GrantsGrow(Step(f, limit, events[0]), limit, events[1..]);
    }
  }

  lemma {:induction false} RunConcat(f: Fleet, limit: nat, a: seq<Event>, b: seq<Event>)
    ensures Run(f, limit, a + b) == Run(Run(f, limit, a), limit, b)
    ensures LegalRun(f, limit, a + b) == (LegalRun(f, limit, a) && LegalRun(Run(f, limit, a), limit, b))
    decreases |a|
  {
    if a == [] {
      assert a + b == b;
    } else {
      hide Step, Legal;
      assert (a + b)[0] == a[0] && (a + b)[1..] == a[1..] + b;
      RunConcat(Step(f, limit, a[0]), limit, a[1..], b);
    }
  }

  // ---------------------------------------------------------------- scripts as they run

  class FleetStore {
    var leases: map<LeaseId, int>
    var tokens: map<LeaseId, nat>
    var fence: nat

    ghost function Abs(): Leases
      reads this
    {
      Leases(leases, tokens, fence)
    }

    constructor ()
      ensures Abs() == NO_LEASES
    {
      leases, tokens, fence := map[], map[], 0;
    }

    /** Drops the tokens of expired leases one by one, then the leases themselves. */
    method PurgeExpired(now: int) returns (expiredCount: nat)
      modifies this
      ensures Abs() == Purged(old(Abs()), now) && fence == old(fence)
      ensures expiredCount == |Due(old(Abs()), now)|
    {
      var expired := set id | id in leases && leases[id] <= now;
      assert expired == Due(Abs(), now);
      var todo := expired;
      while todo != {}
        invariant todo <= expired && leases == old(leases) && fence == old(fence)
        invariant tokens - todo == old(tokens) - expired
        decreases |todo|
      {
        var id :| id in todo;
        tokens := tokens - {id};
        todo := todo - {id};
      }
      assert tokens - {} == tokens;
      leases := leases - expired;
      expiredCount := |expired|;
    }

    method AcquireScript(now: int, ttl: int, limit: nat, leaseId: LeaseId)
      returns (granted: bool, token: nat, inflight: nat, expiredCount: nat)
      modifies this
      ensures Abs() == Acquire(old(Abs()), now, ttl, limit, leaseId)
      ensures granted == CanAcquire(old(Abs()), now, limit)
      ensures granted ==> Owns(Abs(), leaseId, token) && token == old(fence) + 1
      ensures inflight == |Purged(old(Abs()), now).expiry| + (if granted then 1 else 0)
      ensures expiredCount == |Due(old(Abs()), now)|
    {
      hide Purged, Due;
      expiredCount := PurgeExpired(now);
      inflight := |leases|;
      if inflight >= limit {
        return false, 0, inflight, expiredCount;
      }
      fence := fence + 1;
      leases := leases[leaseId := now + ttl];
      tokens := tokens[leaseId := fence];
      return true, fence, inflight + 1, expiredCount;
    }

    method RenewScript(now: int, ttl: int, leaseId: LeaseId, token: nat) returns (ok: bool)
      modifies this
      ensures Abs() == Renew(old(Abs()), now, ttl, leaseId, token)
      ensures ok == CanRenew(old(Abs()), leaseId, token)
    {
      if leaseId !in tokens || tokens[leaseId] != token {
        return false;
      }
      if leaseId !in leases {
        return false;
      }
      leases := leases[leaseId := now + ttl];
      return true;
    }

    method ReleaseScript(leaseId: LeaseId, token: nat) returns (ok: bool)
      modifies this
      ensures Abs() == Release(old(Abs()), leaseId, token)
      ensures ok == Owns(old(Abs()), leaseId, token)
    {
      if leaseId !in tokens || tokens[leaseId] != token {
        return false;
      }
      leases := leases - {leaseId};
      tokens := tokens - {leaseId};
      return true;
    }

    method PurgeScript(now: int) returns (expiredCount: nat, inflight: nat)
      modifies this
      ensures Abs() == Purged(old(Abs()), now)
      ensures expiredCount == |Due(old(Abs()), now)| && inflight == |Abs().expiry|
    {
      expiredCount := PurgeExpired(now);
      inflight := |leases|;
    }
  }
}
