/** The bounded store of routing decisions of one replica: the oldest key leaves first, where a
    key's age counts from its first insertion. */
module DecisionStore {
  import opened Common

  /** `details` stands for the fields that the store never looks at. */
  datatype Record = Record(requestId: string, tenantId: Option<string>, shadowOutcome: Option<string>,
                           shadowMs: Option<real>, recordedAt: real, details: string)

  datatype Store = Store(order: seq<string>, entries: map<string, Record>)

  const EMPTY := Store([], map[])

  function Tenant(id: Option<string>): (t: string)
    ensures t != ""
  {
    if id == None || id == Some("") then "platform" else id.value
  }

  function Join(tenant: string, requestId: string): string {
    tenant + ":" + requestId
  }

  function StorageKey(r: Record): string {
    Join(Tenant(r.tenantId), r.requestId)
  }

  // ---------------------------------------------------------------- operations

  /** The newest n of a list. */
  function Newest(s: seq<string>, n: nat): seq<string> {
    if |s| <= n then s else s[|s| - n..]
  }

  function Put(s: Store, r: Record, now: real, max: nat): Store {
    var key := StorageKey(r);
    var order := Newest(if key in s.entries then s.order else s.order + [key], max);
    Store(order, Restrict(s.entries[key := r.(recordedAt := now)], Elements(order)))
  }

  /** The oldest key under which a record of this request is stored. */
  function FirstKey(s: Store, requestId: string): (key: Option<string>)
    ensures key.Some? ==> key.value in s.order && key.value in s.entries
                          && s.entries[key.value].requestId == requestId
    ensures key.None? ==> forall k | k in s.order && k in s.entries :: s.entries[k].requestId != requestId
    decreases |s.order|
  {
    if s.order == [] then None
    else if s.order[0] in s.entries && s.entries[s.order[0]].requestId == requestId then Some(s.order[0])
    else FirstKey(s.(order := s.order[1..]), requestId)
  }

  function Lookup(s: Store, key: string): Option<Record> {
    if key in s.entries then Some(s.entries[key]) else None
  }

  function Find(s: Store, requestId: string, tenantId: Option<string>, anyTenant: bool): Option<Record> {
    if anyTenant then
      var key := FirstKey(s, requestId);
      if key.Some? then Lookup(s, key.value) else None
    else
      var scoped := Lookup(s, Join(Tenant(tenantId), requestId));
      if scoped.Some? then scoped else Lookup(s, requestId)
  }

  function PatchShadow(s: Store, requestId: string, outcome: string, ms: real): Store {
    var key := FirstKey(s, requestId);
    if key.None? then s
    else s.(entries := s.entries[key.value := s.entries[key.value].(shadowOutcome := Some(outcome), shadowMs := Some(ms))])
  }

  /** A patch is seen by lookups for any tenant, in the shadow fields of the record that they
      found before, and nowhere else. */
  lemma PatchIsSeen(s: Store, requestId: string, outcome: string, ms: real)
    ensures var p, before := PatchShadow(s, requestId, outcome, ms), Find(s, requestId, None, true);
            && Find(p, requestId, None, true)
               == (match before case None => None
                   case Some(r) => Some(r.(shadowOutcome := Some(outcome), shadowMs := Some(ms))))
            && p.order == s.order && p.entries.Keys == s.entries.Keys
            && (forall k | k in s.entries && Some(k) != FirstKey(s, requestId) :: p.entries[k] == s.entries[k])
  {
    var key := FirstKey(s, requestId);
    if key.Some? {
      var r := s.entries[key.value].(shadowOutcome := Some(outcome), shadowMs := Some(ms));
      SameFirstKey(s, key.value, r, requestId);
    }
  }

  lemma {:induction false} SameFirstKey(s: Store, key: string, r: Record, requestId: string)
    requires key in s.entries && r.requestId == s.entries[key].requestId
    ensures FirstKey(s.(entries := s.entries[key := r]), requestId) == FirstKey(s, requestId)
    decreases |s.order|
  {
    if s.order != [] {
      SameFirstKey(s.(order := s.order[1..]), key, r, requestId);
    }
  }

  // ---------------------------------------------------------------- what every step keeps

  datatype Event = PutEvent(record: Record, now: real) | PatchEvent(requestId: string, outcome: string, ms: real)

  function Step(s: Store, e: Event, max: nat): Store {
    match e
    case PutEvent(r, now) => Put(s, r, now, max)
    case PatchEvent(id, outcome, ms) => PatchShadow(s, id, outcome, ms)
  }

  function Run(s: Store, events: seq<Event>, max: nat): Store
    decreases |events|
  {
    if events == [] then s else Run(Step(s, events[0], max), events[1..], max)
  }

  ghost predicate Bounded(s: Store, max: nat) {
    && NoDuplicates(s.order) && |s.order| <= max && s.entries.Keys == Elements(s.order)
    && (forall k | k in s.entries :: StorageKey(s.entries[k]) == k)
  }

  lemma NewestDistinct(s: seq<string>, n: nat)
    requires NoDuplicates(s)
    ensures NoDuplicates(Newest(s, n)) && |Newest(s, n)| <= n && Elements(Newest(s, n)) <= Elements(s)
  {
  }

  lemma StepBounded(s: Store, e: Event, max: nat)
    requires Bounded(s, max)
    ensures Bounded(Step(s, e, max), max)
  {
    if e.PutEvent? {
      var key := StorageKey(e.record);
      var order := if key in s.entries then s.order else s.order + [key];
      assert key !in s.entries ==> key !in Elements(s.order);
      NewestDistinct(order, max);
      assert Elements(order) == s.entries.Keys + {key};
    }
  }

  lemma {:induction false} RunBounded(s: Store, events: seq<Event>, max: nat)
    requires Bounded(s, max)
    ensures Bounded(Run(s, events, max), max)
    decreases |events|
  {
    if events != [] {
      hide Bounded, Step;
      StepBounded(s, events[0], max);
      RunBounded(Step(s, events[0], max), events[1..], max);
    }
  }

  /** In every reachable state the number of records is bounded and each is under its own key. */
  lemma EveryRunBounded(events: seq<Event>, max: nat)
    ensures Bounded(Run(EMPTY, events, max), max)
  {
    RunBounded(EMPTY, events, max);
  }

  /** Putting under a stored key replaces the record in place; the clock stamps every record, and
      without a tenant the key is the platform's. */
  lemma PutExactly(s: Store, r: Record, now: real, max: nat)
    requires Bounded(s, max) && max > 0
    ensures Lookup(Put(s, r, now, max), StorageKey(r)) == Some(r.(recordedAt := now))
    ensures StorageKey(r) in s.entries ==> Put(s, r, now, max).order == s.order
    ensures r.tenantId == None || r.tenantId == Some("") ==> StorageKey(r) == "platform:" + r.requestId
    ensures r.tenantId.Some? && r.tenantId.value != "" ==> StorageKey(r) == r.tenantId.value + ":" + r.requestId
  {
    var key := StorageKey(r);
    if key in s.entries {
      assert key in Elements(s.order);
    } else {
      FreshKeyIsNewest(s, r, now, max);
    }
    assert "platform" + ":" + r.requestId == "platform:" + r.requestId;
  }

  // ---------------------------------------------------------------- first in, first out

  /** The keys that a run inserts, in order: puts under a key that is stored at that moment
      insert nothing. */
  function Inserted(s: Store, events: seq<Event>, max: nat): seq<string>
    decreases |events|
  {
    if events == [] then [] else NewKey(s, events[0]) + Inserted(Step(s, events[0], max), events[1..], max)
  }

  function NewKey(s: Store, e: Event): seq<string> {
    if e.PutEvent? && StorageKey(e.record) !in s.entries then [StorageKey(e.record)] else []
  }

  lemma NewestOfNewest(a: seq<string>, b: seq<string>, c: seq<string>, n: nat)
    ensures Newest(Newest(a + b, n) + c, n) == Newest(a + (b + c), n)
  {
    assert a + b + c == a + (b + c);
    if |a + b| > n {
      assert Newest(a + b, n) + c == (a + b + c)[|a + b| - n..];
    }
  }

  lemma StepOrder(s: Store, e: Event, max: nat)
    requires Bounded(s, max)
    ensures Step(s, e, max).order == Newest(s.order + NewKey(s, e), max)
  {
    assert s.order + [] == s.order;
  }

  /** First in, first out: the stored keys are the newest of all inserted ones. */
  lemma {:induction false} StoredAreNewest(s: Store, events: seq<Event>, max: nat)
    requires Bounded(s, max)
    ensures Run(s, events, max).order == Newest(s.order + Inserted(s, events, max), max)
    decreases |events|
  {
    if events == [] {
      assert s.order + [] == s.order;
    } else {
      hide Bounded, Newest, Step, NewKey;
      StepBounded(s, events[0], max);
      StoredAreNewest(Step(s, events[0], max), events[1..], max);
      StepOrder(s, events[0], max);
      NewestOfNewest(s.order, NewKey(s, events[0]), Inserted(Step(s, events[0], max), events[1..], max), max);
    }
  }

  /** No event of the run concerns this record. */
  predicate Untouched(key: string, requestId: string, e: Event) {
    match e
    case PutEvent(r, _) => StorageKey(r) != key
    case PatchEvent(id, _, _) => id != requestId
  }

  lemma {:induction false} UntouchedRecordStays(s: Store, events: seq<Event>, max: nat, key: string, requestId: string)
    requires forall i | 0 <= i < |events| :: Untouched(key, requestId, events[i])
    requires key in s.entries ==> s.entries[key].requestId == requestId
    ensures var t := Run(s, events, max); key in t.entries ==> key in s.entries && t.entries[key] == s.entries[key]
    ensures key !in Inserted(s, events, max)
    decreases |events|
  {
    if events != [] {
      var next := Step(s, events[0], max);
      assert Untouched(key, requestId, events[0]);
      assert key in next.entries ==> key in s.entries && next.entries[key] == s.entries[key];
      hide Step;
      UntouchedRecordStays(next, events[1..], max, key, requestId);
    }
  }

  lemma SurvivesExactly(order: seq<string>, added: seq<string>, i: nat, max: nat)
    requires i < |order| && NoDuplicates(order) && order[i] !in added
    ensures order[i] in Newest(order + added, max) <==> |order| - i + |added| <= max
  {
    var all, kept := order + added, Newest(order + added, max);
    var dropped := |all| - |kept|;
    assert kept == all[dropped..];
    if i >= dropped {
      assert kept[i - dropped] == order[i];
    } else {
      forall j | 0 <= j < |kept| ensures kept[j] != order[i] {
        var from := j + dropped;
        if from >= |order| { assert all[from] == added[from - |order|]; }
      }
    }
  }

  /** Retention: a decision recorded under a new key answers lookups by its tenant and request,
      unchanged, exactly until `max` newer keys have been inserted. From then on such a lookup
      falls through to the plain request identifier. */
  lemma ReadableUntilMaxNewer(s: Store, r: Record, now: real, events: seq<Event>, max: nat)
    requires Bounded(s, max) && max > 0 && StorageKey(r) !in s.entries
    requires forall i | 0 <= i < |events| :: Untouched(StorageKey(r), r.requestId, events[i])
    ensures var t := Put(s, r, now, max);
            var u := Run(t, events, max);
            && (Lookup(u, StorageKey(r)) == Some(r.(recordedAt := now)) <==> |Inserted(t, events, max)| < max)
            && Find(u, r.requestId, r.tenantId, false)
               == (if |Inserted(t, events, max)| < max then Some(r.(recordedAt := now)) else Lookup(u, r.requestId))
            && (':' !in r.requestId ==> Lookup(u, r.requestId) == None)
  {
    var key, t := StorageKey(r), Put(s, r, now, max);
    var u, added := Run(t, events, max), Inserted(t, events, max);
    StepBounded(s, PutEvent(r, now), max);
    FreshKeyIsNewest(s, r, now, max);
    RunBounded(t, events, max);
    UntouchedRecordStays(t, events, max, key, r.requestId);
    StoredAreNewest(t, events, max);
    SurvivesExactly(t.order, added, |t.order| - 1, max);
    assert key in u.entries <==> key in Elements(u.order);
    if ':' !in r.requestId {
      NoPlainKey(u, r.requestId, max);
    }
  }

  lemma FreshKeyIsNewest(s: Store, r: Record, now: real, max: nat)
    requires Bounded(s, max) && max > 0 && StorageKey(r) !in s.entries
    ensures var t := Put(s, r, now, max);
            && t.order != [] && t.order[|t.order| - 1] == StorageKey(r)
            && StorageKey(r) in t.entries && t.entries[StorageKey(r)] == r.(recordedAt := now)
  {
    var order := Newest(s.order + [StorageKey(r)], max);
    assert order[|order| - 1] == StorageKey(r);
    assert StorageKey(r) in Elements(order);
  }

  // ---------------------------------------------------------------- whose decision is found

  /** The fallback to a plain request identifier finds nothing, as stored keys have a colon. */
  lemma NoPlainKey(s: Store, requestId: string, max: nat)
    requires Bounded(s, max) && ':' !in requestId
    ensures requestId !in s.entries
  {
    forall k | k in s.entries ensures ':' in k {
      var r := s.entries[k];
      assert StorageKey(r)[|Tenant(r.tenantId)|] == ':';
    }
  }

  /** Only one tenant and request make this key. */
  predicate Unambiguous(tenant: string, requestId: string)
    requires tenant != ""
  {
    ':' !in requestId && ':' !in tenant[1..]
  }

  /** Storage keys tell requests apart exactly where neither part can be split elsewhere. */
  lemma KeysAreUnambiguous(tenant: string, requestId: string)
    requires tenant != ""
    ensures Unambiguous(tenant, requestId) <==>
            forall r: Record | StorageKey(r) == Join(tenant, requestId) ::
              Tenant(r.tenantId) == tenant && r.requestId == requestId
  {
    if Unambiguous(tenant, requestId) {
      forall r: Record | StorageKey(r) == Join(tenant, requestId)
        ensures Tenant(r.tenantId) == tenant && r.requestId == requestId
      {
        OneSplit(tenant, requestId, Tenant(r.tenantId), r.requestId);
      }
    } else {
      var all := Join(tenant, requestId);
      var i := OtherColon(tenant, requestId);
      var r := Record(all[i + 1..], Some(all[..i]), None, None, 0.0, "");
      assert all[..i] + ":" + all[i + 1..] == all;
      assert StorageKey(r) == all;
    }
  }

  lemma OtherColon(tenant: string, requestId: string) returns (i: nat)
    requires tenant != "" && !Unambiguous(tenant, requestId)
    ensures var all := Join(tenant, requestId); 0 < i < |all| && all[i] == ':' && i != |tenant|
  {
    var all := Join(tenant, requestId);
    if ':' in requestId {
      var j :| 0 <= j < |requestId| && requestId[j] == ':';
      i := |tenant| + 1 + j;
      assert all[i] == requestId[j];
    } else {
      var j :| 0 <= j < |tenant[1..]| && tenant[1..][j] == ':';
      i := j + 1;
      assert all[i] == tenant[i];
    }
  }

  lemma OneSplit(t: string, q: string, u: string, r: string)
    requires t != "" && u != "" && Unambiguous(t, q) && Join(u, r) == Join(t, q)
    ensures u == t && r == q
  {
    var all := Join(t, q);
    assert Join(u, r)[|u|] == ':';
    OnlyColon(t, q);
    assert all[..|t|] == t && all[|t| + 1..] == q;
    assert Join(u, r)[..|u|] == u && Join(u, r)[|u| + 1..] == r;
  }

  lemma OnlyColon(t: string, q: string)
    requires t != "" && Unambiguous(t, q)
    ensures forall i | 0 < i < |Join(t, q)| && i != |t| :: Join(t, q)[i] != ':'
  {
    forall i | 0 < i < |Join(t, q)| && i != |t| ensures Join(t, q)[i] != ':' {
      assert Join(t, q)[i] == if i < |t| then t[1..][i - 1] else q[i - |t| - 1];
    }
  }

  /** The lookup finds that tenant's record of that request, or nothing if there is none. */
  ghost predicate OwnOrNone(s: Store, requestId: string, tenantId: Option<string>) {
    match Find(s, requestId, tenantId, false)
    case Some(r) => Own(r, requestId, tenantId)
    case None => forall k | k in s.entries :: !Own(s.entries[k], requestId, tenantId)
  }

  predicate Own(r: Record, requestId: string, tenantId: Option<string>) {
    Tenant(r.tenantId) == Tenant(tenantId) && r.requestId == requestId
  }

  /** In one store a scoped lookup errs exactly when its key is another request's, or when its
      key is free and the request identifier itself is a key. */
  lemma LookupErrsExactly(s: Store, requestId: string, tenantId: Option<string>, max: nat)
    requires Bounded(s, max)
    ensures var key := Join(Tenant(tenantId), requestId);
            !OwnOrNone(s, requestId, tenantId) <==>
              if key in s.entries then !Own(s.entries[key], requestId, tenantId) else requestId in s.entries
  {
    if requestId in s.entries {
      LongerKey(s.entries[requestId]);
    }
  }

  lemma LongerKey(r: Record)
    ensures |StorageKey(r)| > |r.requestId|
  {
  }

  /** Over all stores, scoped lookups are right exactly for unambiguous requests. */
  lemma FoundIsOwn(requestId: string, tenantId: Option<string>)
    ensures Unambiguous(Tenant(tenantId), requestId) <==>
            forall s, max | Bounded(s, max) :: OwnOrNone(s, requestId, tenantId)
  {
    var tenant := Tenant(tenantId);
    KeysAreUnambiguous(tenant, requestId);
    if Unambiguous(tenant, requestId) {
      forall s, max | Bounded(s, max) ensures OwnOrNone(s, requestId, tenantId) {
        NoPlainKey(s, requestId, max);
      }
    } else {
      var r: Record :| StorageKey(r) == Join(tenant, requestId)
                       && !(Tenant(r.tenantId) == tenant && r.requestId == requestId);
      var s := Store([StorageKey(r)], map[StorageKey(r) := r]);
      assert Bounded(s, 1) && !OwnOrNone(s, requestId, tenantId);
    }
  }

  /** Through the plain fallback one tenant's lookup finds another tenant's record: the request
      identifier it asks for is that record's key. */
  lemma FallbackFindsOther(r: Record, now: real, tenantId: Option<string>)
    requires Tenant(tenantId) != Tenant(r.tenantId)
    ensures var s := Put(EMPTY, r, now, 1);
            Find(s, StorageKey(r), tenantId, false) == Some(r.(recordedAt := now))
  {
    var key := StorageKey(r);
    assert Newest([key], 1) == [key] && EMPTY.order + [key] == [key];
    assert |Join(Tenant(tenantId), key)| > |key|;
    assert Put(EMPTY, r, now, 1).entries.Keys == {key};
  }

  /** The place of the first key with a record of the request, or the number of keys. */
  lemma {:induction false} FirstPlace(s: Store, requestId: string) returns (i: nat)
    requires forall k | k in s.order :: k in s.entries
    ensures i <= |s.order|
    ensures forall j | 0 <= j < i :: s.entries[s.order[j]].requestId != requestId
    ensures i < |s.order| ==> s.entries[s.order[i]].requestId == requestId
    ensures FirstKey(s, requestId) == if i < |s.order| then Some(s.order[i]) else None
    decreases |s.order|
  {
    if s.order == [] {
      i := 0;
    } else {
      assert s.order[0] in s.order;
      if s.entries[s.order[0]].requestId == requestId {
        i := 0;
      } else {
        var j := FirstPlace(s.(order := s.order[1..]), requestId);
        i := j + 1;
      }
    }
  }

  /** Patches know no tenant. One for a tenant's stored record leaves it alone and changes another
      tenant's if and only if an older record carries the same request identifier. */
  lemma PatchHitsOther(s: Store, requestId: string, tenantId: Option<string>, outcome: string, ms: real, max: nat, j: nat)
    requires Bounded(s, max) && j < |s.order| && s.order[j] in s.entries
    requires Own(s.entries[s.order[j]], requestId, tenantId)
    ensures var p, hit := PatchShadow(s, requestId, outcome, ms), FirstKey(s, requestId);
            var older := exists i :: 0 <= i < j && s.order[i] in s.entries && s.entries[s.order[i]].requestId == requestId;
            && hit.Some?
            && (older <==> hit != Some(s.order[j]))
            && (older <==> !Own(s.entries[hit.value], requestId, tenantId))
            && (older ==> p.entries[s.order[j]] == s.entries[s.order[j]])
  {
    forall k | k in s.order ensures k in s.entries { assert k in Elements(s.order); }
    hide Bounded, StorageKey, Elements, FirstKey, Tenant;
    var i := FirstPlace(s, requestId);
    assert i <= j;
    assert i < j <==> exists x :: 0 <= x < j && s.order[x] in s.entries && s.entries[s.order[x]].requestId == requestId;
    if i < j {
      assert s.order[i] in s.order;
      OlderIsOther(s, requestId, tenantId, max, i, j);
    }
  }

  lemma OlderIsOther(s: Store, requestId: string, tenantId: Option<string>, max: nat, i: nat, j: nat)
    requires Bounded(s, max) && i < j < |s.order| && s.order[i] in s.entries && s.order[j] in s.entries
    requires Own(s.entries[s.order[j]], requestId, tenantId)
    ensures s.order[i] != s.order[j] && !Own(s.entries[s.order[i]], requestId, tenantId)
  {
    assert StorageKey(s.entries[s.order[i]]) == s.order[i];
  }

  /** Two tenants record decisions under one request identifier; a patch that is meant for the
      second is written into the record of the first. */
  lemma PatchCanHitOther(first: Record, second: Record, outcome: string, ms: real)
    requires first.requestId == second.requestId && Tenant(first.tenantId) != Tenant(second.tenantId)
    ensures var s := Put(Put(EMPTY, first, 1.0, 2), second, 2.0, 2);
            var p := PatchShadow(s, second.requestId, outcome, ms);
            && Lookup(p, StorageKey(second)) == Lookup(s, StorageKey(second)) == Some(second.(recordedAt := 2.0))
            && Lookup(p, StorageKey(first))
               == Some(first.(recordedAt := 1.0, shadowOutcome := Some(outcome), shadowMs := Some(ms)))
  {
    TwoPuts(first, second);
    hide Put, StorageKey;
  }

  lemma TwoPuts(first: Record, second: Record)
    requires first.requestId == second.requestId && Tenant(first.tenantId) != Tenant(second.tenantId)
    ensures StorageKey(first) != StorageKey(second)
    ensures Put(Put(EMPTY, first, 1.0, 2), second, 2.0, 2)
         == Store([StorageKey(first), StorageKey(second)],
                  map[StorageKey(first) := first.(recordedAt := 1.0), StorageKey(second) := second.(recordedAt := 2.0)])
  {
    var a, b := StorageKey(first), StorageKey(second);
    if a == b { TwoKeys(first, second); }
    hide StorageKey;
    OnePut(EMPTY, first, 1.0);
    var one := Put(EMPTY, first, 1.0, 2);
    assert EMPTY.order + [a] == [a];
    OnePut(one, second, 2.0);
    assert [a] + [b] == [a, b];
  }

  lemma OnePut(s: Store, r: Record, now: real)
    requires Bounded(s, 2) && |s.order| < 2 && StorageKey(r) !in s.entries
    ensures Put(s, r, now, 2) == Store(s.order + [StorageKey(r)], s.entries[StorageKey(r) := r.(recordedAt := now)])
    ensures Bounded(Put(s, r, now, 2), 2)
  {
    PutBeforeEviction(s, r, now, 2);
    StepBounded(s, PutEvent(r, now), 2);
  }

  lemma TwoKeys(r: Record, q: Record)
    requires r.requestId == q.requestId && StorageKey(r) == StorageKey(q)
    ensures Tenant(r.tenantId) == Tenant(q.tenantId)
  {
    var t, u := Tenant(r.tenantId), Tenant(q.tenantId);
    assert |t| == |u|;
    assert StorageKey(r)[..|t|] == t && StorageKey(q)[..|u|] == u;
  }

  /** And one for a request of which the tenant has no record changes another tenant's record if
      and only if there is one with that identifier. */
  lemma PatchWithoutOwn(s: Store, requestId: string, tenantId: Option<string>, outcome: string, ms: real, max: nat)
    requires Bounded(s, max) && forall k | k in s.entries :: !Own(s.entries[k], requestId, tenantId)
    ensures var hit, other := FirstKey(s, requestId), exists k :: k in s.entries && s.entries[k].requestId == requestId;
            && (hit.Some? <==> other)
            && (other ==> !Own(s.entries[hit.value], requestId, tenantId))
            && (!other ==> PatchShadow(s, requestId, outcome, ms) == s)
  {
    forall k | k in s.entries ensures k in s.order { assert k in Elements(s.order); }
  }

  // ---------------------------------------------------------------- the eviction loop

  lemma DropOldest(order: seq<string>, stored: map<string, Record>, max: nat)
    requires NoDuplicates(order) && |order| > max
    ensures Newest(order[1..], max) == Newest(order, max) && NoDuplicates(order[1..])
    ensures Restrict(stored, Elements(order)) - {order[0]} == Restrict(stored, Elements(order[1..]))
  {
    assert Elements(order) == Elements(order[1..]) + {order[0]} by {
      assert order == [order[0]] + order[1..];
    }
    assert order[0] !in Elements(order[1..]);
  }

  lemma NothingToDrop(order: seq<string>, max: nat)
    requires |order| <= max
    ensures Newest(order, max) == order
  {
  }

  lemma PutBeforeEviction(s: Store, r: Record, now: real, max: nat)
    requires Bounded(s, max)
    ensures var key := StorageKey(r);
            var order := if key in s.entries then s.order else s.order + [key];
            var entries := s.entries[key := r.(recordedAt := now)];
            NoDuplicates(order) && entries == Restrict(entries, Elements(order))
  {
    var key := StorageKey(r);
    var order := if key in s.entries then s.order else s.order + [key];
    assert key !in s.entries ==> key !in Elements(s.order);
    assert Elements(order) == s.entries.Keys + {key};
  }

  // ---------------------------------------------------------------- the store object

  /** `listed` is the insertion order that the dictionary `entries` keeps of itself. */
  class InMemoryDecisionStore {
    var entries: map<string, Record>
    var listed: seq<string>
    var order: seq<string>
    const maxEntries: nat

    ghost predicate Valid()
      reads this
    {
      listed == order && Bounded(Abs(), maxEntries)
    }

    ghost function Abs(): Store
      reads this
    {
      Store(order, entries)
    }

    constructor (max: nat)
      ensures Valid() && Abs() == EMPTY && maxEntries == max
    {
      entries, listed, order, maxEntries := map[], [], [], max;
    }

    method PutRecord(r: Record, now: real)
      requires Valid()
      modifies this
      ensures Valid() && Abs() == Put(old(Abs()), r, now, maxEntries)
    {
      var key := StorageKey(r);
      if key !in entries {
        order := order + [key];
        listed := listed + [key];
      }
      entries := entries[key := r.(recordedAt := now)];
      ghost var all, stored := order, entries;
      PutBeforeEviction(old(Abs()), r, now, maxEntries);
      hide Bounded, Newest, NoDuplicates, Restrict, Elements;
      while |order| > maxEntries
        invariant listed == order && Newest(order, maxEntries) == Newest(all, maxEntries)
        invariant NoDuplicates(order) && entries == Restrict(stored, Elements(order))
        decreases |order|
      {
        DropOldest(order, stored, maxEntries);
        var oldest := order[0];
        order := order[1..];
        entries, listed := entries - {oldest}, listed[1..];
      }
      NothingToDrop(order, maxEntries);
      StepBounded(old(Abs()), PutEvent(r, now), maxEntries);
    }

    method Get(requestId: string, tenantId: Option<string>, anyTenant: bool) returns (found: Option<Record>)
      requires Valid()
      ensures found == Find(Abs(), requestId, tenantId, anyTenant)
    {
      if anyTenant {
        var key := ScanFor(requestId);
        return if key.Some? then Some(entries[key.value]) else None;
      }
      var key := Join(Tenant(tenantId), requestId);
      if key in entries {
        return Some(entries[key]);
      }
      return if requestId in entries then Some(entries[requestId]) else None;
    }

    /** The loop over the dictionary that lookups for any tenant and patches share. */
    method ScanFor(requestId: string) returns (key: Option<string>)
      requires Valid()
      ensures key == FirstKey(Abs(), requestId)
    {
      for i := 0 to |listed|
        invariant FirstKey(Store(listed[i..], entries), requestId) == FirstKey(Abs(), requestId)
      {
        assert listed[i] in Elements(order);
        if entries[listed[i]].requestId == requestId {
          return Some(listed[i]);
        }
        assert listed[i..][1..] == listed[i + 1..];
      }
      return None;
    }

    method PatchRecord(requestId: string, outcome: string, ms: real)
      requires Valid()
      modifies this
      ensures Valid() && Abs() == PatchShadow(old(Abs()), requestId, outcome, ms)
    {
      StepBounded(Abs(), PatchEvent(requestId, outcome, ms), maxEntries);
      var key := ScanFor(requestId);
      if key.None? {
        return;
      }
      entries := entries[key.value := entries[key.value].(shadowOutcome := Some(outcome), shadowMs := Some(ms))];
    }
  }
}
