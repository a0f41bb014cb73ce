/** Attribution counters of one tenant team: a sliding window of request stamps and the tokens
    of the day. Stamps are in seconds on a clock that does not go back. */
module TenantWindow {
  import opened Common

  type RequestId = nat

  const WINDOW_SECONDS := 60

  datatype Usage = Usage(times: seq<int>, members: map<RequestId, int>, tokens: int, day: int)

  const UNSEEN := Usage([], map[], 0, 0)

  // ---------------------------------------------------------------- operations

  function Prune(times: seq<int>, cutoff: int): (kept: seq<int>)
    ensures exists n :: 0 <= n <= |times| && kept == times[n..]
                     && (forall i | 0 <= i < n :: times[i] < cutoff) && (kept != [] ==> kept[0] >= cutoff)
  {
    if times == [] || times[0] >= cutoff then
      assert times == times[0..];
      times
    else
      var kept := Prune(times[1..], cutoff);
      assert kept == times[1..][|times| - 1 - |kept|..] == times[|times| - |kept|..];
      kept
  }

  /** Every access first drops stamps older than the window and starts a new day's count. */
  function Get(u: Usage, now: int, today: int): Usage {
    u.(times := Prune(u.times, now - WINDOW_SECONDS),
       tokens := if u.day == today then u.tokens else 0, day := today)
  }

  function Reserve(u: Usage, now: int, today: int, id: RequestId, tokens: int): Usage {
    var g := Get(u, now, today);
    g.(times := g.times + [now], members := g.members[id := now], tokens := g.tokens + tokens)
  }

  function IndexOf(times: seq<int>, stamp: int): (i: nat)
    ensures i <= |times|
    ensures i < |times| <==> stamp in times
    ensures i < |times| ==> times[i] == stamp
  {
    if times == [] || times[0] == stamp then 0 else 1 + IndexOf(times[1..], stamp)
  }

  function Without(times: seq<int>, stamp: int): seq<int> {
    var i := IndexOf(times, stamp);
    if i == |times| then times else Drop(times, i)
  }

  function Refund(u: Usage, now: int, today: int, id: RequestId, reserved: int): Usage {
    var g := Get(u, now, today);
    g.(times := if id in g.members then Without(g.times, g.members[id]) else g.times,
       members := g.members - {id},
       tokens := Max(0, g.tokens - reserved))
  }

  function Reconcile(u: Usage, now: int, today: int, reserved: int, actual: int): Usage {
    var g := Get(u, now, today);
    g.(tokens := Max(0, g.tokens + (actual - reserved)))
  }

  // ---------------------------------------------------------------- the sliding window

  /** Every access reads the clock and the date. */
  datatype Event =
    | ReserveEvent(now: int, today: int, id: RequestId, tokens: nat)
    | RefundEvent(now: int, today: int, id: RequestId, reserved: nat)
    | ReconcileEvent(now: int, today: int, id: RequestId, reserved: nat, actual: nat)
    | ReadEvent(now: int, today: int)

  function Step(u: Usage, e: Event): Usage {
    match e
    case ReserveEvent(now, today, id, tokens) => Reserve(u, now, today, id, tokens)
    case RefundEvent(now, today, id, reserved) => Refund(u, now, today, id, reserved)
    case ReconcileEvent(now, today, _, reserved, actual) => Reconcile(u, now, today, reserved, actual)
    case ReadEvent(now, today) => Get(u, now, today)
  }

  /** Requests that were not refunded and are stamped no earlier than the cutoff. */
  function Recent(members: map<RequestId, int>, cutoff: int): set<RequestId> {
    set id | id in members && members[id] >= cutoff
  }

  /** Each stamp in the window belongs to one request of its own, and no recent one is missing. */
  ghost predicate Owned(times: seq<int>, members: map<RequestId, int>, owners: seq<RequestId>, now: int) {
    && Stamped(times, members, owners) && NoDuplicates(owners) && Sorted(times)
    && (forall i | 0 <= i < |times| :: now - WINDOW_SECONDS <= times[i] <= now)
    && (forall id | id in Recent(members, now - WINDOW_SECONDS) :: id in owners)
  }

  ghost predicate Stamped(times: seq<int>, members: map<RequestId, int>, owners: seq<RequestId>) {
    |owners| == |times| && forall i | 0 <= i < |owners| :: owners[i] in members && members[owners[i]] == times[i]
  }

  lemma GetOwned(times: seq<int>, members: map<RequestId, int>, owners: seq<RequestId>, before: int, now: int)
    returns (kept: seq<RequestId>)
    requires Owned(times, members, owners, before) && before <= now
    ensures Owned(Prune(times, now - WINDOW_SECONDS), members, kept, now)
  {
    var cutoff := now - WINDOW_SECONDS;
    var left := Prune(times, cutoff);
    var n :| 0 <= n <= |times| && left == times[n..]
             && (forall i | 0 <= i < n :: times[i] < cutoff) && (left != [] ==> left[0] >= cutoff);
    hide *;
    PrefixDropped(times, members, owners, before, now, n);
    kept := owners[n..];
  }

  lemma PrefixDropped(times: seq<int>, members: map<RequestId, int>, owners: seq<RequestId>, before: int, now: int, n: nat)
    requires Owned(times, members, owners, before) && before <= now && n <= |times|
    requires forall i | 0 <= i < n :: times[i] < now - WINDOW_SECONDS
    requires n < |times| ==> times[n] >= now - WINDOW_SECONDS
    ensures |owners| == |times| && Owned(times[n..], members, owners[n..], now)
  {
    assert |owners| == |times|;
    hide NoDuplicates, Stamped;
    KeptOwned(times, members, owners, n);
    forall id | id in Recent(members, now - WINDOW_SECONDS) ensures id in owners[n..] {
      assert id in Recent(members, before - WINDOW_SECONDS);
      KeptIsRecent(times, members, owners, n, id, now - WINDOW_SECONDS);
    }
  }

  lemma KeptOwned(times: seq<int>, members: map<RequestId, int>, owners: seq<RequestId>, n: nat)
    requires Stamped(times, members, owners) && NoDuplicates(owners) && Sorted(times) && n <= |times|
    ensures Stamped(times[n..], members, owners[n..]) && NoDuplicates(owners[n..]) && Sorted(times[n..])
  {
  }

  lemma KeptIsRecent(times: seq<int>, members: map<RequestId, int>, owners: seq<RequestId>, n: nat, id: RequestId, cutoff: int)
    requires Stamped(times, members, owners) && n <= |times| && (forall i | 0 <= i < n :: times[i] < cutoff)
    requires id in owners && id in Recent(members, cutoff)
    ensures id in owners[n..]
  {
    var i :| 0 <= i < |owners| && owners[i] == id;
    assert owners[n..][i - n] == id;
  }

  lemma ReserveOwned(times: seq<int>, members: map<RequestId, int>, owners: seq<RequestId>, now: int, id: RequestId)
    requires Owned(times, members, owners, now) && id !in members
    ensures Owned(times + [now], members[id := now], owners + [id], now)
  {
    var all := owners + [id];
    assert all[|owners|] == id;
    forall i | 0 <= i < |owners| ensures owners[i] != id && all[i] == owners[i] {
    }
    forall j | j in Recent(members[id := now], now - WINDOW_SECONDS) ensures j in all {
      if j != id {
        assert j in Recent(members, now - WINDOW_SECONDS);
        assert j in owners;
      }
    }
  }

  /** A refund drops the first equal stamp, which may belong to another request; the two then
      trade places. */
  lemma RefundOwned(times: seq<int>, members: map<RequestId, int>, owners: seq<RequestId>, now: int, id: RequestId)
    returns (left: seq<RequestId>)
    requires Owned(times, members, owners, now) && id in members
    ensures Owned(Without(times, members[id]), members - {id}, left, now)
  {
    if id !in owners {
      left := owners;
      assert id !in Recent(members, now - WINDOW_SECONDS);
      assert members[id] !in times;
      assert Recent(members - {id}, now - WINDOW_SECONDS) <= Recent(members, now - WINDOW_SECONDS);
    } else {
      var j :| 0 <= j < |owners| && owners[j] == id;
      assert times[j] == members[id];
      var i := IndexOf(times, members[id]);
      left := Traded(owners, i, j);
      TradedOwners(owners, i, j);
      TradedStamps(times, members, owners, i, j);
      DropKeepsSorted(times, i);
      hide NoDuplicates, Sorted, Stamped;
      assert Recent(members - {id}, now - WINDOW_SECONDS) <= Recent(members, now - WINDOW_SECONDS);
    }
  }

  function Drop<T>(s: seq<T>, i: nat): (r: seq<T>)
    requires i < |s|
  {
    s[..i] + s[i + 1..]
  }

  function Traded(owners: seq<RequestId>, i: nat, j: nat): seq<RequestId>
    requires i < |owners| && j < |owners|
  {
    Drop(owners[j := owners[i]], i)
  }

  lemma DropKeepsSorted(times: seq<int>, i: nat)
    requires i < |times| && Sorted(times)
    ensures Sorted(Drop(times, i))
    ensures forall t | t in Drop(times, i) :: t in times
  {
  }

  lemma TradedStamps(times: seq<int>, members: map<RequestId, int>, owners: seq<RequestId>, i: nat, j: nat)
    requires Stamped(times, members, owners) && NoDuplicates(owners)
    requires i < |owners| && j < |owners| && times[i] == times[j]
    ensures Stamped(Drop(times, i), members - {owners[j]}, Traded(owners, i, j))
  {
    var left, kept := Traded(owners, i, j), Drop(times, i);
    forall k | 0 <= k < |left|
      ensures left[k] in members && left[k] != owners[j] && members[left[k]] == kept[k]
    {
      var from := if k < i then k else k + 1;
      assert left[k] == if from == j then owners[i] else owners[from];
      assert kept[k] == times[from];
    }
  }

  lemma TradedOwners(owners: seq<RequestId>, i: nat, j: nat)
    requires i < |owners| && j < |owners| && NoDuplicates(owners)
    ensures NoDuplicates(Traded(owners, i, j)) && owners[j] !in Traded(owners, i, j)
    ensures forall r | r in owners && r != owners[j] :: r in Traded(owners, i, j)
  {
    var left := Traded(owners, i, j);
    forall r | r in owners && r != owners[j] ensures r in left {
      var k :| 0 <= k < |owners| && owners[k] == r;
      var at := if k == i then j else k;
      if at < i { assert left[at] == r; } else if at > i { assert left[at - 1] == r; }
    }
  }

  predicate Legal(u: Usage, last: int, e: Event) {
    last <= e.now && (e.ReserveEvent? ==> e.id !in u.members)
  }

  function Run(u: Usage, events: seq<Event>): Usage
    decreases |events|
  {
    if events == [] then u else Run(Step(u, events[0]), events[1..])
  }

  predicate LegalRun(u: Usage, last: int, events: seq<Event>)
    decreases |events|
  {
    events == []
    || (Legal(u, last, events[0]) && LegalRun(Step(u, events[0]), events[0].now, events[1..]))
  }

  ghost predicate OwnedUsage(u: Usage, owners: seq<RequestId>, now: int) {
    Owned(u.times, u.members, owners, now)
  }

  lemma StepOwned(u: Usage, owners: seq<RequestId>, last: int, e: Event) returns (next: seq<RequestId>)
    requires OwnedUsage(u, owners, last) && Legal(u, last, e)
    ensures OwnedUsage(Step(u, e), next, e.now)
  {
    hide Owned, Prune, Without;
    next := GetOwned(u.times, u.members, owners, last, e.now);
    var g := Get(u, e.now, e.today);
    match e
    case ReserveEvent(now, _, id, tokens) =>
      ReserveOwned(g.times, g.members, next, now, id);
      next := next + [id];
    case RefundEvent(now, _, id, reserved) =>
      if id in g.members {
        next := RefundOwned(g.times, g.members, next, now, id);
      } else {
        assert g.members - {id} == g.members;
      }
    case ReconcileEvent(_, _, _, _, _) =>
    case ReadEvent(_, _) =>
  }

  lemma {:induction false} RunOwned(u: Usage, owners: seq<RequestId>, last: int, events: seq<Event>)
    returns (next: seq<RequestId>)
    requires OwnedUsage(u, owners, last) && LegalRun(u, last, events)
    ensures OwnedUsage(Run(u, events), next, if events == [] then last else events[|events| - 1].now)
    decreases |events|
  {
    if events == [] {
      next := owners;
    } else {
      hide OwnedUsage, Step, Legal;
      var mid := StepOwned(u, owners, last, events[0]);
      next := RunOwned(Step(u, events[0]), mid, events[0].now, events[1..]);
    }
  }

  /** Sliding window: after any run with a clock that does not go back, over any number of
      days, the stamps are sorted and their number is the number of unrefunded requests of the last sixty seconds. */
  lemma WindowCountsRecentRequests(start: int, events: seq<Event>)
    requires events != [] && LegalRun(UNSEEN, start, events)
    ensures var u, now := Run(UNSEEN, events), events[|events| - 1].now;
            Sorted(u.times) && |u.times| == |Recent(u.members, now - WINDOW_SECONDS)|
  {
    var owners := RunOwned(UNSEEN, [], start, events);
    var u, now := Run(UNSEEN, events), events[|events| - 1].now;
    assert Recent(u.members, now - WINDOW_SECONDS) == Elements(owners);
    DistinctCount(owners);
  }

  lemma {:induction false} DistinctCount(s: seq<RequestId>)
    requires NoDuplicates(s)
    ensures |Elements(s)| == |s|
  {
    if s != [] {
      var front, last := s[..|s| - 1], s[|s| - 1];
      DistinctCount(front);
      assert s == front + [last];
      assert Elements(s) == Elements(front) + {last};
      assert last !in Elements(front);
    }
  }

  /** The same with the minute spelled out: the requests counted are those stamped at most sixty
      seconds ago that were not refunded. */
  lemma MinuteIsCounted(start: int, events: seq<Event>)
    requires events != [] && LegalRun(UNSEEN, start, events)
    ensures var u, now := Run(UNSEEN, events), events[|events| - 1].now;
            |u.times| == |set id | id in u.members && u.members[id] >= now - 60|
  {
    WindowCountsRecentRequests(start, events);
    var u, now := Run(UNSEEN, events), events[|events| - 1].now;
    assert Recent(u.members, now - 60) == set id | id in u.members && u.members[id] >= now - 60;
  }

  /** What a refund and a reconciliation do to the members and the day's tokens. */
  lemma ClosedExactly(u: Usage, now: int, today: int, id: RequestId, reserved: nat, actual: nat)
    ensures var r, tokens := Refund(u, now, today, id, reserved), if u.day == today then u.tokens else 0;
            && r.members == u.members - {id} && r.day == today
            && r.tokens == (if tokens < reserved then 0 else tokens - reserved)
    ensures var r, tokens := Reconcile(u, now, today, reserved, actual), if u.day == today then u.tokens else 0;
            && r.members == u.members && r.day == today
            && r.tokens == (if tokens + actual < reserved then 0 else tokens + actual - reserved)
  {
    hide Prune, Without;
  }

  // ---------------------------------------------------------------- tokens of the day

  /** What each reservation of the day counts for, and which may still be closed. */
  datatype Day = Day(u: Usage, charges: map<RequestId, int>, open: set<RequestId>)

  const FIRST := Day(UNSEEN, map[], {})

  /** The first access on another day starts with no charges. */
  function Opened(d: Day, today: int): Day {
    if d.u.day == today then d else Day(d.u, map[], {})
  }

  function Charged(d: Day, e: Event): Day {
    var u, o := Step(d.u, e), Opened(d, e.today);
    match e
    case ReserveEvent(_, _, id, tokens) => Day(u, o.charges[id := tokens], o.open + {id})
    case RefundEvent(_, _, id, _) => Day(u, o.charges - {id}, o.open - {id})
    case ReconcileEvent(_, _, id, _, actual) => Day(u, o.charges[id := actual], o.open - {id})
    case ReadEvent(_, _) => o.(u := u)
  }

  /** A reservation is closed at most once, with the amount it reserved, on its own day. */
  predicate Fair(d: Day, e: Event) {
    var o := Opened(d, e.today);
    match e
    case ReserveEvent(_, _, id, _) => id !in o.charges
    case RefundEvent(_, _, id, reserved) => id in o.open && id in o.charges && o.charges[id] == reserved
    case ReconcileEvent(_, _, id, reserved, _) => id in o.open && id in o.charges && o.charges[id] == reserved
    case ReadEvent(_, _) => true
  }

  ghost predicate Balanced(d: Day) {
    d.u.tokens == Sum(d.charges) && forall id | id in d.charges :: d.charges[id] >= 0
  }

  /** What an access at this date finds is balanced, on the same day and on a new one. */
  lemma OpenedBalanced(d: Day, now: int, today: int)
    requires Balanced(d)
    ensures Balanced(Opened(d, today).(u := Get(d.u, now, today)))
  {
    hide Prune;
    assert Sum<RequestId>(map[]) == 0;
  }

  lemma StepBalanced(d: Day, e: Event)
    requires Balanced(d) && Fair(d, e)
    ensures Balanced(Charged(d, e))
  {
    OpenedBalanced(d, e.now, e.today);
    hide Sum, Prune, Without;
    var charges := Opened(d, e.today).charges;
    match e
    case ReserveEvent(_, _, id, tokens) => SumInsert(charges, id, tokens);
    case RefundEvent(_, _, id, reserved) =>
      SumRemove(charges, id);
      SumNonNegative(charges - {id});
    case ReconcileEvent(_, _, id, reserved, actual) =>
      SumRemove(charges, id);
      SumNonNegative(charges - {id});
      SumInsert(charges - {id}, id, actual);
      assert (charges - {id})[id := actual] == charges[id := actual];
    case ReadEvent(_, _) =>
  }

  function RunDays(d: Day, events: seq<Event>): Day
    decreases |events|
  {
    if events == [] then d else RunDays(Charged(d, events[0]), events[1..])
  }

  predicate FairRun(d: Day, events: seq<Event>)
    decreases |events|
  {
    events == [] || (Fair(d, events[0]) && FairRun(Charged(d, events[0]), events[1..]))
  }

  lemma {:induction false} RunBalanced(d: Day, events: seq<Event>)
    requires Balanced(d) && FairRun(d, events)
    ensures Balanced(RunDays(d, events)) && RunDays(d, events).u == Run(d.u, events)
    decreases |events|
  {
    if events != [] {
      hide Balanced, Fair, Step;
      StepBalanced(d, events[0]);
      RunBalanced(Charged(d, events[0]), events[1..]);
    }
  }

  /** Tokens of the day: over any number of days, with each reservation closed at most once and
      on its own day, the counter is exactly the sum of what the day's reservations were
      reserved for or reconciled to. */
  lemma TokensAreSumOfCharges(events: seq<Event>)
    requires FairRun(FIRST, events)
    ensures Run(UNSEEN, events).tokens == Sum(RunDays(FIRST, events).charges)
  {
    RunBalanced(FIRST, events);
  }

  /** The restriction to one day is needed: refunding a reservation that the day's counter does
      not contain keeps the count right only if the refund or the count is zero. */
  lemma LateRefundUndercounts(d: Day, now: int, today: int, id: RequestId, reserved: nat)
    requires Balanced(d) && id !in Opened(d, today).charges
    ensures var charges := Opened(d, today).charges;
            Refund(d.u, now, today, id, reserved).tokens == Sum(charges) <==> reserved == 0 || Sum(charges) == 0
  {
    OpenedBalanced(d, now, today);
    hide Prune, Without;
    SumNonNegative(Opened(d, today).charges);
  }

  /** Reconciling such a reservation keeps the count right only if it changes nothing, or lowers
      a count of zero. */
  lemma LateReconcileMiscounts(d: Day, now: int, today: int, id: RequestId, reserved: nat, actual: nat)
    requires Balanced(d) && id !in Opened(d, today).charges
    ensures var charges := Opened(d, today).charges;
            Reconcile(d.u, now, today, reserved, actual).tokens == Sum(charges)
            <==> actual == reserved || (actual < reserved && Sum(charges) == 0)
  {
    OpenedBalanced(d, now, today);
    hide Prune, Without;
    SumNonNegative(Opened(d, today).charges);
  }

  /** A request reserved on one day and refunded, or reconciled, on the next. */
  function OverMidnight(last: Event): seq<Event> {
    [ReserveEvent(10, 1, 0, 5), ReserveEvent(70, 2, 1, 7), last]
  }

  /** It takes the first day's tokens from the second: of the seven used only two are left, or
      with a reconciliation to eight there are ten. */
  lemma MidnightMiscounts()
    ensures Run(UNSEEN, OverMidnight(RefundEvent(75, 2, 0, 5))).tokens == 2
    ensures Run(UNSEEN, OverMidnight(ReconcileEvent(75, 2, 0, 5, 8))).tokens == 10
  {
    hide Prune, Without;
    RunsThree(RefundEvent(75, 2, 0, 5));
    RunsThree(ReconcileEvent(75, 2, 0, 5, 8));
  }

  lemma RunsThree(last: Event)
    ensures Run(UNSEEN, OverMidnight(last))
            == Step(Step(Step(UNSEEN, ReserveEvent(10, 1, 0, 5)), ReserveEvent(70, 2, 1, 7)), last)
  {
    hide Step;
    var events := OverMidnight(last);
    var u := Step(Step(UNSEEN, events[0]), events[1]);
    assert events[1..][1..] == [last];
    assert [last][1..] == [];
    assert Run(u, [last]) == Run(Step(u, last), []);
    assert Run(Step(UNSEEN, events[0]), events[1..]) == Run(u, events[1..][1..]);
  }

  // ---------------------------------------------------------------- the store object

  class TenantUsage {
    var requestTimes: seq<int>
    var members: map<RequestId, int>
    var tokensToday: int
    var tokensDay: int

    ghost function Abs(): Usage
      reads this
    {
      Usage(requestTimes, members, tokensToday, tokensDay)
    }

    constructor ()
      ensures Abs() == UNSEEN
    {
      requestTimes, members, tokensToday, tokensDay := [], map[], 0, 0;
    }

    method PruneWindow(now: int)
      modifies this`requestTimes
      ensures requestTimes == Prune(old(requestTimes), now - WINDOW_SECONDS)
    {
      var cutoff := now - WINDOW_SECONDS;
      while requestTimes != [] && requestTimes[0] < cutoff
        invariant Prune(requestTimes, cutoff) == Prune(old(requestTimes), cutoff)
        decreases |requestTimes|
      {
        requestTimes := requestTimes[1..];
      }
    }

    method Access(now: int, today: int)
      modifies this
      ensures Abs() == Get(old(Abs()), now, today)
    {
      PruneWindow(now);
      if tokensDay != today {
        tokensDay := today;
        tokensToday := 0;
      }
    }

    method ReserveRequest(now: int, today: int, id: RequestId, tokens: nat) returns (rpm: nat, total: int)
      modifies this
      ensures Abs() == Reserve(old(Abs()), now, today, id, tokens)
      ensures rpm == |requestTimes| && total == tokensToday
    {
      Access(now, today);
      requestTimes := requestTimes + [now];
      members := members[id := now];
      tokensToday := tokensToday + tokens;
      return |requestTimes|, tokensToday;
    }

    method RefundReservation(now: int, today: int, id: RequestId, reserved: nat)
      modifies this
      ensures Abs() == Refund(old(Abs()), now, today, id, reserved)
    {
      hide Prune, Without;
      Access(now, today);
      if id in members {
        var stamp := members[id];
        members := members - {id};
        RemoveStamp(stamp);
      } else {
        assert members - {id} == members;
      }
      tokensToday := Max(0, tokensToday - reserved);
    }

    /** `deque.remove`, where a missing value is ignored. */
    method RemoveStamp(stamp: int)
      modifies this`requestTimes
      ensures requestTimes == Without(old(requestTimes), stamp)
    {
      var i := 0;
      while i < |requestTimes| && requestTimes[i] != stamp
        invariant i <= IndexOf(requestTimes, stamp) && requestTimes == old(requestTimes)
        invariant stamp !in requestTimes[..i]
      {
        i := i + 1;
      }
      FirstIndex(requestTimes, stamp, i);
      if i < |requestTimes| {
        requestTimes := requestTimes[..i] + requestTimes[i + 1..];
      }
    }

    static lemma {:induction false} FirstIndex(times: seq<int>, stamp: int, i: nat)
      requires i <= |times| && stamp !in times[..i] && (i < |times| ==> times[i] == stamp)
      ensures IndexOf(times, stamp) == i
      decreases |times|
    {
      if i > 0 {
        assert times[..i][0] == times[0];
        assert times[1..][..i - 1] == times[..i][1..];
        FirstIndex(times[1..], stamp, i - 1);
      }
    }

    method ReconcileUsage(now: int, today: int, reserved: nat, actual: nat)
      modifies this
      ensures Abs() == Reconcile(old(Abs()), now, today, reserved, actual)
    {
      Access(now, today);
      tokensToday := Max(0, tokensToday + (actual - reserved));
    }
  }
}
