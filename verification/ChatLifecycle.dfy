/** One chat completion as a resource protocol: a global slot, a tenant lease and a budget
    reservation are taken in this order and must all be given back on every way out.

    Each await or call that can raise is a flag of the request's fate; tasks are not cancelled
    and a streamed body, once returned, runs to its end. */
module ChatLifecycle {
  import opened Common
  import opened BudgetWindow
  import opened BudgetMemory
  import opened UpstreamCall
  import BudgetLedger
  import Local = LocalAdmission

  datatype Fate = Fate(
    stopsEarly: bool,           // invalid body, denied model, draining
    globalFull: bool,
    leaseRefused: bool,
    guardFails: bool,           // malformed policy, store down or timed out
    guardOff: bool,
    quotaFails: bool,
    governanceFails: bool,      // governance denial, quota denial or no healthy backend
    unknownModel: bool,
    setupFails: bool,
    attempts: seq<Attempt>,     // what the primary and the fallback meet
    stream: bool,
    firstRecordFails: bool,     // recording the refused first post of a stream raises
    healthFails: bool,          // recording backend health after the call raises
    pricingFails: bool,         // unparsable body, pricing or quota reconciliation raises
    cost: Option<nat>,          // priced usage; None when upstream reports none
    bookkeepingFails: bool,     // decision record, evaluation or usage event raises
    responseFails: bool)        // constructing the response object raises

  // ---------------------------------------------------------------- what should be charged

  function UpstreamOf(f: Fate): Outcome {
    if f.stream then StreamOutcome(f.attempts, f.firstRecordFails) else PostOutcome(f.attempts)
  }

  /** How a request stands when it is over. */
  datatype Ending = NeverCalled | GivenUp | InDoubt | Ran(cost: Option<nat>)

  /** Quota, governance or routing stop the request, or preparing the call raises. */
  predicate StopsBeforeCall(f: Fate) {
    f.quotaFails || f.governanceFails || f.unknownModel || f.setupFails
  }

  function EndingOf(f: Fate): Ending {
    if StopsBeforeCall(f) then NeverCalled
    else if UpstreamOf(f) != Answered then
      if !Charges(UpstreamOf(f)) && !f.healthFails then GivenUp else InDoubt
    else if f.healthFails || f.pricingFails || (f.stream && f.responseFails) then InDoubt
    else Ran(f.cost)
  }

  /** Refund before the call and for errors that the handler gives up on, charge priced usage,
      and the estimate for the rest. */
  function Charge(f: Fate, estimate: nat): nat {
    match EndingOf(f)
    case NeverCalled => 0
    case GivenUp => 0
    case InDoubt => estimate
    case Ran(cost) => if cost.Some? then cost.value else estimate
  }

  /** The request asks the guard for a reservation. */
  predicate Asks(f: Fate) {
    !f.stopsEarly && !f.globalFull && !f.leaseRefused && !f.guardFails && !f.guardOff
  }

  /** A complete non-streamed answer whose response object cannot be built. */
  predicate LateFailure(f: Fate) {
    EndingOf(f).Ran? && !f.stream && !f.bookkeepingFails && f.responseFails
  }

  predicate FailsAfterRelease(f: Fate, admitted: bool) {
    !f.stopsEarly && !f.globalFull && !f.leaseRefused && !f.guardFails && admitted && LateFailure(f)
  }

  /** A stream that cannot be returned may have run; one that ran was answered. */
  lemma StreamEnding(f: Fate, estimate: nat)
    ensures LateFailure(f) ==> UpstreamOf(f) == Answered && EndingOf(f) != NeverCalled && !f.stream
    ensures UpstreamOf(f) == Answered && EndingOf(f) != NeverCalled && f.stream && f.responseFails
            ==> Charge(f, estimate) == estimate
  {
  }

  /** The guard's view after the request: untouched, asked in vain, or reserved and settled. */
  ghost function After(w: Window, f: Fate, r: Terms): Window {
    if !Asks(f) then w
    else
      var reserved := Reserve(w, r.lim, r.reserveAt, r.id, r.estimate);
      if !Admits(w, r.lim, r.reserveAt, r.estimate) then reserved
      else Settle(reserved, SettleWindow(r.lim.window), r.settleAt, r.id, Charge(f, r.estimate))
  }

  /** The calls a request makes on the guard's ledger. */
  ghost function CallsOf(w: Window, f: Fate, r: Terms): seq<BudgetLedger.Call> {
    var ask := BudgetLedger.ReserveCall(r.id, r.estimate, r.reserveAt);
    if !Asks(f) then []
    else if !Admits(w, r.lim, r.reserveAt, r.estimate) then [ask]
    else [ask, BudgetLedger.SettleCall(r.id, Charge(f, r.estimate), r.settleAt)]
  }

  /** The budget side of a request: scope, limits, id, estimate and the two clock readings. */
  datatype Terms = Terms(scope: string, lim: Limits, id: Id, estimate: nat, reserveAt: int, settleAt: int)

  // ---------------------------------------------------------------- resources

  /** A pool of permits without memory of who returns them. */
  class Slots {
    var free: int

    constructor (free: int)
      ensures this.free == free
    {
      this.free := free;
    }

    method Acquire()
      modifies this
      ensures free == old(free) - 1
    {
      free := free - 1;
    }

    method Release()
      modifies this
      ensures free == old(free) + 1
    {
      free := free + 1;
    }
  }

  /** A lease gives its permit back once, however often it is released. */
  class Lease {
    const pool: Slots
    var released: bool

    constructor (pool: Slots)
      ensures this.pool == pool && !released
    {
      this.pool, released := pool, false;
    }

    method Release()
      modifies this, pool
      ensures released
      ensures pool.free == old(pool.free) + if old(released) then 0 else 1
    {
      if released {
        return;
      }
      released := true;
      pool.Release();
    }
  }

  // ---------------------------------------------------------------- the handler

  class Gateway {
    const guard: InferenceBudgetGuard
    const global: Slots
    const pool: Slots

    constructor (guard: InferenceBudgetGuard, global: Slots, pool: Slots)
      ensures this.guard == guard && this.global == global && this.pool == pool
    {
      this.guard, this.global, this.pool := guard, global, pool;
    }

    ghost predicate Valid()
      reads this, guard, guard.memory.Values
    {
      guard.Valid() && global != pool
    }

    /** Other scopes are as they were. */
    twostate predicate OthersUnchanged(scope: string)
      reads guard, guard.memory.Values
    {
      forall t | t != scope :: guard.View(t) == old(guard.View(t))
    }

    /** Where a request stands with its reservation: either it sent the right charge, or
        abandoning it now would. `v` is the view when the reservation was made. */
    ghost predicate Owes(r: BudgetReservation, f: Fate, v: Window, settleAt: int)
      reads r, guard, guard.memory.Values
    {
      var charge := Charge(f, r.reservedMicros);
      && r.Valid() && r.guard == guard
      && if r.settled then
           && r.sent == [charge]
           && guard.View(r.scope) == Settle(v, SettleWindow(r.windowMs), settleAt, r.reservationId, charge)
         else
           && r.sent == []
           && charge == (if r.executed then r.reservedMicros else 0)
           && guard.View(r.scope) == v
    }

    /** The view once the guard has decided about the request. */
    ghost function Granted(t: Terms): Window
      reads guard, guard.memory.Values
    {
      Reserve(guard.View(t.scope), t.lim, t.reserveAt, t.id, t.estimate)
    }

    method CallUpstream(f: Fate) returns (outcome: Outcome)
      ensures outcome == UpstreamOf(f)
    {
      if f.stream {
        outcome := OpenStream(f.attempts, f.firstRecordFails);
      } else {
        var posted, _, _, _ := PostCompletionWithFallback(f.attempts);
        return posted;
      }
    }

    /** From the granted reservation to the upstream answer. `ok` false stands for an exception,
        `called` says whether the upstream call was begun. */
    method CallModel(f: Fate, r: BudgetReservation?, settleAt: int) returns (ok: bool, called: bool)
      requires Valid() && (r != null ==> r.guard == guard && r.Valid() && !r.settled && !r.executed)
      modifies r, guard.memory.Values
      ensures Valid()
      ensures called <==> !f.quotaFails && !f.governanceFails && !f.unknownModel && !f.setupFails
      ensures called <==> !EndingOf(f).NeverCalled?
      ensures ok <==> called && UpstreamOf(f) == Answered
      ensures r != null ==>
        && r.Valid() && OthersUnchanged(r.scope) && (r.executed <==> called)
        && (ok ==> !r.settled && guard.View(r.scope) == old(guard.View(r.scope)))
        && (!ok ==> Owes(r, f, old(guard.View(r.scope)), settleAt))
      ensures r == null ==> forall t :: guard.View(t) == old(guard.View(t))
    {
      hide BudgetWindow.Settle, Sound, Sum, UpstreamOf;
      if f.quotaFails {
        return false, false;
      }
      if f.governanceFails || f.unknownModel {
        if r != null {
          r.Release(settleAt);
        }
        return false, false;
      }
      if f.setupFails {
        return false, false;
      }
      if r != null {
        r.MarkExecuted();
      }
      var outcome := CallUpstream(f);
      if outcome == Answered {
        return true, true;
      }
      if r != null {
        HandleError(f, outcome, r, settleAt);
      }
      return false, true;
    }

    /** The except branch for HTTP errors; any other error settles nothing here. */
    method HandleError(f: Fate, outcome: Outcome, r: BudgetReservation, settleAt: int)
      requires Valid() && r.guard == guard && r.Valid() && !r.settled && r.executed && r.sent == []
      requires outcome == UpstreamOf(f) != Answered && !EndingOf(f).NeverCalled?
      modifies r, guard.memory.Values
      ensures Valid() && r.Valid() && r.executed && OthersUnchanged(r.scope)
      ensures Owes(r, f, old(guard.View(r.scope)), settleAt)
    {
      hide BudgetWindow.Settle, Sound, Sum, UpstreamOf;
      if outcome == OtherError || f.healthFails {
        return;
      }
      if outcome == ConnectError || outcome == StatusError {
        r.Release(settleAt);
      } else {
        r.Settle(None, settleAt);
      }
    }

    /** Releases the lease, which remembers, and the global slot, which does not. */
    method GiveBack(lease: Lease)
      requires lease.pool == pool && global != pool
      modifies lease, pool, global
      ensures lease.released && global.free == old(global.free) + 1
      ensures pool.free == old(pool.free) + if old(lease.released) then 0 else 1
    {
      lease.Release();
      global.Release();
    }

    /** A non-streamed answer is settled, then the lease and the global slot are released and
        the response is built last. */
    method Answer(f: Fate, r: BudgetReservation?, lease: Lease, settleAt: int) returns (ok: bool)
      requires Valid() && lease.pool == pool && !lease.released && !f.stream && UpstreamOf(f) == Answered
      requires !EndingOf(f).NeverCalled?
      requires r != null ==> r.guard == guard && r.Valid() && !r.settled && r.executed
      modifies r, guard.memory.Values, lease, pool, global
      ensures Valid()
      ensures r != null ==> OthersUnchanged(r.scope) && Owes(r, f, old(guard.View(r.scope)), settleAt)
      ensures r == null ==> forall t :: guard.View(t) == old(guard.View(t))
      ensures pool.free == old(pool.free) + if lease.released then 1 else 0
      ensures global.free == old(global.free) + if lease.released then 1 else 0
      ensures ok ==> lease.released && (r != null ==> r.settled)
      ensures !ok && lease.released <==> LateFailure(f)
    {
      hide BudgetWindow.Settle, Sound, Sum, UpstreamOf;
      if f.healthFails || f.pricingFails {
        return false;
      }
      if r != null {
        r.Settle(f.cost, settleAt);
      }
      if f.bookkeepingFails {
        return false;
      }
      GiveBack(lease);
      return !f.responseFails;
    }

    /** The end of a streamed body: settle what is known, then settle whatever is left and
        release, even if the bookkeeping in between raises. */
    method FinalizeStream(f: Fate, r: BudgetReservation?, lease: Lease, settleAt: int)
      requires Valid() && lease.pool == pool && !lease.released && f.stream && UpstreamOf(f) == Answered
      requires !EndingOf(f).NeverCalled? && !f.responseFails
      requires r != null ==> r.guard == guard && r.Valid() && !r.settled && r.executed
      modifies r, guard.memory.Values, lease, pool, global
      ensures Valid() && lease.released
      ensures r != null ==> r.settled && OthersUnchanged(r.scope) && Owes(r, f, old(guard.View(r.scope)), settleAt)
      ensures r == null ==> forall t :: guard.View(t) == old(guard.View(t))
      ensures pool.free == old(pool.free) + 1 && global.free == old(global.free) + 1
    {
      hide BudgetWindow.Settle, Sound, Sum, EndingOf, Charge, UpstreamOf;
      if r != null {
        SettleStream(f, r, settleAt);
      }
      GiveBack(lease);
    }

    method SettleStream(f: Fate, r: BudgetReservation, settleAt: int)
      requires Valid() && f.stream && UpstreamOf(f) == Answered && !EndingOf(f).NeverCalled? && !f.responseFails
      requires r.guard == guard && r.Valid() && !r.settled && r.executed
      modifies r, guard.memory.Values
      ensures Valid() && r.settled && OthersUnchanged(r.scope) && Owes(r, f, old(guard.View(r.scope)), settleAt)
    {
      hide BudgetWindow.Settle, Sound, Sum;
      if !f.healthFails && !f.pricingFails {
        r.Settle(f.cost, settleAt);
      }
      r.Settle(None, settleAt);
    }

    /** From the upstream answer to the response, or to the end of its body. */
    method Respond(f: Fate, r: BudgetReservation?, lease: Lease, settleAt: int) returns (ok: bool)
      requires Valid() && lease.pool == pool && !lease.released
      requires UpstreamOf(f) == Answered && !EndingOf(f).NeverCalled?
      requires r != null ==> r.guard == guard && r.Valid() && !r.settled && r.executed
      modifies r, guard.memory.Values, lease, pool, global
      ensures Valid()
      ensures r != null ==> OthersUnchanged(r.scope) && Owes(r, f, old(guard.View(r.scope)), settleAt)
      ensures r == null ==> forall t :: guard.View(t) == old(guard.View(t))
      ensures pool.free == old(pool.free) + if lease.released then 1 else 0
      ensures global.free == old(global.free) + if lease.released then 1 else 0
      ensures ok ==> lease.released && (r != null ==> r.settled)
      ensures !ok && lease.released <==> LateFailure(f)
    {
      hide BudgetWindow.Settle, Sound, Sum, EndingOf, Charge, LateFailure;
      StreamEnding(f, if r == null then 0 else r.reservedMicros);
      if !f.stream {
        ok := Answer(f, r, lease, settleAt);
      } else if f.responseFails {
        ok := false;
      } else {
        FinalizeStream(f, r, lease, settleAt);
        ok := true;
      }
    }

    /** Everything after admission. False stands for an exception that the caller handles;
        `r` is what the request's state holds by then. */
    method Admitted(f: Fate, t: Terms, lease: Lease) returns (ok: bool, r: BudgetReservation?, called: bool)
      requires Valid() && lease.pool == pool && !lease.released
      requires t.lim.forgets && t.id !in guard.View(t.scope).live && t.id !in guard.View(t.scope).tombs
      modifies guard, guard.memory.Values, lease, pool, global
      ensures Valid() && fresh(guard.memory.Values - old(guard.memory.Values)) && (r != null ==> fresh(r))
      ensures OthersUnchanged(t.scope)
      ensures r != null <==> !f.guardFails && !f.guardOff && old(Admits(guard.View(t.scope), t.lim, t.reserveAt, t.estimate))
      ensures r == null ==> guard.View(t.scope) == if f.guardFails || f.guardOff then old(guard.View(t.scope)) else old(Granted(t))
      ensures r != null ==>
        && r.scope == t.scope && r.reservationId == t.id && r.reservedMicros == t.estimate
        && r.windowMs == t.lim.window && Owes(r, f, old(Granted(t)), t.settleAt)
      ensures called <==> !f.guardFails && (f.guardOff || r != null)
                          && !f.quotaFails && !f.governanceFails && !f.unknownModel && !f.setupFails
      ensures !ok && lease.released <==>
        !f.guardFails && (f.guardOff || r != null) && LateFailure(f)
      ensures pool.free == old(pool.free) + if lease.released then 1 else 0
      ensures global.free == old(global.free) + if lease.released then 1 else 0
      ensures ok ==> lease.released && (r != null ==> r.settled)
    {
      hide BudgetWindow.Settle, BudgetWindow.Reserve, Admits, Sound, Sum, UpstreamOf, EndingOf, Charge, LateFailure;
      StreamEnding(f, t.estimate);
      r := null;
      if f.guardFails {
        return false, r, false;
      }
      if !f.guardOff {
        var reply := guard.ReserveMemory(t.scope, t.lim, t.reserveAt, t.id, t.estimate);
        if !reply.allowed {
          return false, r, false;
        }
        r := new BudgetReservation(guard, t.scope, t.id, t.estimate, t.lim.window);
      }
      ok, called := CallModel(f, r, t.settleAt);
      if ok {
        ok := Respond(f, r, lease, t.settleAt);
      }
    }

    lemma NothingOwed(r: BudgetReservation, f: Fate, v: Window, settleAt: int)
      requires Owes(r, f, v, settleAt) && r.settled
      ensures guard.View(r.scope) == Settle(v, SettleWindow(r.windowMs), settleAt, r.reservationId, Charge(f, r.reservedMicros))
    {
    }

    /** Abandoning settles what is still owed and does nothing to a settled reservation. */
    method Abandon(r: BudgetReservation, f: Fate, ghost v: Window, settleAt: int)
      requires Valid() && Owes(r, f, v, settleAt)
      modifies r, guard.memory.Values
      ensures Valid() && OthersUnchanged(r.scope) && r.settled
      ensures guard.View(r.scope) == Settle(v, SettleWindow(r.windowMs), settleAt, r.reservationId, Charge(f, r.reservedMicros))
    {
      hide BudgetWindow.Settle, Sound, Sum, EndingOf, Charge;
      r.Abandon(settleAt);
    }

    /** Runs the admitted part and, when it raises, abandons and releases what is held. */
    method Guarded(f: Fate, t: Terms, lease: Lease) returns (ok: bool, called: bool)
      requires Valid() && lease.pool == pool && !lease.released && t.lim.forgets
      requires t.id !in guard.View(t.scope).live && t.id !in guard.View(t.scope).tombs
      modifies guard, guard.memory.Values, lease, pool, global
      ensures Valid() && OthersUnchanged(t.scope)
      ensures guard.View(t.scope) ==
        if f.guardFails || f.guardOff then old(guard.View(t.scope))
        else if !old(Admits(guard.View(t.scope), t.lim, t.reserveAt, t.estimate)) then old(Granted(t))
        else Settle(old(Granted(t)), SettleWindow(t.lim.window), t.settleAt, t.id, Charge(f, t.estimate))
      ensures pool.free == old(pool.free) + 1
      ensures called <==> !f.guardFails
                          && (f.guardOff || old(Admits(guard.View(t.scope), t.lim, t.reserveAt, t.estimate)))
                          && !f.quotaFails && !f.governanceFails && !f.unknownModel && !f.setupFails
      ensures var admitted := f.guardOff || old(Admits(guard.View(t.scope), t.lim, t.reserveAt, t.estimate));
              global.free == old(global.free) + 1 +
                if !f.guardFails && admitted && LateFailure(f) then 1 else 0
    {
      hide BudgetWindow.Settle, BudgetWindow.Reserve, Admits, Sound, Sum, UpstreamOf, EndingOf, Charge, LateFailure, Owes, Granted;
      var r: BudgetReservation?;
      ok, r, called := Admitted(f, t, lease);
      if ok {
        if r != null { NothingOwed(r, f, old(Granted(t)), t.settleAt); }
        return ok, called;
      }
      if r != null {
        Abandon(r, f, old(Granted(t)), t.settleAt);
      }
      GiveBack(lease);
    }

    /** A whole request. Whatever happens, the tenant permit is back, the budget is settled
        once with the charge that the outcome calls for, and the global slot is back, except
        that it is given back twice when building a finished response fails. */
    method ChatCompletions(f: Fate, t: Terms) returns (ok: bool, called: bool)
      requires Valid() && t.lim.forgets
      requires t.id !in guard.View(t.scope).live && t.id !in guard.View(t.scope).tombs
      modifies guard, guard.memory.Values, pool, global
      ensures Valid() && OthersUnchanged(t.scope)
      ensures guard.View(t.scope) == After(old(guard.View(t.scope)), f, t)
      ensures f.stopsEarly || f.globalFull || f.leaseRefused || f.guardFails || f.guardOff
              ==> guard.View(t.scope) == old(guard.View(t.scope))
      ensures called <==>
        && !f.stopsEarly && !f.globalFull && !f.leaseRefused && !f.guardFails
        && (f.guardOff || old(Admits(guard.View(t.scope), t.lim, t.reserveAt, t.estimate)))
        && !f.quotaFails && !f.governanceFails && !f.unknownModel && !f.setupFails
      ensures pool.free == old(pool.free)
      ensures var admitted := f.guardOff || old(Admits(guard.View(t.scope), t.lim, t.reserveAt, t.estimate));
              global.free == old(global.free) + if FailsAfterRelease(f, admitted) then 1 else 0
    {
      hide BudgetWindow.Settle, BudgetWindow.Reserve, Admits, Sound, Sum, UpstreamOf, EndingOf, Charge;
      if f.stopsEarly || f.globalFull {
        return false, false;
      }
      global.Acquire();
      if f.leaseRefused {
        global.Release();
        return false, false;
      }
      pool.Acquire();
      var lease := new Lease(pool);
      ok, called := Guarded(f, t, lease);
    }
  }

  // ---------------------------------------------------------------- all requests together

  /** The reservations and settlements of request `n` in an interleaving that says who makes
      each call; purges belong to no request. */
  ghost function Projection(calls: seq<BudgetLedger.Call>, owner: seq<nat>, n: nat): seq<BudgetLedger.Call>
    requires |calls| == |owner|
    decreases |calls|
  {
    if calls == [] then []
    else (if Owned(calls[0], owner[0], n) then [calls[0]] else []) + Projection(calls[1..], owner[1..], n)
  }

  predicate Owned(c: BudgetLedger.Call, owner: nat, n: nat) {
    owner == n && !c.PurgeCall?
  }

  /** A request that has ended asked for nothing, was denied, or settled what it was granted. */
  ghost predicate Ended(log: seq<BudgetLedger.Call>, issued: set<Id>) {
    || log == []
    || (|log| == 1 && log[0].ReserveCall? && log[0].id !in issued)
    || (|log| == 2 && log[0].ReserveCall? && log[1].SettleCall? && log[0].id == log[1].id)
  }

  /** On a ledger those calls leave the window that the handler leaves behind. */
  lemma CallsMakeAfter(l: BudgetLedger.Ledger, f: Fate, t: Terms)
    requires t.lim.window != 0
    ensures BudgetLedger.Run(l, t.lim, CallsOf(l.w, f, t)).w == After(l.w, f, t)
  {
    hide BudgetWindow.Reserve, BudgetWindow.Settle, Admits;
    if Asks(f) {
      var ask := BudgetLedger.ReserveCall(t.id, t.estimate, t.reserveAt);
      var close := BudgetLedger.SettleCall(t.id, Charge(f, t.estimate), t.settleAt);
      var asked := BudgetLedger.Step(l, t.lim, ask);
      BudgetLedger.Unroll(l, t.lim, ask, []);
      BudgetLedger.Unroll(l, t.lim, ask, [close] + []);
      BudgetLedger.Unroll(asked, t.lim, close, []);
      if Find(asked.w, t.id) == Unknown {
        UnknownSettlesNothing(asked.w, t.lim.window, t.settleAt, t.id, Charge(f, t.estimate));
      }
      assert [ask] + [] == [ask] && [close] + [] == [close] && [ask] + [close] == [ask, close];
    }
  }

  lemma UnknownSettlesNothing(w: Window, window: int, now: int, id: Id, actual: int)
    requires Find(w, id) == Unknown
    ensures Settle(w, window, now, id, actual) == w
  {
  }

  /** The handler's own calls have that form, for every fate. */
  lemma RequestsEnd(w: Window, f: Fate, t: Terms, issued: set<Id>)
    requires t.id in issued ==> Admits(w, t.lim, t.reserveAt, t.estimate)
    ensures Ended(CallsOf(w, f, t), issued)
  {
  }

  ghost predicate Later(calls: seq<BudgetLedger.Call>, i: int, c: BudgetLedger.Call) {
    exists j | 0 <= j < |calls| :: i < j && calls[j] == c
  }

  /** The projection shows the call at `i` at place `k`, and what it shows after it is later. */
  ghost predicate Shows(p: seq<BudgetLedger.Call>, k: nat, calls: seq<BudgetLedger.Call>, i: nat) {
    && k < |p| && i < |calls| && p[k] == calls[i]
    && forall m | k < m < |p| :: Later(calls, i, p[m])
  }

  lemma LaterShift(c0: BudgetLedger.Call, rest: seq<BudgetLedger.Call>, i: int, c: BudgetLedger.Call)
    requires Later(rest, i, c)
    ensures Later([c0] + rest, i + 1, c)
  {
    var j :| 0 <= j < |rest| && i < j && rest[j] == c;
    assert ([c0] + rest)[j + 1] == c;
  }

  lemma {:induction false} ProjectionLater(calls: seq<BudgetLedger.Call>, owner: seq<nat>, n: nat)
    requires |calls| == |owner|
    ensures forall m | 0 <= m < |Projection(calls, owner, n)| :: Later(calls, -1, Projection(calls, owner, n)[m])
    decreases |calls|
  {
    if calls != [] {
      var p, rest := Projection(calls, owner, n), Projection(calls[1..], owner[1..], n);
      ProjectionLater(calls[1..], owner[1..], n);
      assert calls == [calls[0]] + calls[1..];
      forall m | 0 <= m < |p| ensures Later(calls, -1, p[m]) {
        if Owned(calls[0], owner[0], n) && m == 0 {
          assert calls[0] == p[m];
        } else {
          LaterShift(calls[0], calls[1..], -1, p[m]);
        }
      }
    }
  }

  lemma {:induction false} ProjectionShows(calls: seq<BudgetLedger.Call>, owner: seq<nat>, i: nat)
    requires |calls| == |owner| && i < |calls| && !calls[i].PurgeCall?
    ensures exists k: nat :: Shows(Projection(calls, owner, owner[i]), k, calls, i)
    decreases |calls|
  {
    var n := owner[i];
    var p, rest := Projection(calls, owner, n), Projection(calls[1..], owner[1..], n);
    assert calls == [calls[0]] + calls[1..];
    if i == 0 {
      ProjectionLater(calls[1..], owner[1..], n);
      forall m | 0 < m < |p| ensures Later(calls, 0, p[m]) {
        LaterShift(calls[0], calls[1..], -1, p[m]);
      }
      assert Shows(p, 0, calls, i);
    } else {
      ProjectionShows(calls[1..], owner[1..], i - 1);
      var k: nat :| Shows(rest, k, calls[1..], i - 1);
      var shift := if Owned(calls[0], owner[0], n) then 1 else 0;
      forall m | k + shift < m < |p| ensures Later(calls, i, p[m]) {
        LaterShift(calls[0], calls[1..], i - 1, rest[m - shift]);
      }
      assert Shows(p, k + shift, calls, i);
    }
  }

  /** Composition with the guard: when any number of interleaved requests on a scope have all
      ended, nothing is reserved, no reservation is live and what was committed are the charges
      of the settlements that found their id, whatever each request went through and however
      often the scope was purged. */
  lemma AllRequestsEndedNothingReserved(lim: Limits, calls: seq<BudgetLedger.Call>, owner: seq<nat>)
    requires lim.Valid() && BudgetLedger.LegalRun(BudgetLedger.OPENING, lim, calls) && |calls| == |owner|
    requires forall n: nat :: Ended(Projection(calls, owner, n), BudgetLedger.Run(BudgetLedger.OPENING, lim, calls).issued)
    ensures var l := BudgetLedger.Run(BudgetLedger.OPENING, lim, calls);
            && l.w.live == map[] && l.w.reserved == 0
            && BudgetLedger.TotalCommitted(l) == BudgetLedger.Effective(BudgetLedger.OPENING, lim, calls)
  {
    BudgetLedger.CommittedIsEffective(BudgetLedger.OPENING, lim, calls);
    var issued := BudgetLedger.Run(BudgetLedger.OPENING, lim, calls).issued;
    forall i | 0 <= i < |calls| && calls[i].ReserveCall? && calls[i].id in issued
      ensures exists j | i < j < |calls| :: BudgetLedger.Closes(calls[j], calls[i].id)
    {
      ProjectionShows(calls, owner, i);
      var p := Projection(calls, owner, owner[i]);
      var k: nat :| Shows(p, k, calls, i);
      assert Ended(p, issued) && k == 0 && |p| == 2;
      var j :| 0 <= j < |calls| && i < j && calls[j] == p[1];
      assert BudgetLedger.Closes(calls[j], calls[i].id);
    }
    BudgetLedger.AllSettledReleasesAll(lim, calls);
  }

  // ---------------------------------------------------------------- all charges together

  /** Reservation ids are fresh, also those of denied requests. */
  ghost predicate FreshIds(calls: seq<BudgetLedger.Call>, seen: set<Id>)
    decreases |calls|
  {
    calls == [] ||
    if calls[0].ReserveCall? then calls[0].id !in seen && FreshIds(calls[1..], seen + {calls[0].id})
    else FreshIds(calls[1..], seen)
  }

  /** What is left of a request that has asked for `asked`, or for nothing yet. */
  ghost predicate Left(log: seq<BudgetLedger.Call>, asked: Option<Id>) {
    match asked
    case None =>
      log == [] || (log[0].ReserveCall? && Left(log[1..], Some(log[0].id)))
    case Some(id) =>
      log == [] || (|log| == 1 && log[0].SettleCall? && log[0].id == id)
  }

  /** Request `n` has nothing left once its reservation is closed. */
  ghost predicate OnTrack(log: seq<BudgetLedger.Call>, asked: map<nat, Id>, closed: set<Id>, n: nat) {
    if n in asked && asked[n] in closed then log == []
    else Left(log, if n in asked then Some(asked[n]) else None)
  }

  ghost predicate OwnIds(asked: map<nat, Id>, seen: set<Id>, closed: set<Id>) {
    && closed <= seen && (forall n | n in asked :: asked[n] in seen)
    && (forall m, n | m in asked && n in asked && m != n :: asked[m] != asked[n])
  }

  /** Requests that all end on their own make orderly calls together; `asked` says what those
      under way have asked for. */
  lemma {:induction false} EndedIsOrderly(calls: seq<BudgetLedger.Call>, owner: seq<nat>, asked: map<nat, Id>,
                                          seen: set<Id>, closed: set<Id>)
    requires |calls| == |owner| && FreshIds(calls, seen) && OwnIds(asked, seen, closed)
    requires forall n: nat :: OnTrack(Projection(calls, owner, n), asked, closed, n)
    ensures BudgetLedger.Orderly(calls, seen, closed)
    decreases |calls|
  {
    if calls != [] {
      var c, n := calls[0], owner[0];
      var rest, others := calls[1..], owner[1..];
      var log := Projection(calls, owner, n);
      assert OnTrack(log, asked, closed, n);
      if !c.PurgeCall? {
        assert log[0] == c && log[1..] == Projection(rest, others, n);
      }
      var asked', seen', closed' := asked, seen, closed;
      match c {
        case ReserveCall(id, _, _) => asked', seen' := asked[n := id], seen + {id};
        case SettleCall(id, _, _) => closed' := closed + {id};
        case PurgeCall(_) =>
      }
      forall m: nat ensures OnTrack(Projection(rest, others, m), asked', closed', m) {
        assert OnTrack(Projection(calls, owner, m), asked, closed, m);
        if !Owned(c, n, m) {
          assert Projection(calls, owner, m) == Projection(rest, others, m);
        }
      }
      EndedIsOrderly(rest, others, asked', seen', closed');
    }
  }

  lemma EndedIsLeft(log: seq<BudgetLedger.Call>, issued: set<Id>)
    requires Ended(log, issued)
    ensures Left(log, None)
  {
  }

  lemma EndedCallsAreOrderly(calls: seq<BudgetLedger.Call>, owner: seq<nat>, issued: set<Id>)
    requires |calls| == |owner| && FreshIds(calls, {})
    requires forall n: nat :: Ended(Projection(calls, owner, n), issued)
    ensures BudgetLedger.Orderly(calls, {}, {})
  {
    forall n: nat ensures Left(Projection(calls, owner, n), None) {
      EndedIsLeft(Projection(calls, owner, n), issued);
    }
    EndedIsOrderly(calls, owner, map[], {}, {});
  }

  /** When all requests have ended, the charges of the admitted ones are committed but for those
      whose settlement found a forgotten hold. The total falls short of the charges if and only
      if such a charge is positive. */
  lemma ChargesFallShortExactly(lim: Limits, calls: seq<BudgetLedger.Call>, owner: seq<nat>)
    requires lim.Valid()
    requires BudgetLedger.LegalRun(BudgetLedger.OPENING, lim, calls) && |calls| == |owner| && FreshIds(calls, {})
    requires forall n: nat :: Ended(Projection(calls, owner, n), BudgetLedger.Run(BudgetLedger.OPENING, lim, calls).issued)
    ensures var l := BudgetLedger.Run(BudgetLedger.OPENING, lim, calls);
            && BudgetLedger.TotalCommitted(l) + BudgetLedger.Forgone(BudgetLedger.OPENING, lim, calls)
               == BudgetLedger.ChargesOf(calls, l.issued)
            && (BudgetLedger.TotalCommitted(l) < BudgetLedger.ChargesOf(calls, l.issued)
                <==> BudgetLedger.LosesCharge(BudgetLedger.OPENING, lim, calls))
  {
    EndedCallsAreOrderly(calls, owner, BudgetLedger.Run(BudgetLedger.OPENING, lim, calls).issued);
    BudgetLedger.ChargesAreCommittedOrForgone(lim, calls);
  }

  /** On a clock that does not go back the total is the sum of the charges on any store, if all
      settlements come within the remembering time after their holds were due. */
  lemma PromptRequestsAllCommitted(lim: Limits, calls: seq<BudgetLedger.Call>, owner: seq<nat>)
    requires lim.Valid() && BudgetLedger.Prompt(calls, lim, map[], 0)
    requires BudgetLedger.LegalRun(BudgetLedger.OPENING, lim, calls) && |calls| == |owner| && FreshIds(calls, {})
    requires forall n: nat :: Ended(Projection(calls, owner, n), BudgetLedger.Run(BudgetLedger.OPENING, lim, calls).issued)
    ensures var l := BudgetLedger.Run(BudgetLedger.OPENING, lim, calls);
            BudgetLedger.TotalCommitted(l) == BudgetLedger.ChargesOf(calls, l.issued)
  {
    EndedCallsAreOrderly(calls, owner, BudgetLedger.Run(BudgetLedger.OPENING, lim, calls).issued);
    BudgetLedger.PromptChargesAreCommitted(lim, calls);
  }

  /** No charge is lost: on a store that keeps its tombstones, when all requests have ended,
      the total committed is the sum of the charges of the admitted ones. */
  lemma AllChargesCommitted(lim: Limits, calls: seq<BudgetLedger.Call>, owner: seq<nat>)
    requires lim.Valid() && !lim.forgets
    requires BudgetLedger.LegalRun(BudgetLedger.OPENING, lim, calls) && |calls| == |owner| && FreshIds(calls, {})
    requires forall n: nat :: Ended(Projection(calls, owner, n), BudgetLedger.Run(BudgetLedger.OPENING, lim, calls).issued)
    ensures var l := BudgetLedger.Run(BudgetLedger.OPENING, lim, calls);
            BudgetLedger.TotalCommitted(l) == BudgetLedger.ChargesOf(calls, l.issued)
  {
    EndedCallsAreOrderly(calls, owner, BudgetLedger.Run(BudgetLedger.OPENING, lim, calls).issued);
    BudgetLedger.EveryChargeIsCommitted(lim, calls);
  }

  // ---------------------------------------------------------------- the charge, flag by flag

  /** The charge in terms of what happened: nothing before the call; nothing for a refusal that
      could be recorded; the estimate for any other failed call, or when recording, pricing or
      returning the stream raises; else the priced usage, or the estimate if there is none. */
  lemma ChargedExactly(f: Fate, estimate: nat)
    ensures f.quotaFails || f.governanceFails || f.unknownModel || f.setupFails ==> Charge(f, estimate) == 0
    ensures !(f.quotaFails || f.governanceFails || f.unknownModel || f.setupFails) ==>
      Charge(f, estimate) ==
        match UpstreamOf(f)
        case Answered =>
          if f.healthFails || f.pricingFails || (f.stream && f.responseFails) || f.cost == None then estimate
          else f.cost.value
        case ConnectError => if f.healthFails then estimate else 0
        case StatusError => if f.healthFails then estimate else 0
        case RequestError => estimate
        case OtherError => estimate
  {
    hide UpstreamOf;
  }

  /** A slot is released twice exactly when a plain answer is complete, priced, booked and given
      back, and its response cannot be built. */
  lemma FailsAfterReleaseExactly(f: Fate, admitted: bool)
    ensures FailsAfterRelease(f, admitted) <==>
      && !f.stopsEarly && !f.globalFull && !f.leaseRefused && !f.guardFails && admitted
      && !f.quotaFails && !f.governanceFails && !f.unknownModel && !f.setupFails
      && UpstreamOf(f) == Answered && !f.stream && !f.healthFails && !f.pricingFails && !f.bookkeepingFails
      && f.responseFails
  {
    hide UpstreamOf;
  }

  /** A request whose model was never called commits nothing: the scope has committed what it had
      when the reservation was made, or nothing if that window is over by the settlement. */
  lemma UncalledCommitsNothing(w: Window, f: Fate, t: Terms)
    requires Sound(w) && t.id !in w.live && t.id !in w.tombs && t.lim.window > 0
    requires f.quotaFails || f.governanceFails || f.unknownModel || f.setupFails
    requires !f.stopsEarly && !f.globalFull && !f.leaseRefused && !f.guardFails && !f.guardOff
    ensures var r := Reserve(w, t.lim, t.reserveAt, t.id, t.estimate);
            var over := r.start == 0 || t.settleAt - r.start >= t.lim.window;
            After(w, f, t).committed == (if t.id in r.live && over then 0 else r.committed)
            && t.id !in After(w, f, t).live
  {
    ChargedExactly(f, t.estimate);
    ReserveSound(w, t.lim, t.reserveAt, t.id, t.estimate);
    var r := Reserve(w, t.lim, t.reserveAt, t.id, t.estimate);
    SettledExactly(r, t.lim.window, t.settleAt, t.id, 0);
    AdmitsIsLive(w, t.lim, t.reserveAt, t.id, t.estimate);
    hide Reserve, Settle, Admits, Sum, Sound;
  }

  // ---------------------------------------------------------------- the documented charge

  predicate ModelMayHaveRun(f: Fate) {
    if f.stream then StreamMayHaveRun(f.attempts, f.firstRecordFails) else MayHaveRun(f.attempts)
  }

  /** Something raises although the model has answered. */
  predicate ErrorAfter(f: Fate) {
    f.healthFails || f.pricingFails || f.bookkeepingFails || f.responseFails
  }

  /** What the documentation charges: nothing before the model is called or when it refused, the
      estimate on an error after it may have run, and on success the priced usage, if known. */
  function DocumentedCharge(f: Fate, estimate: nat): nat {
    if f.quotaFails || f.governanceFails || f.unknownModel || f.setupFails then 0
    else if UpstreamOf(f) != Answered then if ModelMayHaveRun(f) then estimate else 0
    else if ErrorAfter(f) || f.cost.None? then estimate
    else f.cost.value
  }

  /** A request is charged as documented if and only if: the model was not called; or it answered
      and no error followed the settlement at another price than the estimate; or the call
      failed and: recording the failure raises and the model may have run; or else, for a
      stream, the last post was sent and recording a refused first one did not raise; or else,
      for a plain call, the last attempt tells what the documentation asks about all of them. */
  lemma ChargedAsDocumented(f: Fate, estimate: nat)
    requires estimate > 0 && f.attempts != []
    ensures Charge(f, estimate) == DocumentedCharge(f, estimate) <==>
      if f.quotaFails || f.governanceFails || f.unknownModel || f.setupFails then true
      else if UpstreamOf(f) == Answered then
        f.cost.Some? && f.cost.value != estimate && (f.bookkeepingFails || f.responseFails)
        ==> f.healthFails || f.pricingFails || (f.stream && f.responseFails)
      else if f.healthFails then ModelMayHaveRun(f)
      else if f.stream then
        if FallsBack(f.attempts) then !f.firstRecordFails && f.attempts[1].post != Unsent
        else f.attempts[0].post != Unsent
      else
        var k := Decider(f.attempts, 0);
        if TurnedAway(f.attempts, k) || f.attempts[k].post == Unsent then LostBefore(f.attempts, k)
        else Refuses(f.attempts[k].post) ==> !LostBefore(f.attempts, k)
  {
    hide Decider, LostBefore, MayHaveRun, StreamMayHaveRun, TurnedAway, PostOutcome, StreamOutcome;
    if UpstreamOf(f) != Answered {
      if f.stream {
        StreamFollowsRule(f.attempts, f.firstRecordFails);
      } else {
        ChargeFollowsRule(f.attempts);
      }
    }
  }

  /** A bookkeeping error after the settlement: the priced usage stands, where the documentation
      charges the estimate. */
  lemma BookkeepingComesTooLate(f: Fate, estimate: nat)
    requires EndingOf(f).Ran? && f.bookkeepingFails && f.cost.Some? && f.cost.value != estimate
    ensures Charge(f, estimate) == f.cost.value != DocumentedCharge(f, estimate)
  {
  }

  /** A recording that raises turns a refund into a charge: both posts of a stream are refused,
      the first refusal is recorded, and recording the second raises. */
  lemma RecordingTurnsRefundIntoCharge(f: Fate, estimate: nat)
    requires estimate > 0 && EndingOf(f) != NeverCalled && f.stream && |f.attempts| == 2
    requires f.attempts[0].post == ServerStatus && Refuses(f.attempts[1].post)
    requires !f.firstRecordFails
    ensures DocumentedCharge(f, estimate) == 0
    ensures Charge(f, estimate) == if f.healthFails then estimate else 0
  {
    StreamFollowsRule(f.attempts, f.firstRecordFails);
  }

  // ---------------------------------------------------------------- the global slot

  /** A request and whether the guard admitted it. */
  datatype Request = Request(f: Fate, admitted: bool)

  /** The surplus releases of a run that request `n` makes. */
  function SurplusesBy(events: seq<Local.Event>, owner: seq<nat>, n: nat): nat
    requires |events| == |owner|
    decreases |events|
  {
    if events == [] then 0
    else (if events[0].Surplus? && owner[0] == n then 1 else 0) + SurplusesBy(events[1..], owner[1..], n)
  }

  function LateFailures(requests: seq<Request>): nat {
    if requests == [] then 0
    else
      var last := requests[|requests| - 1];
      LateFailures(requests[..|requests| - 1]) + if FailsAfterRelease(last.f, last.admitted) then 1 else 0
  }

  /** The surplus releases of the first `n` requests together. */
  function SurplusesUpTo(events: seq<Local.Event>, owner: seq<nat>, n: nat): nat
    requires |events| == |owner|
    decreases n
  {
    if n == 0 then 0 else SurplusesUpTo(events, owner, n - 1) + SurplusesBy(events, owner, n - 1)
  }

  lemma {:induction false} SurplusSplits(events: seq<Local.Event>, owner: seq<nat>, n: nat)
    requires |events| == |owner| && events != []
    ensures SurplusesUpTo(events, owner, n)
         == SurplusesUpTo(events[1..], owner[1..], n) + if events[0].Surplus? && owner[0] < n then 1 else 0
    decreases n
  {
    if n > 0 {
      SurplusSplits(events, owner, n - 1);
    }
  }

  lemma {:induction false} NothingUpTo(n: nat)
    ensures SurplusesUpTo([], [], n) == 0
    decreases n
  {
    if n > 0 { NothingUpTo(n - 1); }
  }

  lemma {:induction false} SurplusesAreShared(events: seq<Local.Event>, owner: seq<nat>, n: nat)
    requires |events| == |owner| && forall i | 0 <= i < |owner| :: owner[i] < n
    ensures Local.Surpluses(events) == SurplusesUpTo(events, owner, n)
    decreases |events|
  {
    if events == [] {
      NothingUpTo(n);
    } else {
      SurplusSplits(events, owner, n);
      SurplusesAreShared(events[1..], owner[1..], n);
    }
  }

  lemma {:induction false} LateFailuresUpTo(events: seq<Local.Event>, owner: seq<nat>, requests: seq<Request>, n: nat)
    requires |events| == |owner| && n <= |requests|
    requires forall m: nat | m < |requests| :: SurplusesBy(events, owner, m)
                                          == if FailsAfterRelease(requests[m].f, requests[m].admitted) then 1 else 0
    ensures SurplusesUpTo(events, owner, n) == LateFailures(requests[..n])
    decreases n
  {
    if n > 0 {
      LateFailuresUpTo(events, owner, requests, n - 1);
      assert requests[..n][..n - 1] == requests[..n - 1];
    }
  }

  /** Composition with the global controller. When all requests have ended, each having released
      its slot a second time exactly when it failed after releasing it, the controller has one
      permit too many for each that did. It is as at the start if and only if none did. */
  lemma GlobalSlotsAfterwards(c: Local.Config, events: seq<Local.Event>, owner: seq<nat>, requests: seq<Request>)
    requires Local.EnabledRun(Local.Idle(c), c, events) && Local.Run(Local.Idle(c), c, events).tasks == map[]
    requires |events| == |owner| && forall i | 0 <= i < |owner| :: owner[i] < |requests|
    requires forall m: nat | m < |requests| :: SurplusesBy(events, owner, m)
                                          == if FailsAfterRelease(requests[m].f, requests[m].admitted) then 1 else 0
    ensures Local.Run(Local.Idle(c), c, events) == Local.Idle(c).(value := c.permits + LateFailures(requests))
    ensures Local.Run(Local.Idle(c), c, events) == Local.Idle(c)
            <==> forall m | 0 <= m < |requests| :: !FailsAfterRelease(requests[m].f, requests[m].admitted)
  {
    SurplusesAreShared(events, owner, |requests|);
    LateFailuresUpTo(events, owner, requests, |requests|);
    assert requests[..|requests|] == requests;
    Local.EndsAsItStarted(c, events);
    SomeFailure(requests);
  }

  lemma {:induction false} SomeFailure(requests: seq<Request>)
    ensures LateFailures(requests) == 0
            <==> forall m | 0 <= m < |requests| :: !FailsAfterRelease(requests[m].f, requests[m].admitted)
    decreases |requests|
  {
    if requests != [] {
      SomeFailure(requests[..|requests| - 1]);
    }
  }
}
