/** The in-process budget store and the reservation handle that requests hold.

    Each method body is one section under the guard's lock; its contract is a step of
    BudgetWindow, so the theorems of BudgetLedger apply to it. */
module BudgetMemory {
  import opened Common
  import opened BudgetWindow

  class MemoryWindow {
    var windowStartMs: int
    var committedMicros: int
    var reservedMicros: int
    var reservations: map<Id, Hold>
    var tombstones: map<Id, Hold>

    ghost function Abs(): Window
      reads this
    {
      Window(windowStartMs, committedMicros, reservedMicros, reservations, tombstones)
    }

    constructor ()
      ensures Abs() == EMPTY && Sound(Abs())
    {
      windowStartMs, committedMicros, reservedMicros := 0, 0, 0;
      reservations, tombstones := map[], map[];
    }

    /** Expiry visits the due reservations one by one, in any order, and then forgets the
        stale tombstones; the result does not depend on the order. */
    method ExpireMemory(nowMs: int, keysTtlMs: int) returns (expired: nat)
      requires Sound(Abs())
      modifies this
      ensures Abs() == Expire(old(Abs()), nowMs, For(keysTtlMs))
      ensures expired == |Due(old(reservations), nowMs)|
    {
      hide Expire, Sound;
      var expiredIds := Due(reservations, nowMs);
      var todo := expiredIds;
      while todo != {}
        invariant todo == Due(reservations, nowMs) && Sound(Abs())
        invariant Expire(Abs(), nowMs, For(keysTtlMs)) == Expire(old(Abs()), nowMs, For(keysTtlMs))
        decreases |todo|
      {
        var id :| id in todo;
        BuryFirst(Abs(), id, nowMs, For(keysTtlMs));
        ExpireOne(id, nowMs + keysTtlMs);
        todo := todo - {id};
      }
      NothingDue(Abs(), nowMs, For(keysTtlMs));
      tombstones := tombstones - Due(tombstones, nowMs);
      expired := |expiredIds|;
    }

    method ExpireOne(id: Id, forgetAfterMs: int)
      requires id in reservations
      modifies this
      ensures Abs() == Bury(old(Abs()), id, forgetAfterMs)
    {
      var amt := reservations[id].micros;
      reservations := reservations - {id};
      reservedMicros := Max(0, reservedMicros - amt);
      tombstones := tombstones[id := Hold(forgetAfterMs, amt)];
    }

    method RollWindow(nowMs: int, windowMs: int)
      modifies this`windowStartMs, this`committedMicros
      ensures Abs() == Roll(old(Abs()), nowMs, windowMs)
    {
      if windowStartMs == 0 || nowMs - windowStartMs >= windowMs {
        windowStartMs := nowMs;
        committedMicros := 0;
      }
    }

    method Reserve(lim: Limits, nowMs: int, resId: Id, estimate: nat) returns (reply: Reply)
      requires lim.forgets && Sound(Abs()) && resId !in reservations && resId !in tombstones
      modifies this
      ensures Sound(Abs()) && Abs() == BudgetWindow.Reserve(old(Abs()), lim, nowMs, resId, estimate)
      ensures reply == Reply(Admits(old(Abs()), lim, nowMs, estimate), committedMicros, reservedMicros)
    {
      hide Expire, Sum;
      ReserveSound(Abs(), lim, nowMs, resId, estimate);
      var _ := ExpireMemory(nowMs, Max(lim.window, lim.ttl) * 4);
      RollWindow(nowMs, lim.window);
      assert Abs() == Prepared(old(Abs()), lim, nowMs);
      if committedMicros + reservedMicros + estimate > lim.budget {
        return Reply(false, committedMicros, reservedMicros);
      }
      reservedMicros := reservedMicros + estimate;
      reservations := reservations[resId := Hold(nowMs + lim.ttl, estimate)];
      return Reply(true, committedMicros, reservedMicros);
    }

    method Settle(windowMs: int, nowMs: int, resId: Id, actual: nat)
      requires Sound(Abs())
      modifies this
      ensures Sound(Abs()) && Abs() == BudgetWindow.Settle(old(Abs()), windowMs, nowMs, resId, actual)
    {
      SettleSound(Abs(), windowMs, nowMs, resId, actual);
      if resId in reservations {
        var reservedAmt := reservations[resId].micros;
        reservations := reservations - {resId};
        reservedMicros := Max(0, reservedMicros - reservedAmt);
      } else if resId in tombstones {
        tombstones := tombstones - {resId};
      } else {
        return;
      }
      RollWindow(nowMs, windowMs);
      committedMicros := committedMicros + actual;
    }
  }

  /** The reply of a store to a reservation: allowed?, committed, reserved. */
  datatype Reply = Reply(allowed: bool, committed: int, reserved: int)

  /** A reservation without a window settles in one of an hour. */
  function SettleWindow(windowMs: int): int {
    if windowMs == 0 then 3_600_000 else windowMs
  }

  class InferenceBudgetGuard {
    var memory: map<string, MemoryWindow>

    ghost predicate Valid()
      reads this, memory.Values
    {
      && (forall s, t | s in memory && t in memory && s != t :: memory[s] != memory[t])
      && (forall s | s in memory :: Sound(memory[s].Abs()))
    }

    /** What the guard knows about a scope; a scope it has never seen is empty. */
    ghost function View(scope: string): Window
      reads this, memory.Values
    {
      if scope in memory then memory[scope].Abs() else EMPTY
    }

    constructor ()
      ensures Valid() && memory == map[] && forall s :: View(s) == EMPTY
    {
      memory := map[];
    }

    method ReserveMemory(scope: string, lim: Limits, nowMs: int, resId: Id, estimate: nat)
      returns (reply: Reply)
      requires lim.forgets && Valid() && resId !in View(scope).live && resId !in View(scope).tombs
      modifies this, memory.Values
      ensures Valid() && fresh(memory.Values - old(memory.Values))
      ensures View(scope) == Reserve(old(View(scope)), lim, nowMs, resId, estimate)
      ensures forall t | t != scope :: View(t) == old(View(t))
      ensures reply == Reply(Admits(old(View(scope)), lim, nowMs, estimate),
                             View(scope).committed, View(scope).reserved)
    {
      hide BudgetWindow.Reserve, Admits, Sum;
      if scope !in memory {
        var blank := new MemoryWindow();
        memory := memory[scope := blank];
      }
      reply := memory[scope].Reserve(lim, nowMs, resId, estimate);
    }

    method SettleMemory(scope: string, windowMs: int, nowMs: int, resId: Id, actual: nat)
      requires Valid()
      modifies memory.Values
      ensures Valid()
      ensures View(scope) == Settle(old(View(scope)), if windowMs == 0 then 3_600_000 else windowMs, nowMs, resId, actual)
      ensures forall t | t != scope :: View(t) == old(View(t))
    {
      if scope in memory {
        memory[scope].Settle(if windowMs == 0 then 3_600_000 else windowMs, nowMs, resId, actual);
      }
    }

    method PurgeExpired(scope: string, nowMs: int) returns (expired: nat)
      requires Valid()
      modifies memory.Values
      ensures Valid()
      ensures View(scope) == Expire(old(View(scope)), nowMs, For(4 * 3_600_000))
      ensures forall t | t != scope :: View(t) == old(View(t))
      ensures expired == |Due(old(View(scope)).live, nowMs)|
    {
      if scope !in memory {
        NothingToExpire(nowMs);
        return 0;
      }
      ExpireSound(memory[scope].Abs(), nowMs, For(4 * 3_600_000));
      expired := memory[scope].ExpireMemory(nowMs, 4 * 3_600_000);
    }

    static lemma NothingToExpire(now: int)
      ensures Expire(EMPTY, now, For(4 * 3_600_000)) == EMPTY && Due(EMPTY.live, now) == {}
    {
      assert DueAmounts(EMPTY, now) == map[];
    }

    /** A snapshot first expires what is due, so it reports what is really held. */
    method SnapshotMicros(scope: string, nowMs: int) returns (committed: int, reserved: int)
      requires Valid()
      modifies memory.Values
      ensures Valid()
      ensures View(scope) == Expire(old(View(scope)), nowMs, For(4 * 3_600_000))
      ensures forall t | t != scope :: View(t) == old(View(t))
      ensures committed == old(View(scope)).committed
      ensures reserved == Sum(Amounts(View(scope).live))
    {
      var _ := PurgeExpired(scope, nowMs);
      if scope !in memory {
        return 0, 0;
      }
      return memory[scope].committedMicros, memory[scope].reservedMicros;
    }
  }

  /** Handle of one admitted reservation. It passes at most one settlement on to the store:
      `sent` records what it passed on. */
  class BudgetReservation {
    const guard: InferenceBudgetGuard
    const scope: string
    const reservationId: Id
    const reservedMicros: nat
    const windowMs: int
    var executed: bool
    var settled: bool
    ghost var sent: seq<nat>

    ghost predicate Valid()
      reads this
    {
      |sent| == if settled then 1 else 0
    }

    constructor (guard: InferenceBudgetGuard, scope: string, id: Id, micros: nat, windowMs: int)
      ensures Valid() && !executed && !settled && sent == []
      ensures this.guard == guard && this.scope == scope && reservationId == id
      ensures reservedMicros == micros && this.windowMs == windowMs
    {
      this.guard, this.scope, this.reservationId := guard, scope, id;
      this.reservedMicros, this.windowMs := micros, windowMs;
      executed, settled, sent := false, false, [];
    }

    method MarkExecuted()
      modifies this`executed
      ensures executed
    {
      executed := true;
    }

    /** What one settlement with `charge` does to the guard, unless one was sent before. */
    twostate predicate Sends(charge: nat, nowMs: int)
      reads this, guard, guard.memory.Values
    {
      && settled
      && sent == (if old(settled) then old(sent) else old(sent) + [charge])
      && guard.View(scope) ==
         (if old(settled) then old(guard.View(scope))
          else BudgetWindow.Settle(old(guard.View(scope)), SettleWindow(windowMs), nowMs, reservationId, charge))
      && (forall t | t != scope :: guard.View(t) == old(guard.View(t)))
    }

    /** `actual` is None when the spend is unknown or not a finite non-negative number. */
    method Settle(actual: Option<nat>, nowMs: int)
      requires Valid() && guard.Valid()
      modifies this`settled, this`sent, guard.memory.Values
      ensures Valid() && guard.Valid()
      ensures Sends(if actual.Some? then actual.value else reservedMicros, nowMs)
    {
      if settled {
        return;
      }
      settled := true;
      var actualMicros := reservedMicros;
      if actual.Some? {
        actualMicros := actual.value;
      }
      sent := sent + [actualMicros];
      guard.SettleMemory(scope, windowMs, nowMs, reservationId, actualMicros);
    }

    method Release(nowMs: int)
      requires Valid() && guard.Valid()
      modifies this`settled, this`sent, guard.memory.Values
      ensures Valid() && guard.Valid()
      ensures Sends(0, nowMs)
    {
      if settled {
        return;
      }
      settled := true;
      sent := sent + [0];
      guard.SettleMemory(scope, windowMs, nowMs, reservationId, 0);
    }

    method Abandon(nowMs: int)
      requires Valid() && guard.Valid()
      modifies this`settled, this`sent, guard.memory.Values
      ensures Valid() && guard.Valid()
      ensures Sends(if executed then reservedMicros else 0, nowMs)
    {
      if executed {
        Settle(None, nowMs);
      } else {
        Release(nowMs);
      }
    }
  }
}
