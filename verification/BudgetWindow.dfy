/** One spend window of the inference budget guard, as a value.

    The operations below are the specification that both stores are proved against: the
    in-process one (BudgetMemory) and the Lua scripts (BudgetStore). Money is integer
    micro-USD, time integer milliseconds. */
module BudgetWindow {
  import opened Common

  /** A reservation id: a UUID, read as a number. */
  type Id = nat

  /** A held amount: live until `at`, or (for a tombstone) remembered until `at`. */
  datatype Hold = Hold(at: int, micros: int)

  datatype Window = Window(
    start: int,                // 0 while the window was never opened
    committed: int,
    reserved: int,
    live: map<Id, Hold>,
    tombs: map<Id, Hold>)

  const EMPTY := Window(0, 0, 0, map[], map[])

  /** How long a store remembers tombstones. */
  datatype Keep = Forever | For(ms: int) {
    function Until(now: int): int {
      if For? then now + ms else 0
    }

    function Surviving(tombs: map<Id, Hold>, now: int): map<Id, Hold> {
      if For? then NotDue(tombs, now) else tombs
    }
  }

  /** The limits of a scope. The in-process store forgets tombstones, the shared store keeps
      them as long as its keys live. */
  datatype Limits = Limits(budget: int, window: int, ttl: int, forgets: bool) {
    predicate Valid() {
      budget >= 0 && window > 0 && ttl > 0
    }

    function Keep(): Keep {
      if forgets then For(4 * Max(window, ttl)) else Forever
    }

    /** A purge outside a reservation uses a fixed lifetime. */
    function PurgeKeep(): Keep {
      if forgets then For(4 * 3_600_000) else Forever
    }
  }

  /** What settling an id found. */
  datatype Found = Unknown | Live | Late

  // ---------------------------------------------------------------- parts of a step

  function Amounts(holds: map<Id, Hold>): map<Id, int> {
    map id | id in holds :: holds[id].micros
  }

  function Due(holds: map<Id, Hold>, now: int): set<Id> {
    set id | id in holds && holds[id].at <= now
  }

  function NotDue(holds: map<Id, Hold>, now: int): map<Id, Hold> {
    holds - Due(holds, now)
  }

  /** The amounts that expiry at `now` hands back. */
  function DueAmounts(w: Window, now: int): map<Id, int> {
    Restrict(Amounts(w.live), Due(w.live, now))
  }

  /** The tombstones of live holds, each remembered until `forget`. */
  function Buried(live: map<Id, Hold>, ids: set<Id>, forget: int): (b: map<Id, Hold>)
    ensures b.Keys == live.Keys * ids
    ensures forall id | id in b :: b[id] == Hold(forget, live[id].micros)
  {
    map id | id in live && id in ids :: Hold(forget, live[id].micros)
  }

  /** Live holds that are due become tombstones; tombstones that are due are forgotten. */
  ghost function Expire(w: Window, now: int, keep: Keep): Window {
    var due := Due(w.live, now);
    w.(
      reserved := Max(0, w.reserved - Sum(DueAmounts(w, now))),
      live := NotDue(w.live, now),
      tombs := keep.Surviving(w.tombs + Buried(w.live, due, keep.Until(now)), now))
  }

  predicate MustRoll(w: Window, now: int, window: int) {
    w.start == 0 || now - w.start >= window
  }

  function Roll(w: Window, now: int, window: int): Window {
    if MustRoll(w, now, window) then w.(start := now, committed := 0) else w
  }

  function Find(w: Window, id: Id): Found {
    if id in w.live then Live else if id in w.tombs then Late else Unknown
  }

  /** The amount still held back for an id; nothing is held for a tombstone. */
  function Held(w: Window, id: Id): int {
    if id in w.live then w.live[id].micros else 0
  }

  // ---------------------------------------------------------------- the three operations

  /** The window a reservation is decided against: expired and rolled. */
  ghost function Prepared(w: Window, lim: Limits, now: int): Window {
    Roll(Expire(w, now, lim.Keep()), now, lim.window)
  }

  ghost predicate Admits(w: Window, lim: Limits, now: int, estimate: int) {
    var p := Prepared(w, lim, now);
    p.committed + p.reserved + estimate <= lim.budget
  }

  ghost function Reserve(w: Window, lim: Limits, now: int, id: Id, estimate: int): Window {
    var p := Prepared(w, lim, now);
    if Admits(w, lim, now, estimate) then
      p.(reserved := p.reserved + estimate, live := p.live[id := Hold(now + lim.ttl, estimate)])
    else p
  }

  function Settle(w: Window, window: int, now: int, id: Id, actual: int): Window {
    var released :=
      if id in w.live then
        w.(reserved := Max(0, w.reserved - w.live[id].micros), live := w.live - {id})
      else
        w.(tombs := w.tombs - {id});
    if Find(w, id) == Unknown then w
    else
      var r := Roll(released, now, window);
      r.(committed := r.committed + actual)
  }

  // ---------------------------------------------------------------- state invariant

  /** Reserved money is exactly what the live reservations hold. */
  ghost predicate Sound(w: Window) {
    && (forall id | id in w.live :: w.live[id].micros >= 0)
    && w.reserved == Sum(Amounts(w.live))
    && w.committed >= 0
    && w.live.Keys !! w.tombs.Keys
  }

  lemma DueNeverExceedsReserved(w: Window, now: int)
    requires Sound(w)
    ensures 0 <= Sum(DueAmounts(w, now)) <= w.reserved
    ensures w.reserved - Sum(DueAmounts(w, now)) == Sum(Amounts(NotDue(w.live, now)))
  {
    hide Sum;
    var due := Due(w.live, now);
    SumSplit(Amounts(w.live), due);
    assert Amounts(w.live) - due == Amounts(NotDue(w.live, now));
    SumNonNegative(DueAmounts(w, now));
    SumNonNegative(Amounts(NotDue(w.live, now)));
  }

  lemma HeldNeverExceedsReserved(w: Window, id: Id)
    requires Sound(w)
    ensures 0 <= Held(w, id) <= w.reserved
    ensures id in w.live ==> w.reserved - Held(w, id) == Sum(Amounts(w.live - {id}))
  {
    hide Sum;
    SumNonNegative(Amounts(w.live));
    if id in w.live {
      SumRemove(Amounts(w.live), id);
      assert Amounts(w.live) - {id} == Amounts(w.live - {id});
      SumNonNegative(Amounts(w.live - {id}));
    }
  }

  lemma ExpireSound(w: Window, now: int, keep: Keep)
    requires Sound(w)
    ensures Sound(Expire(w, now, keep))
  {
    hide Sum;
    DueNeverExceedsReserved(w, now);
  }

  lemma ReserveSound(w: Window, lim: Limits, now: int, id: Id, estimate: int)
    requires Sound(w) && estimate >= 0 && id !in w.live && id !in w.tombs
    ensures Sound(Reserve(w, lim, now, id, estimate))
  {
    hide Sum;
    ExpireSound(w, now, lim.Keep());
    var p := Prepared(w, lim, now);
    SumInsert(Amounts(p.live), id, estimate);
    assert Amounts(p.live[id := Hold(now + lim.ttl, estimate)]) == Amounts(p.live)[id := estimate];
  }

  lemma SettleSound(w: Window, window: int, now: int, id: Id, actual: int)
    requires Sound(w) && actual >= 0
    ensures Sound(Settle(w, window, now, id, actual))
  {
    hide Sum;
    HeldNeverExceedsReserved(w, id);
  }

  /** The clamps at zero are dead code: on a sound window every subtraction they guard is
      already non-negative, so money is never created by clamping. */
  lemma ClampsNeverAct(w: Window, now: int, keep: Keep, window: int, id: Id, actual: int)
    requires Sound(w)
    ensures Expire(w, now, keep).reserved == w.reserved - Sum(DueAmounts(w, now))
    ensures Settle(w, window, now, id, actual).reserved == w.reserved - Held(w, id)
  {
    hide Sum;
    DueNeverExceedsReserved(w, now);
    HeldNeverExceedsReserved(w, id);
  }

  // ---------------------------------------------------------------- operations, field by field

  /** The holds that a clock reading of `now` does not find due. */
  function StillHeld(w: Window, now: int): map<Id, int> {
    map id | id in w.live && w.live[id].at > now :: w.live[id].micros
  }

  lemma StillHeldAmounts(w: Window, now: int)
    ensures Amounts(NotDue(w.live, now)) == StillHeld(w, now)
  {
  }

  /** A reservation is admitted if and only if what the window has committed, or nothing if it is
      over or none is open, plus what holds that are not due reserve, plus the estimate, fits
      the budget. */
  lemma AdmittedExactly(w: Window, lim: Limits, now: int, id: Id, estimate: int)
    requires Sound(w) && id !in w.live
    ensures id in Reserve(w, lim, now, id, estimate).live <==>
              (if w.start == 0 || now - w.start >= lim.window then 0 else w.committed)
              + Sum(StillHeld(w, now)) + estimate <= lim.budget
  {
    hide Sum;
    DueNeverExceedsReserved(w, now);
    StillHeldAmounts(w, now);
  }

  lemma AdmitsIsLive(w: Window, lim: Limits, now: int, id: Id, estimate: int)
    requires id !in w.live
    ensures Admits(w, lim, now, estimate) <==> id in Reserve(w, lim, now, id, estimate).live
  {
    hide Sum;
  }

  /** The tombstones that a reservation leaves: of every hold that was due, for four times the
      longer of window and TTL, and the older ones whose time is not over. */
  lemma BuriedExactly(w: Window, lim: Limits, now: int, id: Id, estimate: int)
    requires Sound(w) && lim.window > 0
    ensures var r, longer := Reserve(w, lim, now, id, estimate), if lim.window < lim.ttl then lim.ttl else lim.window;
            && (forall x | x in w.live && w.live[x].at <= now ::
                  x in r.tombs && r.tombs[x].micros == w.live[x].micros && (lim.forgets ==> r.tombs[x].at == now + 4 * longer))
            && (forall x | x in w.tombs :: x in r.tombs <==> !lim.forgets || w.tombs[x].at > now)
            && (forall x | x in r.tombs :: x in w.tombs || x in w.live)
  {
    hide Sum, Expire, Sound, Due, NotDue, Buried, DueAmounts, Amounts, Admits, StillHeld;
    ExpiredExactly(w, now, lim.Keep());
  }

  /** What a reservation leaves behind, admitted or not: the window opens anew at `now` exactly if
      it is over or none is open; holds that are not due stay as they are, and an admitted one
      is held for the TTL. */
  lemma ReservedExactly(w: Window, lim: Limits, now: int, id: Id, estimate: int)
    requires Sound(w) && estimate >= 0 && id !in w.live && id !in w.tombs
    ensures var r := Reserve(w, lim, now, id, estimate);
            var over := w.start == 0 || now - w.start >= lim.window;
            && r.start == (if over then now else w.start) && r.committed == (if over then 0 else w.committed)
            && r.reserved == Sum(StillHeld(w, now)) + (if id in r.live then estimate else 0)
            && (forall x | x != id :: x in r.live <==> x in w.live && w.live[x].at > now)
            && (forall x | x in r.live && x != id :: r.live[x] == w.live[x])
            && (id in r.live ==> r.live[id] == Hold(now + lim.ttl, estimate))
  {
    hide Sum;
    DueNeverExceedsReserved(w, now);
    StillHeldAmounts(w, now);
  }

  /** What any expiry leaves behind. `forget` is when a tombstone made now is forgotten. */
  lemma ExpiredExactly(w: Window, now: int, keep: Keep)
    requires Sound(w) && (keep.For? ==> keep.ms > 0)
    ensures var r := Expire(w, now, keep);
            && r.start == w.start && r.committed == w.committed && r.reserved == Sum(StillHeld(w, now))
            && (forall x :: x in r.live <==> x in w.live && w.live[x].at > now)
            && (forall x | x in r.live :: r.live[x] == w.live[x])
            && (forall x | x in w.live && w.live[x].at <= now ::
                  x in r.tombs && r.tombs[x].micros == w.live[x].micros && (keep.For? ==> r.tombs[x].at == now + keep.ms))
            && (forall x | x in w.tombs :: x in r.tombs <==> keep == Forever || w.tombs[x].at > now)
            && (forall x | x in w.tombs && x in r.tombs :: r.tombs[x] == w.tombs[x])
            && (forall x | x in r.tombs :: x in w.tombs || x in w.live)
  {
    hide Sum;
    DueNeverExceedsReserved(w, now);
    StillHeldAmounts(w, now);
  }

  /** What a settlement does: nothing for an unknown id; else the hold or tombstone is gone, a
      hold's amount is released, and the spend is committed, in a new window if the open one
      is over. */
  lemma SettledExactly(w: Window, window: int, now: int, id: Id, actual: int)
    requires Sound(w)
    ensures var s := Settle(w, window, now, id, actual);
            var over := w.start == 0 || now - w.start >= window;
            if id !in w.live && id !in w.tombs then s == w
            else
              && s.start == (if over then now else w.start)
              && s.committed == (if over then 0 else w.committed) + actual
              && s.reserved == w.reserved - (if id in w.live then w.live[id].micros else 0)
              && s.live == w.live - {id} && s.tombs == w.tombs - {id}
  {
    HeldNeverExceedsReserved(w, id);
  }

  // ---------------------------------------------------------------- expiry, one id at a time

  /** One reservation turns into a tombstone. */
  function Bury(w: Window, id: Id, forget: int): Window
    requires id in w.live
  {
    w.(
      reserved := Max(0, w.reserved - w.live[id].micros),
      live := w.live - {id},
      tombs := w.tombs[id := Hold(forget, w.live[id].micros)])
  }

  /** Expiring one due reservation early changes nothing, so a loop may take them in any
      order. */
  lemma BuryFirst(w: Window, id: Id, now: int, keep: Keep)
    requires Sound(w) && id in Due(w.live, now)
    ensures var b := Bury(w, id, keep.Until(now));
            && Sound(b)
            && Due(b.live, now) == Due(w.live, now) - {id}
            && Expire(b, now, keep) == Expire(w, now, keep)
  {
    hide Sum;
    var b := Bury(w, id, keep.Until(now));
    var due := Due(w.live, now);
    assert Due(b.live, now) == due - {id};
    BuriedTogether(w.live, w.tombs, due, id, keep.Until(now));
    assert b.tombs + Buried(b.live, Due(b.live, now), keep.Until(now))
        == w.tombs + Buried(w.live, due, keep.Until(now));
    assert NotDue(b.live, now) == NotDue(w.live, now);
    assert Expire(b, now, keep).reserved == Expire(w, now, keep).reserved && Sound(b) by {
      HeldNeverExceedsReserved(w, id);
      DueNeverExceedsReserved(w, now);
      DueNeverExceedsReserved(b, now);
    }
  }

  lemma BuriedTogether(live: map<Id, Hold>, tombs: map<Id, Hold>, due: set<Id>, id: Id, forget: int)
    requires id in live && id in due
    ensures tombs[id := Hold(forget, live[id].micros)] + Buried(live - {id}, due - {id}, forget)
         == tombs + Buried(live, due, forget)
  {
  }

  lemma NothingDue(w: Window, now: int, keep: Keep)
    requires Sound(w) && Due(w.live, now) == {}
    ensures Expire(w, now, keep) == w.(tombs := keep.Surviving(w.tombs, now))
  {
    hide Sum;
    DueNeverExceedsReserved(w, now);
    assert w.live - {} == w.live;
    assert w.tombs + Buried(w.live, {}, keep.Until(now)) == w.tombs;
  }
}
