/** The shared budget store when its keys die. A reservation refreshes the lifetime of the three
    keys, a settlement does not, and when the lifetime is over Redis drops all of them: window,
    holds and tombstones are gone. */
module BudgetLifetime {
  import opened Common
  import opened BudgetWindow
  import opened BudgetLedger
  import BudgetStore
  import BudgetRefinement

  datatype Event = Made(c: Call) | KeysDie(now: int)

  /** A ledger, when its windows opened, and when the keys die. */
  datatype Life = Life(l: Ledger, opens: seq<int>, deadline: int)

  const BIRTH := Life(OPENING, [], 0)

  function KeysTtl(lim: Limits): int {
    4 * Max(lim.window, lim.ttl)
  }

  /** Death closes the open window with what it committed, and forgets everything else. */
  ghost function Wiped(l: Ledger): Ledger {
    l.(w := EMPTY, past := l.past + l.cur, cur := [])
  }

  ghost predicate Opens(f: Life, lim: Limits, e: Event) {
    e.Made? && Step(f.l, lim, e.c).rolls > f.l.rolls
  }

  ghost function LifeStep(f: Life, lim: Limits, e: Event): Life {
    match e
    case Made(c) =>
      Life(Step(f.l, lim, c),
           if Opens(f, lim, e) then f.opens + [c.now] else f.opens,
           if c.ReserveCall? then c.now + KeysTtl(lim) else f.deadline)
    case KeysDie(_) => f.(l := Wiped(f.l))
  }

  ghost predicate LifeLegal(f: Life, e: Event) {
    e.Made? ==> Legal(f.l, e.c)
  }

  ghost function LifeRun(f: Life, lim: Limits, events: seq<Event>): Life
    decreases |events|
  {
    if events == [] then f else LifeRun(LifeStep(f, lim, events[0]), lim, events[1..])
  }

  ghost predicate LegalLife(f: Life, lim: Limits, events: seq<Event>)
    decreases |events|
  {
    events == [] || (LifeLegal(f, events[0]) && LegalLife(LifeStep(f, lim, events[0]), lim, events[1..]))
  }

  // ---------------------------------------------------------------- the money half

  lemma WipedBooks(l: Ledger, lim: Limits)
    requires lim.Valid() && Books(l, lim)
    ensures Books(Wiped(l), lim) && Settlements(Wiped(l)) == Settlements(l)
  {
    HeldNeverExceedsReserved(l.w, 0);
    hide Sum;
    TallyConcat(l.past, l.cur, ACTUAL);
    TallyConcat(l.past, l.cur, OVERRUN);
    OneMore(l.rolls - 1, lim.budget);
    assert Settlements(Wiped(l)) == Settlements(l);
    assert Sum(Amounts(EMPTY.live)) == 0 by { EmptySum(); }
  }

  lemma EmptySum()
    ensures Sum(Amounts(EMPTY.live)) == 0
  {
    assert Amounts(EMPTY.live) == map[];
  }

  lemma LifeStepBooks(f: Life, lim: Limits, e: Event)
    requires lim.Valid() && Books(f.l, lim) && LifeLegal(f, e)
    ensures Books(LifeStep(f, lim, e).l, lim)
  {
    hide Books, Step, Wiped, Legal;
    match e
    case Made(c) => StepBooks(f.l, lim, c);
    case KeysDie(_) => WipedBooks(f.l, lim);
  }

  lemma {:induction false} LifeBooks(f: Life, lim: Limits, events: seq<Event>)
    requires lim.Valid() && Books(f.l, lim) && LegalLife(f, lim, events)
    ensures Books(LifeRun(f, lim, events).l, lim)
    decreases |events|
  {
    if events != [] {
      hide Books, LifeStep, LifeLegal;
      LifeStepBooks(f, lim, events[0]);
      LifeBooks(LifeStep(f, lim, events[0]), lim, events[1..]);
    }
  }

  /** Money. However often and whenever the keys die, all money ever committed is at most one
      budget per opened window plus the overrun, a wiped window counting like a rolled one. */
  lemma MoneyBoundSurvives(lim: Limits, events: seq<Event>)
    requires lim.Valid() && LegalLife(BIRTH, lim, events)
    ensures var l := LifeRun(BIRTH, lim, events).l;
            TotalCommitted(l) <= l.rolls * lim.budget + TotalOverrun(l)
  {
    OpeningInv(lim);
    LifeBooks(BIRTH, lim, events);
    BoundFromBooks(LifeRun(BIRTH, lim, events).l, lim);
  }

  // ---------------------------------------------------------------- the spacing half

  ghost predicate Apart(opens: seq<int>, window: int) {
    forall i | 0 < i < |opens| :: opens[i] - opens[i - 1] >= window
  }

  /** An event opens a window less than a window length after the last one opened. */
  ghost predicate Crowds(f: Life, lim: Limits, e: Event) {
    Opens(f, lim, e) && f.opens != [] && e.c.now - f.opens[|f.opens| - 1] < lim.window
  }

  ghost predicate EverCrowds(f: Life, lim: Limits, events: seq<Event>)
    decreases |events|
  {
    events != [] && (Crowds(f, lim, events[0]) || EverCrowds(LifeStep(f, lim, events[0]), lim, events[1..]))
  }

  /** The openings of a ledger: as many as its rolls, the open window being the last. */
  ghost predicate Recorded(f: Life) {
    && |f.opens| == f.l.rolls
    && (f.opens != [] ==> f.l.first == f.opens[0])
    && (f.l.w.start != 0 ==> f.opens != [] && f.l.w.start == f.opens[|f.opens| - 1])
  }

  lemma StepRecorded(f: Life, lim: Limits, e: Event)
    requires Recorded(f) && LifeLegal(f, e)
    ensures Recorded(LifeStep(f, lim, e))
    ensures Opens(f, lim, e) ==> LifeStep(f, lim, e).l.rolls == f.l.rolls + 1
  {
    hide Sum;
  }

  lemma {:induction false} OpeningsApart(f: Life, lim: Limits, events: seq<Event>)
    requires Recorded(f) && LegalLife(f, lim, events) && Apart(f.opens, lim.window)
    ensures Recorded(LifeRun(f, lim, events))
    ensures Apart(LifeRun(f, lim, events).opens, lim.window) <==> !EverCrowds(f, lim, events)
    decreases |events|
  {
    if events != [] {
      hide Recorded, LifeLegal;
      StepRecorded(f, lim, events[0]);
      var g := LifeStep(f, lim, events[0]);
      if Crowds(f, lim, events[0]) {
        var n := |f.opens|;
        assert g.opens[n] - g.opens[n - 1] < lim.window;
        OpensGrow(g, lim, events[1..]);
        RunRecorded(g, lim, events[1..]);
        var r := LifeRun(g, lim, events[1..]);
        assert r.opens[n] == g.opens[n] && r.opens[n - 1] == g.opens[n - 1];
      } else {
        OpeningsApart(g, lim, events[1..]);
      }
    }
  }

  lemma {:induction false} OpensGrow(f: Life, lim: Limits, events: seq<Event>)
    ensures f.opens <= LifeRun(f, lim, events).opens
    decreases |events|
  {
    if events != [] {
      hide Opens;
      OpensGrow(LifeStep(f, lim, events[0]), lim, events[1..]);
    }
  }

  lemma {:induction false} RunRecorded(f: Life, lim: Limits, events: seq<Event>)
    requires Recorded(f) && LegalLife(f, lim, events)
    ensures Recorded(LifeRun(f, lim, events))
    decreases |events|
  {
    if events != [] {
      hide Recorded, LifeLegal, LifeStep;
      StepRecorded(f, lim, events[0]);
      RunRecorded(LifeStep(f, lim, events[0]), lim, events[1..]);
    }
  }

  lemma {:induction false} ApartSpreads(opens: seq<int>, window: int)
    requires Apart(opens, window) && opens != []
    ensures (|opens| - 1) * window <= opens[|opens| - 1] - opens[0]
    decreases |opens|
  {
    if |opens| > 1 {
      var n := |opens| - 1;
      ApartSpreads(opens[..n], window);
      OneMore(n - 1, window);
    }
  }

  /** Spacing. Openings stay a window length apart exactly in runs in which none crowds, and then
      their number is bounded by the time they span. */
  lemma SpacingSurvives(lim: Limits, events: seq<Event>)
    requires lim.Valid() && LegalLife(BIRTH, lim, events)
    ensures var f := LifeRun(BIRTH, lim, events);
            && (Apart(f.opens, lim.window) <==> !EverCrowds(BIRTH, lim, events))
            && |f.opens| == f.l.rolls
            && (Apart(f.opens, lim.window) && f.l.rolls > 0 ==>
                  (f.l.rolls - 1) * lim.window <= f.opens[f.l.rolls - 1] - f.l.first)
  {
    OpeningsApart(BIRTH, lim, events);
    var f := LifeRun(BIRTH, lim, events);
    if Apart(f.opens, lim.window) && f.l.rolls > 0 { ApartSpreads(f.opens, lim.window); }
  }

  // ---------------------------------------------------------------- when nothing crowds

  function At(e: Event): int {
    match e
    case Made(c) => c.now
    case KeysDie(now) => now
  }

  /** One clock: time does not go back, calls find the keys alive, and these die at their
      deadline. A death counts until the next reservation. */
  ghost predicate OnTime(f: Life, last: int, e: Event) {
    && last <= At(e)
    && (e.KeysDie? ==> f.deadline <= e.now)
    && (e.Made? && f.l.w.start != 0 ==> e.c.now < f.deadline)
  }

  /** A settlement that opens a window leaves it a whole window length before the deadline. */
  ghost predicate Roomy(f: Life, lim: Limits, e: Event) {
    Opens(f, lim, e) && e.c.SettleCall? ==> e.c.now + lim.window <= f.deadline
  }

  ghost predicate RoomyRun(f: Life, lim: Limits, last: int, events: seq<Event>)
    decreases |events|
  {
    events == []
    || (OnTime(f, last, events[0]) && Roomy(f, lim, events[0])
        && RoomyRun(LifeStep(f, lim, events[0]), lim, At(events[0]), events[1..]))
  }

  /** The last window opened a window length before the keys die, or they have died since. */
  ghost predicate Ahead(f: Life, lim: Limits, last: int) {
    && Recorded(f)
    && (f.opens != [] ==> f.opens[|f.opens| - 1] <= last && f.opens[|f.opens| - 1] + lim.window <= f.deadline)
    && (f.opens != [] && f.l.w.start == 0 ==> f.deadline <= last)
    && (f.opens == [] ==> f.l.w.start == 0)
  }

  lemma StepAhead(f: Life, lim: Limits, last: int, e: Event)
    requires lim.Valid() && Ahead(f, lim, last) && LifeLegal(f, e) && OnTime(f, last, e) && Roomy(f, lim, e)
    ensures Ahead(LifeStep(f, lim, e), lim, At(e)) && !Crowds(f, lim, e)
  {
    StepRecorded(f, lim, e);
    hide Sum;
  }

  lemma {:induction false} RoomyNeverCrowds(f: Life, lim: Limits, last: int, events: seq<Event>)
    requires lim.Valid() && Ahead(f, lim, last) && LegalLife(f, lim, events) && RoomyRun(f, lim, last, events)
    ensures !EverCrowds(f, lim, events)
    decreases |events|
  {
    if events != [] {
      hide Ahead, LifeLegal, OnTime, Roomy, LifeStep, Crowds;
      StepAhead(f, lim, last, events[0]);
      RoomyNeverCrowds(LifeStep(f, lim, events[0]), lim, At(events[0]), events[1..]);
    }
  }

  /** On one clock the spend bound survives the death of keys whole, if every settlement that
      opens a window does so at least a window length before their deadline. */
  lemma SpendBoundOverLifetimes(lim: Limits, events: seq<Event>)
    requires lim.Valid() && LegalLife(BIRTH, lim, events) && RoomyRun(BIRTH, lim, 0, events)
    ensures var f := LifeRun(BIRTH, lim, events);
            && TotalCommitted(f.l) <= f.l.rolls * lim.budget + TotalOverrun(f.l)
            && |f.opens| == f.l.rolls
            && (f.l.rolls > 0 ==> (f.l.rolls - 1) * lim.window <= f.opens[f.l.rolls - 1] - f.l.first)
  {
    MoneyBoundSurvives(lim, events);
    RoomyNeverCrowds(BIRTH, lim, 0, events);
    SpacingSurvives(lim, events);
  }

  /** The condition is exact: after a settlement at `s` opened a window, death at the deadline and
      a reservation right then open the next one too early if and only if the settlement left
      less than a window length. */
  lemma LateOpeningCrowds(f: Life, lim: Limits, id: Id, estimate: nat)
    requires lim.Valid() && Recorded(f) && f.l.w.start > 0
    ensures var dead := LifeStep(f, lim, KeysDie(f.deadline));
            Crowds(dead, lim, Made(ReserveCall(id, estimate, f.deadline)))
            <==> f.l.w.start + lim.window > f.deadline
  {
    hide Sum;
  }

  /** Only reservations refresh the lifetime of the keys, to four times the longer of window and
      TTL; death leaves nothing of the window. */
  lemma DeadlineExactly(f: Life, lim: Limits, e: Event)
    ensures var g := LifeStep(f, lim, e);
            && g.deadline == (if e.Made? && e.c.ReserveCall? then
                                e.c.now + 4 * (if lim.window < lim.ttl then lim.ttl else lim.window)
                              else f.deadline)
            && (e.KeysDie? ==> g.l.w.start == 0 && g.l.w.committed == 0 && g.l.w.reserved == 0
                               && g.l.w.live == map[] && g.l.w.tombs == map[] && g.l.rolls == f.l.rolls)
  {
  }

  const SHORT := Limits(10, 1000, 500, false)

  function CrowdedLife(a: Id, b: Id): seq<Event> {
    [Made(ReserveCall(a, 1, 1)), Made(SettleCall(a, 1, 4000)), KeysDie(4001), Made(ReserveCall(b, 1, 4001))]
  }

  /** Such a life: the settlement opens a window at 4000, the keys die at 4001, and the reservation
      then opens the next window of length 1000 only one later. */
  lemma OpeningsCanCrowd(a: Id, b: Id)
    requires a != b
    ensures LegalLife(BIRTH, SHORT, CrowdedLife(a, b))
    ensures LifeRun(BIRTH, SHORT, CrowdedLife(a, b)).opens == [1, 4000, 4001]
  {
    var events := CrowdedLife(a, b);
    var f1, f2, f3 := Reserved(a), Settled(a), Dead(a);
    LifeSteps(a);
    Reopens(a, b);
    var f4 := LifeStep(f3, SHORT, events[3]);
    Unrolled(f3, events[3], []);
    Unrolled(f2, events[2], [events[3]] + []);
    Unrolled(f1, events[1], [events[2]] + ([events[3]] + []));
    Unrolled(BIRTH, events[0], [events[1]] + ([events[2]] + ([events[3]] + [])));
    assert events == [events[0]] + ([events[1]] + ([events[2]] + ([events[3]] + [])));
  }

  ghost function Reserved(a: Id): Life {
    Life(Ledger(Window(1, 0, 1, map[a := Hold(501, 1)], map[]), {a}, [], [], 1, 1), [1], 4001)
  }

  ghost function Settled(a: Id): Life {
    Life(Ledger(Window(4000, 1, 0, map[], map[]), {a}, [], [Entry(a, 1, 1, 1)], 2, 1), [1, 4000], 4001)
  }

  ghost function Dead(a: Id): Life {
    Life(Ledger(EMPTY, {a}, [Entry(a, 1, 1, 1)], [], 2, 1), [1, 4000], 4001)
  }

  lemma LifeSteps(a: Id)
    ensures LifeStep(BIRTH, SHORT, Made(ReserveCall(a, 1, 1))) == Reserved(a)
    ensures LifeStep(Reserved(a), SHORT, Made(SettleCall(a, 1, 4000))) == Settled(a)
    ensures LifeStep(Settled(a), SHORT, KeysDie(4001)) == Dead(a)
  {
    assert DueAmounts(EMPTY, 1) == map[];
    assert Expire(EMPTY, 1, Forever) == EMPTY;
    assert Reserved(a).l.w.live - {a} == map[];
  }

  lemma Reopens(a: Id, b: Id)
    requires a != b
    ensures LifeStep(Dead(a), SHORT, Made(ReserveCall(b, 1, 4001))).opens == [1, 4000, 4001]
  {
    assert DueAmounts(EMPTY, 4001) == map[];
    assert Expire(EMPTY, 4001, Forever) == EMPTY;
  }

  lemma Unrolled(f: Life, e: Event, rest: seq<Event>)
    ensures LifeRun(f, SHORT, [e] + rest) == LifeRun(LifeStep(f, SHORT, e), SHORT, rest)
    ensures LegalLife(f, SHORT, [e] + rest) == (LifeLegal(f, e) && LegalLife(LifeStep(f, SHORT, e), SHORT, rest))
  {
    assert ([e] + rest)[1..] == rest;
  }

  // ---------------------------------------------------------------- the scripts

  ghost function StoreRun(s: BudgetStore.Store, lim: Limits, events: seq<Event>): BudgetStore.Store
    decreases |events|
  {
    if events == [] then s
    else
      StoreRun(match events[0]
               case Made(c) => BudgetRefinement.Exec(s, lim, c).store
               case KeysDie(_) => BudgetStore.BLANK, lim, events[1..])
  }

  /** The scripts on keys that die refine the ledger that is wiped then. */
  lemma {:induction false} ScriptsRefineLives(s: BudgetStore.Store, f: Life, lim: Limits, events: seq<Event>)
    requires lim.Valid() && lim.budget > 0 && !lim.forgets
    requires BudgetRefinement.Related(s, f.l.w) && Books(f.l, lim) && LegalLife(f, lim, events)
    ensures BudgetRefinement.Related(StoreRun(s, lim, events), LifeRun(f, lim, events).l.w)
    decreases |events|
  {
    if events != [] {
      var e := events[0];
      LifeStepBooks(f, lim, e);
      var t := match e
               case Made(c) => BudgetRefinement.Exec(s, lim, c).store
               case KeysDie(_) => BudgetStore.BLANK;
      assert BudgetRefinement.Related(t, LifeStep(f, lim, e).l.w) by {
        if e.Made? { BudgetRefinement.ExecRefines(s, f.l, lim, e.c); }
      }
      hide BudgetRefinement.Related, Books, LifeStep, LifeLegal;
      ScriptsRefineLives(t, LifeStep(f, lim, e), lim, events[1..]);
    }
  }
}
