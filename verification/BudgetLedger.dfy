/** Whole runs of the budget guard on one scope.

    A ledger adds history to a window: which ids were admitted, which settlements took effect
    (split at the last roll) and how often the window rolled. Time stamps come from the
    callers, are positive and may go backwards. */
module BudgetLedger {
  import opened Common
  import opened BudgetWindow

  datatype Call =
    | ReserveCall(id: Id, estimate: nat, now: int)
    | SettleCall(id: Id, actual: nat, now: int)
    | PurgeCall(now: int)

  /** An effective settlement. `held` is what was still reserved for the id: the estimate
      while it was live, nothing once it had expired. */
  datatype Entry = Entry(id: Id, actual: int, estimate: int, held: int) {
    function Overrun(): int { Max(0, actual - held) }
    function EstimateError(): int { Max(0, actual - estimate) }
    /** Spend up to the estimate that nothing was holding any more. */
    function Late(): int { if actual < estimate - held then actual else estimate - held }
  }

  datatype Ledger = Ledger(
    w: Window,
    issued: set<Id>,
    past: seq<Entry>,       // settlements of closed windows
    cur: seq<Entry>,        // settlements of the open window
    rolls: nat,
    first: int)             // when the first window opened

  const OPENING := Ledger(EMPTY, {}, [], [], 0, 0)

  ghost function Turn(l: Ledger, lim: Limits, now: int): Ledger {
    if MustRoll(l.w, now, lim.window) then
      l.(past := l.past + l.cur, cur := [], rolls := l.rolls + 1,
         first := if l.rolls == 0 then now else l.first)
    else l
  }

  ghost function EntryFor(w: Window, id: Id, actual: int): Entry
    requires Find(w, id) != Unknown
  {
    if id in w.live then Entry(id, actual, w.live[id].micros, w.live[id].micros)
    else Entry(id, actual, w.tombs[id].micros, 0)
  }

  ghost function Step(l: Ledger, lim: Limits, c: Call): Ledger {
    match c
    case ReserveCall(id, estimate, now) =>
      Turn(l, lim, now).(
        w := Reserve(l.w, lim, now, id, estimate),
        issued := if Admits(l.w, lim, now, estimate) then l.issued + {id} else l.issued)
    case SettleCall(id, actual, now) =>
      if Find(l.w, id) == Unknown then l
      else
        var t := Turn(l, lim, now);
        t.(w := Settle(l.w, lim.window, now, id, actual), cur := t.cur + [EntryFor(l.w, id, actual)])
    case PurgeCall(now) =>
      l.(w := Expire(l.w, now, lim.PurgeKeep()))
  }

  /** Clocks read after 1970 and reservation ids are never reused. */
  ghost predicate Legal(l: Ledger, c: Call) {
    && c.now > 0
    && (c.ReserveCall? ==> c.id !in l.issued)
  }

  ghost function Run(l: Ledger, lim: Limits, calls: seq<Call>): Ledger
    decreases |calls|
  {
    if calls == [] then l else Run(Step(l, lim, calls[0]), lim, calls[1..])
  }

  ghost predicate LegalRun(l: Ledger, lim: Limits, calls: seq<Call>)
    decreases |calls|
  {
    calls == [] || (Legal(l, calls[0]) && LegalRun(Step(l, lim, calls[0]), lim, calls[1..]))
  }

  // ---------------------------------------------------------------- sums over settlements

  ghost function Tally(es: seq<Entry>, f: Entry -> int): int {
    if es == [] then 0 else Tally(es[..|es| - 1], f) + f(es[|es| - 1])
  }

  lemma {:induction false} TallyConcat(a: seq<Entry>, b: seq<Entry>, f: Entry -> int)
    ensures Tally(a + b, f) == Tally(a, f) + Tally(b, f)
  {
    if b == [] {
      assert a + b == a;
    } else {
      TallyConcat(a, b[..|b| - 1], f);
      assert (a + b)[..|a + b| - 1] == a + b[..|b| - 1];
    }
  }

  const ACTUAL := (e: Entry) => e.actual
  const OVERRUN := (e: Entry) => e.Overrun()
  const ERROR := (e: Entry) => e.EstimateError()
  const LATE := (e: Entry) => e.Late()

  ghost function Settlements(l: Ledger): seq<Entry> {
    l.past + l.cur
  }

  /** Everything ever committed on the scope, in all windows. */
  ghost function TotalCommitted(l: Ledger): int {
    Tally(Settlements(l), ACTUAL)
  }

  ghost function TotalOverrun(l: Ledger): int {
    Tally(Settlements(l), OVERRUN)
  }

  // ---------------------------------------------------------------- the invariant

  /** Every settled id was issued, is gone from the window and was settled once. */
  ghost predicate SettledOnce(es: seq<Entry>, w: Window, issued: set<Id>) {
    && (forall e | e in es :: e.id in issued && e.id !in w.live && e.id !in w.tombs)
    && (forall i, j | 0 <= i < j < |es| :: es[i].id != es[j].id)
  }

  ghost predicate History(l: Ledger) {
    && l.w.live.Keys + l.w.tombs.Keys <= l.issued
    && SettledOnce(Settlements(l), l.w, l.issued)
  }

  /** Windows that were opened and are closed. No window is open when the start is unset. */
  ghost function Closed(l: Ledger): int {
    if l.w.start == 0 then l.rolls else l.rolls - 1
  }

  ghost predicate Bounded(l: Ledger, lim: Limits) {
    && l.w.committed == Tally(l.cur, ACTUAL)
    && l.w.reserved <= lim.budget
    && l.w.committed + l.w.reserved <= lim.budget + Tally(l.cur, OVERRUN)
    && (if l.w.start == 0 then l.cur == [] else l.rolls > 0)
    && Tally(l.past, ACTUAL) <= Closed(l) * lim.budget + Tally(l.past, OVERRUN)
  }

  /** What holds however windows come to an end. */
  ghost predicate Books(l: Ledger, lim: Limits) {
    Sound(l.w) && History(l) && Bounded(l, lim)
  }

  /** A window ends by a roll only, so openings are a window length apart. */
  ghost predicate Spaced(l: Ledger, lim: Limits) {
    if l.rolls == 0 then l.w.start == 0
    else l.w.start > 0 && (l.rolls - 1) * lim.window <= l.w.start - l.first
  }

  ghost predicate Inv(l: Ledger, lim: Limits) {
    Books(l, lim) && Spaced(l, lim)
  }

  lemma OpeningInv(lim: Limits)
    requires lim.Valid()
    ensures Inv(OPENING, lim)
  {
  }

  /** The open window after the roll that an operation at `now` starts with. */
  ghost function Turned(l: Ledger, lim: Limits, now: int): Ledger {
    Turn(l, lim, now).(w := Roll(l.w, now, lim.window))
  }

  /** Closing a window keeps the books: what it committed fits its budget plus its overrun. */
  lemma TurnBounded(l: Ledger, lim: Limits, now: int)
    requires lim.Valid() && Bounded(l, lim) && l.w.reserved >= 0 && now > 0
    ensures Bounded(Turned(l, lim, now), lim)
  {
    if MustRoll(l.w, now, lim.window) {
      TallyConcat(l.past, l.cur, ACTUAL);
      TallyConcat(l.past, l.cur, OVERRUN);
      OneMore(l.rolls - 1, lim.budget);
      if l.w.start == 0 { assert l.past + l.cur == l.past; }
    }
  }

  lemma OneMore(n: int, x: int)
    ensures (n + 1) * x == n * x + x
  {
  }

  lemma TurnBooks(l: Ledger, lim: Limits, now: int)
    requires lim.Valid() && Books(l, lim) && now > 0
    ensures Books(Turned(l, lim, now), lim) && Settlements(Turned(l, lim, now)) == Settlements(l)
  {
    HeldNeverExceedsReserved(l.w, 0);
    TurnBounded(l, lim, now);
    assert Settlements(Turned(l, lim, now)) == Settlements(l);
  }

  lemma ExpireBooks(l: Ledger, lim: Limits, now: int, keep: Keep)
    requires Books(l, lim)
    ensures Books(l.(w := Expire(l.w, now, keep)), lim)
  {
    ExpireSound(l.w, now, keep);
    DueNeverExceedsReserved(l.w, now);
    var e := l.(w := Expire(l.w, now, keep));
    assert Settlements(e) == Settlements(l);
    assert e.w.live.Keys + e.w.tombs.Keys <= l.w.live.Keys + l.w.tombs.Keys;
  }

  lemma ReserveBooks(l: Ledger, lim: Limits, id: Id, estimate: nat, now: int)
    requires lim.Valid() && Books(l, lim) && now > 0 && id !in l.issued
    ensures Books(Step(l, lim, ReserveCall(id, estimate, now)), lim)
  {
    hide Sum;
    var e := l.(w := Expire(l.w, now, lim.Keep()));
    ExpireBooks(l, lim, now, lim.Keep());
    TurnBooks(e, lim, now);
    var t := Turned(e, lim, now);
    assert t.w == Prepared(l.w, lim, now) && t == Turn(l, lim, now).(w := t.w);
    ReserveSound(l.w, lim, now, id, estimate);
    var l' := Step(l, lim, ReserveCall(id, estimate, now));
    if Admits(l.w, lim, now, estimate) {
      assert l' == t.(w := l'.w, issued := l.issued + {id});
      AdmitBooks(t, lim, l'.w, id);
    } else {
      assert l' == t;
    }
  }

  /** Admission adds a fresh live id and stays below the budget. */
  lemma AdmitBooks(t: Ledger, lim: Limits, w: Window, id: Id)
    requires Books(t, lim) && t.w.start != 0 && id !in t.issued && Sound(w)
    requires w.live.Keys == t.w.live.Keys + {id} && w.tombs == t.w.tombs
    requires w.start == t.w.start && w.committed == t.w.committed
    requires w.committed + w.reserved <= lim.budget
    ensures Books(t.(w := w, issued := t.issued + {id}), lim)
  {
    hide Sum;
    OverrunNonNegative(t.cur);
    assert Settlements(t.(w := w, issued := t.issued + {id})) == Settlements(t);
  }

  lemma {:induction false} OverrunNonNegative(es: seq<Entry>)
    ensures Tally(es, OVERRUN) >= 0
  {
    if es != [] { OverrunNonNegative(es[..|es| - 1]); }
  }

  lemma SettleBooks(l: Ledger, lim: Limits, id: Id, actual: nat, now: int)
    requires lim.Valid() && Books(l, lim) && now > 0
    ensures Books(Step(l, lim, SettleCall(id, actual, now)), lim)
  {
    hide Sum;
    if Find(l.w, id) != Unknown {
      SettleParts(l.w, lim, now, id, actual);
      assert Find(l.w, id) != Unknown ==> id in l.issued;
      TurnBooks(l, lim, now);
      hide Settle, Books, Find;
      EnterBooks(Turned(l, lim, now), lim, EntryFor(l.w, id, actual),
                 Step(l, lim, SettleCall(id, actual, now)).w);
    }
  }

  /** What a settlement that finds its id does, compared with the window after the roll. */
  lemma SettleParts(w: Window, lim: Limits, now: int, id: Id, actual: nat)
    requires Sound(w) && Find(w, id) != Unknown
    ensures var s, t, e := Settle(w, lim.window, now, id, actual), Roll(w, now, lim.window), EntryFor(w, id, actual);
            && Sound(s) && s.live == t.live - {id} && s.tombs == t.tombs - {id} && s.start == t.start
            && e.id == id && e.actual == actual && e.held >= 0
            && s.committed == t.committed + actual && s.reserved == t.reserved - e.held
            && id in t.live.Keys + t.tombs.Keys
  {
    hide Sum;
    SettleSound(w, lim.window, now, id, actual);
    HeldNeverExceedsReserved(w, id);
  }

  /** Entering a settlement moves money from reserved to committed; the rest is overrun. */
  lemma EnterBooks(t: Ledger, lim: Limits, e: Entry, w: Window)
    requires Books(t, lim) && t.w.start != 0 && e.id in t.issued && Sound(w)
    requires e.id in t.w.live.Keys + t.w.tombs.Keys
    requires w.live == t.w.live - {e.id} && w.tombs == t.w.tombs - {e.id}
    requires w.start == t.w.start && e.held >= 0
    requires w.committed == t.w.committed + e.actual && w.reserved == t.w.reserved - e.held
    ensures Books(t.(w := w, cur := t.cur + [e]), lim)
  {
    hide Sum;
    var t' := t.(w := w, cur := t.cur + [e]);
    assert t'.cur[..|t'.cur| - 1] == t.cur;
    assert Settlements(t') == Settlements(t) + [e];
  }

  lemma StepBooks(l: Ledger, lim: Limits, c: Call)
    requires lim.Valid() && Books(l, lim) && Legal(l, c)
    ensures Books(Step(l, lim, c), lim)
  {
    match c
    case ReserveCall(id, estimate, now) => ReserveBooks(l, lim, id, estimate, now);
    case SettleCall(id, actual, now) => SettleBooks(l, lim, id, actual, now);
    case PurgeCall(now) => ExpireBooks(l, lim, now, lim.PurgeKeep());
  }

  lemma StepSpaced(l: Ledger, lim: Limits, c: Call)
    requires lim.Valid() && Spaced(l, lim) && c.now > 0
    ensures Spaced(Step(l, lim, c), lim)
  {
    hide Sum;
    OneMore(l.rolls - 1, lim.window);
  }

  lemma StepInv(l: Ledger, lim: Limits, c: Call)
    requires lim.Valid() && Inv(l, lim) && Legal(l, c)
    ensures Inv(Step(l, lim, c), lim)
  {
    hide Step, Books, Spaced;
    StepBooks(l, lim, c);
    StepSpaced(l, lim, c);
  }

  lemma {:induction false} RunInv(l: Ledger, lim: Limits, calls: seq<Call>)
    requires lim.Valid() && Inv(l, lim) && LegalRun(l, lim, calls)
    ensures Inv(Run(l, lim, calls), lim)
    decreases |calls|
  {
    if calls != [] {
      hide Inv, Step, Legal;
      StepInv(l, lim, calls[0]);
      RunInv(Step(l, lim, calls[0]), lim, calls[1..]);
    }
  }

  lemma EveryRunInv(lim: Limits, calls: seq<Call>)
    requires lim.Valid() && LegalRun(OPENING, lim, calls)
    ensures Inv(Run(OPENING, lim, calls), lim)
  {
    OpeningInv(lim);
    RunInv(OPENING, lim, calls);
  }

  // ---------------------------------------------------------------- theorems over whole runs

  /** Spend bound. Whatever the callers do and whatever their clocks say, all money ever
      committed is at most one budget per opened window plus the overrun of the settlements;
      and any two openings are at least a window length apart. */
  lemma SpendBound(lim: Limits, calls: seq<Call>)
    requires lim.Valid() && LegalRun(OPENING, lim, calls)
    ensures var l := Run(OPENING, lim, calls);
            && TotalCommitted(l) <= l.rolls * lim.budget + TotalOverrun(l)
            && (l.rolls > 0 ==> (l.rolls - 1) * lim.window <= l.w.start - l.first)
  {
    EveryRunInv(lim, calls);
    BoundFromBooks(Run(OPENING, lim, calls), lim);
  }

  lemma BoundFromBooks(l: Ledger, lim: Limits)
    requires Books(l, lim) && lim.Valid()
    ensures TotalCommitted(l) <= l.rolls * lim.budget + TotalOverrun(l)
  {
    hide Sum;
    HeldNeverExceedsReserved(l.w, 0);
    TallyConcat(l.past, l.cur, ACTUAL);
    TallyConcat(l.past, l.cur, OVERRUN);
    OneMore(l.rolls - 1, lim.budget);
  }

  /** The books balance: reserved money is what the live ids hold, committed money is what
      was settled since the last roll, every id is settled at most once, and the open window
      exceeds its budget by no more than its own overrun. */
  lemma BooksBalance(lim: Limits, calls: seq<Call>)
    requires lim.Valid() && LegalRun(OPENING, lim, calls)
    ensures var l := Run(OPENING, lim, calls);
            && l.w.reserved == Sum(Amounts(l.w.live)) <= lim.budget
            && l.w.committed == Tally(l.cur, ACTUAL)
            && l.w.committed + l.w.reserved <= lim.budget + Tally(l.cur, OVERRUN)
            && l.w.live.Keys !! l.w.tombs.Keys
            && SettledOnce(Settlements(l), l.w, l.issued)
  {
    EveryRunInv(lim, calls);
  }

  /** An id that was settled stays settled: from then on no call with it has any effect. */
  lemma SettledIsFinal(l: Ledger, lim: Limits, calls: seq<Call>, id: Id, actual: nat, now: int)
    requires lim.Valid() && Inv(l, lim) && LegalRun(l, lim, calls) && now > 0
    requires exists e :: e in Settlements(l) && e.id == id
    ensures var l' := Run(l, lim, calls); Step(l', lim, SettleCall(id, actual, now)) == l'
  {
    RunInv(l, lim, calls);
    SettlementsGrow(l, lim, calls);
  }

  lemma {:induction false} SettlementsGrow(l: Ledger, lim: Limits, calls: seq<Call>)
    requires lim.Valid() && Inv(l, lim) && LegalRun(l, lim, calls)
    ensures Settlements(l) <= Settlements(Run(l, lim, calls))
    decreases |calls|
  {
    if calls != [] {
      hide Inv, Step, Legal;
      StepInv(l, lim, calls[0]);
      StepGrows(l, lim, calls[0]);
      SettlementsGrow(Step(l, lim, calls[0]), lim, calls[1..]);
    }
  }

  lemma StepGrows(l: Ledger, lim: Limits, c: Call)
    ensures Settlements(l) <= Settlements(Step(l, lim, c))
  {
    hide Reserve, Settle, Expire, Admits;
    assert Settlements(Turn(l, lim, c.now)) == Settlements(l);
  }

  ghost predicate Closes(c: Call, id: Id) {
    c.SettleCall? && c.id == id
  }

  /** If every admitted id is settled later on, nothing stays reserved at the end. */
  lemma AllSettledReleasesAll(lim: Limits, calls: seq<Call>)
    requires lim.Valid() && LegalRun(OPENING, lim, calls)
    requires forall i | 0 <= i < |calls| && calls[i].ReserveCall? && calls[i].id in Run(OPENING, lim, calls).issued ::
               exists j | i < j < |calls| :: Closes(calls[j], calls[i].id)
    ensures var l := Run(OPENING, lim, calls); l.w.live == map[] && l.w.reserved == 0
  {
    EveryRunInv(lim, calls);
    LiveIdsAreOpen(OPENING, lim, calls);
    assert Run(OPENING, lim, calls).w.live.Keys == {};
  }

  /** A live id was either live before or reserved by a call that no settlement followed. */
  lemma {:induction false} LiveIdsAreOpen(l: Ledger, lim: Limits, calls: seq<Call>)
    ensures forall id | id in Run(l, lim, calls).w.live ::
      || (id in l.w.live && forall j | 0 <= j < |calls| :: !Closes(calls[j], id))
      || (exists i :: 0 <= i < |calls| && calls[i].ReserveCall? && calls[i].id == id
           && forall j | i < j < |calls| :: !Closes(calls[j], id))
    decreases |calls|
  {
    if calls != [] {
      var l' := Step(l, lim, calls[0]);
      var rest := calls[1..];
      LiveIdsAreOpen(l', lim, rest);
      forall id | id in Run(l, lim, calls).w.live
        ensures || (id in l.w.live && forall j | 0 <= j < |calls| :: !Closes(calls[j], id))
                || (exists i :: 0 <= i < |calls| && calls[i].ReserveCall? && calls[i].id == id
                     && forall j | i < j < |calls| :: !Closes(calls[j], id))
      {
        if id in l'.w.live && forall j | 0 <= j < |rest| :: !Closes(rest[j], id) {
          if id in l.w.live && !Closes(calls[0], id) {
            forall j | 0 <= j < |calls| ensures !Closes(calls[j], id) {
              if j > 0 { assert calls[j] == rest[j - 1]; }
            }
          } else {
            assert calls[0].ReserveCall? && calls[0].id == id;
            forall j | 0 < j < |calls| ensures !Closes(calls[j], id) {
              assert calls[j] == rest[j - 1];
            }
          }
        } else {
          var i :| 0 <= i < |rest| && rest[i].ReserveCall? && rest[i].id == id
                   && forall j | i < j < |rest| :: !Closes(rest[j], id);
          assert calls[i + 1] == rest[i];
          forall j | i + 1 < j < |calls| ensures !Closes(calls[j], id) {
            assert calls[j] == rest[j - 1];
          }
        }
      }
    }
  }

  // ---------------------------------------------------------------- admission and windows

  /** Admission, in terms of the history: an id is issued if and only if the spend settled in the
      window, which counts for nothing once it is over, plus the holds that are not due, plus the
      estimate, fits the budget. */
  lemma IssuedExactly(l: Ledger, lim: Limits, id: Id, estimate: nat, now: int)
    requires lim.Valid() && Inv(l, lim) && now > 0 && id !in l.issued
    ensures id in Step(l, lim, ReserveCall(id, estimate, now)).issued <==>
              (if l.w.start == 0 || now - l.w.start >= lim.window then 0 else Tally(l.cur, ACTUAL))
              + Sum(StillHeld(l.w, now)) + estimate <= lim.budget
  {
    AdmittedExactly(l.w, lim, now, id, estimate);
    hide Sum, Expire;
  }

  /** Age: a reservation, and a settlement that finds its id, leave a window open that is younger
      than a window length, and open a new one only if the old one had reached it. */
  lemma WindowIsYoung(l: Ledger, lim: Limits, c: Call)
    requires lim.Valid() && c.now > 0
    requires c.ReserveCall? || (c.SettleCall? && (c.id in l.w.live || c.id in l.w.tombs))
    ensures var s := Step(l, lim, c).w.start;
            && s != 0 && c.now - s < lim.window
            && (s != l.w.start ==> s == c.now && (l.w.start == 0 || c.now - l.w.start >= lim.window))
  {
    hide Sum;
  }

  // ---------------------------------------------------------------- where the money goes

  /** The actual spend of the settlements that find their id. */
  ghost function Effective(l: Ledger, lim: Limits, calls: seq<Call>): int
    decreases |calls|
  {
    if calls == [] then 0
    else (if calls[0].SettleCall? && Find(l.w, calls[0].id) != Unknown then calls[0].actual else 0)
         + Effective(Step(l, lim, calls[0]), lim, calls[1..])
  }

  /** Everything committed is what settlements brought that found their id, and nothing else. */
  lemma {:induction false} CommittedIsEffective(l: Ledger, lim: Limits, calls: seq<Call>)
    ensures TotalCommitted(Run(l, lim, calls)) == TotalCommitted(l) + Effective(l, lim, calls)
    decreases |calls|
  {
    if calls != [] {
      StepCommits(l, lim, calls[0]);
      CommittedIsEffective(Step(l, lim, calls[0]), lim, calls[1..]);
    }
  }

  lemma StepCommits(l: Ledger, lim: Limits, c: Call)
    ensures TotalCommitted(Step(l, lim, c)) == TotalCommitted(l)
              + if c.SettleCall? && Find(l.w, c.id) != Unknown then c.actual else 0
  {
    hide Reserve, Settle, Expire, Admits;
    assert Settlements(Turn(l, lim, c.now)) == Settlements(l);
    if c.SettleCall? && Find(l.w, c.id) != Unknown {
      var e := EntryFor(l.w, c.id, c.actual);
      assert Settlements(Step(l, lim, c)) == Settlements(l) + [e];
      assert (Settlements(l) + [e])[..|Settlements(l)|] == Settlements(l);
    }
  }

  /** The settlements in a list of calls whose id was ever admitted. */
  ghost function ChargesOf(calls: seq<Call>, admitted: set<Id>): int
    decreases |calls|
  {
    if calls == [] then 0
    else (if calls[0].SettleCall? && calls[0].id in admitted then calls[0].actual else 0) + ChargesOf(calls[1..], admitted)
  }

  /** Every id is reserved once and settled at most once, after that; `seen` and `closed` are
      the ids that were reserved and settled before. */
  ghost predicate Orderly(calls: seq<Call>, seen: set<Id>, closed: set<Id>)
    decreases |calls|
  {
    calls == [] ||
    match calls[0]
    case ReserveCall(id, _, _) => id !in seen && Orderly(calls[1..], seen + {id}, closed)
    case SettleCall(id, _, _) => id in seen && id !in closed && Orderly(calls[1..], seen, closed + {id})
    case PurgeCall(_) => Orderly(calls[1..], seen, closed)
  }

  /** A settlement of an admitted id that finds nothing. In orderly runs only a forgotten
      tombstone does that. */
  ghost predicate Misses(l: Ledger, c: Call) {
    c.SettleCall? && c.id in l.issued && Find(l.w, c.id) == Unknown
  }

  ghost function Forgone(l: Ledger, lim: Limits, calls: seq<Call>): nat
    decreases |calls|
  {
    if calls == [] then 0
    else (if Misses(l, calls[0]) then calls[0].actual else 0) + Forgone(Step(l, lim, calls[0]), lim, calls[1..])
  }

  /** Some settlement with a positive charge misses. */
  ghost predicate LosesCharge(l: Ledger, lim: Limits, calls: seq<Call>)
    decreases |calls|
  {
    calls != []
    && ((Misses(l, calls[0]) && calls[0].actual > 0) || LosesCharge(Step(l, lim, calls[0]), lim, calls[1..]))
  }

  /** Where every charge goes: in orderly runs the charges of the admitted ids are committed but
      for those that miss. The total falls short exactly when a positive one does. */
  lemma ChargesAreCommittedOrForgone(lim: Limits, calls: seq<Call>)
    requires lim.Valid() && LegalRun(OPENING, lim, calls) && Orderly(calls, {}, {})
    ensures var l := Run(OPENING, lim, calls);
            && TotalCommitted(l) + Forgone(OPENING, lim, calls) == ChargesOf(calls, l.issued)
            && (TotalCommitted(l) < ChargesOf(calls, l.issued) <==> LosesCharge(OPENING, lim, calls))
  {
    OpeningInv(lim);
    ChargesSplit(OPENING, lim, calls, {}, {});
    ForgoneExactly(OPENING, lim, calls);
  }

  lemma {:induction false} ForgoneExactly(l: Ledger, lim: Limits, calls: seq<Call>)
    ensures Forgone(l, lim, calls) > 0 <==> LosesCharge(l, lim, calls)
    decreases |calls|
  {
    if calls != [] {
      ForgoneExactly(Step(l, lim, calls[0]), lim, calls[1..]);
    }
  }

  lemma {:induction false} ChargesSplit(l: Ledger, lim: Limits, calls: seq<Call>, seen: set<Id>, closed: set<Id>)
    requires lim.Valid() && Books(l, lim) && LegalRun(l, lim, calls)
    requires l.issued <= seen && Orderly(calls, seen, closed)
    ensures var r := Run(l, lim, calls);
            && TotalCommitted(r) + Forgone(l, lim, calls) == TotalCommitted(l) + ChargesOf(calls, r.issued)
            && l.issued <= r.issued && r.issued * seen == l.issued
    decreases |calls|
  {
    if calls != [] {
      hide Books, Step, Legal, Settlements, TotalCommitted, Find;
      var c := calls[0];
      StepBooks(l, lim, c);
      StepCommits(l, lim, c);
      StepIssues(l, lim, c, seen);
      ChargesSplit(Step(l, lim, c), lim, calls[1..], if c.ReserveCall? then seen + {c.id} else seen,
                   if c.SettleCall? then closed + {c.id} else closed);
    }
  }

  lemma StepIssues(l: Ledger, lim: Limits, c: Call, seen: set<Id>)
    requires Books(l, lim) && l.issued <= seen && (c.ReserveCall? ==> c.id !in seen)
    ensures var l' := Step(l, lim, c);
            && l.issued <= l'.issued && l'.issued * seen == l.issued
            && l'.issued <= (if c.ReserveCall? then seen + {c.id} else seen)
            && (!c.ReserveCall? ==> l'.issued == l.issued)
    ensures c.SettleCall? && Find(l.w, c.id) != Unknown ==> c.id in l.issued
  {
    hide Sum, Bounded, Sound;
  }

  /** A store that keeps its tombstones still knows every admitted id that was not settled. */
  ghost predicate Remembers(l: Ledger, closed: set<Id>) {
    && l.issued <= l.w.live.Keys + l.w.tombs.Keys + closed
    && forall e | e in Settlements(l) :: e.id in closed
  }

  /** No charge is lost: in a store that keeps its tombstones the total committed is the sum
      of the charges of all admitted requests, however late they settle. */
  lemma EveryChargeIsCommitted(lim: Limits, calls: seq<Call>)
    requires lim.Valid() && !lim.forgets && LegalRun(OPENING, lim, calls) && Orderly(calls, {}, {})
    ensures var l := Run(OPENING, lim, calls); TotalCommitted(l) == ChargesOf(calls, l.issued)
  {
    ChargesAreCommittedOrForgone(lim, calls);
    NothingForgone(OPENING, lim, calls, {}, {});
  }

  lemma {:induction false} NothingForgone(l: Ledger, lim: Limits, calls: seq<Call>, seen: set<Id>, closed: set<Id>)
    requires !lim.forgets && LegalRun(l, lim, calls) && Remembers(l, closed) && Orderly(calls, seen, closed)
    ensures Forgone(l, lim, calls) == 0
    decreases |calls|
  {
    if calls != [] {
      hide Step, Legal, Remembers, Misses;
      var c := calls[0];
      var closed' := if c.SettleCall? then closed + {c.id} else closed;
      StepRemembers(l, lim, c, closed);
      NothingForgone(Step(l, lim, c), lim, calls[1..], if c.ReserveCall? then seen + {c.id} else seen, closed');
    }
  }

  lemma StepRemembers(l: Ledger, lim: Limits, c: Call, closed: set<Id>)
    requires !lim.forgets && Remembers(l, closed) && (c.SettleCall? ==> c.id !in closed)
    ensures !Misses(l, c)
    ensures Remembers(Step(l, lim, c), if c.SettleCall? then closed + {c.id} else closed)
  {
    hide Sum;
    assert Settlements(Turn(l, lim, c.now)) == Settlements(l);
    if c.SettleCall? && Find(l.w, c.id) != Unknown {
      assert Settlements(Step(l, lim, c)) == Settlements(l) + [EntryFor(l.w, c.id, c.actual)];
    }
  }

  // ---------------------------------------------------------------- settling in time

  /** How long any store remembers a hold after it was due. */
  function KeepFor(lim: Limits): int {
    var own, fixed := 4 * Max(lim.window, lim.ttl), 4 * 3_600_000;
    if own < fixed then own else fixed
  }

  /** The clock does not go back, and every reservation is settled before the remembering time
      after its hold was due is over. `due` says when the holds so far were due. */
  ghost predicate Prompt(calls: seq<Call>, lim: Limits, due: map<Id, int>, last: int)
    decreases |calls|
  {
    calls == [] ||
    (last <= calls[0].now &&
     match calls[0]
     case ReserveCall(id, _, now) => Prompt(calls[1..], lim, due[id := now + lim.ttl], now)
     case SettleCall(id, _, now) =>
       (id in due ==> now < due[id] + KeepFor(lim)) && Prompt(calls[1..], lim, due, now)
     case PurgeCall(now) => Prompt(calls[1..], lim, due, now))
  }

  /** An id that was due at `d` is live, or remembered long enough, or long overdue. */
  ghost predicate Known(w: Window, lim: Limits, id: Id, d: int, last: int) {
    || (id in w.live && w.live[id].at == d)
    || (id in w.tombs && (lim.forgets ==> w.tombs[id].at >= d + KeepFor(lim)))
    || last >= d + KeepFor(lim)
  }

  ghost predicate InTime(l: Ledger, lim: Limits, due: map<Id, int>, closed: set<Id>, last: int) {
    forall id | id in l.issued && id !in closed :: id in due && Known(l.w, lim, id, due[id], last)
  }

  lemma ExpireKnown(w: Window, lim: Limits, keep: Keep, id: Id, d: int, last: int, now: int)
    requires Known(w, lim, id, d, last) && last <= now && w.live.Keys !! w.tombs.Keys
    requires keep == lim.Keep() || keep == lim.PurgeKeep()
    ensures Known(Expire(w, now, keep), lim, id, d, now)
  {
    hide Sum;
  }

  lemma StepInTime(l: Ledger, lim: Limits, c: Call, due: map<Id, int>, seen: set<Id>, closed: set<Id>, last: int)
    requires Books(l, lim) && l.issued <= seen && InTime(l, lim, due, closed, last) && last <= c.now
    requires c.ReserveCall? ==> c.id !in seen
    requires c.SettleCall? ==> c.id !in closed && (c.id in due ==> c.now < due[c.id] + KeepFor(lim))
    ensures !Misses(l, c)
    ensures InTime(Step(l, lim, c), lim, if c.ReserveCall? then due[c.id := c.now + lim.ttl] else due,
                   if c.SettleCall? then closed + {c.id} else closed, c.now)
  {
    hide Sum, Bounded, History, KeepFor;
    match c
    case ReserveCall(id, _, now) =>
      forall x | x in l.issued && x !in closed ensures Known(Expire(l.w, now, lim.Keep()), lim, x, due[x], now) {
        ExpireKnown(l.w, lim, lim.Keep(), x, due[x], last, now);
      }
      hide Expire;
    case PurgeCall(now) =>
      forall x | x in l.issued && x !in closed ensures Known(Expire(l.w, now, lim.PurgeKeep()), lim, x, due[x], now) {
        ExpireKnown(l.w, lim, lim.PurgeKeep(), x, due[x], last, now);
      }
      hide Expire;
    case SettleCall(id, _, _) =>
  }

  lemma {:induction false} PromptForgoesNothing(l: Ledger, lim: Limits, calls: seq<Call>, due: map<Id, int>,
                                                seen: set<Id>, closed: set<Id>, last: int)
    requires lim.Valid() && Books(l, lim) && LegalRun(l, lim, calls) && l.issued <= seen
    requires Orderly(calls, seen, closed) && InTime(l, lim, due, closed, last) && Prompt(calls, lim, due, last)
    ensures Forgone(l, lim, calls) == 0
    decreases |calls|
  {
    if calls != [] {
      hide Books, Step, Legal, InTime, Misses;
      var c := calls[0];
      StepInTime(l, lim, c, due, seen, closed, last);
      StepBooks(l, lim, c);
      StepIssues(l, lim, c, seen);
      PromptForgoesNothing(Step(l, lim, c), lim, calls[1..],
                           if c.ReserveCall? then due[c.id := c.now + lim.ttl] else due,
                           if c.ReserveCall? then seen + {c.id} else seen,
                           if c.SettleCall? then closed + {c.id} else closed, c.now);
    }
  }

  /** On a clock that does not go back no charge is lost in any store, if every settlement comes
      within the remembering time after its hold was due. */
  lemma PromptChargesAreCommitted(lim: Limits, calls: seq<Call>)
    requires lim.Valid() && LegalRun(OPENING, lim, calls) && Orderly(calls, {}, {}) && Prompt(calls, lim, map[], 0)
    ensures var l := Run(OPENING, lim, calls); TotalCommitted(l) == ChargesOf(calls, l.issued)
  {
    OpeningInv(lim);
    ChargesAreCommittedOrForgone(lim, calls);
    PromptForgoesNothing(OPENING, lim, calls, map[], {}, {}, 0);
  }

  // ---------------------------------------------------------------- the documented limit

  /** The documentation limits the excess of an open window by the estimate error of its
      requests. What the code can exceed is that error plus the late spend: settlements that
      arrive after their hold has expired. */
  lemma OverrunIsErrorPlusLate(lim: Limits, calls: seq<Call>)
    requires lim.Valid() && LegalRun(OPENING, lim, calls)
    ensures var l := Run(OPENING, lim, calls);
            && Tally(l.cur, OVERRUN) == Tally(l.cur, ERROR) + Tally(l.cur, LATE)
            && l.w.committed + l.w.reserved <= lim.budget + Tally(l.cur, ERROR) + Tally(l.cur, LATE)
  {
    EveryRunInv(lim, calls);
    EntriesRun(OPENING, lim, calls);
    SplitOverrun(Run(OPENING, lim, calls).cur);
  }

  /** The documented limit holds in every window whose settlements all found their hold. */
  lemma DocumentedLimitHoldsWithoutLate(lim: Limits, calls: seq<Call>)
    requires lim.Valid() && LegalRun(OPENING, lim, calls)
    ensures var l := Run(OPENING, lim, calls);
            (forall e | e in l.cur :: e.held == e.estimate)
            ==> l.w.committed + l.w.reserved <= lim.budget + Tally(l.cur, ERROR)
  {
    OverrunIsErrorPlusLate(lim, calls);
    EveryRunInv(lim, calls);
    EntriesRun(OPENING, lim, calls);
    var l := Run(OPENING, lim, calls);
    if forall e | e in l.cur :: e.held == e.estimate {
      forall e | e in l.cur ensures WellFormedEntry(e) { assert e in Settlements(l); }
      NothingLate(l.cur);
    }
  }

  lemma {:induction false} NothingLate(es: seq<Entry>)
    requires forall e | e in es :: WellFormedEntry(e) && e.held == e.estimate
    ensures Tally(es, LATE) == 0
  {
    if es != [] {
      NothingLate(es[..|es| - 1]);
      assert es[|es| - 1] in es;
    }
  }

  ghost predicate WellFormedEntry(e: Entry) {
    e.actual >= 0 && e.estimate >= 0 && (e.held == 0 || e.held == e.estimate)
  }

  ghost predicate WellFormedEntries(l: Ledger) {
    && (forall id | id in l.w.tombs :: l.w.tombs[id].micros >= 0)
    && (forall e | e in Settlements(l) :: WellFormedEntry(e))
  }

  lemma {:induction false} SplitOverrun(es: seq<Entry>)
    requires forall e | e in es :: WellFormedEntry(e)
    ensures Tally(es, OVERRUN) == Tally(es, ERROR) + Tally(es, LATE)
    ensures Tally(es, LATE) >= 0
  {
    if es != [] {
      SplitOverrun(es[..|es| - 1]);
      assert WellFormedEntry(es[|es| - 1]);
    }
  }

  lemma EntriesStep(l: Ledger, lim: Limits, c: Call)
    requires Sound(l.w) && WellFormedEntries(l)
    ensures WellFormedEntries(Step(l, lim, c))
  {
    var l' := Step(l, lim, c);
    if c.SettleCall? && Find(l.w, c.id) != Unknown {
      assert Settlements(l') == Settlements(l) + [EntryFor(l.w, c.id, c.actual)];
    } else {
      assert Settlements(l') == Settlements(l);
    }
  }

  lemma {:induction false} EntriesRun(l: Ledger, lim: Limits, calls: seq<Call>)
    requires lim.Valid() && Inv(l, lim) && LegalRun(l, lim, calls) && WellFormedEntries(l)
    ensures WellFormedEntries(Run(l, lim, calls))
    decreases |calls|
  {
    if calls != [] {
      StepInv(l, lim, calls[0]);
      EntriesStep(l, lim, calls[0]);
      EntriesRun(Step(l, lim, calls[0]), lim, calls[1..]);
    }
  }

  /** A settlement raises committed plus reserved of the window that it is booked in, open or
      new, by more than its estimate error exactly when it finds a tombstone and both amounts
      are positive. */
  lemma LateSettleBreaksDocumentedLimit(w: Window, lim: Limits, id: Id, actual: nat, now: int)
    requires Sound(w) && Find(w, id) != Unknown
    requires id in w.tombs ==> w.tombs[id].micros >= 0
    ensures var booked, w' := Roll(w, now, lim.window), Settle(w, lim.window, now, id, actual);
            var e := EntryFor(w, id, actual);
            (w'.committed + w'.reserved > booked.committed + booked.reserved + e.EstimateError())
            <==> (id in w.tombs && w.tombs[id].micros > 0 && actual > 0)
  {
    HeldNeverExceedsReserved(w, id);
  }

  const TIGHT := Limits(10, 1000, 5, true)

  function LateCalls(a: Id, b: Id): seq<Call> {
    [ReserveCall(a, 10, 1), ReserveCall(b, 10, 6), SettleCall(a, 10, 7), SettleCall(b, 10, 7)]
  }

  /** A run whose every request costs exactly its estimate and that still ends above the
      budget: the first hold expires, its budget is granted again, then both settle. */
  lemma DocumentedLimitFails(a: Id, b: Id)
    requires a != b
    ensures TIGHT.Valid() && LegalRun(OPENING, TIGHT, LateCalls(a, b))
    ensures var l := Run(OPENING, TIGHT, LateCalls(a, b));
            l.w.committed + l.w.reserved == 20 > TIGHT.budget + Tally(l.cur, ERROR) == 10
  {
    var l1, l2, l3, l4 := GrantedOnce(a), GrantedTwice(a, b), SettledLate(a, b), SettledBoth(a, b);
    var c0, c1, c2, c3 := ReserveCall(a, 10, 1), ReserveCall(b, 10, 6), SettleCall(a, 10, 7), SettleCall(b, 10, 7);
    FirstGrant(a);
    SecondGrant(a, b);
    LateSettlements(a, b);
    Unroll(l3, TIGHT, c3, []);
    Unroll(l2, TIGHT, c2, [c3] + []);
    Unroll(l1, TIGHT, c1, [c2] + ([c3] + []));
    Unroll(OPENING, TIGHT, c0, [c1] + ([c2] + ([c3] + [])));
    assert LateCalls(a, b) == [c0] + ([c1] + ([c2] + ([c3] + [])));
    NoErrorIn(l4.cur[0], l4.cur[1]);
  }

  ghost function GrantedOnce(a: Id): Ledger {
    Ledger(Window(1, 0, 10, map[a := Hold(6, 10)], map[]), {a}, [], [], 1, 1)
  }

  ghost function GrantedTwice(a: Id, b: Id): Ledger {
    Ledger(Window(1, 0, 10, map[b := Hold(11, 10)], map[a := Hold(4006, 10)]), {a, b}, [], [], 1, 1)
  }

  ghost function SettledLate(a: Id, b: Id): Ledger {
    Ledger(Window(1, 10, 10, map[b := Hold(11, 10)], map[]), {a, b}, [], [Entry(a, 10, 10, 0)], 1, 1)
  }

  ghost function SettledBoth(a: Id, b: Id): Ledger {
    Ledger(Window(1, 20, 0, map[], map[]), {a, b}, [], [Entry(a, 10, 10, 0), Entry(b, 10, 10, 10)], 1, 1)
  }

  lemma FirstGrant(a: Id)
    ensures Step(OPENING, TIGHT, ReserveCall(a, 10, 1)) == GrantedOnce(a)
  {
    assert DueAmounts(EMPTY, 1) == map[];
    assert Expire(EMPTY, 1, For(4000)) == EMPTY;
  }

  lemma SecondGrant(a: Id, b: Id)
    ensures Step(GrantedOnce(a), TIGHT, ReserveCall(b, 10, 6)) == GrantedTwice(a, b)
  {
    var w := GrantedOnce(a).w;
    assert DueAmounts(w, 6) == map[a := 10];
    SumInsert(map[], a, 10);
    var buried := map[a := Hold(4006, 10)];
    assert Due(w.live, 6) == {a} && w.live - {a} == map[];
    assert Expire(w, 6, For(4000)) == Window(1, 0, 0, map[], buried);
  }

  lemma LateSettlements(a: Id, b: Id)
    requires a != b
    ensures Step(GrantedTwice(a, b), TIGHT, SettleCall(a, 10, 7)) == SettledLate(a, b)
    ensures Step(SettledLate(a, b), TIGHT, SettleCall(b, 10, 7)) == SettledBoth(a, b)
  {
    assert GrantedTwice(a, b).w.tombs - {a} == map[];
    assert SettledLate(a, b).w.live - {b} == map[];
  }

  lemma NoErrorIn(e: Entry, f: Entry)
    requires e.actual == e.estimate && f.actual == f.estimate
    ensures Tally([e, f], ERROR) == 0
  {
    assert [e, f][..1] == [e] && [e][..0] == [];
    assert Tally([e], ERROR) == 0;
  }

  lemma Unroll(l: Ledger, lim: Limits, c: Call, rest: seq<Call>)
    ensures Run(l, lim, [c] + rest) == Run(Step(l, lim, c), lim, rest)
    ensures LegalRun(l, lim, [c] + rest) == (Legal(l, c) && LegalRun(Step(l, lim, c), lim, rest))
  {
    assert ([c] + rest)[1..] == rest;
  }
}
