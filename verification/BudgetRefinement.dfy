/** The Lua scripts refine the ledger, and the two stores answer alike for as long as the
    in-process one has not forgotten a late reservation. All statements are about live keys. */
module BudgetRefinement {
  import opened Common
  import opened BudgetWindow
  import opened BudgetLedger
  import opened BudgetStore

  // ---------------------------------------------------------------- abstraction relation

  predicate EncodesLive(raw: string, micros: int) {
    !IsTombstone(raw) && ToNumber(raw) == Some(micros)
  }

  predicate EncodesLate(raw: string, micros: int) {
    IsTombstone(raw) && ToNumber(raw[1..]) == Some(micros)
  }

  lemma Encodings(micros: int)
    ensures EncodesLive(Show(micros), micros) && EncodesLate(Tombstone(micros), micros)
  {
    ToNumberInvertsShow(micros);
    assert Tombstone(micros)[1..] == Show(micros);
  }

  /** The score set and the amounts hash stand for the two dictionaries. */
  ghost predicate KeysEncode(zset: map<Id, int>, amounts: map<Id, string>, live: map<Id, Hold>, tombs: map<Id, Hold>) {
    && zset.Keys == live.Keys
    && amounts.Keys == live.Keys + tombs.Keys
    && (forall id | id in live :: zset[id] == live[id].at && EncodesLive(amounts[id], live[id].micros))
    && (forall id | id in tombs :: EncodesLate(amounts[id], tombs[id].micros))
  }

  ghost predicate FieldsEncode(h: map<Field, string>, w: Window) {
    LoadWindow(h) == Some(Loaded(w.committed, w.reserved, w.start))
  }

  /** Three keys of strings and scores stand for one window. */
  ghost predicate Related(s: Store, w: Window) {
    FieldsEncode(s.window, w) && KeysEncode(s.zset, s.amounts, w.live, w.tombs)
  }

  lemma SavedLoads(window: map<Field, string>, l: Loaded)
    ensures LoadWindow(SaveWindow(window, l)) == Some(l)
  {
    ToNumberInvertsShow(l.committed);
    ToNumberInvertsShow(l.reserved);
    ToNumberInvertsShow(l.start);
  }

  lemma SameDue(s: Store, w: Window, now: int)
    requires KeysEncode(s.zset, s.amounts, w.live, w.tombs)
    ensures DueIds(s, now) == Due(w.live, now)
    ensures Readable(s, now) && DueMicros(s, now) == DueAmounts(w, now)
  {
    hide ToNumber;
  }

  /** Expiry on the keys is expiry on the window, for a store that keeps its tombstones. */
  lemma ExpireKeys(s: Store, w: Window, now: int)
    requires KeysEncode(s.zset, s.amounts, w.live, w.tombs) && Readable(s, now)
    requires w.live.Keys !! w.tombs.Keys
    ensures var e, x := Expired(s, now), Expire(w, now, Forever);
            KeysEncode(e.zset, e.amounts, x.live, x.tombs)
  {
    hide Sum, ToNumber, KeysEncode, Expire, ReadAmount;
    SameDue(s, w, now);
    ExpireParts(w, now);
    MoveKeys(s.zset, s.amounts, w.live, w.tombs, Due(w.live, now));
    assert Tombstones(DueMicros(s, now)) == TombstonesOf(w.live, Due(w.live, now));
  }

  function TombstonesOf(live: map<Id, Hold>, due: set<Id>): map<Id, string> {
    map id | id in live && id in due :: Tombstone(live[id].micros)
  }

  lemma MoveKeys(zset: map<Id, int>, amounts: map<Id, string>, live: map<Id, Hold>, tombs: map<Id, Hold>, due: set<Id>)
    requires KeysEncode(zset, amounts, live, tombs) && live.Keys !! tombs.Keys
    ensures KeysEncode(zset - due, amounts + TombstonesOf(live, due), live - due, tombs + Buried(live, due, 0))
  {
    hide ToNumber, IsTombstone, Show;
    forall id | id in live && id in due ensures EncodesLate(Tombstone(live[id].micros), live[id].micros) {
      Encodings(live[id].micros);
    }
  }

  lemma ExpireParts(w: Window, now: int)
    ensures var x := Expire(w, now, Forever);
            && x.start == w.start && x.committed == w.committed
            && x.reserved == Max(0, w.reserved - Sum(DueAmounts(w, now)))
            && x.live == NotDue(w.live, now)
            && x.tombs == w.tombs + Buried(w.live, Due(w.live, now), 0)
  {
  }

  lemma AdmitKeys(zset: map<Id, int>, amounts: map<Id, string>, live: map<Id, Hold>, tombs: map<Id, Hold>, id: Id, h: Hold)
    requires KeysEncode(zset, amounts, live, tombs) && id !in tombs
    ensures KeysEncode(zset[id := h.at], amounts[id := Show(h.micros)], live[id := h], tombs)
  {
    hide ToNumber, Show, IsTombstone;
    Encodings(h.micros);
  }

  lemma SettleKeys(zset: map<Id, int>, amounts: map<Id, string>, live: map<Id, Hold>, tombs: map<Id, Hold>, id: Id)
    requires KeysEncode(zset, amounts, live, tombs)
    ensures KeysEncode(zset - {id}, amounts - {id}, live - {id}, tombs - {id})
  {
    hide ToNumber, IsTombstone;
  }

  // ---------------------------------------------------------------- one call

  ghost function Exec(s: Store, lim: Limits, c: Call): Outcome {
    match c
    case ReserveCall(id, estimate, now) => ReserveScript(s, lim, now, id, estimate)
    case SettleCall(id, actual, now) => SettleScript(s, lim.window, now, id, actual)
    case PurgeCall(now) => PurgeScript(s, now)
  }

  /** What a store that follows the window model answers to a call. */
  ghost function Answer(w: Window, lim: Limits, c: Call): Reply {
    var due := Due(w.live, c.now);
    match c
    case ReserveCall(id, estimate, now) =>
      var w' := Reserve(w, lim, now, id, estimate);
      Reserved(if Admits(w, lim, now, estimate) then 1 else 0,
               w'.committed, w'.reserved, w'.committed + w'.reserved, |due|)
    case SettleCall(id, actual, now) =>
      var w' := Settle(w, lim.window, now, id, actual);
      (match Find(w, id)
       case Unknown => Settled(0, 0, 0, 0)
       case Live => Settled(1, w'.committed, w'.reserved, w.live[id].micros)
       case Late => Settled(2, w'.committed, w'.reserved, w.tombs[id].micros))
    case PurgeCall(now) =>
      Purged(|due|, Sum(DueAmounts(w, now)), w.committed, Expire(w, now, lim.PurgeKeep()).reserved)
  }

  /** The window hash that a reservation loads, expires and rolls holds the prepared window. */
  lemma ReserveLoads(s: Store, w: Window, lim: Limits, now: int)
    requires lim.Valid() && !lim.forgets && Related(s, w) && Sound(w)
    ensures Readable(s, now) && |DueIds(s, now)| == |Due(w.live, now)|
    ensures var p := Prepared(w, lim, now);
            Rolled(LoadWindow(s.window).value.(reserved := Remaining(s, now, w.reserved)), now, lim.window)
            == Loaded(p.committed, p.reserved, p.start)
  {
    SameDue(s, w, now);
    ExpireParts(w, now);
    hide Sum, LoadWindow, KeysEncode, Expire;
  }

  lemma ReserveKeys(s: Store, w: Window, lim: Limits, id: Id, estimate: nat, now: int)
    requires lim.Valid() && !lim.forgets && Related(s, w) && Sound(w) && Readable(s, now)
    requires id !in w.live && id !in w.tombs
    ensures var p, e, h := Prepared(w, lim, now), Expired(s, now), Hold(now + lim.ttl, estimate);
            && KeysEncode(e.zset, e.amounts, p.live, p.tombs)
            && KeysEncode(e.zset[id := h.at], e.amounts[id := Show(estimate)], p.live[id := h], p.tombs)
  {
    ExpireKeys(s, w, now);
    ExpireParts(w, now);
    hide Sum, KeysEncode, Expired, Expire;
    var p, e := Prepared(w, lim, now), Expired(s, now);
    AdmitKeys(e.zset, e.amounts, p.live, p.tombs, id, Hold(now + lim.ttl, estimate));
  }

  lemma ReserveRefines(s: Store, w: Window, lim: Limits, id: Id, estimate: nat, now: int)
    requires lim.Valid() && lim.budget > 0 && !lim.forgets && Related(s, w) && Sound(w)
    requires id !in w.live && id !in w.tombs
    ensures var o := ReserveScript(s, lim, now, id, estimate);
            && Related(o.store, Reserve(w, lim, now, id, estimate))
            && o.reply == Answer(w, lim, ReserveCall(id, estimate, now))
  {
    hide Sum, LoadWindow, SaveWindow, Sound, Expired, Prepared, KeysEncode, Readable, Rolled, Due, DueIds, Remaining;
    ReserveLoads(s, w, lim, now);
    ReserveKeys(s, w, lim, id, estimate, now);
    var p := Prepared(w, lim, now);
    SavedLoads(s.window, Loaded(p.committed, p.reserved, p.start));
    SavedLoads(s.window, Loaded(p.committed, p.reserved + estimate, p.start));
  }

  /** How an amount decodes says whether the reservation is live, late or gone. */
  lemma SettleFinds(s: Store, w: Window, id: Id)
    requires KeysEncode(s.zset, s.amounts, w.live, w.tombs) && w.live.Keys !! w.tombs.Keys
    ensures id in s.amounts <==> Find(w, id) != Unknown
    ensures Find(w, id) == Live ==>
      && !IsTombstone(s.amounts[id]) && SettledAmount(s.amounts[id]) == Some(w.live[id].micros)
      && w.tombs - {id} == w.tombs
    ensures Find(w, id) == Late ==>
      && IsTombstone(s.amounts[id]) && SettledAmount(s.amounts[id]) == Some(w.tombs[id].micros)
      && w.live - {id} == w.live
  {
    hide ToNumber;
  }

  lemma SettleRefines(s: Store, w: Window, lim: Limits, id: Id, actual: nat, now: int)
    requires lim.Valid() && Related(s, w) && Sound(w)
    ensures var o := SettleScript(s, lim.window, now, id, actual);
            && Related(o.store, Settle(w, lim.window, now, id, actual))
            && o.reply == Answer(w, lim, SettleCall(id, actual, now))
  {
    hide Sum, LoadWindow, SaveWindow, KeysEncode, IsTombstone, SettledAmount;
    var w' := Settle(w, lim.window, now, id, actual);
    SavedLoads(s.window, Loaded(w'.committed, w'.reserved, w'.start));
    SettleKeys(s.zset, s.amounts, w.live, w.tombs, id);
    SettleFinds(s, w, id);
  }

  lemma PurgeParts(s: Store, w: Window, now: int)
    requires Related(s, w) && Sound(w)
    ensures Readable(s, now)
    ensures var x, e := Expire(w, now, Forever), Expired(s, now);
            && Remaining(s, now, w.reserved) == x.reserved && x.committed == w.committed
            && Related(e.(window := s.window[ReservedMicros := Show(x.reserved)]), x)
            && (Due(w.live, now) == {} ==> x == w)
  {
    hide Sum, LoadWindow, KeysEncode, Expire;
    SameDue(s, w, now);
    ExpireKeys(s, w, now);
    ExpireParts(w, now);
    SavedReserved(s.window, w, Remaining(s, now, w.reserved));
    if Due(w.live, now) == {} {
      NothingDue(w, now, Forever);
    }
  }

  lemma PurgeRefines(s: Store, w: Window, lim: Limits, now: int)
    requires lim.Valid() && !lim.forgets && Related(s, w) && Sound(w)
    ensures var o := PurgeScript(s, now);
            && Related(o.store, Expire(w, now, Forever))
            && o.reply == Answer(w, lim, PurgeCall(now))
  {
    SameDue(s, w, now);
    PurgeParts(s, w, now);
    hide Sum, LoadWindow, KeysEncode, Expire, Expired, Readable, DueMicros, Sound, DueAmounts, Due, DueIds, Remaining;
  }

  lemma SavedReserved(h: map<Field, string>, w: Window, left: int)
    requires FieldsEncode(h, w)
    ensures FieldsEncode(h[ReservedMicros := Show(left)], w.(reserved := left))
  {
    ToNumberInvertsShow(left);
  }

  lemma ExecRefines(s: Store, l: Ledger, lim: Limits, c: Call)
    requires lim.Valid() && lim.budget > 0 && !lim.forgets
    requires Related(s, l.w) && Books(l, lim) && Legal(l, c)
    ensures Related(Exec(s, lim, c).store, Step(l, lim, c).w)
    ensures Exec(s, lim, c).reply == Answer(l.w, lim, c)
  {
    hide Related, Answer, ReserveScript, SettleScript, PurgeScript;
    match c
    case ReserveCall(id, estimate, now) => ReserveRefines(s, l.w, lim, id, estimate, now);
    case SettleCall(id, actual, now) => SettleRefines(s, l.w, lim, id, actual, now);
    case PurgeCall(now) => PurgeRefines(s, l.w, lim, now);
  }

  // ---------------------------------------------------------------- whole runs

  ghost function RunStore(s: Store, lim: Limits, calls: seq<Call>): Store
    decreases |calls|
  {
    if calls == [] then s else RunStore(Exec(s, lim, calls[0]).store, lim, calls[1..])
  }

  ghost function Replies(s: Store, lim: Limits, calls: seq<Call>): seq<Reply>
    decreases |calls|
  {
    if calls == [] then []
    else
      var o := Exec(s, lim, calls[0]);
      [o.reply] + Replies(o.store, lim, calls[1..])
  }

  ghost function Answers(l: Ledger, lim: Limits, calls: seq<Call>): seq<Reply>
    decreases |calls|
  {
    if calls == [] then []
    else [Answer(l.w, lim, calls[0])] + Answers(Step(l, lim, calls[0]), lim, calls[1..])
  }

  lemma {:induction false} RunRefines(s: Store, l: Ledger, lim: Limits, calls: seq<Call>)
    requires lim.Valid() && lim.budget > 0 && !lim.forgets
    requires Related(s, l.w) && Inv(l, lim) && LegalRun(l, lim, calls)
    ensures Related(RunStore(s, lim, calls), Run(l, lim, calls).w)
    ensures Replies(s, lim, calls) == Answers(l, lim, calls)
    decreases |calls|
  {
    if calls != [] {
      hide Related, Inv, Legal, Step, Exec, Answer;
      ExecRefines(s, l, lim, calls[0]);
      StepInv(l, lim, calls[0]);
      RunRefines(Exec(s, lim, calls[0]).store, Step(l, lim, calls[0]), lim, calls[1..]);
    }
  }

  /** From an empty store, every run of the scripts answers as the ledger does and leaves the
      keys encoding the ledger's window. With BudgetLedger this gives the scripts its bounds. */
  lemma ScriptsRefineLedger(lim: Limits, calls: seq<Call>)
    requires lim.Valid() && lim.budget > 0 && !lim.forgets && LegalRun(OPENING, lim, calls)
    ensures Related(RunStore(BLANK, lim, calls), Run(OPENING, lim, calls).w)
    ensures Replies(BLANK, lim, calls) == Answers(OPENING, lim, calls)
  {
    OpeningInv(lim);
    RunRefines(BLANK, OPENING, lim, calls);
  }

  /** The amounts of the live reservations, as the store holds them. */
  function LiveMicros(s: Store): map<Id, int> {
    map id | id in s.zset && id in s.amounts && ToNumber(s.amounts[id]).Some? :: ToNumber(s.amounts[id]).value
  }

  /** What is stored as reserved is always the sum of the live amounts, within the budget. */
  lemma StoredReservedIsLiveSum(lim: Limits, calls: seq<Call>)
    requires lim.Valid() && lim.budget > 0 && !lim.forgets && LegalRun(OPENING, lim, calls)
    ensures var s := RunStore(BLANK, lim, calls);
            && LoadWindow(s.window).Some? && LiveMicros(s).Keys == s.zset.Keys
            && LoadWindow(s.window).value.reserved == Sum(LiveMicros(s)) <= lim.budget
  {
    hide Sum, LoadWindow, Inv, Step, ToNumber, Exec;
    ScriptsRefineLedger(lim, calls);
    BooksBalance(lim, calls);
    assert LiveMicros(RunStore(BLANK, lim, calls)) == Amounts(Run(OPENING, lim, calls).w.live);
  }

  /** The reserve script's reply in terms of the keys: allowed or denied by what is committed in a
      window that is not over and by the live amounts that are not due, with the new sums. */
  lemma ReserveReplyExactly(s: Store, w: Window, lim: Limits, id: Id, estimate: nat, now: int)
    requires lim.Valid() && lim.budget > 0 && !lim.forgets && Related(s, w) && Sound(w)
    requires id !in w.live && id !in w.tombs
    ensures var reply := ReserveScript(s, lim, now, id, estimate).reply;
            var committed := if w.start == 0 || now - w.start >= lim.window then 0 else w.committed;
            var held := Sum(StillHeld(w, now));
            var allowed := committed + held + estimate <= lim.budget;
            reply == Reserved(if allowed then 1 else 0, committed, if allowed then held + estimate else held,
                              committed + (if allowed then held + estimate else held),
                              |set x | x in w.live && w.live[x].at <= now|)
  {
    hide Sum, Related, ReserveScript, Reserve, Admits, Sound, StillHeld;
    ReserveRefines(s, w, lim, id, estimate, now);
    AdmittedExactly(w, lim, now, id, estimate);
    ReservedExactly(w, lim, now, id, estimate);
    AdmitsIsLive(w, lim, now, id, estimate);
    assert Due(w.live, now) == set x | x in w.live && w.live[x].at <= now;
  }

  /** The replies of the other two scripts: a settlement says whether it found a hold, a tombstone
      or nothing, with the amount; a purge counts what was due and adds it up. */
  lemma SettleReplyExactly(s: Store, w: Window, lim: Limits, id: Id, actual: nat, now: int)
    requires lim.Valid() && Related(s, w) && Sound(w)
    ensures var reply := SettleScript(s, lim.window, now, id, actual).reply;
            && reply.code == (if id in w.live then 1 else if id in w.tombs then 2 else 0)
            && (id in w.live ==> reply.amount == w.live[id].micros)
            && (id in w.tombs ==> reply.amount == w.tombs[id].micros)
            && (reply.code > 0 ==>
                  reply.committed == actual + (if w.start == 0 || now - w.start >= lim.window then 0 else w.committed))
  {
    hide Sum, Related, SettleScript, Sound;
    SettleRefines(s, w, lim, id, actual, now);
    assert id in w.live ==> id !in w.tombs by { DisjointKeys(w, id); }
    SettledExactly(w, lim.window, now, id, actual);
  }

  lemma DisjointKeys(w: Window, id: Id)
    requires Sound(w)
    ensures id in w.live ==> id !in w.tombs
  {
    hide Sum;
  }

  lemma PurgeReplyExactly(s: Store, w: Window, lim: Limits, now: int)
    requires lim.Valid() && !lim.forgets && Related(s, w) && Sound(w)
    ensures PurgeScript(s, now).reply
         == Purged(|set x | x in w.live && w.live[x].at <= now|,
                   w.reserved - Sum(StillHeld(w, now)), w.committed, Sum(StillHeld(w, now)))
  {
    hide Sum, Related, PurgeScript, StillHeld, Sound, Amounts, DueAmounts, NotDue;
    PurgeRefines(s, w, lim, now);
    DueNeverExceedsReserved(w, now);
    StillHeldAmounts(w, now);
    ExpiredExactly(w, now, lim.PurgeKeep());
    hide Expire;
    assert Due(w.live, now) == set x | x in w.live && w.live[x].at <= now;
  }

  // ---------------------------------------------------------------- the two stores compared

  /** The in-process window agrees with the shared one up to forgotten tombstones. */
  ghost predicate Shadows(m: Window, r: Window) {
    && m.(tombs := r.tombs) == r
    && m.tombs.Keys <= r.tombs.Keys
    && (forall id | id in m.tombs :: m.tombs[id].micros == r.tombs[id].micros)
  }

  function Forgetful(lim: Limits): Limits {
    lim.(forgets := true)
  }

  /** A settlement of a reservation that only the shared store still remembers. */
  ghost predicate Forgotten(m: Window, r: Window, c: Call) {
    c.SettleCall? && c.id in r.tombs && c.id !in m.tombs
  }

  lemma ExpireShadows(m: Window, r: Window, now: int, keep: Keep)
    requires Shadows(m, r)
    ensures Shadows(Expire(m, now, keep), Expire(r, now, Forever))
  {
    hide Sum, Buried;
    assert DueAmounts(m, now) == DueAmounts(r, now);
  }

  lemma ReserveShadows(m: Window, r: Window, lim: Limits, id: Id, estimate: nat, now: int)
    requires Shadows(m, r) && !lim.forgets
    ensures Admits(m, Forgetful(lim), now, estimate) == Admits(r, lim, now, estimate)
    ensures Shadows(Reserve(m, Forgetful(lim), now, id, estimate), Reserve(r, lim, now, id, estimate))
  {
    hide Sum, Expire;
    ExpireShadows(m, r, now, Forgetful(lim).Keep());
  }

  lemma SettleShadows(m: Window, r: Window, window: int, id: Id, actual: nat, now: int)
    requires Shadows(m, r) && Sound(r)
    ensures Find(m, id) == Find(r, id) <==> !Forgotten(m, r, SettleCall(id, actual, now))
    ensures Find(m, id) == Find(r, id) ==>
      Shadows(Settle(m, window, now, id, actual), Settle(r, window, now, id, actual))
  {
    hide Sum;
  }

  /** One call: the answers agree exactly when the call does not need a forgotten tombstone,
      and then the windows still agree. */
  lemma CallShadows(m: Window, r: Window, lim: Limits, c: Call)
    requires Shadows(m, r) && Sound(r) && !lim.forgets
    ensures Answer(m, Forgetful(lim), c) == Answer(r, lim, c) <==> !Forgotten(m, r, c)
    ensures var lm, lr := Ledger(m, {}, [], [], 0, 0), Ledger(r, {}, [], [], 0, 0);
            !Forgotten(m, r, c) ==> Shadows(Step(lm, Forgetful(lim), c).w, Step(lr, lim, c).w)
  {
    match c
    case ReserveCall(id, estimate, now) =>
      hide Sum, Reserve, Admits, Sound;
      ReserveShadows(m, r, lim, id, estimate, now);
    case SettleCall(id, actual, now) =>
      hide Sum, Settle, Sound, Forgotten, Expire, Reserve;
      SettleShadows(m, r, lim.window, id, actual, now);
    case PurgeCall(now) =>
      hide Sum, Expire, Sound;
      assert DueAmounts(m, now) == DueAmounts(r, now);
      ExpireShadows(m, r, now, Forgetful(lim).PurgeKeep());
  }

  ghost predicate EverForgotten(m: Ledger, r: Ledger, lim: Limits, calls: seq<Call>)
    decreases |calls|
  {
    calls != []
    && (Forgotten(m.w, r.w, calls[0])
        || EverForgotten(Step(m, Forgetful(lim), calls[0]), Step(r, lim, calls[0]), lim, calls[1..]))
  }

  lemma StepWindow(l: Ledger, lim: Limits, c: Call)
    ensures Step(l, lim, c).w == Step(Ledger(l.w, {}, [], [], 0, 0), lim, c).w
    ensures c.ReserveCall? ==>
      Step(l, lim, c).issued == (if Answer(l.w, lim, c).code == 1 then l.issued + {c.id} else l.issued)
    ensures !c.ReserveCall? ==> Step(l, lim, c).issued == l.issued
  {
  }

  lemma {:induction false} RunsAgree(m: Ledger, r: Ledger, lim: Limits, calls: seq<Call>)
    requires lim.Valid() && !lim.forgets && Inv(m, Forgetful(lim)) && Inv(r, lim)
    requires Shadows(m.w, r.w) && m.issued == r.issued && LegalRun(r, lim, calls)
    ensures Answers(m, Forgetful(lim), calls) == Answers(r, lim, calls) <==> !EverForgotten(m, r, lim, calls)
    decreases |calls|
  {
    if calls != [] {
      hide Sum, Answer, Step, Shadows, Forgotten, History, Bounded, Sound;
      var c, rest := calls[0], calls[1..];
      var m', r' := Step(m, Forgetful(lim), c), Step(r, lim, c);
      CallShadows(m.w, r.w, lim, c);
      StepWindow(m, Forgetful(lim), c);
      StepWindow(r, lim, c);
      var am, ar := Answers(m', Forgetful(lim), rest), Answers(r', lim, rest);
      var hm, hr := Answer(m.w, Forgetful(lim), c), Answer(r.w, lim, c);
      assert ([hm] + am)[0] == hm && ([hr] + ar)[0] == hr;
      if !Forgotten(m.w, r.w, c) {
        StepInv(m, Forgetful(lim), c);
        StepInv(r, lim, c);
        RunsAgree(m', r', lim, rest);
        assert ([hm] + am)[1..] == am && ([hr] + ar)[1..] == ar;
      }
    }
  }

  /** The two stores answer every call of a run alike if and only if no settlement of the run
      comes for a reservation whose tombstone the in-process store has already dropped. */
  lemma StoresAgreeUnlessForgotten(lim: Limits, calls: seq<Call>)
    requires lim.Valid() && lim.budget > 0 && !lim.forgets && LegalRun(OPENING, lim, calls)
    ensures Answers(OPENING, Forgetful(lim), calls) == Replies(BLANK, lim, calls)
            <==> !EverForgotten(OPENING, OPENING, lim, calls)
  {
    OpeningInv(lim);
    OpeningInv(Forgetful(lim));
    ScriptsRefineLedger(lim, calls);
    RunsAgree(OPENING, OPENING, lim, calls);
  }

  /** In terms of times: the two stores answer alike in every run on a clock that does not go
      back whose settlements come within the remembering time after their holds were due. */
  lemma PromptStoresAgree(lim: Limits, calls: seq<Call>)
    requires lim.Valid() && lim.budget > 0 && !lim.forgets && LegalRun(OPENING, lim, calls)
    requires Orderly(calls, {}, {}) && Prompt(calls, lim, map[], 0)
    ensures Answers(OPENING, Forgetful(lim), calls) == Replies(BLANK, lim, calls)
  {
    OpeningInv(lim);
    OpeningInv(Forgetful(lim));
    NeverForgets(OPENING, OPENING, lim, calls, map[], {}, {}, 0);
    StoresAgreeUnlessForgotten(lim, calls);
  }

  lemma KnownIsNotForgotten(m: Ledger, r: Ledger, lim: Limits, c: Call, due: map<Id, int>, closed: set<Id>, last: int)
    requires Shadows(m.w, r.w) && Sound(r.w) && History(r) && m.issued == r.issued
    requires InTime(m, Forgetful(lim), due, closed, last) && last <= c.now
    requires c.SettleCall? ==> c.id !in closed && (c.id in due ==> c.now < due[c.id] + KeepFor(lim))
    ensures !Forgotten(m.w, r.w, c)
  {
    hide Sum;
  }

  /** Both ledgers agree but for forgotten tombstones, and the forgetful one is in time. */
  ghost predicate Lockstep(m: Ledger, r: Ledger, lim: Limits, due: map<Id, int>, seen: set<Id>, closed: set<Id>, last: int) {
    && !lim.forgets && Books(m, Forgetful(lim)) && Books(r, lim) && Shadows(m.w, r.w) && m.issued == r.issued <= seen
    && InTime(m, Forgetful(lim), due, closed, last)
  }

  lemma StepLockstep(m: Ledger, r: Ledger, lim: Limits, c: Call, due: map<Id, int>, seen: set<Id>, closed: set<Id>, last: int)
    requires lim.Valid() && Lockstep(m, r, lim, due, seen, closed, last) && Legal(r, c) && last <= c.now
    requires c.ReserveCall? ==> c.id !in seen
    requires c.SettleCall? ==> c.id !in closed && (c.id in due ==> c.now < due[c.id] + KeepFor(lim))
    ensures !Forgotten(m.w, r.w, c)
    ensures Lockstep(Step(m, Forgetful(lim), c), Step(r, lim, c), lim, DueAfter(due, lim, c),
                     SeenAfter(seen, c), ClosedAfter(closed, c), c.now)
  {
    hide Step, Shadows, Forgotten, Books, InTime, Sound, History;
    var lf := Forgetful(lim);
    assert Legal(m, c) && KeepFor(lf) == KeepFor(lim);
    hide Legal, KeepFor;
    SoundBooks(r, lim);
    KnownIsNotForgotten(m, r, lim, c, due, closed, last);
    StepTogether(m, r, lim, c);
    StepBooks(m, lf, c);
    StepBooks(r, lim, c);
    StepInTime(m, lf, c, due, seen, closed, last);
    StepIssues(m, lf, c, seen);
  }

  function DueAfter(due: map<Id, int>, lim: Limits, c: Call): map<Id, int> {
    if c.ReserveCall? then due[c.id := c.now + lim.ttl] else due
  }

  function SeenAfter(seen: set<Id>, c: Call): set<Id> {
    if c.ReserveCall? then seen + {c.id} else seen
  }

  function ClosedAfter(closed: set<Id>, c: Call): set<Id> {
    if c.SettleCall? then closed + {c.id} else closed
  }

  lemma OrderlyHead(calls: seq<Call>, seen: set<Id>, closed: set<Id>)
    requires calls != [] && Orderly(calls, seen, closed)
    ensures Orderly(calls[1..], SeenAfter(seen, calls[0]), ClosedAfter(closed, calls[0]))
    ensures calls[0].ReserveCall? ==> calls[0].id !in seen
    ensures calls[0].SettleCall? ==> calls[0].id !in closed
  {
  }

  lemma PromptHead(calls: seq<Call>, lim: Limits, due: map<Id, int>, last: int)
    requires calls != [] && Prompt(calls, lim, due, last)
    ensures Prompt(calls[1..], lim, DueAfter(due, lim, calls[0]), calls[0].now) && last <= calls[0].now
    ensures calls[0].SettleCall? && calls[0].id in due ==> calls[0].now < due[calls[0].id] + KeepFor(lim)
  {
  }

  lemma {:induction false} NeverForgets(m: Ledger, r: Ledger, lim: Limits, calls: seq<Call>, due: map<Id, int>,
                                        seen: set<Id>, closed: set<Id>, last: int)
    requires lim.Valid() && Lockstep(m, r, lim, due, seen, closed, last)
    requires LegalRun(r, lim, calls) && Orderly(calls, seen, closed) && Prompt(calls, lim, due, last)
    ensures !EverForgotten(m, r, lim, calls)
    decreases |calls|
  {
    if calls != [] {
      hide Lockstep, Step, Forgotten, Legal, Prompt, Orderly, DueAfter, SeenAfter, ClosedAfter, KeepFor;
      var c := calls[0];
      OrderlyHead(calls, seen, closed);
      PromptHead(calls, lim, due, last);
      StepLockstep(m, r, lim, c, due, seen, closed, last);
      NeverForgets(Step(m, Forgetful(lim), c), Step(r, lim, c), lim, calls[1..], DueAfter(due, lim, c),
                   SeenAfter(seen, c), ClosedAfter(closed, c), c.now);
    }
  }

  lemma SoundBooks(r: Ledger, lim: Limits)
    requires Books(r, lim)
    ensures Sound(r.w) && History(r)
  {
    hide Sound, History, Bounded;
  }

  /** A call that needs no forgotten tombstone leaves both ledgers in agreement. */
  lemma StepTogether(m: Ledger, r: Ledger, lim: Limits, c: Call)
    requires Shadows(m.w, r.w) && Books(r, lim) && m.issued == r.issued && !lim.forgets && !Forgotten(m.w, r.w, c)
    ensures Shadows(Step(m, Forgetful(lim), c).w, Step(r, lim, c).w)
    ensures Step(m, Forgetful(lim), c).issued == Step(r, lim, c).issued
  {
    SoundBooks(r, lim);
    hide Answer, Step, Shadows, Forgotten, Books, Sound, History;
    CallShadows(m.w, r.w, lim, c);
    StepWindow(m, Forgetful(lim), c);
    StepWindow(r, lim, c);
  }

  const BRIEF := Limits(10, 1000, 500, false)

  function ForgottenCalls(a: Id, b: Id, c: Id): seq<Call> {
    [ReserveCall(a, 1, 1), ReserveCall(b, 1, 501), ReserveCall(c, 1, 4501), SettleCall(a, 1, 4502)]
  }

  /** A run in which they disagree: the first hold has expired and its tombstone is forgotten in
      process when its settlement comes. */
  lemma StoresCanDisagree(a: Id, b: Id, c: Id)
    requires a != b && a != c && b != c
    ensures LegalRun(OPENING, BRIEF, ForgottenCalls(a, b, c))
    ensures EverForgotten(OPENING, OPENING, BRIEF, ForgottenCalls(a, b, c))
    ensures Answers(OPENING, Forgetful(BRIEF), ForgottenCalls(a, b, c)) != Replies(BLANK, BRIEF, ForgottenCalls(a, b, c))
  {
    hide Sum, Buried, Step, Answers, Replies;
    var calls := ForgottenCalls(a, b, c);
    var lf := Forgetful(BRIEF);
    var m1, m2, m3 := FirstHeld(a), SecondHeld(a, b, 4501), ThirdHeld(a, b, c, true);
    var r2, r3 := SecondHeld(a, b, 0), ThirdHeld(a, b, c, false);
    HeldFirst(lf, a);
    HeldFirst(BRIEF, a);
    HeldSecond(lf, a, b);
    HeldSecond(BRIEF, a, b);
    HeldThird(lf, a, b, c);
    HeldThird(BRIEF, a, b, c);
    Later(m3, r3, calls[3], []);
    Later(m2, r2, calls[2], [calls[3]] + []);
    Later(m1, m1, calls[1], [calls[2]] + ([calls[3]] + []));
    Later(OPENING, OPENING, calls[0], [calls[1]] + ([calls[2]] + ([calls[3]] + [])));
    assert calls == [calls[0]] + ([calls[1]] + ([calls[2]] + ([calls[3]] + [])));
    StoresAgreeUnlessForgotten(BRIEF, calls);
  }

  lemma Later(m: Ledger, r: Ledger, c: Call, rest: seq<Call>)
    ensures LegalRun(r, BRIEF, [c] + rest) == (Legal(r, c) && LegalRun(Step(r, BRIEF, c), BRIEF, rest))
    ensures EverForgotten(m, r, BRIEF, [c] + rest)
            == (Forgotten(m.w, r.w, c) || EverForgotten(Step(m, Forgetful(BRIEF), c), Step(r, BRIEF, c), BRIEF, rest))
  {
    Unroll(r, BRIEF, c, rest);
    assert ([c] + rest)[1..] == rest;
  }

  ghost function FirstHeld(a: Id): Ledger {
    Ledger(Window(1, 0, 1, map[a := Hold(501, 1)], map[]), {a}, [], [], 1, 1)
  }

  ghost function SecondHeld(a: Id, b: Id, forget: int): Ledger {
    Ledger(Window(1, 0, 1, map[b := Hold(1001, 1)], map[a := Hold(forget, 1)]), {a, b}, [], [], 1, 1)
  }

  ghost function ThirdHeld(a: Id, b: Id, c: Id, forgets: bool): Ledger {
    Ledger(Window(4501, 0, 1, map[c := Hold(5001, 1)],
                  if forgets then map[b := Hold(8501, 1)] else map[a := Hold(0, 1), b := Hold(0, 1)]),
           {a, b, c}, [], [], 2, 1)
  }

  lemma HeldFirst(lim: Limits, a: Id)
    requires lim == BRIEF || lim == Forgetful(BRIEF)
    ensures Step(OPENING, lim, ReserveCall(a, 1, 1)) == FirstHeld(a)
  {
    assert DueAmounts(EMPTY, 1) == map[];
    assert Expire(EMPTY, 1, lim.Keep()) == EMPTY;
  }

  lemma OneDue(w: Window, x: Id, micros: int, now: int)
    requires w.live.Keys == {x} && w.live[x].micros == micros && w.live[x].at <= now
    ensures Sum(DueAmounts(w, now)) == micros && NotDue(w.live, now) == map[] && Due(w.live, now) == {x}
  {
    assert DueAmounts(w, now) == map[][x := micros];
    SumInsert(map[], x, micros);
  }

  lemma HeldSecond(lim: Limits, a: Id, b: Id)
    requires a != b && (lim == BRIEF || lim == Forgetful(BRIEF))
    ensures Step(FirstHeld(a), lim, ReserveCall(b, 1, 501)) == SecondHeld(a, b, if lim.forgets then 4501 else 0)
  {
    var w := FirstHeld(a).w;
    OneDue(w, a, 1, 501);
    hide Sum;
    var buried := map[a := Hold(if lim.forgets then 4501 else 0, 1)];
    assert Expire(w, 501, lim.Keep()) == Window(1, 0, 0, map[], buried);
  }

  lemma HeldThird(lim: Limits, a: Id, b: Id, c: Id)
    requires a != b && a != c && b != c && (lim == BRIEF || lim == Forgetful(BRIEF))
    ensures Step(SecondHeld(a, b, if lim.forgets then 4501 else 0), lim, ReserveCall(c, 1, 4501))
            == ThirdHeld(a, b, c, lim.forgets)
  {
    var w := SecondHeld(a, b, if lim.forgets then 4501 else 0).w;
    OneDue(w, b, 1, 4501);
    hide Sum;
    var left := ThirdHeld(a, b, c, lim.forgets).w.tombs;
    assert w.tombs + Buried(w.live, {b}, lim.Keep().Until(4501))
        == map[a := Hold(if lim.forgets then 4501 else 0, 1), b := Hold(if lim.forgets then 8501 else 0, 1)];
    assert Expire(w, 4501, lim.Keep()) == Window(1, 0, 0, map[], left);
  }

  /** A cap that rounds down to nothing is the other difference: the script calls it bad
      arguments, the in-process store still admits a request that costs nothing. */
  lemma ZeroBudgetsDiffer(s: Store, w: Window, lim: Limits, id: Id, estimate: nat, now: int)
    requires lim.Valid() && !lim.forgets && Related(s, w) && Sound(w)
    requires id !in w.live && id !in w.tombs
    ensures ReserveScript(s, lim, now, id, estimate).reply == Answer(w, lim, ReserveCall(id, estimate, now))
            <==> lim.budget > 0
  {
    if lim.budget > 0 {
      ReserveRefines(s, w, lim, id, estimate, now);
    }
  }
}
