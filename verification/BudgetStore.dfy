/** The shared budget store: three Redis keys and the three Lua scripts over them.

    Hash fields and amounts are strings, as Redis keeps them. A script runs atomically. */
module BudgetStore {
  import opened Common
  import opened BudgetWindow

  datatype Field = CommittedMicros | ReservedMicros | WindowStart

  datatype Store = Store(
    window: map<Field, string>,   // window hash
    zset: map<Id, int>,           // live reservation -> expiry
    amounts: map<Id, string>)     // "<micros>" while live, "x<micros>" once expired

  const BLANK := Store(map[], map[], map[])

  /** The arrays that the scripts return, field by field; `code` is their first element. */
  datatype Reply =
    | Reserved(code: int, committed: int, reserved: int, total: int, expired: int)
    | Settled(code: int, committed: int, reserved: int, amount: int)
    | Purged(code: int, released: int, committed: int, reserved: int)

  datatype Outcome = Outcome(store: Store, reply: Reply)

  const BAD_ARGS := -1
  const CORRUPT := -2

  // ---------------------------------------------------------------- script prelude

  function Num(window: map<Field, string>, f: Field): Option<int> {
    if f in window then ToNumber(window[f]) else Some(0)
  }

  datatype Loaded = Loaded(committed: int, reserved: int, start: int)

  function LoadWindow(window: map<Field, string>): Option<Loaded> {
    var c, r, s := Num(window, CommittedMicros), Num(window, ReservedMicros), Num(window, WindowStart);
    if c == None || r == None || s == None then None else Some(Loaded(c.value, r.value, s.value))
  }

  function SaveWindow(window: map<Field, string>, l: Loaded): map<Field, string> {
    window[WindowStart := Show(l.start)][CommittedMicros := Show(l.committed)][ReservedMicros := Show(l.reserved)]
  }

  /** A live amount as expiry reads it; a missing one counts as zero. */
  function ReadAmount(amounts: map<Id, string>, id: Id): Option<int> {
    if id in amounts then ToNumber(amounts[id]) else Some(0)
  }

  function DueIds(s: Store, now: int): set<Id> {
    set id | id in s.zset && s.zset[id] <= now
  }

  predicate Readable(s: Store, now: int) {
    forall id | id in DueIds(s, now) :: ReadAmount(s.amounts, id).Some?
  }

  function DueMicros(s: Store, now: int): map<Id, int>
    requires Readable(s, now)
  {
    map id | id in DueIds(s, now) :: ReadAmount(s.amounts, id).value
  }

  function Tombstone(micros: int): string {
    "x" + Show(micros)
  }

  function Tombstones(micros: map<Id, int>): map<Id, string> {
    map id | id in micros :: Tombstone(micros[id])
  }

  /** The store after expiry; the window hash is written by the caller. */
  function Expired(s: Store, now: int): Store
    requires Readable(s, now)
  {
    s.(zset := s.zset - DueIds(s, now), amounts := s.amounts + Tombstones(DueMicros(s, now)))
  }

  ghost function Remaining(s: Store, now: int, reserved: int): int
    requires Readable(s, now)
  {
    Max(0, reserved - Sum(DueMicros(s, now)))
  }

  // ---------------------------------------------------------------- scripts as functions

  function Rolled(l: Loaded, now: int, window: int): Loaded {
    if l.start == 0 || now - l.start >= window then l.(start := now, committed := 0) else l
  }

  ghost function ReserveScript(s: Store, lim: Limits, now: int, id: Id, estimate: int): Outcome {
    if estimate < 0 || lim.budget <= 0 || lim.window <= 0 || lim.ttl <= 0 then
      Outcome(s, Reserved(BAD_ARGS, 0, 0, 0, 0))
    else if LoadWindow(s.window) == None || !Readable(s, now) then
      Outcome(s, Reserved(CORRUPT, 0, 0, 0, 0))
    else
      var l := LoadWindow(s.window).value;
      var e := Expired(s, now);
      var p := Rolled(l.(reserved := Remaining(s, now, l.reserved)), now, lim.window);
      var count := |DueIds(s, now)|;
      if p.committed + p.reserved + estimate > lim.budget then
        Outcome(e.(window := SaveWindow(s.window, p)),
                Reserved(0, p.committed, p.reserved, p.committed + p.reserved, count))
      else
        var q := p.(reserved := p.reserved + estimate);
        Outcome(Store(SaveWindow(s.window, q), e.zset[id := now + lim.ttl], e.amounts[id := Show(estimate)]),
                Reserved(1, q.committed, q.reserved, q.committed + q.reserved, count))
  }

  predicate IsTombstone(raw: string) {
    |raw| > 0 && raw[0] == 'x'
  }

  function SettledAmount(raw: string): Option<int> {
    if IsTombstone(raw) then ToNumber(raw[1..]) else ToNumber(raw)
  }

  function SettleScript(s: Store, window: int, now: int, id: Id, actual: int): Outcome {
    if actual < 0 || window <= 0 then Outcome(s, Settled(BAD_ARGS, 0, 0, 0))
    else if id !in s.amounts then Outcome(s, Settled(0, 0, 0, 0))
    else
      var raw := s.amounts[id];
      var amt := SettledAmount(raw);
      if amt == None || LoadWindow(s.window) == None then Outcome(s, Settled(CORRUPT, 0, 0, 0))
      else
        var p := Rolled(LoadWindow(s.window).value, now, window);
        var q := p.(committed := p.committed + actual,
                    reserved := if IsTombstone(raw) then p.reserved else Max(0, p.reserved - amt.value));
        Outcome(Store(SaveWindow(s.window, q), s.zset - {id}, s.amounts - {id}),
                Settled(if IsTombstone(raw) then 2 else 1, q.committed, q.reserved, amt.value))
  }

  ghost function PurgeScript(s: Store, now: int): Outcome {
    if LoadWindow(s.window) == None || !Readable(s, now) then Outcome(s, Purged(CORRUPT, 0, 0, 0))
    else
      var l := LoadWindow(s.window).value;
      var left := Remaining(s, now, l.reserved);
      var count := |DueIds(s, now)|;
      Outcome(
        if count > 0 then Expired(s, now).(window := s.window[ReservedMicros := Show(left)]) else s,
        Purged(count, Sum(DueMicros(s, now)), l.committed, left))
  }

  /** Scripts read everything before they write anything. A corrupt store (a window field, or
      an amount the script needs, that is not a number) is reported and left as it was; and
      nothing else is reported as corrupt. */
  lemma CorruptStoresAbort(s: Store, lim: Limits, now: int, id: Id, n: nat)
    requires lim.Valid() && lim.budget > 0
    ensures var o := ReserveScript(s, lim, now, id, n);
            && (o.reply.code == CORRUPT <==> LoadWindow(s.window) == None || !Readable(s, now))
            && (o.reply.code < 0 ==> o.store == s)
    ensures var o := SettleScript(s, lim.window, now, id, n);
            && (o.reply.code == CORRUPT <==>
                  id in s.amounts && (LoadWindow(s.window) == None || SettledAmount(s.amounts[id]) == None))
            && (o.reply.code <= 0 ==> o.store == s)
    ensures var o := PurgeScript(s, now);
            && (o.reply.code == CORRUPT <==> LoadWindow(s.window) == None || !Readable(s, now))
            && (o.reply.code <= 0 ==> o.store == s)
  {
  }

  /** A field that is present and not a number. A field that is absent counts as zero. */
  predicate BadField(s: Store, f: Field) {
    f in s.window && ToNumber(s.window[f]) == None
  }

  predicate BadWindow(s: Store) {
    BadField(s, CommittedMicros) || BadField(s, ReservedMicros) || BadField(s, WindowStart)
  }

  /** A reservation whose time is over and whose amount is present and not a number; an amount
      that is absent counts as zero. */
  predicate BadDue(s: Store, now: int) {
    exists id :: id in s.zset && s.zset[id] <= now && id in s.amounts && ToNumber(s.amounts[id]) == None
  }

  /** What counts as corrupt, key by key. */
  lemma CorruptExactly(s: Store, lim: Limits, now: int, id: Id, n: nat)
    requires lim.Valid() && lim.budget > 0
    ensures ReserveScript(s, lim, now, id, n).reply.code == -2 <==> BadWindow(s) || BadDue(s, now)
    ensures PurgeScript(s, now).reply.code == -2 <==> BadWindow(s) || BadDue(s, now)
    ensures SettleScript(s, lim.window, now, id, n).reply.code == -2 <==>
              id in s.amounts && (BadWindow(s) || (
                var raw := s.amounts[id];
                ToNumber(if raw != "" && raw[0] == 'x' then raw[1..] else raw) == None))
  {
    assert LoadWindow(s.window) == None <==> BadWindow(s);
    assert forall x :: x in DueIds(s, now) <==> x in s.zset && s.zset[x] <= now;
    assert Readable(s, now) <==> !BadDue(s, now);
    hide ToNumber;
  }

  /** Bad arguments are the other error, reported before the store is looked at. */
  lemma BadArgumentsExactly(s: Store, lim: Limits, now: int, id: Id, n: int)
    ensures var o := ReserveScript(s, lim, now, id, n);
            && (o.reply.code == -1 <==> n < 0 || lim.budget <= 0 || lim.window <= 0 || lim.ttl <= 0)
            && (o.reply.code == -1 ==> o.store == s)
    ensures var o := SettleScript(s, lim.window, now, id, n);
            && (o.reply.code == -1 <==> n < 0 || lim.window <= 0)
            && (o.reply.code == -1 ==> o.store == s)
  {
    hide LoadWindow, Readable, Sum, SaveWindow;
  }

  // ---------------------------------------------------------------- scripts as they run

  class RedisStore {
    var window: map<Field, string>
    var zset: map<Id, int>
    var amounts: map<Id, string>

    ghost function Abs(): Store
      reads this
    {
      Store(window, zset, amounts)
    }

    constructor ()
      ensures Abs() == BLANK
    {
      window, zset, amounts := map[], map[], map[];
    }

    /** Reads every due amount first, so that a corrupt one leaves the store untouched. */
    method ReadAmounts(ids: set<Id>) returns (micros: Option<map<Id, int>>)
      ensures micros.Some? <==> forall id | id in ids :: ReadAmount(amounts, id).Some?
      ensures micros.Some? ==> micros.value == map id | id in ids :: ReadAmount(amounts, id).value
    {
      var todo, read: map<Id, int> := ids, map[];
      while todo != {}
        invariant read.Keys !! todo && read.Keys + todo == ids
        invariant forall id | id in read :: ReadAmount(amounts, id) == Some(read[id])
        decreases |todo|
      {
        var id :| id in todo;
        var amt := 0;
        if id in amounts {
          var parsed := ToNumber(amounts[id]);
          if parsed == None {
            assert ReadAmount(amounts, id) == None;
            return None;
          }
          amt := parsed.value;
        }
        read, todo := read[id := amt], todo - {id};
      }
      return Some(read);
    }

    /** Turns the given amounts into tombstones and adds up what they release. */
    method BuryAll(micros: map<Id, int>) returns (released: int)
      modifies this`amounts
      ensures amounts == old(amounts) + Tombstones(micros)
      ensures released == Sum(micros)
    {
      var left := micros;
      released := 0;
      while left != map[]
        invariant amounts + Tombstones(left) == old(amounts) + Tombstones(micros)
        invariant released + Sum(left) == Sum(micros)
        decreases |left|
      {
        hide Sum;
        var id :| id in left.Keys;
        SumRemove(left, id);
        BuryOne(amounts, left, id);
        released := released + left[id];
        amounts := amounts[id := "x" + Show(left[id])];
        left := left - {id};
      }
      assert amounts + Tombstones(map[]) == amounts;
    }

    static lemma BuryOne(amounts: map<Id, string>, left: map<Id, int>, id: Id)
      requires id in left
      ensures amounts[id := Tombstone(left[id])] + Tombstones(left - {id}) == amounts + Tombstones(left)
    {
    }

    /** None when a due amount is corrupt, else the new reserved sum, the number of expired
        reservations and what they release. */
    method Expire(now: int, reserved: int) returns (r: Option<(int, nat, int)>)
      modifies this`zset, this`amounts
      ensures r.Some? <==> Readable(old(Abs()), now)
      ensures r == None ==> Abs() == old(Abs())
      ensures r.Some? ==>
        && Abs() == Expired(old(Abs()), now)
        && r.value == (Remaining(old(Abs()), now, reserved), |DueIds(old(Abs()), now)|,
                       Sum(DueMicros(old(Abs()), now)))
    {
      hide Sum, ReadAmount;
      var expired := set id | id in zset && zset[id] <= now;
      assert expired == DueIds(Abs(), now);
      var read := ReadAmounts(expired);
      if read == None {
        return None;
      }
      assert read.value == DueMicros(Abs(), now);
      var released := BuryAll(read.value);
      zset := zset - expired;
      return Some((if reserved - released < 0 then 0 else reserved - released, |expired|, released));
    }

    method Save(start: int, committed: int, reserved: int)
      modifies this`window
      ensures window == SaveWindow(old(window), Loaded(committed, reserved, start))
    {
      window := window[WindowStart := Show(start)][CommittedMicros := Show(committed)][ReservedMicros := Show(reserved)];
    }

    method Reserve(now: int, lim: Limits, estimate: int, resId: Id) returns (reply: Reply)
      modifies this
      ensures Outcome(Abs(), reply) == ReserveScript(old(Abs()), lim, now, resId, estimate)
    {
      hide Sum, Show, ToNumber, Readable, Expired, Remaining, LoadWindow, SaveWindow;
      if estimate < 0 || lim.budget <= 0 || lim.window <= 0 || lim.ttl <= 0 {
        return Reserved(BAD_ARGS, 0, 0, 0, 0);
      }
      var loaded := LoadWindow(window);
      if loaded == None {
        return Reserved(CORRUPT, 0, 0, 0, 0);
      }
      var committed, reserved, windowStart := loaded.value.committed, loaded.value.reserved, loaded.value.start;
      var expired := Expire(now, reserved);
      if expired == None {
        return Reserved(CORRUPT, 0, 0, 0, 0);
      }
      reserved := expired.value.0;
      if windowStart == 0 || now - windowStart >= lim.window {
        windowStart, committed := now, 0;
      }
      if committed + reserved + estimate > lim.budget {
        Save(windowStart, committed, reserved);
        return Reserved(0, committed, reserved, committed + reserved, expired.value.1);
      }
      reserved := reserved + estimate;
      Save(windowStart, committed, reserved);
      zset := zset[resId := now + lim.ttl];
      amounts := amounts[resId := Show(estimate)];
      return Reserved(1, committed, reserved, committed + reserved, expired.value.1);
    }

    method Settle(resId: Id, actual: int, now: int, windowMs: int) returns (reply: Reply)
      modifies this
      ensures Outcome(Abs(), reply) == SettleScript(old(Abs()), windowMs, now, resId, actual)
    {
      hide Sum, Show, ToNumber;
      if actual < 0 || windowMs <= 0 {
        return Settled(BAD_ARGS, 0, 0, 0);
      }
      if resId !in amounts {
        return Settled(0, 0, 0, 0);
      }
      var raw := amounts[resId];
      var tombstone := |raw| > 0 && raw[0] == 'x';
      var amt := if tombstone then ToNumber(raw[1..]) else ToNumber(raw);
      var loaded := LoadWindow(window);
      if amt == None || loaded == None {
        return Settled(CORRUPT, 0, 0, 0);
      }
      var committed, reserved, windowStart := loaded.value.committed, loaded.value.reserved, loaded.value.start;
      if windowStart == 0 || now - windowStart >= windowMs {
        windowStart, committed := now, 0;
      }
      amounts := amounts - {resId};
      zset := zset - {resId};
      if !tombstone {
        reserved := if reserved - amt.value < 0 then 0 else reserved - amt.value;
      }
      committed := committed + actual;
      Save(windowStart, committed, reserved);
      return Settled(if tombstone then 2 else 1, committed, reserved, amt.value);
    }

    method Purge(now: int) returns (reply: Reply)
      modifies this
      ensures Outcome(Abs(), reply) == PurgeScript(old(Abs()), now)
    {
      hide Sum, Show, ToNumber;
      var loaded := LoadWindow(window);
      if loaded == None {
        return Purged(CORRUPT, 0, 0, 0);
      }
      ghost var s := Abs();
      var expired := Expire(now, loaded.value.reserved);
      if expired == None {
        return Purged(CORRUPT, 0, 0, 0);
      }
      var (reserved, count, released) := expired.value;
      if count > 0 {
        window := window[ReservedMicros := Show(reserved)];
      } else {
        assert DueMicros(s, now) == map[];
        assert Expired(s, now) == s;
      }
      return Purged(count, released, loaded.value.committed, reserved);
    }
  }
}
