/** The process-wide retry budget: a counter that starts afresh when its window of sixty
    seconds has passed. Time is in integer ticks; `window` is the number of ticks in a minute. */
module RetryBudget {
  import opened Common

  datatype Budget = Budget(windowStart: int, used: int)

  function Renewed(b: Budget, now: int, window: int): Budget {
    if now - b.windowStart >= window then Budget(now, 0) else b
  }

  predicate Grants(b: Budget, now: int, window: int, max: nat) {
    Renewed(b, now, window).used < max
  }

  function Consume(b: Budget, now: int, window: int, max: nat): Budget {
    var r := Renewed(b, now, window);
    if Grants(b, now, window, max) then r.(used := r.used + 1) else r
  }

  function Run(b: Budget, calls: seq<int>, window: int, max: nat): Budget
    decreases |calls|
  {
    if calls == [] then b else Run(Consume(b, calls[0], window, max), calls[1..], window, max)
  }

  /** How many of the calls are granted. */
  function Granted(b: Budget, calls: seq<int>, window: int, max: nat): nat
    decreases |calls|
  {
    if calls == [] then 0
    else (if Grants(b, calls[0], window, max) then 1 else 0)
         + Granted(Consume(b, calls[0], window, max), calls[1..], window, max)
  }

  /** After a renewal inside the interval no second one can follow. */
  lemma {:induction false} GrantsAfterRenewal(b: Budget, calls: seq<int>, window: int, max: nat, from: int)
    requires window > 0 && 0 <= b.used <= max && from <= b.windowStart
    requires forall i | 0 <= i < |calls| :: b.windowStart <= calls[i] < from + window
    ensures Granted(b, calls, window, max) <= max - b.used
    decreases |calls|
  {
    if calls != [] {
      GrantsAfterRenewal(Consume(b, calls[0], window, max), calls[1..], window, max, from);
    }
  }

  lemma {:induction false} GrantsInInterval(b: Budget, calls: seq<int>, window: int, max: nat, from: int)
    requires window > 0 && 0 <= b.used <= max && Sorted(calls)
    requires forall i | 0 <= i < |calls| :: from <= calls[i] < from + window
    ensures Granted(b, calls, window, max) <= (max - b.used) + max
    decreases |calls|
  {
    if calls != [] {
      var now := calls[0];
      var b' := Consume(b, now, window, max);
      if now - b.windowStart >= window {
        GrantsAfterRenewal(b', calls[1..], window, max, from);
      } else {
        GrantsInInterval(b', calls[1..], window, max, from);
      }
    }
  }

  lemma {:induction false} UsedInRange(b: Budget, calls: seq<int>, window: int, max: nat)
    requires 0 <= b.used <= max
    ensures 0 <= Run(b, calls, window, max).used <= max
    decreases |calls|
  {
    if calls != [] {
      UsedInRange(Consume(b, calls[0], window, max), calls[1..], window, max);
    }
  }

  /** Whatever was asked before, any stretch of calls that fits in less than one window is
      granted at most twice the limit. */
  lemma AtMostTwicePerWindow(start: int, before: seq<int>, calls: seq<int>, window: int, max: nat, from: int)
    requires window > 0 && Sorted(calls) && forall i | 0 <= i < |calls| :: from <= calls[i] < from + window
    ensures Granted(Run(Budget(start, 0), before, window, max), calls, window, max) <= 2 * max
  {
    UsedInRange(Budget(start, 0), before, window, max);
    GrantsInInterval(Run(Budget(start, 0), before, window, max), calls, window, max, from);
  }

  function Copies(t: int, n: nat): seq<int> {
    if n == 0 then [] else [t] + Copies(t, n - 1)
  }

  lemma {:induction false} CopiesGranted(b: Budget, t: int, n: nat, rest: seq<int>, window: int, max: nat)
    requires window > 0 && 0 <= b.used && b.used + n <= max && b.windowStart <= t < b.windowStart + window
    ensures Granted(b, Copies(t, n) + rest, window, max)
         == n + Granted(b.(used := b.used + n), rest, window, max)
    decreases n
  {
    if n == 0 {
      assert Copies(t, n) + rest == rest;
    } else {
      assert (Copies(t, n) + rest)[0] == t && (Copies(t, n) + rest)[1..] == Copies(t, n - 1) + rest;
      CopiesGranted(b.(used := b.used + 1), t, n - 1, rest, window, max);
    }
  }

  /** Twice the limit is reached: spend one window in its last tick and the next in its first. */
  lemma TwiceIsReached(start: int, window: int, max: nat)
    requires window > 1
    ensures var t := start + window;
            Granted(Budget(start, 0), Copies(t - 1, max) + Copies(t, max), window, max) == 2 * max
  {
    var t := start + window;
    CopiesGranted(Budget(start, 0), t - 1, max, Copies(t, max), window, max);
    if max > 0 {
      assert Copies(t, max)[0] == t && Copies(t, max)[1..] == Copies(t, max - 1) + [];
      CopiesGranted(Budget(t, 1), t, max - 1, [], window, max);
    }
  }

  class Retries {
    const maxPerWindow: nat
    const window: int
    var windowStart: int
    var used: int

    ghost function Abs(): Budget
      reads this
    {
      Budget(windowStart, used)
    }

    constructor (maxPerWindow: nat, window: int, now: int)
      ensures Abs() == Budget(now, 0) && this.maxPerWindow == maxPerWindow && this.window == window
    {
      this.maxPerWindow, this.window := maxPerWindow, window;
      windowStart, used := now, 0;
    }

    method ConsumeOne(now: int) returns (ok: bool)
      modifies this
      ensures ok == Grants(old(Abs()), now, window, maxPerWindow)
      ensures Abs() == Consume(old(Abs()), now, window, maxPerWindow)
    {
      if now - windowStart >= window {
        windowStart := now;
        used := 0;
      }
      if used >= maxPerWindow {
        return false;
      }
      used := used + 1;
      return true;
    }
  }
}
