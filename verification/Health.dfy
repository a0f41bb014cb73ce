/** The health signals of one backend and the score that routing reads from them. */
module Health {
  import opened Common

  const ALPHA := 0.3

  datatype Signal = Signal(success: bool, fallbackUsed: bool)

  datatype State = State(available: Option<bool>, latency: Option<real>, requests: nat, errors: nat, fallbacks: nat,
                         errorRate: real, failures: nat)

  const UNKNOWN := State(None, None, 0, 0, 0, 0.0, 0)

  function Sample(s: Signal): real {
    if s.success then 0.0 else 1.0
  }

  function Apply(h: State, s: Signal): State {
    h.(requests := h.requests + 1,
       errors := h.errors + (if s.success then 0 else 1),
       fallbacks := h.fallbacks + (if s.fallbackUsed then 1 else 0),
       errorRate := ALPHA * Sample(s) + (1.0 - ALPHA) * h.errorRate,
       failures := if s.success then 0 else h.failures + 1)
  }

  // ---------------------------------------------------------------- runs

  datatype Event = Request(signal: Signal) | Probe(available: bool, latency: real)

  function Step(h: State, e: Event): State {
    match e
    case Request(s) => Apply(h, s)
    case Probe(available, latency) => h.(available := Some(available), latency := Some(latency))
  }

  function Run(h: State, events: seq<Event>): State
    decreases |events|
  {
    if events == [] then h else Run(Step(h, events[0]), events[1..])
  }

  function Signals(events: seq<Event>): seq<Signal>
    decreases |events|
  {
    if events == [] then []
    else (if events[0].Request? then [events[0].signal] else []) + Signals(events[1..])
  }

  function Decay(n: nat): (d: real)
    ensures 0.0 < d <= 1.0
  {
    if n == 0 then 1.0 else (1.0 - ALPHA) * Decay(n - 1)
  }

  /** Every failure counts with a weight that decays with the number of later requests. */
  function WeightedErrors(signals: seq<Signal>): real
    decreases |signals|
  {
    if signals == [] then 0.0
    else ALPHA * Sample(signals[0]) * Decay(|signals| - 1) + WeightedErrors(signals[1..])
  }

  /** The average that starts at `initial` and takes in these outcomes. */
  function Average(initial: real, signals: seq<Signal>): real {
    Decay(|signals|) * initial + WeightedErrors(signals)
  }

  function TrailingFailures(signals: seq<Signal>): nat {
    if signals == [] || signals[|signals| - 1].success then 0
    else 1 + TrailingFailures(signals[..|signals| - 1])
  }

  function Failed(signals: seq<Signal>): nat {
    if signals == [] then 0 else (if signals[0].success then 0 else 1) + Failed(signals[1..])
  }

  function Fallbacks(signals: seq<Signal>): nat {
    if signals == [] then 0 else (if signals[0].fallbackUsed then 1 else 0) + Fallbacks(signals[1..])
  }

  /** The moving average is the weighted sum over all outcomes. */
  lemma {:induction false} AverageIsWeightedSum(h: State, events: seq<Event>)
    ensures Run(h, events).errorRate == Average(h.errorRate, Signals(events))
    decreases |events|
  {
    if events != [] {
      var rest := Signals(events[1..]);
      AverageIsWeightedSum(Step(h, events[0]), events[1..]);
      SignalsStep(events);
      hide Average;
      if events[0].Request? {
        AverageStep(events[0].signal, rest, h.errorRate);
      }
    } else {
      AverageOfNone(h.errorRate);
    }
  }

  lemma AverageOfNone(e: real)
    ensures Average(e, []) == e
  {
  }

  lemma AverageStep(s: Signal, rest: seq<Signal>, e: real)
    ensures Average(ALPHA * Sample(s) + (1.0 - ALPHA) * e, rest) == Average(e, [s] + rest)
  {
    assert ([s] + rest)[1..] == rest;
    var d, x, w := Decay(|rest|), Sample(s), WeightedErrors(rest);
    assert Decay(|[s] + rest|) == (1.0 - ALPHA) * d;
    assert WeightedErrors([s] + rest) == ALPHA * x * d + w;
    hide Decay, WeightedErrors, Sample;
    Distribute(d, x, e, w);
  }

  lemma Distribute(d: real, x: real, e: real, w: real)
    ensures d * (ALPHA * x + (1.0 - ALPHA) * e) + w == (1.0 - ALPHA) * d * e + (ALPHA * x * d + w)
  {
  }

  lemma SignalsStep(events: seq<Event>)
    requires events != []
    ensures Signals(events) == (if events[0].Request? then [events[0].signal] else []) + Signals(events[1..])
    ensures !events[0].Request? ==> Signals(events) == Signals(events[1..])
  {
    assert [] + Signals(events[1..]) == Signals(events[1..]);
  }

  lemma {:induction false} CountersCount(h: State, events: seq<Event>)
    ensures var r, signals := Run(h, events), Signals(events);
            && r.requests == h.requests + |signals|
            && r.errors == h.errors + Failed(signals)
            && r.fallbacks == h.fallbacks + Fallbacks(signals)
    decreases |events|
  {
    if events != [] {
      CountersCount(Step(h, events[0]), events[1..]);
      SignalsStep(events);
    }
  }

  lemma {:induction false} FailuresAreTrailing(h: State, events: seq<Event>)
    ensures var signals := Signals(events);
            Run(h, events).failures == TrailingFailures(signals)
                                       + if TrailingFailures(signals) == |signals| then h.failures else 0
    decreases |events|
  {
    if events != [] {
      var rest := Signals(events[1..]);
      FailuresAreTrailing(Step(h, events[0]), events[1..]);
      if events[0].Request? {
        TrailingOfFront(events[0].signal, rest);
      } else {
        assert Signals(events) == rest;
      }
    }
  }

  lemma {:induction false} TrailingOfFront(first: Signal, rest: seq<Signal>)
    ensures TrailingFailures(rest) <= |rest|
    ensures TrailingFailures([first] + rest) ==
            if TrailingFailures(rest) == |rest| && !first.success then 1 + |rest| else TrailingFailures(rest)
    decreases |rest|
  {
    var all := [first] + rest;
    if rest == [] {
      assert all[..0] == [];
    } else {
      var n := |rest| - 1;
      assert all[|all| - 1] == rest[n] && all[..|all| - 1] == [first] + rest[..n];
      TrailingOfFront(first, rest[..n]);
    }
  }

  // ---------------------------------------------------------------- the score

  /** Rounding to the nearest integer, ties to the even one. */
  function Round(x: real): (n: int)
    ensures x - 0.5 <= n as real <= x + 0.5
  {
    var low := x.Floor;
    var part := x - low as real;
    if part < 0.5 || (part == 0.5 && low % 2 == 0) then low else low + 1
  }

  lemma RoundMonotone(x: real, y: real)
    requires x <= y
    ensures Round(x) <= Round(y)
  {
    if x.Floor == y.Floor {
    } else {
      assert x.Floor + 1 <= y.Floor;
    }
  }

  function MinReal(a: real, b: real): real {
    if a < b then a else b
  }

  function ErrorRate(h: State): real {
    if h.requests > 0 then h.errorRate else 0.0
  }

  function FallbackRate(h: State): real {
    if h.requests > 0 then h.fallbacks as real / h.requests as real else 0.0
  }

  function LatencyPenalty(h: State): real {
    MinReal((if h.latency.Some? then h.latency.value else 0.0) / 20.0, 30.0)
  }

  function RawScore(h: State): real {
    100.0 - LatencyPenalty(h) - ErrorRate(h) * 50.0 - FallbackRate(h) * 20.0
  }

  function Score(h: State): int {
    if h.available == Some(false) then 0
    else
      var score := Round(if RawScore(h) < 0.0 then 0.0 else RawScore(h));
      if h.failures >= 3 && score > 20 then 20 else score
  }

  ghost predicate Valid(h: State) {
    && 0.0 <= h.errorRate <= 1.0 && h.fallbacks <= h.requests && h.errors <= h.requests && h.failures <= h.errors
    && (h.requests == 0 ==> h.errorRate == 0.0) && (h.latency.Some? ==> h.latency.value >= 0.0)
  }

  ghost predicate Plausible(events: seq<Event>) {
    forall i | 0 <= i < |events| && events[i].Probe? :: events[i].latency >= 0.0
  }

  lemma {:induction false} RunValid(h: State, events: seq<Event>)
    requires Valid(h) && Plausible(events)
    ensures Valid(Run(h, events))
    decreases |events|
  {
    if events != [] {
      assert Valid(Step(h, events[0]));
      RunValid(Step(h, events[0]), events[1..]);
    }
  }

  lemma RatesAreFractions(h: State)
    requires Valid(h)
    ensures 0.0 <= FallbackRate(h) <= 1.0 && 0.0 <= ErrorRate(h) <= 1.0 && 0.0 <= LatencyPenalty(h) <= 30.0
  {
    if h.requests > 0 {
      var f, n := h.fallbacks as real, h.requests as real;
      FractionOrder(0.0, 1.0, f, n);
      FractionOrder(f, n, 1.0, 1.0);
    }
  }

  /** After every run the score lies between 0 and 100, no clamp at zero ever acts, and three
      failures in a row keep it at 20 or below. */
  lemma ScoreInRange(events: seq<Event>)
    requires Plausible(events)
    ensures var h := Run(UNKNOWN, events);
            && RawScore(h) >= 0.0 && 0 <= Score(h) <= 100
            && (TrailingFailures(Signals(events)) >= 3 ==> Score(h) <= 20)
  {
    var h := Run(UNKNOWN, events);
    RunValid(UNKNOWN, events);
    RatesAreFractions(h);
    FailuresAreTrailing(UNKNOWN, events);
  }

  /** The score: zero for an unavailable backend; else 100 less a twentieth of the latency in
      milliseconds, at most 30, less half the error rate in percent and a fifth of the fallback
      rate in percent, rounded, and at most 20 after three failures in a row. */
  lemma ScoreExactly(h: State)
    requires Valid(h)
    ensures h.available == Some(false) ==> Score(h) == 0
    ensures h.available != Some(false) ==>
      var latency := if h.latency == None then 0.0 else if h.latency.value > 600.0 then 30.0 else h.latency.value / 20.0;
      var errors := if h.requests == 0 then 0.0 else 50.0 * h.errorRate;
      var fallbacks := if h.requests == 0 then 0.0 else 20.0 * (h.fallbacks as real / h.requests as real);
      var x := 100.0 - latency - errors - fallbacks;
      && x >= 0.0 && (h.failures >= 3 ==> Score(h) <= 20)
      && (h.failures < 3 || x < 20.5 ==> x - 0.5 <= Score(h) as real <= x + 0.5)
      && (h.failures >= 3 && x > 20.5 ==> Score(h) == 20)
  {
    RatesAreFractions(h);
    hide Valid;
  }

  /** Rounding takes ties to the even number. */
  lemma RoundsTiesToEven(n: int)
    ensures Round(n as real) == n
    ensures Round(n as real + 0.5) == if n % 2 == 0 then n else n + 1
  {
  }

  /** A request served by the backend itself never lowers the score. */
  lemma SuccessNeverLowersScore(h: State)
    requires Valid(h)
    ensures Score(Apply(h, Signal(true, false))) >= Score(h)
  {
    var a := Apply(h, Signal(true, false));
    RatesAreFractions(h);
    RatesAreFractions(a);
    FallbackRateMoves(h, Signal(true, false));
    assert ErrorRate(a) <= ErrorRate(h);
    RoundMonotone(RawScore(h), RawScore(a));
  }

  /** Before rounding, a failure raises the score if and only if it did not fall back and
      thins out the fallbacks by more than it adds to the error rate. */
  lemma FailureRaisesExactly(h: State, fallbackUsed: bool)
    requires Valid(h)
    ensures var n, f := h.requests as real, h.fallbacks as real;
            RawScore(Apply(h, Signal(false, fallbackUsed))) > RawScore(h)
            <==> !fallbackUsed && 20.0 * f > 15.0 * (1.0 - h.errorRate) * n * (n + 1.0)
  {
    var s := Signal(false, fallbackUsed);
    var n, f := h.requests as real, h.fallbacks as real;
    ScoreMoves(h, s);
    ErrorRateMoves(h, fallbackUsed);
    FallbackRateMoves(h, s);
    if h.requests > 0 && !fallbackUsed {
      Thinned(f, n);
      FallbackRateFalls(h);
      hide *;
      Cleared(f / (n * (n + 1.0)), f, n * (n + 1.0), 1.0 - h.errorRate);
      Regroup(15.0 * (1.0 - h.errorRate), n);
    } else if h.requests == 0 {
      hide *;
    }
  }

  lemma Regroup(x: real, n: real)
    ensures x * (n * (n + 1.0)) == x * n * (n + 1.0)
  {
  }

  /** Latency does not change with a request. */
  lemma ScoreMoves(h: State, s: Signal)
    ensures var a := Apply(h, s);
            RawScore(a) - RawScore(h)
            == 50.0 * (ErrorRate(h) - ErrorRate(a)) + 20.0 * (FallbackRate(h) - FallbackRate(a))
  {
    hide ErrorRate, FallbackRate;
  }

  lemma ErrorRateMoves(h: State, fallbackUsed: bool)
    requires Valid(h)
    ensures var a := Apply(h, Signal(false, fallbackUsed));
            ErrorRate(a) - ErrorRate(h) == 0.3 * (1.0 - h.errorRate) && h.errorRate <= 1.0
            && (h.requests == 0 ==> h.errorRate == 0.0 && FallbackRate(h) == 0.0)
  {
  }

  lemma FallbackRateFalls(h: State)
    requires h.requests > 0
    ensures var n, f := h.requests as real, h.fallbacks as real;
            FallbackRate(h) == f / n && FallbackRate(Apply(h, Signal(false, false))) == f / (n + 1.0)
  {
  }

  lemma Thinned(f: real, n: real)
    requires n > 0.0
    ensures n * (n + 1.0) > 0.0 && f / n - f / (n + 1.0) == f / (n * (n + 1.0))
  {
    assert f / n == f * (n + 1.0) / (n * (n + 1.0));
    assert f / (n + 1.0) == f * n / (n * (n + 1.0));
    assert f * (n + 1.0) == f * n + f;
  }

  /** Multiplying out the denominator. */
  lemma Cleared(q: real, f: real, m: real, e: real)
    requires m > 0.0 && q == f / m
    ensures 20.0 * q > 15.0 * e <==> 20.0 * f > 15.0 * e * m
  {
    assert q * m == f;
    if 20.0 * q > 15.0 * e {
      assert (20.0 * q) * m > (15.0 * e) * m;
    } else {
      assert (20.0 * q) * m <= (15.0 * e) * m;
    }
  }

  /** The rounded and capped score rises only then. */
  lemma FailureRaisesScoreOnlyThen(h: State, fallbackUsed: bool)
    requires Valid(h) && Score(Apply(h, Signal(false, fallbackUsed))) > Score(h)
    ensures !fallbackUsed
            && 20.0 * h.fallbacks as real
               > 15.0 * (1.0 - h.errorRate) * h.requests as real * (h.requests as real + 1.0)
  {
    var a := Apply(h, Signal(false, fallbackUsed));
    RatesAreFractions(h);
    RatesAreFractions(a);
    FailureRaisesExactly(h, fallbackUsed);
    if RawScore(a) <= RawScore(h) {
      RoundMonotone(RawScore(a), RawScore(h));
    }
  }

  /** So a failed request that fell back never raises it. */
  lemma FailureNeverRaisesScore(h: State)
    requires Valid(h)
    ensures Score(Apply(h, Signal(false, true))) <= Score(h)
  {
    if Score(Apply(h, Signal(false, true))) > Score(h) {
      FailureRaisesScoreOnlyThen(h, true);
    }
  }

  /** A slow backend that failed over on each of five failures, then fails once without. */
  const FAILOVERS := [Probe(true, 600.0),
                      Request(Signal(false, true)), Request(Signal(false, true)), Request(Signal(false, true)),
                      Request(Signal(false, true)), Request(Signal(false, true))]

  /** And the score does rise: one more failure takes this backend from 8 to 9. */
  lemma FailureCanRaiseScore()
    ensures Score(Run(UNKNOWN, FAILOVERS)) == 8
    ensures Score(Run(UNKNOWN, FAILOVERS + [Request(Signal(false, false))])) == 9
  {
    var h := State(Some(true), Some(600.0), 5, 5, 5, 0.83193, 5);
    assert Run(UNKNOWN, FAILOVERS) == h;
    var a := Apply(h, Signal(false, false));
    LastStep(UNKNOWN, FAILOVERS, Request(Signal(false, false)));
    assert 8.0 < RawScore(h) < 8.5;
    assert 9.0 < RawScore(a) < 9.5;
  }

  lemma {:induction false} LastStep(h: State, events: seq<Event>, e: Event)
    ensures Run(h, events + [e]) == Step(Run(h, events), e)
    decreases |events|
  {
    if events == [] {
      assert events + [e] == [e];
    } else {
      assert (events + [e])[1..] == events[1..] + [e];
      LastStep(Step(h, events[0]), events[1..], e);
    }
  }

  lemma FallbackRateMoves(h: State, s: Signal)
    requires Valid(h)
    ensures if s.fallbackUsed then FallbackRate(Apply(h, s)) >= FallbackRate(h)
            else FallbackRate(Apply(h, s)) <= FallbackRate(h)
  {
    var f, n := h.fallbacks as real, h.requests as real;
    if h.requests > 0 {
      var g := if s.fallbackUsed then f + 1.0 else f;
      assert f <= n;
      if s.fallbackUsed { FractionOrder(f, n, g, n + 1.0); } else { FractionOrder(g, n + 1.0, f, n); }
    }
  }

  lemma FractionOrder(a: real, b: real, c: real, d: real)
    requires b > 0.0 && d > 0.0 && a * d <= c * b
    ensures a / b <= c / d
  {
    assert a / b == (a * d) / (b * d);
    assert c / d == (c * b) / (b * d);
  }

  // ---------------------------------------------------------------- the health object

  class BackendHealth {
    var available: Option<bool>
    var latencyMs: Option<real>
    var requestCount: nat
    var errorCount: nat
    var fallbackCount: nat
    var ewmaErrorRate: real
    var consecutiveFailures: nat

    ghost function Abs(): State
      reads this
    {
      State(available, latencyMs, requestCount, errorCount, fallbackCount, ewmaErrorRate, consecutiveFailures)
    }

    constructor ()
      ensures Abs() == UNKNOWN
    {
      available, latencyMs := None, None;
      requestCount, errorCount, fallbackCount, consecutiveFailures := 0, 0, 0, 0;
      ewmaErrorRate := 0.0;
    }

    method ApplyRequestSignal(success: bool, fallbackUsed: bool)
      modifies this
      ensures Abs() == Apply(old(Abs()), Signal(success, fallbackUsed))
    {
      var sample := if success then 0.0 else 1.0;
      requestCount := requestCount + 1;
      if !success { errorCount := errorCount + 1; }
      if fallbackUsed { fallbackCount := fallbackCount + 1; }
      ewmaErrorRate := ALPHA * sample + (1.0 - ALPHA) * ewmaErrorRate;
      consecutiveFailures := if success then 0 else consecutiveFailures + 1;
    }

    method StoreProbe(up: bool, latency: real)
      modifies this
      ensures Abs() == Step(old(Abs()), Probe(up, latency))
    {
      available := Some(up);
      latencyMs := Some(latency);
    }
  }
}
