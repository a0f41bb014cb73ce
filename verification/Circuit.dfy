/** The circuit breaker: per backend a consecutive-failure counter, an opening time and a
    number of half-open probes, all under one lock. Time is in integer ticks. */
module Circuit {
  import opened Common

  datatype State = Closed | Open | HalfOpen

  datatype Config = Config(threshold: int, recovery: int, maxProbes: int) {
    predicate Valid() {
      threshold >= 1 && recovery > 0 && maxProbes >= 1
    }
  }

  /** What the breaker stores about one backend; absent entries have these defaults. */
  datatype Breaker = Breaker(state: State, failures: int, openedAt: Option<int>, probes: int)

  const UNSEEN := Breaker(Closed, 0, None, 0)

  // ---------------------------------------------------------------- one backend

  function Allowed(b: Breaker, c: Config, now: int): bool {
    match b.state
    case Closed => true
    case Open => b.openedAt == None || now - b.openedAt.value >= c.recovery
    case HalfOpen => b.probes < c.maxProbes
  }

  function Allow(b: Breaker, c: Config, now: int): Breaker {
    if !Allowed(b, c, now) || b.state == Closed || (b.state == Open && b.openedAt == None) then b
    else if b.state == Open then b.(state := HalfOpen, probes := 1)
    else b.(probes := b.probes + 1)
  }

  function Succeed(b: Breaker): Breaker {
    UNSEEN
  }

  function Fail(b: Breaker, c: Config, now: int): Breaker {
    if b.state == HalfOpen then Breaker(Open, c.threshold, Some(now), 0)
    else if b.failures + 1 >= c.threshold then Breaker(Open, b.failures + 1, Some(now), 0)
    else b.(failures := b.failures + 1)
  }

  datatype Event =
    | Ask(now: int)
    | Success(now: int)
    | Failure(now: int)

  function Step(b: Breaker, c: Config, e: Event): Breaker {
    match e
    case Ask(now) => Allow(b, c, now)
    case Success(_) => Succeed(b)
    case Failure(now) => Fail(b, c, now)
  }

  function Run(b: Breaker, c: Config, events: seq<Event>): Breaker {
    if events == [] then b else Step(Run(b, c, events[..|events| - 1]), c, events[|events| - 1])
  }

  // ---------------------------------------------------------------- state and history

  /** Length of the run of failures that the recorded outcomes end in. */
  function TrailingFailures(events: seq<Event>): nat {
    if events == [] then 0
    else
      match events[|events| - 1]
      case Ask(_) => TrailingFailures(events[..|events| - 1])
      case Success(_) => 0
      case Failure(_) => TrailingFailures(events[..|events| - 1]) + 1
  }

  /** The breaker refines its history: it is closed exactly while the outcomes end in fewer
      failures than the threshold, and then its counter is that number. Open always knows when
      it opened; half-open always has at least one and at most the allowed probes taken. */
  lemma {:induction false} StateRefinesHistory(c: Config, events: seq<Event>)
    requires c.Valid()
    ensures var b, n := Run(UNSEEN, c, events), TrailingFailures(events);
            && (b.state == Closed <==> n < c.threshold)
            && (b.state == Closed ==> b.failures == n && b.openedAt == None)
            && (b.state != Closed ==> c.threshold <= b.failures <= n && b.openedAt.Some?)
            && (b.state == HalfOpen ==> 1 <= b.probes <= c.maxProbes)
            && (b.state == Open ==> b.probes == 0)
  {
    if events != [] {
      StateRefinesHistory(c, events[..|events| - 1]);
    }
  }

  // ---------------------------------------------------------------- decisions from history alone

  /** When the last failure was recorded. */
  function LastFailure(events: seq<Event>): int {
    if events == [] then 0
    else
      match events[|events| - 1]
      case Failure(now) => now
      case _ => LastFailure(events[..|events| - 1])
  }

  /** The calls let through since the last outcome while the breaker was not closed. */
  function Probes(c: Config, events: seq<Event>): nat
    decreases |events|, 0
  {
    if events == [] then 0
    else
      var before := events[..|events| - 1];
      match events[|events| - 1]
      case Ask(now) =>
        Probes(c, before) + if TrailingFailures(before) >= c.threshold && LetsThrough(c, before, now) then 1 else 0
      case _ => 0
  }

  /** A call is let through with fewer trailing failures than the threshold; else a first one when
      the recovery period since the last failure is over, and after it up to the probe limit. */
  predicate LetsThrough(c: Config, events: seq<Event>, now: int)
    decreases |events|, 1
  {
    || TrailingFailures(events) < c.threshold
    || (if Probes(c, events) == 0 then now - LastFailure(events) >= c.recovery else Probes(c, events) < c.maxProbes)
  }

  /** The breaker decides as its history says. In particular every failure that is recorded while
      it is not closed starts the recovery period anew. */
  lemma {:induction false} DecidesByHistory(c: Config, events: seq<Event>, now: int)
    requires c.Valid()
    ensures Allowed(Run(UNSEEN, c, events), c, now) <==> LetsThrough(c, events, now)
    ensures var b := Run(UNSEEN, c, events);
            b.state != Closed ==>
              && b.openedAt == Some(LastFailure(events)) && b.probes == Probes(c, events)
              && (b.state == Open <==> Probes(c, events) == 0)
  {
    StateRefinesHistory(c, events);
    if events != [] {
      var before := events[..|events| - 1];
      StateRefinesHistory(c, before);
      DecidesByHistory(c, before, events[|events| - 1].now);
    }
  }

  // ---------------------------------------------------------------- admission rate

  predicate Ordered(t0: int, events: seq<Event>) {
    && (forall i | 0 <= i < |events| :: t0 <= events[i].now)
    && (forall i, j | 0 <= i < j < |events| :: events[i].now <= events[j].now)
  }

  /** How many calls are let through. */
  function Admitted(b: Breaker, c: Config, events: seq<Event>): nat {
    if events == [] then 0
    else
      var before := events[..|events| - 1];
      Admitted(b, c, before)
      + match events[|events| - 1]
        case Ask(now) => if Allowed(Run(b, c, before), c, now) then 1 else 0
        case _ => 0
  }

  /** How many half-open episodes have begun. */
  function Episodes(b: Breaker, c: Config, events: seq<Event>): nat {
    if events == [] then 0
    else
      var before := events[..|events| - 1];
      var r := Run(b, c, before);
      Episodes(b, c, before) + if r.state == Open && Step(r, c, events[|events| - 1]).state == HalfOpen then 1 else 0
  }

  /** How many calls the current half-open episode has let through. */
  function InEpisode(b: Breaker, c: Config, events: seq<Event>): nat {
    if events == [] then 0
    else
      var before, e := events[..|events| - 1], events[|events| - 1];
      var r := Run(b, c, before);
      if Step(r, c, e).state != HalfOpen then 0
      else if r.state == Open then 1
      else InEpisode(b, c, before) + if e.Ask? && Allowed(r, c, e.now) then 1 else 0
  }

  /** Every half-open episode lets through at most the probe limit, at each of its moments as many
      as the probes it has taken. */
  lemma {:induction false} EpisodeAdmitsAtMostProbes(b: Breaker, c: Config, events: seq<Event>)
    requires c.Valid() && b.state != HalfOpen
    ensures var r := Run(b, c, events);
            r.state == HalfOpen ==> 1 <= InEpisode(b, c, events) == r.probes <= c.maxProbes
  {
    if events != [] {
      EpisodeAdmitsAtMostProbes(b, c, events[..|events| - 1]);
    }
  }

  ghost predicate Paced(b: Breaker, c: Config, t0: int, now: int, admitted: nat, episodes: nat) {
    && b.state != Closed && b.openedAt.Some?
    && (b.state == HalfOpen ==> admitted <= c.maxProbes * (episodes - 1) + b.probes && b.probes <= c.maxProbes)
    && (b.state == Open ==> admitted <= c.maxProbes * episodes && t0 + episodes * c.recovery <= b.openedAt.value)
    && t0 + episodes * c.recovery <= now
    && (b.state == HalfOpen ==> episodes >= 1)
  }

  lemma Times(n: int, x: int)
    ensures (n + 1) * x == n * x + x && x * (n + 1) == x * n + x
  {
  }

  lemma StepPaced(b: Breaker, c: Config, t0: int, last: int, admitted: nat, episodes: nat, e: Event)
    requires c.Valid() && Paced(b, c, t0, last, admitted, episodes)
    requires last <= e.now && !e.Success?
    ensures var b' := Step(b, c, e);
            var admitted' := admitted + if e.Ask? && Allowed(b, c, e.now) then 1 else 0;
            var episodes' := episodes + if b.state == Open && b'.state == HalfOpen then 1 else 0;
            Paced(b', c, t0, e.now, admitted', episodes')
  {
    Times(episodes, c.recovery);
    var k: int := episodes;
    Times(k - 1, c.maxProbes);
  }

  lemma {:induction false} RunPaced(b: Breaker, c: Config, t0: int, events: seq<Event>)
    requires c.Valid() && b.state == Open && b.openedAt == Some(t0)
    requires Ordered(t0, events) && forall e | e in events :: !e.Success?
    ensures Paced(Run(b, c, events), c, t0, if events == [] then t0 else events[|events| - 1].now,
                  Admitted(b, c, events), Episodes(b, c, events))
  {
    if events != [] {
      var before, e := events[..|events| - 1], events[|events| - 1];
      RunPaced(b, c, t0, before);
      StepPaced(Run(b, c, before), c, t0, if before == [] then t0 else before[|before| - 1].now,
                Admitted(b, c, before), Episodes(b, c, before), e);
    }
  }

  lemma EpisodesFit(k: nat, recovery: int, elapsed: int)
    requires recovery > 0 && k * recovery <= elapsed
    ensures k <= elapsed / recovery
  {
    var q := elapsed / recovery;
    Times(q, recovery);
    if k > q {
      MonotoneTimes(recovery, q + 1, k);
    }
  }

  /** Admission rate. After an opening at `t0`, while no call is recorded as a success, every
      trace of questions and failures lets through at most `maxProbes` calls for each full
      recovery period that has passed. */
  lemma AdmissionRate(b: Breaker, c: Config, t0: int, events: seq<Event>, horizon: int)
    requires c.Valid() && b.state == Open && b.openedAt == Some(t0)
    requires Ordered(t0, events) && forall e | e in events :: !e.Success? && e.now <= horizon
    requires t0 <= horizon
    ensures Admitted(b, c, events) <= c.maxProbes * ((horizon - t0) / c.recovery)
  {
    RunPaced(b, c, t0, events);
    var k: int := Episodes(b, c, events);
    EpisodesFit(k, c.recovery, horizon - t0);
    Times(k - 1, c.maxProbes);
    MonotoneTimes(c.maxProbes, k, (horizon - t0) / c.recovery);
  }

  lemma MonotoneTimes(x: int, m: int, n: int)
    requires x >= 0 && m <= n
    ensures x * m <= x * n
  {
  }

  /** The end of a number of recovery periods. */
  function After(c: Config, t0: int, periods: nat): int {
    t0 + periods * c.recovery
  }

  lemma AfterNext(c: Config, t0: int, periods: nat)
    ensures After(c, t0, periods + 1) == After(c, t0, periods) + c.recovery
    ensures c.maxProbes * (periods + 1) == c.maxProbes * periods + c.maxProbes
  {
    Times(periods, c.recovery);
    Times(periods, c.maxProbes);
  }

  /** The bound is tight: asking `maxProbes` times at the end of each recovery period and
      failing once reaches it. */
  function Probing(c: Config, t0: int, periods: nat): seq<Event> {
    if periods == 0 then []
    else
      var now := After(c, t0, periods);
      Probing(c, t0, periods - 1) + Asks(now, c.maxProbes) + [Failure(now)]
  }

  function Asks(now: int, n: int): seq<Event> {
    if n <= 0 then [] else Asks(now, n - 1) + [Ask(now)]
  }

  lemma OneMoreEvent(b: Breaker, c: Config, before: seq<Event>, e: Event)
    ensures Run(b, c, before + [e]) == Step(Run(b, c, before), c, e)
    ensures Admitted(b, c, before + [e])
         == Admitted(b, c, before) + (if e.Ask? && Allowed(Run(b, c, before), c, e.now) then 1 else 0)
  {
    assert (before + [e])[..|before|] == before;
  }

  lemma {:induction false} RateIsTight(b: Breaker, c: Config, t0: int, periods: nat)
    requires c.Valid() && b.state == Open && b.openedAt == Some(t0)
    ensures Admitted(b, c, Probing(c, t0, periods)) == c.maxProbes * periods
    ensures var r := Run(b, c, Probing(c, t0, periods)); r.state == Open && r.openedAt == Some(After(c, t0, periods))
  {
    if periods > 0 {
      hide Admitted, Run, Asks, After;
      RateIsTight(b, c, t0, periods - 1);
      AfterNext(c, t0, periods - 1);
      OneRound(b, c, Probing(c, t0, periods - 1), After(c, t0, periods));
    }
  }

  lemma OneRound(b: Breaker, c: Config, before: seq<Event>, now: int)
    requires c.Valid()
    requires var r := Run(b, c, before);
             r.state == Open && r.openedAt.Some? && now - r.openedAt.value >= c.recovery
    ensures var after := before + Asks(now, c.maxProbes) + [Failure(now)];
            && Admitted(b, c, after) == Admitted(b, c, before) + c.maxProbes
            && Run(b, c, after).state == Open && Run(b, c, after).openedAt == Some(now)
  {
    hide Admitted, Run;
    AllProbesPass(b, c, before, now, c.maxProbes);
    OneMoreEvent(b, c, before + Asks(now, c.maxProbes), Failure(now));
  }

  lemma {:induction false} AllProbesPass(b: Breaker, c: Config, before: seq<Event>, now: int, n: nat)
    requires c.Valid() && n <= c.maxProbes
    requires var r := Run(b, c, before);
             r.state == Open && r.openedAt.Some? && now - r.openedAt.value >= c.recovery
    ensures var asked := before + Asks(now, n);
            && Admitted(b, c, asked) == Admitted(b, c, before) + n
            && (n > 0 ==> Run(b, c, asked).state == HalfOpen && Run(b, c, asked).probes == n)
  {
    hide Admitted, Run;
    if n == 0 {
      assert before + Asks(now, n) == before;
    } else {
      AllProbesPass(b, c, before, now, n - 1);
      OneMoreEvent(b, c, before + Asks(now, n - 1), Ask(now));
      assert before + Asks(now, n) == before + Asks(now, n - 1) + [Ask(now)];
      assert n == 1 ==> before + Asks(now, n - 1) == before;
    }
  }

  // ---------------------------------------------------------------- the breaker object

  class CircuitBreaker {
    const config: Config
    var failures: map<string, int>
    var openedAt: map<string, int>
    var states: map<string, State>
    var halfOpenProbes: map<string, int>

    function Of(backend: string): Breaker
      reads this
    {
      Breaker(
        if backend in states then states[backend] else Closed,
        if backend in failures then failures[backend] else 0,
        if backend in openedAt then Some(openedAt[backend]) else None,
        if backend in halfOpenProbes then halfOpenProbes[backend] else 0)
    }

    constructor (config: Config)
      ensures this.config == config && forall backend :: Of(backend) == UNSEEN
    {
      this.config := config;
      failures, openedAt, states, halfOpenProbes := map[], map[], map[], map[];
    }

    method AllowCall(backend: string, now: int) returns (ok: bool)
      modifies this
      ensures ok == Allowed(old(Of(backend)), config, now)
      ensures Of(backend) == Allow(old(Of(backend)), config, now)
      ensures forall other | other != backend :: Of(other) == old(Of(other))
    {
      var state := if backend in states then states[backend] else Closed;
      if state == Closed {
        return true;
      }
      if state == Open {
        if backend !in openedAt {
          return true;
        }
        if now - openedAt[backend] < config.recovery {
          return false;
        }
        states := states[backend := HalfOpen];
        halfOpenProbes := halfOpenProbes[backend := 1];
        return true;
      }
      var used := if backend in halfOpenProbes then halfOpenProbes[backend] else 0;
      if used >= config.maxProbes {
        return false;
      }
      halfOpenProbes := halfOpenProbes[backend := used + 1];
      return true;
    }

    method RecordSuccess(backend: string)
      modifies this
      ensures Of(backend) == Succeed(old(Of(backend)))
      ensures forall other | other != backend :: Of(other) == old(Of(other))
    {
      failures := failures[backend := 0];
      openedAt := openedAt - {backend};
      halfOpenProbes := halfOpenProbes - {backend};
      states := states[backend := Closed];
    }

    method RecordFailure(backend: string, now: int)
      modifies this
      ensures Of(backend) == Fail(old(Of(backend)), config, now)
      ensures forall other | other != backend :: Of(other) == old(Of(other))
    {
      var state := if backend in states then states[backend] else Closed;
      if state == HalfOpen {
        failures := failures[backend := config.threshold];
        openedAt := openedAt[backend := now];
        halfOpenProbes := halfOpenProbes[backend := 0];
        states := states[backend := Open];
        return;
      }
      var count := (if backend in failures then failures[backend] else 0) + 1;
      failures := failures[backend := count];
      if count >= config.threshold {
        openedAt := openedAt[backend := now];
        halfOpenProbes := halfOpenProbes[backend := 0];
        states := states[backend := Open];
      }
    }
  }
}
