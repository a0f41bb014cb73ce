/** The call of an upstream model: the primary, and after a failure that can be retried the
    fallback, each behind the circuit breaker and the fallback also behind the retry budget. */
module UpstreamCall {

  /** How a post to a backend ends. */
  datatype Post =
    | Accepted         // success status
    | ClientStatus     // error status below 500
    | ServerStatus     // error status from 500 on
    | NotConnected     // connection refused or timed out
    | Unsent           // another request error before anything was sent, like a full connection pool
    | Lost             // a request error after sending: read timeout, dropped body
    | Broken           // an exception that is no HTTP error

  /** What one attempt meets; the retry budget is asked for the fallback only. */
  datatype Attempt = Attempt(allowed: bool, granted: bool, post: Post)

  datatype Outcome = Answered | ConnectError | StatusError | RequestError | OtherError

  function Raised(post: Post): Outcome {
    match post
    case Accepted => Answered
    case ClientStatus => StatusError
    case ServerStatus => StatusError
    case NotConnected => ConnectError
    case Unsent => RequestError
    case Lost => RequestError
    case Broken => OtherError
  }

  /** Failures after which the next attempt is made, if there is one. */
  predicate Retries(post: Post) {
    post.ServerStatus? || post.NotConnected? || post.Unsent? || post.Lost?
  }

  predicate TurnedAway(attempts: seq<Attempt>, i: nat)
    requires i < |attempts|
  {
    !attempts[i].allowed || (i > 0 && !attempts[i].granted)
  }

  /** The loop goes on after this attempt. */
  predicate Continues(attempts: seq<Attempt>, i: nat)
    requires i < |attempts|
  {
    i + 1 < |attempts| && (!attempts[i].allowed || (!TurnedAway(attempts, i) && Retries(attempts[i].post)))
  }

  /** The attempt that decides. */
  function Decider(attempts: seq<Attempt>, i: nat): (k: nat)
    requires i < |attempts|
    ensures i <= k < |attempts| && !Continues(attempts, k)
    ensures forall j | i <= j < k :: Continues(attempts, j)
    decreases |attempts| - i
  {
    if Continues(attempts, i) then Decider(attempts, i + 1) else i
  }

  /** What the call raises or returns: circuit open and spent budget are plain request errors. */
  function PostOutcome(attempts: seq<Attempt>): Outcome {
    if attempts == [] then OtherError
    else
      var k := Decider(attempts, 0);
      if TurnedAway(attempts, k) then RequestError else Raised(attempts[k].post)
  }

  /** The attempts at which a post is made. */
  predicate Posted(attempts: seq<Attempt>, j: nat) {
    j < |attempts| && j <= Decider(attempts, 0) && !TurnedAway(attempts, j)
  }

  /** Who is posted to: an attempt that the breaker allows, and for a fallback the retry budget
      grants, when every attempt before it was refused by the breaker or was posted and ended in
      a server status, no connection, or another request error. */
  lemma PostedExactly(attempts: seq<Attempt>, j: nat)
    requires attempts != []
    ensures Posted(attempts, j) <==>
      && j < |attempts| && attempts[j].allowed && (j == 0 || attempts[j].granted)
      && forall i | 0 <= i < j ::
           !attempts[i].allowed
           || ((i == 0 || attempts[i].granted) && attempts[i].post in {ServerStatus, NotConnected, Unsent, Lost})
  {
    var k := Decider(attempts, 0);
    if j < |attempts| {
      forall i | 0 <= i < j
        ensures Continues(attempts, i) <==>
          !attempts[i].allowed
          || ((i == 0 || attempts[i].granted) && attempts[i].post in {ServerStatus, NotConnected, Unsent, Lost})
      {
      }
      if j > k { assert !Continues(attempts, k); }
    }
  }

  /** What comes of it: the first attempt that is the last one, or does not go on, decides. */
  lemma OutcomeExactly(attempts: seq<Attempt>, k: nat)
    requires k < |attempts|
    requires forall i | 0 <= i < k ::
      !attempts[i].allowed
      || ((i == 0 || attempts[i].granted) && attempts[i].post in {ServerStatus, NotConnected, Unsent, Lost})
    requires k + 1 == |attempts|
      || (attempts[k].allowed
          && ((k > 0 && !attempts[k].granted) || attempts[k].post in {Accepted, ClientStatus, Broken}))
    ensures PostOutcome(attempts) ==
      if !attempts[k].allowed || (k > 0 && !attempts[k].granted) then RequestError
      else
        match attempts[k].post
        case Accepted => Answered
        case ClientStatus => StatusError
        case ServerStatus => StatusError
        case NotConnected => ConnectError
        case Unsent => RequestError
        case Lost => RequestError
        case Broken => OtherError
  {
    DeciderIs(attempts, 0, k);
  }

  lemma {:induction false} DeciderIs(attempts: seq<Attempt>, i: nat, k: nat)
    requires i <= k < |attempts| && !Continues(attempts, k) && forall j | i <= j < k :: Continues(attempts, j)
    ensures Decider(attempts, i) == k
    decreases k - i
  {
    if i < k { DeciderIs(attempts, i + 1, k); }
  }

  // ---------------------------------------------------------------- streams

  /** A streamed call asks neither breaker nor budget and falls back on a server status only.
      Recording that status may raise. */
  predicate FallsBack(attempts: seq<Attempt>) {
    |attempts| > 1 && attempts[0].post.ServerStatus?
  }

  function StreamOutcome(attempts: seq<Attempt>, recordFails: bool): Outcome {
    if attempts == [] then OtherError
    else if !FallsBack(attempts) then Raised(attempts[0].post)
    else if recordFails then OtherError
    else Raised(attempts[1].post)
  }

  predicate StreamPosted(attempts: seq<Attempt>, recordFails: bool, j: nat) {
    j < |attempts| && (j == 0 || (j == 1 && FallsBack(attempts) && !recordFails))
  }

  /** A streamed call, attempt by attempt: the fallback is posted to after a server status that
      could be recorded, and only then, and the last post decides. */
  lemma StreamExactly(attempts: seq<Attempt>, recordFails: bool)
    requires attempts != []
    ensures StreamPosted(attempts, recordFails, 0)
    ensures StreamPosted(attempts, recordFails, 1)
            <==> |attempts| > 1 && attempts[0].post == ServerStatus && !recordFails
    ensures forall j | j > 1 :: !StreamPosted(attempts, recordFails, j)
    ensures var fallsBack := |attempts| > 1 && attempts[0].post == ServerStatus;
            StreamOutcome(attempts, recordFails) ==
              if fallsBack && recordFails then OtherError
              else
                match (if fallsBack then attempts[1] else attempts[0]).post
                case Accepted => Answered
                case ClientStatus => StatusError
                case ServerStatus => StatusError
                case NotConnected => ConnectError
                case Unsent => RequestError
                case Lost => RequestError
                case Broken => OtherError
  {
  }

  // ---------------------------------------------------------------- the documented rule

  /** A model may have worked on a post that is not known to have been refused. */
  predicate MayRun(post: Post) {
    post.Accepted? || post.Lost? || post.Broken?
  }

  predicate Refuses(post: Post) {
    post.ClientStatus? || post.ServerStatus? || post.NotConnected?
  }

  predicate MayHaveRun(attempts: seq<Attempt>) {
    exists j :: 0 <= j < |attempts| && Posted(attempts, j) && MayRun(attempts[j].post)
  }

  predicate StreamMayHaveRun(attempts: seq<Attempt>, recordFails: bool) {
    exists j :: 0 <= j < |attempts| && StreamPosted(attempts, recordFails, j) && MayRun(attempts[j].post)
  }

  /** Errors that the handler charges at the estimate; it refunds the others. */
  predicate Charges(o: Outcome) {
    o.RequestError? || o.OtherError?
  }

  /** An earlier attempt was sent and its answer lost. */
  predicate LostBefore(attempts: seq<Attempt>, k: nat) {
    exists j :: 0 <= j < k && j < |attempts| && !TurnedAway(attempts, j) && attempts[j].post == Lost
  }

  /** The documentation charges an error if and only if the model may have run. The code looks
      at the last error only. It refunds a call that may have run exactly when an earlier answer
      was lost and the last post was refused, and charges one that cannot have run exactly when
      none was lost and the last attempt was turned away or not sent. */
  lemma ChargeFollowsRule(attempts: seq<Attempt>)
    requires attempts != [] && PostOutcome(attempts) != Answered
    ensures var k := Decider(attempts, 0);
            && (MayHaveRun(attempts) && !Charges(PostOutcome(attempts)) <==>
                  LostBefore(attempts, k) && !TurnedAway(attempts, k) && Refuses(attempts[k].post))
            && (Charges(PostOutcome(attempts)) && !MayHaveRun(attempts) <==>
                  !LostBefore(attempts, k) && (TurnedAway(attempts, k) || attempts[k].post == Unsent))
  {
    RunsAre(attempts);
  }

  lemma RunsAre(attempts: seq<Attempt>)
    requires attempts != []
    ensures var k := Decider(attempts, 0);
            MayHaveRun(attempts) <==>
              LostBefore(attempts, k) || (!TurnedAway(attempts, k) && MayRun(attempts[k].post))
  {
    var k := Decider(attempts, 0);
    if MayHaveRun(attempts) {
      var j: nat :| 0 <= j < |attempts| && Posted(attempts, j) && MayRun(attempts[j].post);
      assert j < k ==> Continues(attempts, j);
    }
    if LostBefore(attempts, k) {
      var j :| 0 <= j < k && j < |attempts| && !TurnedAway(attempts, j) && attempts[j].post == Lost;
      assert Posted(attempts, j);
    }
    if !TurnedAway(attempts, k) && MayRun(attempts[k].post) {
      assert Posted(attempts, k);
    }
  }

  /** A call that may have run is refunded: its answer was lost and the fallback refuses. */
  lemma LostThenRefusedIsRefunded(first: Attempt, second: Attempt)
    requires first.allowed && first.post == Lost
    requires second.allowed && second.granted
    requires Refuses(second.post)
    ensures !Charges(PostOutcome([first, second])) && MayHaveRun([first, second])
  {
    var attempts := [first, second];
    assert Continues(attempts, 0) && Decider(attempts, 0) == 1;
    assert Posted(attempts, 0);
  }

  /** A call that never left the gateway is charged: both circuits are open. */
  lemma OpenCircuitsAreCharged(first: Attempt, second: Attempt)
    requires !first.allowed && !second.allowed
    ensures Charges(PostOutcome([first, second])) && !MayHaveRun([first, second])
    ensures Charges(PostOutcome([first])) && !MayHaveRun([first])
  {
  }

  /** So is one that the primary refused when the retry budget is spent. */
  lemma SpentBudgetIsCharged(first: Attempt, second: Attempt)
    requires first.allowed && (first.post.ServerStatus? || first.post.NotConnected?)
    requires second.allowed && !second.granted
    ensures Charges(PostOutcome([first, second])) && !MayHaveRun([first, second])
  {
    assert Decider([first, second], 0) == 1;
  }

  /** Streams follow the rule unless nothing was sent, or recording the refused attempt raises. */
  lemma StreamFollowsRule(attempts: seq<Attempt>, recordFails: bool)
    requires attempts != [] && StreamOutcome(attempts, recordFails) != Answered
    ensures (Charges(StreamOutcome(attempts, recordFails)) <==> StreamMayHaveRun(attempts, recordFails))
            <==> if FallsBack(attempts) then !recordFails && attempts[1].post != Unsent
                 else attempts[0].post != Unsent
  {
    assert StreamPosted(attempts, recordFails, 0);
    if FallsBack(attempts) && !recordFails {
      assert StreamPosted(attempts, recordFails, 1);
    }
  }

  // ---------------------------------------------------------------- breaker outcomes

  /** How often the breaker allows a call, and how often it hears of an outcome. */
  function Allowances(attempts: seq<Attempt>, i: nat): nat
    requires i <= |attempts|
    decreases |attempts| - i
  {
    if i == |attempts| then 0
    else (if attempts[i].allowed then 1 else 0) + if Continues(attempts, i) then Allowances(attempts, i + 1) else 0
  }

  function Outcomes(attempts: seq<Attempt>, i: nat): nat
    requires i <= |attempts|
    decreases |attempts| - i
  {
    if i == |attempts| then 0
    else
      (if !TurnedAway(attempts, i) && !attempts[i].post.Broken? then 1 else 0)
      + if Continues(attempts, i) then Outcomes(attempts, i + 1) else 0
  }

  /** At most one allowance, which may be a half-open probe, stays without an outcome: the one
      of an attempt that the retry budget stops or that ends in an unexpected exception. */
  lemma {:induction false} AllowancesWithoutOutcome(attempts: seq<Attempt>, i: nat)
    requires i < |attempts|
    ensures var k := Decider(attempts, i);
            Allowances(attempts, i) == Outcomes(attempts, i)
              + if attempts[k].allowed && (TurnedAway(attempts, k) || attempts[k].post.Broken?) then 1 else 0
    decreases |attempts| - i
  {
    if Continues(attempts, i) {
      AllowancesWithoutOutcome(attempts, i + 1);
    }
  }

  // ---------------------------------------------------------------- the loop

  /** `failed` lists the attempts that failed before the last one, `outcomes` counts what the
      breaker was told, `posted` are the attempts that were sent. */
  method PostCompletionWithFallback(attempts: seq<Attempt>)
    returns (outcome: Outcome, failed: seq<nat>, outcomes: nat, posted: set<nat>)
    ensures outcome == PostOutcome(attempts)
    ensures attempts != [] ==> outcomes == Outcomes(attempts, 0)
    ensures attempts != [] ==>
      |failed| == Decider(attempts, 0) && forall j | 0 <= j < |failed| :: failed[j] == j
    ensures forall j: nat ::
      j in posted <==>
      && j < |attempts| && attempts[j].allowed && (j == 0 || attempts[j].granted)
      && forall i | 0 <= i < j ::
           !attempts[i].allowed
           || ((i == 0 || attempts[i].granted) && attempts[i].post in {ServerStatus, NotConnected, Unsent, Lost})
  {
    failed, outcomes, posted := [], 0, {};
    if attempts != [] {
      forall j: nat ensures Posted(attempts, j) <==>
        && j < |attempts| && attempts[j].allowed && (j == 0 || attempts[j].granted)
        && forall i | 0 <= i < j ::
             !attempts[i].allowed
             || ((i == 0 || attempts[i].granted) && attempts[i].post in {ServerStatus, NotConnected, Unsent, Lost})
      {
        PostedExactly(attempts, j);
      }
    }
    for i := 0 to |attempts|
      invariant attempts != [] ==> i < |attempts| && Decider(attempts, 0) == Decider(attempts, i)
      invariant attempts != [] ==> Outcomes(attempts, 0) == outcomes + Outcomes(attempts, i)
      invariant |failed| == i && forall j | 0 <= j < i :: failed[j] == j
      invariant forall j: nat :: j in posted <==> j < i && Posted(attempts, j)
    {
      var a, last := attempts[i], i == |attempts| - 1;
      if !a.allowed {
        if last {
          return RequestError, failed, outcomes, posted;
        }
        failed := failed + [i];
        continue;
      }
      if i > 0 && !a.granted {
        return RequestError, failed, outcomes, posted;
      }
      posted := posted + {i};
      if a.post == Broken {
        return OtherError, failed, outcomes, posted;
      }
      outcomes := outcomes + 1;
      if a.post == Accepted {
        return Answered, failed, outcomes, posted;
      }
      if a.post.ClientStatus? || last {
        return Raised(a.post), failed, outcomes, posted;
      }
      failed := failed + [i];
    }
    return OtherError, failed, outcomes, posted;
  }

  method OpenStream(attempts: seq<Attempt>, recordFails: bool) returns (outcome: Outcome)
    ensures outcome == StreamOutcome(attempts, recordFails)
  {
    if attempts == [] {
      return OtherError;
    }
    var post := attempts[0].post;
    if post == ServerStatus && |attempts| > 1 {
      if recordFails {
        return OtherError;
      }
      post := attempts[1].post;
    }
    return Raised(post);
  }
}
