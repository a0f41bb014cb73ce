/** The weighted choice of a target for a route with a canary. */
module Routing {
  import opened Common

  datatype RouteTarget = RouteTarget(model: string, weight: nat)

  datatype Choice = NoTargets | NotSelected | Selected(model: string)

  const BUCKETS := 100

  function TotalWeight(targets: seq<RouteTarget>): nat {
    if targets == [] then 0 else TotalWeight(targets[..|targets| - 1]) + targets[|targets| - 1].weight
  }

  /** The joint weight of all targets that name a model. */
  function ModelWeight(targets: seq<RouteTarget>, model: string): nat {
    if targets == [] then 0
    else
      var last := targets[|targets| - 1];
      ModelWeight(targets[..|targets| - 1], model) + if last.model == model then last.weight else 0
  }

  /** The target whose share of the buckets, laid end to end, contains this one. */
  ghost predicate Owns(targets: seq<RouteTarget>, i: nat, bucket: nat) {
    i < |targets| && TotalWeight(targets[..i]) <= bucket < TotalWeight(targets[..i + 1])
  }

  lemma {:induction false} TotalWeightGrows(targets: seq<RouteTarget>, i: nat, j: nat)
    requires i <= j <= |targets|
    ensures TotalWeight(targets[..i]) <= TotalWeight(targets[..j])
    decreases j
  {
    if i < j {
      TotalWeightGrows(targets, i, j - 1);
      assert targets[..j][..j - 1] == targets[..j - 1];
    }
  }

  lemma OneOwner(targets: seq<RouteTarget>, i: nat, j: nat, bucket: nat)
    requires Owns(targets, i, bucket) && Owns(targets, j, bucket)
    ensures i == j
  {
    if i < j {
      TotalWeightGrows(targets, i + 1, j);
    } else if j < i {
      TotalWeightGrows(targets, j + 1, i);
    }
  }

  /** `digest` is the hash of a route name and a request identifier. */
  method SelectRouteTarget(targets: seq<RouteTarget>, routeName: string, requestId: string, digest: string -> nat)
    returns (choice: Choice)
    ensures choice.NoTargets? <==> targets == []
    ensures choice.Selected? ==>
              exists i: nat :: Owns(targets, i, digest(routeName + ":" + requestId) % BUCKETS) && choice.model == targets[i].model
    ensures targets != [] && TotalWeight(targets) == BUCKETS ==> choice.Selected?
    ensures targets != [] ==> choice == Chosen(targets, digest(routeName + ":" + requestId) % BUCKETS)
  {
    if targets == [] {
      return NoTargets;
    }
    var bucket := digest(routeName + ":" + requestId) % BUCKETS;
    var upperBound := 0;
    for i := 0 to |targets|
      invariant upperBound == TotalWeight(targets[..i]) <= bucket
    {
      upperBound := upperBound + targets[i].weight;
      assert targets[..i + 1][..i] == targets[..i];
      if bucket < upperBound {
        ChosenIsOwner(targets, i, bucket);
        return Selected(targets[i].model);
      }
    }
    assert targets[..|targets|] == targets;
    NoOwner(targets, bucket);
    return NotSelected;
  }

  ghost function Chosen(targets: seq<RouteTarget>, bucket: nat): Choice {
    if exists i: nat :: Owns(targets, i, bucket) then
      var i: nat :| Owns(targets, i, bucket);
      Selected(targets[i].model)
    else NotSelected
  }

  lemma ChosenIsOwner(targets: seq<RouteTarget>, i: nat, bucket: nat)
    requires Owns(targets, i, bucket)
    ensures Chosen(targets, bucket) == Selected(targets[i].model)
  {
    forall j: nat | Owns(targets, j, bucket) ensures i == j {
      OneOwner(targets, i, j, bucket);
    }
  }

  lemma NoOwner(targets: seq<RouteTarget>, bucket: nat)
    requires TotalWeight(targets) <= bucket
    ensures Chosen(targets, bucket) == NotSelected
  {
    forall i: nat | i < |targets| ensures !Owns(targets, i, bucket) {
      TotalWeightGrows(targets, i + 1, |targets|);
      assert targets[..|targets|] == targets;
    }
  }

  // ---------------------------------------------------------------- shares of the buckets

  ghost function BucketsOf(targets: seq<RouteTarget>, model: string, count: nat): set<nat> {
    set b: nat | b < count && Chosen(targets, b) == Selected(model)
  }

  function Between(low: nat, high: nat): (s: set<nat>)
    ensures forall b: nat :: b in s <==> low <= b < high
    ensures low <= high ==> |s| == high - low
    decreases high
  {
    if low >= high then {} else Between(low, high - 1) + {high - 1}
  }

  /** Adding a target leaves the buckets of the others where they were. */
  lemma EarlierBucketsStay(targets: seq<RouteTarget>, last: RouteTarget, bucket: nat)
    ensures bucket < TotalWeight(targets) ==> Chosen(targets + [last], bucket) == Chosen(targets, bucket)
    ensures TotalWeight(targets) <= bucket < TotalWeight(targets) + last.weight ==>
              Chosen(targets + [last], bucket) == Selected(last.model)
  {
    var all, n := targets + [last], |targets|;
    assert all[..n] == targets && all[..n + 1] == all;
    if TotalWeight(targets) <= bucket < TotalWeight(targets) + last.weight {
      assert Owns(all, n, bucket);
      ChosenIsOwner(all, n, bucket);
    } else if bucket < TotalWeight(targets) {
      var i := SomeOwner(targets, bucket);
      assert all[..i] == targets[..i] && all[..i + 1] == targets[..i + 1];
      ChosenIsOwner(targets, i, bucket);
      ChosenIsOwner(all, i, bucket);
    }
  }

  lemma {:induction false} SomeOwner(targets: seq<RouteTarget>, bucket: nat) returns (i: nat)
    requires bucket < TotalWeight(targets)
    ensures Owns(targets, i, bucket)
    decreases |targets|
  {
    var n := |targets| - 1;
    assert targets[..n + 1] == targets;
    if bucket >= TotalWeight(targets[..n]) {
      i := n;
    } else {
      i := SomeOwner(targets[..n], bucket);
      assert targets[..n][..i] == targets[..i] && targets[..n][..i + 1] == targets[..i + 1];
    }
  }

  /** Canary shares: of all buckets a model owns exactly as many as its targets weigh. */
  lemma {:induction false} ModelOwnsItsWeight(targets: seq<RouteTarget>, model: string)
    ensures |BucketsOf(targets, model, TotalWeight(targets))| == ModelWeight(targets, model)
    decreases |targets|
  {
    if targets == [] {
      assert BucketsOf(targets, model, 0) == {};
    } else {
      var front, last := targets[..|targets| - 1], targets[|targets| - 1];
      assert targets == front + [last];
      ModelOwnsItsWeight(front, model);
      var low, high := TotalWeight(front), TotalWeight(targets);
      forall b: nat
        ensures b in BucketsOf(targets, model, high)
                <==> b in BucketsOf(front, model, low) || (last.model == model && b in Between(low, high))
      {
        EarlierBucketsStay(front, last, b);
      }
      var own := if last.model == model then Between(low, high) else {};
      assert BucketsOf(targets, model, high) == BucketsOf(front, model, low) + own;
      assert BucketsOf(front, model, low) !! own;
    }
  }
}
