/** Reading the cluster: the snapshot a pass works from, and what it derives from it. */
module Snapshot {
  import opened Wrappers
  import opened Cluster

  /** `GetDBStates`, when exactly the pods in `reach` answer; `failed` are those whose status query fails. */
  function Observe(pods: seq<Pod>, reach: set<nat>, failed: set<nat> := {}): (states: seq<DBState>)
    ensures |states| == |pods|
  {
    seq(|pods|, i requires 0 <= i < |pods| =>
      if i in reach then Answered(pods[i].role, pods[i].epoch, i in failed) else Unanswered(i in failed))
  }

  /** The highest epoch among the answers, 0 when there is none. */
  function Highest(states: seq<DBState>): (h: nat)
    ensures forall i :: 0 <= i < |states| && states[i].Answered? ==> states[i].epoch <= h
    ensures h == 0 || exists i :: 0 <= i < |states| && states[i].Answered? && states[i].epoch == h
  {
    if states == [] then 0
    else
      var last := states[|states| - 1];
      var rest := Highest(states[..|states| - 1]);
      if last.Answered? && last.epoch > rest then last.epoch else rest
  }

  lemma HighestStep(states: seq<DBState>, i: nat)
    requires i < |states|
    ensures Highest(states[..i + 1]) ==
      if states[i].Answered? && states[i].epoch > Highest(states[..i]) then states[i].epoch else Highest(states[..i])
  {
    assert states[..i + 1][..i] == states[..i];
  }

  predicate AnswersPrimary(states: seq<DBState>, i: int) {
    0 <= i < |states| && states[i].Answered? && states[i].role == Primary
  }

  /** Pod `c`, and no other, answered as primary. */
  ghost predicate SolePrimary(states: seq<DBState>, c: int) {
    AnswersPrimary(states, c) && forall i :: AnswersPrimary(states, i) ==> i == c
  }

  /** `CurrentPrimaryAndEpoch`: an error is None. */
  method CurrentPrimaryAndEpoch(states: seq<DBState>) returns (r: Option<(nat, nat)>)
    ensures r.Some? <==> exists c :: SolePrimary(states, c)
    ensures r.Some? ==> SolePrimary(states, r.value.0) && r.value.1 == Highest(states)
  {
    var highestEpoch := 0;
    var currentPrimary := -1;
    for i := 0 to |states|
      invariant -1 <= currentPrimary < i
      invariant currentPrimary == -1 ==> forall k :: 0 <= k < i ==> !AnswersPrimary(states, k)
      invariant currentPrimary != -1 ==> AnswersPrimary(states, currentPrimary)
      invariant currentPrimary != -1 ==> forall k :: 0 <= k < i && AnswersPrimary(states, k) ==> k == currentPrimary
      invariant highestEpoch == Highest(states[..i])
    {
      HighestStep(states, i);
      if AnswersPrimary(states, i) {
        if currentPrimary != -1 {
          return None;
        }
        currentPrimary := i;
      }
      if states[i].Answered? && states[i].epoch > highestEpoch {
        highestEpoch := states[i].epoch;
      }
    }
    assert states[..|states|] == states;
    if currentPrimary == -1 {
      return None;
    }
    assert SolePrimary(states, currentPrimary);
    return Some((currentPrimary, highestEpoch));
  }

  /** What a switchover decides before its first phase: the current primary and the epoch to promote at. */
  datatype Plan = Plan(current: int, epoch: nat)

  /** The sole answering primary with the observed epoch, else what the status records. */
  ghost function PlanFor(states: seq<DBState>, status: Status): Plan {
    if c :| SolePrimary(states, c) then Plan(c, Highest(states) + 1)
    else Plan(status.primary.GetOr(0), status.epoch.GetOr(0) + 1)
  }

  /** A reachable pod that carries the cluster's top epoch makes the observed epoch the top one. */
  lemma CoveringSnapshotSeesTop(pods: seq<Pod>, reach: set<nat>, failed: set<nat>)
    requires Covers(pods, reach)
    ensures IsTop(pods, Highest(Observe(pods, reach, failed)))
  {
    var states := Observe(pods, reach, failed);
    var i :| i in reach && i < |pods| && Bounds(pods, pods[i].epoch);
    assert states[i].epoch <= Highest(states);
  }

  /**
    The promotion epoch is fresh, that is above every epoch in the cluster, exactly when the snapshot reaches
    a pod at the top epoch (one primary answers) or the recorded epoch is not behind the cluster (otherwise).
   */
  lemma PromotionEpochFreshIff(pods: seq<Pod>, reach: set<nat>, failed: set<nat>, status: Status)
    requires pods != []
    ensures
      var states := Observe(pods, reach, failed);
      Bounds(pods, PlanFor(states, status).epoch - 1) <==>
        if exists c :: SolePrimary(states, c) then Covers(pods, reach) else Bounds(pods, status.epoch.GetOr(0))
  {
    var states := Observe(pods, reach, failed);
    if c :| SolePrimary(states, c) {
      var h := Highest(states);
      assert c in reach && states[c].epoch <= h;
      if Covers(pods, reach) {
        CoveringSnapshotSeesTop(pods, reach, failed);
      }
      if Bounds(pods, h) {
        if h == 0 {
          assert Bounds(pods, pods[c].epoch);
        } else {
          var i :| 0 <= i < |states| && states[i].Answered? && states[i].epoch == h;
          assert i in reach && pods[i].epoch == h;
        }
      }
    }
  }
}
