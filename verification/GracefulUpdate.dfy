/**
  The switchover that the updater makes before it deletes the primary: whom it promotes, and what a primary that
  nobody recorded does to the passes that follow.
 */
module GracefulUpdate {
  import opened Wrappers
  import opened Cluster
  import opened Snapshot
  import opened StatusPhase
  import opened Protocol
  import opened Switchover
  import opened Names
  import opened Ordinals
  import opened ConfigMesh
  import opened Freshness
  import opened CaughtUp

  /** The epoch of `gracefulPrimaryUpdate`: one above that of the recorded primary. */
  function NextEpoch(pods: seq<Pod>, p: nat): nat
    requires p < |pods|
  {
    pods[p].epoch + 1
  }

  /** The recorded primary transitioned to standby; a drain that fails changes nothing and is not modelled here. */
  function DrainPrimary(pods: seq<Pod>, p: nat): (r: seq<Pod>)
    requires p < |pods|
    ensures |r| == |pods|
  {
    match TransitionToStandby(pods[p], NextEpoch(pods, p))
    case Some(pod) => pods[p := pod]
    case None => pods
  }

  /** The pod at position `i` promoted at the same epoch; None is an error return. */
  function PromoteAt(pods: seq<Pod>, p: nat, i: nat): Option<seq<Pod>>
    requires p < |pods|
  {
    if i >= |pods| then None
    else
      match AssumeRole(DrainPrimary(pods, p)[i], Primary, NextEpoch(pods, p))
      case None => None
      case Some(pod) => Some(DrainPrimary(pods, p)[i := pod])
  }

  ghost predicate SolePrimaryPod(pods: seq<Pod>, p: nat) {
    IsPrimary(pods, p) && Bounds(pods, pods[p].epoch) && forall k :: IsPrimary(pods, k) ==> k == p
  }

  /**
    The promotion is accepted if and only if the position is a pod other than the recorded primary. If it is
    refused, the drain has left the cluster without a primary; if it is accepted, with exactly the new one.
   */
  lemma PromotionAcceptedIff(pods: seq<Pod>, p: nat, i: nat)
    requires SolePrimaryPod(pods, p)
    ensures PromoteAt(pods, p, i).Some? <==> i < |pods| && i != p
    ensures forall k :: !IsPrimary(DrainPrimary(pods, p), k)
    ensures DrainPrimary(pods, p)[p].epoch == pods[p].epoch + 1
    ensures PromoteAt(pods, p, i).Some? ==> PromoteAt(pods, p, i).value[i].epoch == pods[p].epoch + 1
    ensures PromoteAt(pods, p, i).Some? ==> SolePrimaryPod(PromoteAt(pods, p, i).value, i)
  {
    assert forall k :: IsPrimary(DrainPrimary(pods, p), k) ==> IsPrimary(pods, k) && k != p;
    if i < |pods| && i != p {
      var after := PromoteAt(pods, p, i).value;
      assert forall k :: IsPrimary(after, k) && k != i ==> IsPrimary(DrainPrimary(pods, p), k);
    }
  }

  // ----- whom the position stands for when every other pod is a healthy standby

  lemma {:induction false} OthersAt(p: nat, n: nat, k: nat)
    requires p < n && k < n - 1
    ensures Others(p, n)[k] == if k < p then k else k + 1
  {
    if p == n - 1 {
      AllBelow(p, n - 1, k);
    } else if k < n - 2 {
      OthersAt(p, n - 1, k);
    }
  }

  lemma {:induction false} AllBelow(p: nat, n: nat, k: nat)
    requires n <= p && k < n
    ensures |Others(p, n)| == n && Others(p, n)[k] == k
  {
    if k < n - 1 {
      AllBelow(p, n - 1, k);
    }
  }

  /**
    The drain has settled on standby `o`. For any number of pods, whichever are healthy, the pod promoted is the one
    whose ordinal is the number of healthy standbys that precede `o` by name; nobody is if that is the recorded
    primary's ordinal, and the cluster is left without a primary.
   */
  lemma PromotesByRank(
    pods: seq<Pod>, name: string, service: string, namespace: string, listing: seq<nat>, ready: set<nat>,
    p: nat, o: nat, i: nat)
    requires SolePrimaryPod(pods, p) && IsListing(listing, |pods|)
    requires PositionOf(name, service, namespace, listing, ready, p, o, i)
    ensures
      var n := |Preceding(name, Healthy(SortByName(name, listing), ready, p), o)|;
      var r := PromoteAt(pods, p, i);
      && i == n < |pods|
      && (if n == p then r.None? && forall k :: !IsPrimary(DrainPrimary(pods, p), k)
          else r.Some? && SolePrimaryPod(r.value, n))
  {
    PositionCountsPreceding(name, service, namespace, listing, ready, p, o, i);
    ListingBound(name, listing, ready, p, |pods|);
    PromotionAcceptedIff(pods, p, i);
  }

  /** There are fewer healthy standbys than pods. */
  lemma ListingBound(name: string, listing: seq<nat>, ready: set<nat>, p: nat, n: nat)
    requires IsListing(listing, n)
    ensures |Healthy(SortByName(name, listing), ready, p)| <= n
  {
    assert |SortByName(name, listing)| == |multiset(SortByName(name, listing))| == |multiset(listing)| == n;
    HealthyIsShorter(SortByName(name, listing), ready, p);
  }

  lemma {:induction false} HealthyIsShorter(l: seq<nat>, ready: set<nat>, p: int)
    ensures |Healthy(l, ready, p)| <= |l|
  {
    if l != [] {
      HealthyIsShorter(l[..|l| - 1], ready, p);
    }
  }

  /**
    With up to ten pods, all of them healthy: the intended pod is promoted exactly if it comes before the recorded
    primary `p`, nobody is if it comes right after, and the one before it otherwise.
   */
  lemma PromotesWhom(
    pods: seq<Pod>, name: string, service: string, namespace: string, listing: seq<nat>, ready: set<nat>,
    p: nat, o: nat, i: nat)
    requires SolePrimaryPod(pods, p) && IsListing(listing, |pods|) && |pods| <= 10
    requires forall k: nat :: k < |pods| && k != p ==> k in ready
    requires PositionOf(name, service, namespace, listing, ready, p, o, i)
    ensures o < |pods| && o != p && i == (if o < p then o else o - 1)
    ensures
      var r := PromoteAt(pods, p, i);
      if o == p + 1 then r.None? && forall k :: !IsPrimary(DrainPrimary(pods, p), k)
      else r.Some? && SolePrimaryPod(r.value, if o < p then o else o - 1)
  {
    var l := Healthy(SortByName(name, listing), ready, p);
    HealthyOfUpToTen(name, listing, ready, p, |pods|);
    OthersAscend(p, |pods|);
    SameMembersSameList(l, Others(p, |pods|));
    PositionIsRank(l, name, service, namespace, o, i);
    assert l[i] in l;
    OthersAt(p, |pods|, i);
    PromotionAcceptedIff(pods, p, i);
  }

  lemma OnlyOnePrecedesTen(name: string, k: nat)
    requires 0 < k < 10
    ensures NameLess(name, k, 10) <==> k == 1
  {
    LessAfterPrefix(name + "-", Decimal(k), Decimal(10));
    assert Decimal(10) == Decimal(1) + [Digit(0)];
    assert Decimal(k)[1..] == "" && Decimal(10)[1..] == [Digit(0)];
  }

  /** With eleven pods it is otherwise: of eleven healthy pods with pod 0 primary, a drain to pod 10 promotes pod 1. */
  lemma ElevenPodsPromotePodOne(
    pods: seq<Pod>, name: string, service: string, namespace: string, listing: seq<nat>, ready: set<nat>, i: nat)
    requires |pods| == 11 && SolePrimaryPod(pods, 0) && IsListing(listing, 11)
    requires forall k: nat :: k < 11 ==> k in ready
    requires PositionOf(name, service, namespace, listing, ready, 0, 10, i)
    ensures i == 1 && PromoteAt(pods, 0, i).Some? && SolePrimaryPod(PromoteAt(pods, 0, i).value, 1)
  {
    var l := Healthy(SortByName(name, listing), ready, 0);
    LessIrreflexive(PodName(name, 10));
    forall k: nat ensures k in Preceding(name, l, 10) <==> k == 1 {
      MultisetMembers(SortByName(name, listing), listing, k);
      if 0 < k < 10 {
        OnlyOnePrecedesTen(name, k);
      }
    }
    assert Preceding(name, l, 10) == {1};
    PromotesByRank(pods, name, service, namespace, listing, ready, 0, 10, i);
  }

  /** Two pods with pod 0 primary: the updater drains to pod 1, asks pod 0 to be primary, and is refused. */
  lemma TwoPodsLoseThePrimary(pods: seq<Pod>, name: string, service: string, namespace: string)
    requires |pods| == 2 && SolePrimaryPod(pods, 0)
    ensures IsPosition(Hosts([1], name, service, namespace), PodHost(name, 1, service, namespace), 0)
    ensures PromoteAt(pods, 0, 0).None? && forall k :: !IsPrimary(DrainPrimary(pods, 0), k)
  {
    assert Hosts([1], name, service, namespace)[0] == PodHost(name, 1, service, namespace);
    PromotionAcceptedIff(pods, 0, 0);
  }

  // ----- a primary that is not recorded

  /** At rest, with pod `i` primary at the top epoch and another pod recorded, at no higher epoch. */
  ghost predicate Stray(w: World, i: nat) {
    && w.op.Idle? && !w.status.switching
    && IsPrimary(w.pods, i) && Bounds(w.pods, w.pods[i].epoch)
    && w.status.primary.Some? && w.status.primary.value != i
    && (w.status.epoch.Some? ==> w.status.epoch.value <= w.pods[i].epoch)
  }

  /** An accepted promotion is of that kind: the updater records nothing. */
  lemma PromotionIsStray(w: World, p: nat, i: nat)
    requires w.op.Idle? && !w.status.switching && w.status.primary == Some(p)
    requires SolePrimaryPod(w.pods, p) && PromoteAt(w.pods, p, i).Some?
    requires w.status.epoch.Some? ==> w.status.epoch.value <= w.pods[p].epoch
    ensures Stray(w.(pods := PromoteAt(w.pods, p, i).value), i)
  {
    PromotionAcceptedIff(w.pods, p, i);
  }

  /**
    So is the cluster from its first Status phase on if and only if its spec asks for a primary other than pod 0:
    that one is recorded, while pod 0 bootstraps as primary.
   */
  lemma BootstrapIsStrayIff(w: World, env: Env)
    requires Init(w)
    ensures Stray(AfterStatusPhase(w, env), 0) <==> w.desired != 0
  {
    var states := Observe(w.pods, env.look);
    assert Highest(states) <= 1;
  }

  /** Role repair fails at a stray primary, and changes neither it nor the top epoch on the way. */
  lemma {:induction false} RepairFailsAtStray(pods: seq<Pod>, status: Status, reach: set<nat>, i: nat, k: nat)
    requires k <= i && IsPrimary(pods, i) && Bounds(pods, pods[i].epoch) && !Configured(status, i)
    requires status.primary.Some? && status.primary.value != i
    requires status.epoch.Some? && status.epoch.value <= pods[i].epoch
    ensures
      var r := ConfigurePods(pods, status, reach, k);
      !r.1 && r.0[i] == pods[i] && Bounds(r.0, pods[i].epoch)
    decreases i - k
  {
    if k < i {
      var a := AssumeRole(pods[k], ConfiguredRole(status.primary.value, k), status.epoch.value);
      if Configured(status, k) {
        RepairFailsAtStray(pods, status, reach, i, k + 1);
      } else if k in reach && a.Some? {
        RepairFailsAtStray(pods[k := a.value], status, reach, i, k + 1);
      }
    }
  }

  /** Whatever a pass at rest meets, it ends in role repair or before: nothing is switched and the stray stays. */
  lemma RestPassKeepsStray(w: World, env: Env, healthy: bool, cut: nat, i: nat)
    requires Stray(w, i)
    ensures
      var v := RestPass(w, env, healthy, cut);
      Stray(v, i) && v.pods[i] == w.pods[i] && v.status.primary == w.status.primary
  {
    var seen := AfterStatusPhase(w, env);
    var states := Observe(w.pods, env.look);
    assert Highest(states) <= w.pods[i].epoch;
    assert !Reported(states, w.pods, w.status.primary, i);
    if env.statusLands && healthy && seen.status.epoch.Some? {
      RepairFailsAtStray(seen.pods, seen.status, env.reach, i, 0);
    }
  }

  /** What the world does before a pass, and what the pass meets. */
  datatype Rest = Rest(pods: seq<Pod>, desired: int, env: Env, healthy: bool, cut: nat)

  /** One pass at rest, after pods came and went and the spec changed. */
  ghost predicate RestStep(w: World, r: Rest, v: World) {
    && SameRolesAndEpochs(w.pods, r.pods)
    && v == RestPass(w.(pods := r.pods, desired := r.desired), r.env, r.healthy, r.cut)
  }

  lemma RestStepKeepsStray(w: World, r: Rest, v: World, i: nat)
    requires Stray(w, i) && RestStep(w, r, v)
    ensures Stray(v, i) && v.status.primary == w.status.primary
  {
    var u := w.(pods := r.pods, desired := r.desired);
    assert IsPrimary(u.pods, i) && Bounds(u.pods, u.pods[i].epoch);
    RestPassKeepsStray(u, r.env, r.healthy, r.cut, i);
  }

  /**
    Over every sequence of passes at rest, whoever is asked for as primary and whatever the passes meet, a primary
    that was promoted without being recorded blocks replication: none repairs it and none switches.
   */
  lemma {:induction false} StrayBlocksEveryRestPass(ws: seq<World>, rs: seq<Rest>, i: nat, k: nat)
    requires |ws| == |rs| + 1 && k < |ws| && Stray(ws[0], i)
    requires forall j :: 0 <= j < |rs| ==> RestStep(ws[j], rs[j], ws[j + 1])
    ensures Stray(ws[k], i) && ws[k].status.primary == ws[0].status.primary
  {
    if k > 0 {
      StrayBlocksEveryRestPass(ws, rs, i, k - 1);
      RestStepKeepsStray(ws[k - 1], rs[k - 1], ws[k], i);
    }
  }
}
