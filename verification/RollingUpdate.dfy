/** The replicas-first, primary-last rolling update: which pod a pass deletes, and when the roll ends. */
module RollingUpdate {
  import opened Wrappers
  import opened Names
  import opened Ordinals

  const MAX_REPLICATION_LAG_MILLIS := 5000

  /** A listed pod; `revision` is its controller-revision-hash label. */
  datatype PodInfo = PodInfo(ordinal: nat, revision: Option<string>)

  /** What the pass reads from the DoltDB. `primary` is status.currentPrimary, by ordinal. */
  datatype Config = Config(
    automatic: bool, resizing: bool, switching: bool, primary: Option<nat>, replicas: int,
    replicated: bool, configured: bool)

  /** A row of the primary's `dolt_cluster_status`. */
  datatype LagRow = LagRow(lagMillis: Option<int>, currentError: Option<string>)

  datatype ClusterStatus = NoConnection | QueryFailed | Rows(rows: seq<LagRow>)

  /** Where the graceful switchover before deleting the primary ends. */
  datatype Graceful = NoClient | NoEpoch | NoHosts | TransitionFails | PromotionFails | LabellingFails | Switched

  /** What the pass meets. A missing revision is a failed read; a missing standby count too. */
  datatype Seen = Seen(
    revision: Option<string>, readyReplicas: int, healthyStandbys: Option<nat>, status: ClusterStatus,
    graceful: Graceful, deletes: bool)

  datatype Outcome = Done | Requeue | Skip | Failed

  predicate Updated(pod: PodInfo, revision: string) {
    pod.revision == Some(revision)
  }

  ghost predicate Stale(pods: seq<PodInfo>, revision: string, k: int) {
    0 <= k < |pods| && pods[k].revision != Some(revision)
  }

  predicate Lagging(row: LagRow) {
    || (row.lagMillis.Some? && row.lagMillis.value > MAX_REPLICATION_LAG_MILLIS)
    || (row.currentError.Some? && row.currentError.value != "")
  }

  /** No lag that is known exceeds five seconds, and there is no error. */
  ghost predicate KeepsUp(row: LagRow) {
    && (row.lagMillis.Some? ==> row.lagMillis.value <= 5000)
    && (row.currentError.Some? ==> row.currentError.value == "")
  }

  /** `waitForReplicationCaughtUp` lets the primary go. */
  ghost predicate CaughtUp(cfg: Config, seen: Seen) {
    cfg.replicated ==>
      && cfg.configured
      && seen.healthyStandbys.Some? && seen.healthyStandbys.value > 0
      && (seen.status.Rows? ==>
            seen.status.rows != [] && forall i :: 0 <= i < |seen.status.rows| ==> KeepsUp(seen.status.rows[i]))
  }

  /** `gracefulPrimaryUpdate` gets to the deletion: it stops short of it only from the promotion on. */
  ghost predicate LetsPrimaryGo(cfg: Config, seen: Seen) {
    !cfg.replicated || seen.graceful in {NoClient, NoEpoch, NoHosts, TransitionFails, Graceful.Switched}
  }

  /** The pass gets as far as looking for a pod to replace. */
  ghost predicate Open(cfg: Config, seen: Seen, pods: seq<PodInfo>) {
    && cfg.automatic && !cfg.resizing && !cfg.switching
    && seen.revision.Some? && seen.revision.value != ""
    && cfg.replicas == |pods| == seen.readyReplicas && HasPrimary(cfg, pods)
  }

  ghost predicate DistinctPods(pods: seq<PodInfo>) {
    forall i, j :: 0 <= i < j < |pods| ==> pods[i].ordinal != pods[j].ordinal
  }

  /** Positions of pods, highest name first. */
  ghost predicate Descending(name: string, pods: seq<PodInfo>, l: seq<nat>) {
    && (forall a :: 0 <= a < |l| ==> l[a] < |pods|)
    && (forall a, b :: 0 <= a < b < |l| ==> NameLess(name, pods[l[b]].ordinal, pods[l[a]].ordinal))
  }

  ghost predicate HasPrimary(cfg: Config, pods: seq<PodInfo>) {
    cfg.primary.Some? && exists k :: 0 <= k < |pods| && pods[k].ordinal == cfg.primary.value
  }

  /** A stale pod other than the recorded primary. */
  ghost predicate StaleReplica(cfg: Config, pods: seq<PodInfo>, revision: string, k: int) {
    Stale(pods, revision, k) && Some(pods[k].ordinal) != cfg.primary
  }

  /** Whose turn it is: the stale replica with the highest name, and the primary after all replicas. */
  ghost predicate MayGo(name: string, cfg: Config, seen: Seen, pods: seq<PodInfo>, k: nat)
    requires seen.revision.Some? && k < |pods|
  {
    var revision := seen.revision.value;
    if Some(pods[k].ordinal) == cfg.primary then
      CaughtUp(cfg, seen) && forall j :: !StaleReplica(cfg, pods, revision, j)
    else
      forall j :: StaleReplica(cfg, pods, revision, j) && j != k ==> NameLess(name, pods[j].ordinal, pods[k].ordinal)
  }

  /** Putting `x` where the names below its own begin keeps the order. */
  lemma InsertedDescends(name: string, pods: seq<PodInfo>, l: seq<nat>, i: nat, x: nat)
    requires DistinctPods(pods) && Descending(name, pods, l) && x < |pods| && x !in l && i <= |l|
    requires forall a :: 0 <= a < i ==> NameLess(name, pods[x].ordinal, pods[l[a]].ordinal)
    requires i < |l| ==> !NameLess(name, pods[x].ordinal, pods[l[i]].ordinal)
    ensures
      var r := l[..i] + [x] + l[i..];
      (forall k :: k in r <==> k in l || k == x) && Descending(name, pods, r)
  {
    var r := l[..i] + [x] + l[i..];
    forall a | i <= a < |l| ensures NameLess(name, pods[l[a]].ordinal, pods[x].ordinal) {
      assert l[i] in l && l[a] in l;
      NameLessTotal(name, pods[x].ordinal, pods[l[i]].ordinal);
      if a > i {
        LessTransitive(
          PodName(name, pods[l[a]].ordinal), PodName(name, pods[l[i]].ordinal), PodName(name, pods[x].ordinal));
      }
    }
    assert l == l[..i] + l[i..];
    forall a, b | 0 <= a < b < |r| ensures NameLess(name, pods[r[b]].ordinal, pods[r[a]].ordinal) {
    }
  }

  class Roller {
    const name: string
    var pods: seq<PodInfo>

    constructor (name: string, pods: seq<PodInfo>)
      requires DistinctPods(pods)
      ensures this.name == name && this.pods == pods
    {
      this.name, this.pods := name, pods;
    }

    /** `getPodsByRole`: positions of the replicas, highest name first, and of the primary. */
    method GetPodsByRole(cfg: Config) returns (outcome: Outcome, replicas: seq<nat>, primary: nat)
      requires DistinctPods(pods)
      ensures outcome.Done? <==> cfg.replicas == |pods| && HasPrimary(cfg, pods)
      ensures outcome.Failed? <==>
        && cfg.replicas == |pods| != 0 && cfg.primary.Some?
        && forall k :: 0 <= k < |pods| ==> cfg.primary != Some(pods[k].ordinal)
      ensures outcome in {Done, Requeue, Failed}
      ensures outcome.Done? ==> primary < |pods| && cfg.primary == Some(pods[primary].ordinal)
      ensures outcome.Done? ==> forall k: nat :: k in replicas <==> k < |pods| && k != primary
      ensures outcome.Done? ==> Descending(name, pods, replicas)
    {
      replicas, primary := [], 0;
      if cfg.primary.None? || cfg.replicas == 0 || |pods| != cfg.replicas {
        return Requeue, [], 0;
      }
      var found := false;
      for i := 0 to |pods|
        invariant found ==> primary < i && pods[primary].ordinal == cfg.primary.value
        invariant !found ==> forall k :: 0 <= k < i ==> pods[k].ordinal != cfg.primary.value
        invariant forall k :: k in replicas <==> 0 <= k < i && !(found && k == primary)
        invariant Descending(name, pods, replicas)
      {
        if pods[i].ordinal == cfg.primary.value {
          found, primary := true, i;
        } else {
          replicas := InsertDescending(replicas, i);
        }
      }
      // Of several pods one is not the primary, so "no replica Pods found" is never returned.
      assert cfg.replicas > 1 ==> 0 in replicas || 1 in replicas;
      if !found {
        return Failed, [], 0;
      }
      return Done, replicas, primary;
    }

    /** One step of sorting by descending name. */
    method InsertDescending(l: seq<nat>, x: nat) returns (r: seq<nat>)
      requires x < |pods| && x !in l && DistinctPods(pods) && Descending(name, pods, l)
      ensures forall k :: k in r <==> k in l || k == x
      ensures Descending(name, pods, r)
    {
      var i := 0;
      while i < |l| && NameLess(name, pods[x].ordinal, pods[l[i]].ordinal)
        invariant 0 <= i <= |l|
        invariant forall a :: 0 <= a < i ==> NameLess(name, pods[x].ordinal, pods[l[a]].ordinal)
      {
        i := i + 1;
      }
      r := l[..i] + [x] + l[i..];
      InsertedDescends(name, pods, l, i, x);
    }

    method WaitForReplicationCaughtUp(cfg: Config, seen: Seen) returns (outcome: Outcome)
      ensures outcome.Done? <==> CaughtUp(cfg, seen)
      ensures outcome.Skip? <==> cfg.replicated && !cfg.configured
      ensures outcome in {Done, Requeue, Skip}
    {
      if !cfg.replicated {
        return Done;
      }
      if !cfg.configured {
        return Skip;
      }
      if seen.healthyStandbys.None? || seen.healthyStandbys.value == 0 {
        return Requeue;
      }
      if !seen.status.Rows? {
        return Done;
      }
      var rows := seen.status.rows;
      if rows == [] {
        return Requeue;
      }
      for i := 0 to |rows|
        invariant forall k :: 0 <= k < i ==> KeepsUp(rows[k])
      {
        if Lagging(rows[i]) {
          return Requeue;
        }
      }
      return Done;
    }

    /** `updatePod`: the StatefulSet controller recreates a deleted pod at the update revision. */
    method UpdatePod(k: nat, revision: string, deletes: bool) returns (deleted: bool)
      requires k < |pods|
      modifies this
      ensures deleted == deletes
      ensures pods == if deletes then old(pods)[k := old(pods[k]).(revision := Some(revision))] else old(pods)
    {
      if !deletes {
        return false;
      }
      pods := pods[k := pods[k].(revision := Some(revision))];
      return true;
    }

    /** `gracefulPrimaryUpdate`: a failed promotion or relabelling keeps the pod; every other end deletes it. */
    method GracefulPrimaryUpdate(cfg: Config, seen: Seen, k: nat, revision: string) returns (deleted: bool)
      requires k < |pods|
      modifies this
      ensures deleted <==> seen.deletes && LetsPrimaryGo(cfg, seen)
      ensures pods == if deleted then old(pods)[k := old(pods[k]).(revision := Some(revision))] else old(pods)
    {
      if cfg.replicated && (seen.graceful.PromotionFails? || seen.graceful.LabellingFails?) {
        return false;
      }
      deleted := UpdatePod(k, revision, seen.deletes);
    }

    /** Whether `getStalePodNames` finds any. */
    method AnyStale(revision: string) returns (stale: bool)
      ensures stale <==> exists k :: Stale(pods, revision, k)
    {
      for i := 0 to |pods|
        invariant forall k :: 0 <= k < i ==> !Stale(pods, revision, k)
      {
        if !Updated(pods[i], revision) {
          assert Stale(pods, revision, i);
          return true;
        }
      }
      return false;
    }

    /**
      `reconcileUpdates`: at most one pod is replaced, a stale one, only with all replicas ready and the cluster at
      rest; among stale replicas the one with the highest name, and the primary only when no replica is stale
      and replication has caught up as far as it can be read.
     */
    method ReconcileUpdates(cfg: Config, seen: Seen) returns (outcome: Outcome, replaced: Option<nat>)
      requires DistinctPods(pods)
      modifies this
      ensures replaced.None? ==> pods == old(pods)
      ensures replaced.Some? ==>
        && Open(cfg, seen, old(pods))
        && Replaces(old(pods), seen.revision.value, replaced.value, pods)
        && MayGo(name, cfg, seen, old(pods), replaced.value)
      ensures Open(cfg, seen, old(pods)) && seen.deletes ==>
        (replaced.Some? <==>
          || (exists k :: StaleReplica(cfg, old(pods), seen.revision.value, k))
          || ((exists k :: Stale(old(pods), seen.revision.value, k))
              && CaughtUp(cfg, seen) && LetsPrimaryGo(cfg, seen)))
      ensures outcome == (
        if cfg.resizing || cfg.switching || !cfg.automatic then Done
        else if seen.revision.None? then Failed
        else if seen.revision == Some("") || cfg.primary.None? then Requeue
        else if cfg.replicas == 0 || cfg.replicas != |old(pods)| then Requeue
        else if !HasPrimary(cfg, old(pods)) then Failed
        else if forall k :: !Stale(old(pods), seen.revision.value, k) then Done
        else if seen.readyReplicas != cfg.replicas then Requeue
        else if exists k :: StaleReplica(cfg, old(pods), seen.revision.value, k) then
          if replaced.Some? then Requeue else Failed
        else if !CaughtUp(cfg, seen) then if !cfg.configured then Skip else Requeue
        else if replaced.Some? then Done
        else Failed)
    {
      replaced := None;
      if cfg.resizing || cfg.switching || !cfg.automatic {
        return Done, None;
      }
      if seen.revision.None? {
        return Failed, None;
      }
      var revision := seen.revision.value;
      if revision == "" {
        return Requeue, None;
      }
      var byRole, replicas, primary := GetPodsByRole(cfg);
      if !byRole.Done? {
        return byRole, None;
      }
      var stale := AnyStale(revision);
      if !stale {
        return Done, None;
      }
      if seen.readyReplicas != cfg.replicas {
        return Requeue, None;
      }
      for i := 0 to |replicas|
        invariant pods == old(pods)
        invariant forall a :: 0 <= a < i ==> Updated(pods[replicas[a]], revision)
      {
        var k := replicas[i];
        assert k in replicas;
        if !Updated(pods[k], revision) {
          forall b | StaleReplica(cfg, pods, revision, b) && b != k
            ensures NameLess(name, pods[b].ordinal, pods[k].ordinal)
          {
            assert b in replicas;
            var j :| 0 <= j < |replicas| && replicas[j] == b;
            assert i < j;
          }
          assert StaleReplica(cfg, old(pods), revision, k);
          var deleted := UpdatePod(k, revision, seen.deletes);
          if !deleted {
            return Failed, None;
          }
          return Requeue, Some(k);
        }
      }
      forall k: nat | k < |pods| && k != primary ensures Updated(pods[k], revision) {
        assert k in replicas;
      }
      outcome := WaitForReplicationCaughtUp(cfg, seen);
      if !outcome.Done? || Updated(pods[primary], revision) {
        return outcome, None;
      }
      var deleted := GracefulPrimaryUpdate(cfg, seen, primary, revision);
      if !deleted {
        return Failed, None;
      }
      return Done, Some(primary);
    }
  }

  // ----- over a whole roll

  /** Exactly pod `k`, a stale one, is replaced by one at the update revision. */
  ghost predicate Replaces(before: seq<PodInfo>, revision: string, k: nat, after: seq<PodInfo>) {
    Stale(before, revision, k) && after == before[k := before[k].(revision := Some(revision))]
  }

  function StaleCount(pods: seq<PodInfo>, revision: string): (n: nat)
    ensures n <= |pods|
  {
    if pods == [] then 0
    else StaleCount(pods[..|pods| - 1], revision) + if Updated(pods[|pods| - 1], revision) then 0 else 1
  }

  lemma {:induction false} ReplacingDropsStaleCount(before: seq<PodInfo>, revision: string, k: nat, after: seq<PodInfo>)
    requires Replaces(before, revision, k, after)
    ensures StaleCount(after, revision) == StaleCount(before, revision) - 1
  {
    var n := |before| - 1;
    if k < n {
      assert after[..n] == before[..n][k := before[..n][k].(revision := Some(revision))];
      ReplacingDropsStaleCount(before[..n], revision, k, after[..n]);
    } else {
      assert after[..n] == before[..n];
    }
  }

  /** Pods that others delete meanwhile come back at the update revision too. */
  ghost predicate Drifts(before: seq<PodInfo>, revision: string, after: seq<PodInfo>) {
    |after| == |before| &&
    forall i :: 0 <= i < |before| ==> after[i] == before[i] || after[i] == before[i].(revision := Some(revision))
  }

  lemma {:induction false} DriftNeverRaisesStaleCount(before: seq<PodInfo>, revision: string, after: seq<PodInfo>)
    requires Drifts(before, revision, after)
    ensures StaleCount(after, revision) <= StaleCount(before, revision)
  {
    if before != [] {
      var n := |before| - 1;
      DriftNeverRaisesStaleCount(before[..n], revision, after[..n]);
    }
  }

  /** How many passes of a roll replaced a pod. */
  function Replacements(replaced: seq<Option<nat>>): nat {
    if replaced == [] then 0
    else Replacements(replaced[..|replaced| - 1]) + if replaced[|replaced| - 1].Some? then 1 else 0
  }

  /** A roll at one revision: each pass replaces a stale pod or none, with drift before it. */
  ghost predicate IsRoll(
    starts: seq<seq<PodInfo>>, ends: seq<seq<PodInfo>>, replaced: seq<Option<nat>>, revision: string)
  {
    && |starts| == |ends| == |replaced|
    && (forall i :: 0 <= i < |replaced| ==>
          if replaced[i].Some? then Replaces(starts[i], revision, replaced[i].value, ends[i]) else ends[i] == starts[i])
    && (forall i :: 0 < i < |replaced| ==> Drifts(ends[i - 1], revision, starts[i]))
  }

  /** Replacements so far and pods still stale never exceed the pods that were stale at the start. */
  lemma {:induction false} RollIsBounded(
    starts: seq<seq<PodInfo>>, ends: seq<seq<PodInfo>>, replaced: seq<Option<nat>>, revision: string)
    requires IsRoll(starts, ends, replaced, revision) && replaced != []
    ensures Replacements(replaced) + StaleCount(ends[|ends| - 1], revision) <= StaleCount(starts[0], revision)
  {
    var n := |replaced| - 1;
    if replaced[n].Some? {
      ReplacingDropsStaleCount(starts[n], revision, replaced[n].value, ends[n]);
    }
    if n > 0 {
      DriftNeverRaisesStaleCount(ends[n - 1], revision, starts[n]);
      RollIsBounded(starts[..n], ends[..n], replaced[..n], revision);
    }
  }

  /** A roll ends: no more passes replace a pod than there are pods. */
  lemma RollEnds(starts: seq<seq<PodInfo>>, ends: seq<seq<PodInfo>>, replaced: seq<Option<nat>>, revision: string)
    requires IsRoll(starts, ends, replaced, revision) && replaced != []
    ensures Replacements(replaced) <= |starts[0]|
  {
    RollIsBounded(starts, ends, replaced, revision);
  }
}
