/**
  The replicated cluster as the operator sees it: pods that run a Dolt server, the DoltDB object
  that records what the operator believes, and the contract assumed of Dolt's stored procedures.
 */
module Cluster {
  import opened Wrappers

  /** `@@global.dolt_cluster_role`; Other stands for every further non-empty text. */
  datatype Role = Primary | Standby | Other

  /** One StatefulSet pod. Role and epoch live on its volume and survive a restart; the rest does not. */
  datatype Pod = Pod(role: Role, epoch: nat, roleLabel: Option<Role>, ready: bool, present: bool)

  /** What `GetDBState` brings back from one pod: nothing, or a role with its epoch. `failed` is `Err != nil`. */
  datatype DBState = Unanswered(failed: bool) | Answered(role: Role, epoch: nat, failed: bool)

  datatype ReplicationState = StatePrimary | StateStandby | NotConfigured

  /** `status` of a DoltDB. Pods are named by ordinal: pod names are injective in it (module Names). */
  datatype Status = Status(
    primary: Option<int>,
    epoch: Option<nat>,
    replication: Option<map<int, ReplicationState>>,
    switching: bool,
    resizing: bool)

  ghost predicate IsPrimary(pods: seq<Pod>, i: int) {
    0 <= i < |pods| && pods[i].role == Primary
  }

  /** No two pods are primary at one epoch. */
  ghost predicate UniquePrimaryPerEpoch(pods: seq<Pod>) {
    forall i, j :: 0 <= i < j < |pods| && IsPrimary(pods, i) && IsPrimary(pods, j) ==> pods[i].epoch != pods[j].epoch
  }

  /** `e` bounds every epoch in the cluster. */
  ghost predicate Bounds(pods: seq<Pod>, e: int) {
    forall i :: 0 <= i < |pods| ==> pods[i].epoch <= e
  }

  /** `e` is the highest epoch in the cluster. */
  ghost predicate IsTop(pods: seq<Pod>, e: nat) {
    Bounds(pods, e) && exists i :: 0 <= i < |pods| && pods[i].epoch == e
  }

  /** Some pod in `reach` carries the highest epoch of the cluster. */
  ghost predicate Covers(pods: seq<Pod>, reach: set<nat>) {
    exists i :: i in reach && i < |pods| && Bounds(pods, pods[i].epoch)
  }

  // ----- Dolt's stored procedures, assumed

  /** DOLT_ASSUME_CLUSTER_ROLE: a lower epoch is rejected, and so is another role at the same epoch. */
  function AssumeRole(pod: Pod, role: Role, epoch: nat): Option<Pod> {
    if epoch < pod.epoch || (epoch == pod.epoch && role != pod.role) then None
    else Some(pod.(role := role, epoch := epoch))
  }

  /** DOLT_CLUSTER_TRANSITION_TO_STANDBY, once the drain it waits for has succeeded. */
  function TransitionToStandby(pod: Pod, epoch: nat): Option<Pod> {
    AssumeRole(pod, Standby, epoch)
  }
}
