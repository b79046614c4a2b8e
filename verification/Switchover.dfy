/**
  A whole switchover pass, phase by phase, as a function of what the pods look like and which calls get through.
  The class in Operator.dfy carries these out step by step; module Progress says when they finish.
 */
module Switchover {
  import opened Wrappers
  import opened Cluster
  import opened Snapshot
  import opened StatusPhase
  import opened Protocol

  /** How DOLT_CLUSTER_TRANSITION_TO_STANDBY ends when it is attempted. */
  datatype Drain = Drained | AlreadyReadOnly | Refused

  /**
    What a pass meets: the pods that answer the Status phase, those that answer after it, the end of the drain,
    the pods whose label cannot be patched, and whether the patch of the Status phase and the one that raises the
    switching flag land.
   */
  datatype Env = Env(
    look: set<nat>, reach: set<nat>, drain: Drain, unpatched: set<nat>, statusLands: bool, flagLands: bool)

  predicate IsUp(pods: seq<Pod>, i: int) {
    0 <= i < |pods| && pods[i].present && pods[i].ready
  }

  /** `shouldReconcileSwitchover`. */
  predicate ShouldSwitch(w: World) {
    !w.status.resizing && w.status.primary.Some? && w.status.primary.value != w.desired
  }

  // ----- the four phases on the pods; None is an error return

  /** No label patch fails up to and including pod `i`. */
  predicate PatchedUpTo(pods: seq<Pod>, unpatched: set<nat>, i: nat) {
    forall k :: k in unpatched && k <= i && k < |pods| ==> !pods[k].present
  }

  /** `shiftTrafficAwayFromPrimary`: pods that cannot be fetched are skipped, and a failed patch ends the loop. */
  function ShiftAway(pods: seq<Pod>, unpatched: set<nat>): (r: seq<Pod>)
    ensures SameRolesAndEpochs(pods, r)
  {
    seq(|pods|, i requires 0 <= i < |pods| =>
      if pods[i].present && PatchedUpTo(pods, unpatched, i) then pods[i].(roleLabel := Some(Standby)) else pods[i])
  }

  /** One step of the loop: pod `i`, when no patch has failed before it. */
  lemma ShiftAwayAt(pods: seq<Pod>, unpatched: set<nat>, i: nat)
    requires i < |pods| && forall k :: k in unpatched && k < i ==> !pods[k].present
    ensures
      var r := ShiftAway(pods, unpatched);
      if !pods[i].present then r[i] == pods[i]
      else if i in unpatched then forall k :: i <= k < |pods| ==> r[k] == pods[k]
      else r[i] == pods[i].(roleLabel := Some(Standby))
  {
  }

  /** A standby host to drain to: some pod that is up and is not the recorded primary. */
  predicate HasHealthyStandby(pods: seq<Pod>, primary: int) {
    exists i :: 0 <= i < |pods| && i != primary && IsUp(pods, i)
  }

  /** `setPrimaryReadOnly` on the recorded primary. */
  function ReadOnly(pods: seq<Pod>, primary: int, epoch: nat, env: Env): Option<seq<Pod>> {
    if !(0 <= primary < |pods|) || !pods[primary].present then None
    else if !pods[primary].ready then Some(pods)
    else if primary !in env.reach then None
    else if pods[primary].role == Standby then Some(pods)
    else if !HasHealthyStandby(pods, primary) then None
    else match env.drain
      case Refused => None
      case AlreadyReadOnly => Some(pods)
      case Drained =>
        match TransitionToStandby(pods[primary], epoch)
        case None => None
        case Some(pod) => Some(pods[primary := pod])
  }

  /** `configureNewPrimary` on the desired pod. */
  function ConfigureNewPrimary(pods: seq<Pod>, target: int, epoch: nat, env: Env): Option<seq<Pod>> {
    if !(0 <= target < |pods|) || target !in env.reach then None
    else
      match AssumeRole(pods[target], Primary, epoch)
      case None => None
      case Some(pod) => Some(pods[target := pod])
  }

  /** `shiftTrafficToNewPrimary`, on the current primary of the plan as the code has it. */
  function ShiftToPlanned(pods: seq<Pod>, current: int, unpatched: set<nat>): Option<seq<Pod>> {
    if IsUp(pods, current) && current !in unpatched then Some(Relabel(pods, current, Primary)) else None
  }

  /** The next phase of a running switchover; phase 4 is the closing status patch. */
  function PhaseStep(w: World, env: Env): Option<World>
    requires w.op.Switching? && w.op.phase <= 4 && w.status.primary.Some?
  {
    var next := w.(op := w.op.(phase := w.op.phase + 1));
    match w.op.phase
    case 0 =>
      if !PatchedUpTo(w.pods, env.unpatched, |w.pods|) then None
      else Some(next.(pods := ShiftAway(w.pods, env.unpatched)))
    case 1 =>
      (match ReadOnly(w.pods, w.status.primary.value, w.op.plan.epoch, env)
       case None => None
       case Some(pods) => Some(next.(pods := pods)))
    case 2 =>
      (match ConfigureNewPrimary(w.pods, w.op.target, w.op.plan.epoch, env)
       case None => None
       case Some(pods) => Some(next.(pods := pods)))
    case 3 =>
      (match ShiftToPlanned(w.pods, w.op.plan.current, env.unpatched)
       case None => None
       case Some(pods) => Some(next.(pods := pods)))
    case _ =>
      Some(w.(status := w.status.(primary := Some(w.op.target),
                                  epoch := UpdateReplicationEpoch(w.status.epoch, w.op.plan.epoch),
                                  switching := false),
              op := Idle))
  }

  /** What a failed phase leaves behind: the first one has patched the labels before the one that failed. */
  function FailedPhase(w: World, env: Env): World
    requires w.op.Switching?
  {
    w.(pods := if w.op.phase == 0 then ShiftAway(w.pods, env.unpatched) else w.pods, op := Idle)
  }

  /** Runs phases until one fails, the pass is cut after `cut` of them, or the switchover is recorded. */
  function RunPhases(w: World, env: Env, cut: nat): (v: World)
    requires w.op.Switching? && w.op.phase <= 4 && w.status.primary.Some?
    ensures v.op.Idle? && v.desired == w.desired && |v.pods| == |w.pods|
    decreases 5 - w.op.phase
  {
    if cut == 0 then w.(op := Idle)
    else
      match PhaseStep(w, env)
      case None => FailedPhase(w, env)
      case Some(v) => if v.op.Idle? then v else RunPhases(v, env, cut - 1)
  }

  /** One phase, through or failed. */
  function Advance(w: World, env: Env): World
    requires w.op.Switching? && w.op.phase <= 4 && w.status.primary.Some?
  {
    match PhaseStep(w, env)
    case None => FailedPhase(w, env)
    case Some(v) => v
  }

  lemma RunAdvances(w: World, env: Env, cut: nat)
    requires w.op.Switching? && w.op.phase <= 4 && w.status.primary.Some? && cut > 0
    ensures
      var v := Advance(w, env);
      && (v.op.Switching? ==> v.op.phase <= 4 && v.status.primary.Some?)
      && RunPhases(w, env, cut) == if v.op.Switching? then RunPhases(v, env, cut - 1) else v
  {
  }

  /** How many phases get through, the closing status patch included. */
  function PhasesDone(w: World, env: Env, cut: nat): nat
    requires w.op.Switching? && w.op.phase <= 4 && w.status.primary.Some?
    decreases 5 - w.op.phase
  {
    if cut == 0 then 0
    else
      match PhaseStep(w, env)
      case None => 0
      case Some(v) => if v.op.Idle? then 1 else 1 + PhasesDone(v, env, cut - 1)
  }

  lemma Unfold(w: World, env: Env, cut: nat)
    requires w.op.Switching? && w.op.phase <= 4 && w.status.primary.Some? && cut > 0
    requires PhaseStep(w, env).Some?
    ensures
      var v := PhaseStep(w, env).value;
      RunPhases(w, env, cut) == if v.op.Idle? then v else RunPhases(v, env, cut - 1)
  {
  }

  /** The world as the phases of a switchover begin: flagged, with the plan the snapshot gives. */
  ghost function Start(w: World, env: Env): World {
    w.(status := w.status.(switching := true),
       op := Switching(0, w.desired, PlanFor(Observe(w.pods, env.reach), w.status)))
  }

  function AfterStatusPhase(w: World, env: Env): World {
    w.(status := AfterStatus(w.(op := Fetched(w.desired, w.status.switching)), env.look, {}, false))
  }

  /** A pass of a cluster whose primary is being switched; `cut` of 5 or more is a pass nobody interrupts. */
  ghost function SwitchoverPass(w: World, env: Env, cut: nat): (v: World)
    ensures w.op.Idle? ==> v.op.Idle?
    ensures v.desired == w.desired && |v.pods| == |w.pods|
  {
    var seen := AfterStatusPhase(w, env);
    if !env.statusLands then w
    else if !ShouldSwitch(seen) || !env.flagLands then seen
    else
      RunPhases(Start(seen, env), env, cut)
  }

  // ----- a pass of a cluster at rest

  /** The recorded replication state of pod `i` needs no repair. */
  predicate Configured(status: Status, i: int) {
    status.replication.Some? && i in status.replication.value && status.replication.value[i] != NotConfigured
  }

  /** `reconcileReplication` from pod `i` on: the pods, and whether every repair that was needed got through. */
  function ConfigurePods(pods: seq<Pod>, status: Status, reach: set<nat>, i: nat): (r: (seq<Pod>, bool))
    requires i <= |pods| && status.primary.Some? && status.epoch.Some?
    ensures |r.0| == |pods|
    decreases |pods| - i
  {
    if i == |pods| then (pods, true)
    else if Configured(status, i) then ConfigurePods(pods, status, reach, i + 1)
    else if i !in reach then (pods, false)
    else
      match AssumeRole(pods[i], ConfiguredRole(status.primary.value, i), status.epoch.value)
      case None => (pods, false)
      case Some(pod) => ConfigurePods(pods[i := pod], status, reach, i + 1)
  }

  /** Pod `k` needs repair and its call is lost or refused. */
  predicate RepairFails(pods: seq<Pod>, status: Status, reach: set<nat>, k: nat)
    requires k < |pods| && status.primary.Some? && status.epoch.Some?
  {
    && !Configured(status, k)
    && (k !in reach || AssumeRole(pods[k], ConfiguredRole(status.primary.value, k), status.epoch.value).None?)
  }

  /**
    Repair gets through if and only if no single repair fails; then every pod that needed it ends in the role its
    ordinal calls for, at the recorded epoch unincremented. Only the recorded primary is made primary, and the others
    are left alone.
   */
  lemma {:induction false} ConfigurePodsRepairs(pods: seq<Pod>, status: Status, reach: set<nat>, i: nat)
    requires i <= |pods| && status.primary.Some? && status.epoch.Some?
    ensures
      var r := ConfigurePods(pods, status, reach, i);
      && (forall k :: 0 <= k < i ==> r.0[k] == pods[k])
      && (forall k :: i <= k < |pods| && Configured(status, k) ==> r.0[k] == pods[k])
      && (r.1 ==> forall k :: i <= k < |pods| && !Configured(status, k) ==>
            r.0[k] == pods[k].(role := ConfiguredRole(status.primary.value, k), epoch := status.epoch.value))
      && (r.1 <==> forall k :: i <= k < |pods| ==> !RepairFails(pods, status, reach, k))
    decreases |pods| - i
  {
    if i < |pods| {
      if Configured(status, i) {
        ConfigurePodsRepairs(pods, status, reach, i + 1);
      } else {
        var a := AssumeRole(pods[i], ConfiguredRole(status.primary.value, i), status.epoch.value);
        if i in reach && a.Some? {
          var next := pods[i := a.value];
          ConfigurePodsRepairs(next, status, reach, i + 1);
          assert ConfigurePods(pods, status, reach, i) == ConfigurePods(next, status, reach, i + 1);
          assert forall k :: i < k < |pods| ==>
            RepairFails(next, status, reach, k) == RepairFails(pods, status, reach, k);
        } else {
          assert RepairFails(pods, status, reach, i);
        }
      }
    }
  }

  /** A pass outside a switchover: look, repair roles if all pods are healthy, then switch if the spec asks for it. */
  ghost function RestPass(w: World, env: Env, healthy: bool, cut: nat): World {
    var seen := AfterStatusPhase(w, env);
    if !env.statusLands then w
    else if !healthy || seen.status.primary.None? || seen.status.epoch.None? then seen
    else
      var (pods, ok) := ConfigurePods(seen.pods, seen.status, env.reach, 0);
      var repaired := seen.(pods := pods);
      if !ok || !ShouldSwitch(repaired) || !env.flagLands then repaired
      else RunPhases(Start(repaired, env), env, cut)
  }

  // ----- the Labels phase

  /** Every pod that is up and scheduled is labelled for the recorded primary; the others keep their label. */
  function LabelledFor(pods: seq<Pod>, primary: int, scheduled: set<nat>): (r: seq<Pod>)
    ensures SameRolesAndEpochs(pods, r)
  {
    seq(|pods|, i requires 0 <= i < |pods| =>
      if IsUp(pods, i) && i in scheduled then pods[i].(roleLabel := Some(ConfiguredRole(primary, i))) else pods[i])
  }

  /** The switchover is over and the desired pod is the recorded primary. */
  predicate Completed(w: World) {
    w.status.primary == Some(w.desired) && !w.status.switching
  }
}
