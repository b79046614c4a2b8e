/** When a pass of a cluster at rest carries out the switchover that the spec asks for. */
module RestProgress {
  import opened Wrappers
  import opened Cluster
  import opened Snapshot
  import opened StatusPhase
  import opened Protocol
  import opened Switchover
  import opened Progress

  /** Every pod exists, is ready, and answers both looks of the pass. */
  ghost predicate AllAnswer(pods: seq<Pod>, env: Env) {
    forall i :: 0 <= i < |pods| ==> pods[i].present && pods[i].ready && i in env.look && i in env.reach
  }

  /** Pod `k` has a role that needs no repair: it is standby, or it is primary and recorded as that. */
  ghost predicate RightRole(pods: seq<Pod>, p: int, k: int)
    requires 0 <= k < |pods|
  {
    pods[k].role == Standby || (pods[k].role == Primary && k == p)
  }

  /** Pod `k` is behind the recorded epoch or some other pod's. */
  ghost predicate Behind(pods: seq<Pod>, recorded: Option<nat>, k: int)
    requires 0 <= k < |pods|
  {
    (recorded.Some? && pods[k].epoch < recorded.value) || exists j :: 0 <= j < |pods| && pods[k].epoch < pods[j].epoch
  }

  /** Every pod has the right role or can be given it. */
  ghost predicate Repairable(pods: seq<Pod>, recorded: Option<nat>, p: int) {
    && (recorded.Some? || exists j :: 0 <= j < |pods| && pods[j].epoch > 0)
    && forall k :: 0 <= k < |pods| ==> RightRole(pods, p, k) || Behind(pods, recorded, k)
  }

  /** Another primary, the desired one, is recorded; it is primary at an epoch above all that were there before. */
  ghost predicate Switched(w: World, v: World) {
    && w.status.primary.Some? && v.status.primary != w.status.primary
    && v.status.primary == Some(w.desired) && !v.status.switching
    && IsPrimary(v.pods, w.desired) && Bounds(v.pods, v.pods[w.desired].epoch)
    && Bounds(w.pods, v.pods[w.desired].epoch - 1)
  }

  /** The calls of a pass that it cannot do without; `cut` of 5 or more is a pass nobody interrupts. */
  ghost predicate CallsLand(pods: seq<Pod>, env: Env, cut: nat) {
    env.statusLands && env.flagLands && cut >= 5 && LabelsLand(pods, env)
  }

  /** What a switchover at rest takes. */
  ghost predicate Switchable(w: World, env: Env, healthy: bool, cut: nat) {
    && w.status.primary.Some?
    && var p := w.status.primary.value;
    && healthy && !w.status.resizing && CallsLand(w.pods, env, cut)
    && 0 <= p < |w.pods| && 0 <= w.desired < |w.pods| && p != w.desired
    && Repairable(w.pods, w.status.epoch, p)
    && (w.pods[p].role == Standby || env.drain != Refused)
  }

  // ----- the Status phase and role repair

  lemma SeenEpoch(w: World, env: Env)
    requires AllAnswer(w.pods, env)
    ensures
      var e := AfterStatusPhase(w, env).status.epoch;
      && (e.Some? <==> w.status.epoch.Some? || exists j :: 0 <= j < |w.pods| && w.pods[j].epoch > 0)
      && (e.Some? ==> Bounds(w.pods, e.value))
      && (e.Some? ==> forall k :: 0 <= k < |w.pods| ==>
            (w.pods[k].epoch < e.value <==> Behind(w.pods, w.status.epoch, k)))
  {
    var states := Observe(w.pods, env.look);
    assert forall k :: 0 <= k < |w.pods| ==> states[k].Answered? && states[k].epoch == w.pods[k].epoch;
  }

  lemma SeenRoles(w: World, env: Env, k: int)
    requires AllAnswer(w.pods, env) && w.status.primary.Some? && 0 <= k < |w.pods|
    ensures Configured(AfterStatusPhase(w, env).status, k) <==> RightRole(w.pods, w.status.primary.value, k)
  {
    EntriesReflectRoles(w.pods, env.look, {}, w.status.primary, k);
    assert Heard(w.pods, env.look, {}, k);
  }

  /** Repair gets through exactly if the pods are repairable. */
  lemma RepairIff(w: World, env: Env)
    requires AllAnswer(w.pods, env) && w.status.primary.Some?
    ensures
      var seen := AfterStatusPhase(w, env);
      Repairable(w.pods, w.status.epoch, w.status.primary.value) <==>
        seen.status.epoch.Some? && ConfigurePods(w.pods, seen.status, env.reach, 0).1
  {
    var seen := AfterStatusPhase(w, env);
    var p := w.status.primary.value;
    SeenEpoch(w, env);
    if seen.status.epoch.Some? {
      ConfigurePodsRepairs(w.pods, seen.status, env.reach, 0);
      forall k | 0 <= k < |w.pods|
        ensures RepairFails(w.pods, seen.status, env.reach, k) <==>
          !RightRole(w.pods, p, k) && !Behind(w.pods, w.status.epoch, k)
      {
        SeenRoles(w, env, k);
      }
    }
  }

  /** After it every pod but the recorded primary is standby, and that one is primary unless it was standby. */
  ghost predicate Repaired(w: World, q: seq<Pod>, e: nat, p: int) {
    && SameUp(w.pods, q) && Bounds(q, e) && (forall k :: 0 <= k < |q| ==> w.pods[k].epoch <= q[k].epoch)
    && (forall k :: 0 <= k < |q| && k != p ==> q[k].role == Standby)
    && (0 <= p < |q| ==> q[p].role == if w.pods[p].role == Standby then Standby else Primary)
  }

  lemma RepairedPods(w: World, env: Env)
    requires AllAnswer(w.pods, env) && w.status.primary.Some?
    requires Repairable(w.pods, w.status.epoch, w.status.primary.value)
    ensures
      var seen := AfterStatusPhase(w, env);
      && seen.status.epoch.Some?
      && var q := ConfigurePods(w.pods, seen.status, env.reach, 0).0;
      Repaired(w, q, seen.status.epoch.value, w.status.primary.value)
  {
    var seen := AfterStatusPhase(w, env);
    var p := w.status.primary.value;
    RepairIff(w, env);
    SeenEpoch(w, env);
    var e := seen.status.epoch.value;
    var q := ConfigurePods(w.pods, seen.status, env.reach, 0).0;
    forall k | 0 <= k < |w.pods| ensures RepairedPod(w.pods[k], q[k], e, p, k) {
      RepairedOne(w, env, k);
    }
  }

  /** What repair makes of one pod. */
  ghost predicate RepairedPod(was: Pod, now: Pod, e: nat, p: int, k: int) {
    && now.present == was.present && now.ready == was.ready && was.epoch <= now.epoch <= e
    && now.role == if k == p && was.role != Standby then Primary else Standby
  }

  lemma RepairedOne(w: World, env: Env, k: int)
    requires AllAnswer(w.pods, env) && w.status.primary.Some? && 0 <= k < |w.pods|
    requires Repairable(w.pods, w.status.epoch, w.status.primary.value)
    requires AfterStatusPhase(w, env).status.epoch.Some?
    ensures
      var status := AfterStatusPhase(w, env).status;
      RepairedPod(
        w.pods[k], ConfigurePods(w.pods, status, env.reach, 0).0[k], status.epoch.value, w.status.primary.value, k)
  {
    RepairIff(w, env);
    SeenEpoch(w, env);
    SeenRoles(w, env, k);
    ConfigurePodsRepairs(w.pods, AfterStatusPhase(w, env).status, env.reach, 0);
  }

  // ----- the switchover that follows

  /** The plan is to switch from the recorded primary, at an epoch above everybody's. */
  lemma RepairedPlan(w: World, r: World, env: Env, p: int)
    requires AllAnswer(w.pods, env) && r.status.primary == Some(p) && r.status.epoch.Some?
    requires Repaired(w, r.pods, r.status.epoch.value, p)
    ensures
      var plan := PlanFor(Observe(r.pods, env.reach), r.status);
      plan.current == p && Bounds(r.pods, plan.epoch - 1)
  {
    var states := Observe(r.pods, env.reach);
    assert forall k :: 0 <= k < |r.pods| ==> states[k].Answered? && states[k].epoch == r.pods[k].epoch;
    forall k | AnswersPrimary(states, k) ensures k == p {
      assert r.pods[k].role == Primary;
    }
  }

  /** Recording takes every phase. */
  lemma RecordingTakes(b: World, env: Env, cut: nat)
    requires b.op.Switching? && b.op.phase == 0 && b.status.primary.Some?
    requires RunPhases(b, env, cut).status.primary != b.status.primary
    ensures
      var p := b.status.primary.value;
      && cut >= 5 && (forall k :: k in env.unpatched && k < |b.pods| ==> !b.pods[k].present)
      && 0 <= p < |b.pods| && 0 <= b.op.target < |b.pods|
      && (b.pods[p].present && b.pods[p].ready && b.pods[p].role != Standby ==> env.drain != Refused)
  {
    Unfold(b, env, cut);
    var w1 := PhaseStep(b, env).value;
    assert w1.status == b.status;
    Unfold(w1, env, cut - 1);
    var w2 := PhaseStep(w1, env).value;
    Unfold(w2, env, cut - 2);
    var w3 := PhaseStep(w2, env).value;
    Unfold(w3, env, cut - 3);
  }

  lemma RepairedStarts(w: World, r: World, env: Env, p: int)
    requires AllAnswer(w.pods, env) && r.status.primary == Some(p) && r.status.epoch.Some? && r.desired == w.desired
    requires Repaired(w, r.pods, r.status.epoch.value, p) && LabelsLand(w.pods, env)
    requires 0 <= p < |w.pods| && 0 <= w.desired < |w.pods| && p != w.desired
    requires w.pods[p].role == Standby || env.drain != Refused
    ensures
      var b := Start(r, env);
      && Starting(b, env) && OldPrimaryYields(b, env) && b.op.target == w.desired && b.pods == r.pods
      && IsUp(r.pods, b.op.plan.current) && Bounds(r.pods, b.op.plan.epoch - 1)
  {
    RepairedPlan(w, r, env, p);
  }

  /** A switchover that starts well, from a planned current primary that is up, leaves its target at the top. */
  lemma StartedSwitches(b: World, env: Env, cut: nat)
    requires Starting(b, env) && OldPrimaryYields(b, env) && cut >= 5
    requires IsUp(b.pods, b.op.plan.current) && Bounds(b.pods, b.op.plan.epoch - 1)
    ensures
      var v := RunPhases(b, env, cut);
      && |v.pods| == |b.pods| && v.status.primary == Some(b.op.target) && !v.status.switching
      && IsPrimary(v.pods, b.op.target) && v.pods[b.op.target].epoch == b.op.plan.epoch
      && Bounds(v.pods, b.op.plan.epoch)
  {
    var v := ThreePhases(b, env);
    assert RunPhases(b, env, cut) == RunPhases(v, env, cut - 3);
    assert IsUp(v.pods, v.op.plan.current);
    ClosingSteps(v, env, cut - 3);
    var u := RunPhases(b, env, cut);
    forall i | 0 <= i < |u.pods| ensures u.pods[i].epoch == v.pods[i].epoch && u.pods[i].role == v.pods[i].role {
    }
  }

  /** From the repaired pods on, an uncut switchover goes through. */
  lemma RepairedSwitches(w: World, r: World, env: Env, cut: nat, p: int)
    requires AllAnswer(w.pods, env) && r.status.primary == Some(p) && r.status.epoch.Some? && r.desired == w.desired
    requires Repaired(w, r.pods, r.status.epoch.value, p) && w.status.primary == Some(p)
    requires cut >= 5 && LabelsLand(w.pods, env)
    requires 0 <= p < |w.pods| && 0 <= w.desired < |w.pods| && p != w.desired
    requires w.pods[p].role == Standby || env.drain != Refused
    ensures Switched(w, RunPhases(Start(r, env), env, cut))
  {
    RepairedStarts(w, r, env, p);
    StartedSwitches(Start(r, env), env, cut);
    var e := Start(r, env).op.plan.epoch;
    forall k | 0 <= k < |w.pods| ensures w.pods[k].epoch <= e - 1 {
      assert w.pods[k].epoch <= r.pods[k].epoch;
    }
  }

  /** Once the pods are repaired, it depends on the rest. */
  lemma RepairedSwitchesIff(w: World, r: World, env: Env, cut: nat, p: int)
    requires AllAnswer(w.pods, env) && r.status.primary == Some(p) && r.status.epoch.Some? && r.desired == w.desired
    requires Repaired(w, r.pods, r.status.epoch.value, p) && w.status.primary == Some(p)
    ensures
      var v := if r.status.resizing || p == w.desired || !env.flagLands then r else RunPhases(Start(r, env), env, cut);
      Switched(w, v) <==>
        && !r.status.resizing && env.flagLands && cut >= 5 && LabelsLand(w.pods, env)
        && 0 <= p < |w.pods| && 0 <= w.desired < |w.pods| && p != w.desired
        && (w.pods[p].role == Standby || env.drain != Refused)
  {
    if !r.status.resizing && env.flagLands && p != w.desired {
      var b := Start(r, env);
      if RunPhases(b, env, cut).status.primary != Some(p) {
        RecordingTakes(b, env, cut);
        RepairedSwitches(w, r, env, cut, p);
      } else if cut >= 5 && LabelsLand(w.pods, env) && 0 <= p < |w.pods| && 0 <= w.desired < |w.pods|
             && (w.pods[p].role == Standby || env.drain != Refused)
      {
        RepairedSwitches(w, r, env, cut, p);
      }
    }
  }

  /**
    With every pod up and answering, a pass of a cluster at rest switches to the desired pod if and only if: the
    StatefulSet counts as healthy, no resize is in progress, the calls land, recorded and desired pod exist and
    differ, every pod has the right role or is behind and can be given it, and Dolt does not refuse to drain a
    recorded primary that is not standby.
   */
  lemma RestPassSwitchesIff(w: World, env: Env, healthy: bool, cut: nat)
    requires w.op.Idle? && !w.status.switching && AllAnswer(w.pods, env)
    ensures Switched(w, RestPass(w, env, healthy, cut)) <==> Switchable(w, env, healthy, cut)
  {
    if w.status.primary.Some? {
      RepairIff(w, env);
      if env.statusLands && healthy && Repairable(w.pods, w.status.epoch, w.status.primary.value) {
        RepairedPods(w, env);
        var seen := AfterStatusPhase(w, env);
        var r := seen.(pods := ConfigurePods(w.pods, seen.status, env.reach, 0).0);
        RepairedSwitchesIff(w, r, env, cut, w.status.primary.value);
      } else {
        UnrepairedStays(w, env, healthy, cut);
      }
    }
  }

  lemma UnrepairedStays(w: World, env: Env, healthy: bool, cut: nat)
    requires AllAnswer(w.pods, env) && w.status.primary.Some?
    requires !env.statusLands || !healthy || !Repairable(w.pods, w.status.epoch, w.status.primary.value)
    ensures RestPass(w, env, healthy, cut).status.primary == w.status.primary
  {
    RepairIff(w, env);
  }

  /** In particular a cluster whose roles are in order switches in the one pass that follows the edit of its spec. */
  lemma EditedSpecSwitches(w: World, env: Env, p: int)
    requires w.op.Idle? && !w.status.switching && !w.status.resizing && AllAnswer(w.pods, env)
    requires w.status.primary == Some(p) && 0 <= p < |w.pods| && 0 <= w.desired < |w.pods| && p != w.desired
    requires forall k :: 0 <= k < |w.pods| ==> w.pods[k].epoch > 0 && w.pods[k].role == ConfiguredRole(p, k)
    requires env.statusLands && env.flagLands && env.unpatched == {} && env.drain == Drained
    ensures Switched(w, RestPass(w, env, true, 5))
  {
    RestPassSwitchesIff(w, env, true, 5);
    assert w.pods[p].epoch > 0;
  }
}
