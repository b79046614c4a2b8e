/** Whole passes keep the invariant of the protocol, wherever they are cut. */
module PassSafety {
  import opened Wrappers
  import opened Cluster
  import opened Snapshot
  import opened StatusPhase
  import opened Protocol
  import opened Switchover

  lemma PhaseKeepsInv(w: World, env: Env)
    requires Inv(w) && w.op.Switching? && w.op.phase <= 4 && PhaseStep(w, env).Some?
    ensures Inv(PhaseStep(w, env).value)
  {
    var v := PhaseStep(w, env).value;
    match w.op.phase
    case 0 =>
      var u := w.(pods := v.pods);
      SameRolesKeepInv(w, u);
      StepKeepsInv(u, EndShiftAway, v);
    case 1 => StepKeepsInv(w, SetReadOnly(v.pods != w.pods), v);
    case 2 => StepKeepsInv(w, Promote, v);
    case 3 => StepKeepsInv(w, ShiftTo, v);
    case _ => StepKeepsInv(w, Record, v);
  }

  lemma AdvanceKeepsInv(w: World, env: Env)
    requires Inv(w) && w.op.Switching? && w.op.phase <= 4 && w.status.primary.Some?
    ensures Inv(Advance(w, env))
  {
    if PhaseStep(w, env).Some? {
      PhaseKeepsInv(w, env);
    } else {
      EndedPassKeepsInv(w, FailedPhase(w, env));
    }
  }

  lemma {:induction false} PhasesKeepInv(w: World, env: Env, cut: nat)
    requires Inv(w) && w.op.Switching? && w.op.phase <= 4 && w.status.primary.Some?
    ensures Inv(RunPhases(w, env, cut))
    decreases cut
  {
    if cut == 0 {
      EndedPassKeepsInv(w, w.(op := Idle));
    } else {
      AdvanceKeepsInv(w, env);
      RunAdvances(w, env, cut);
      if Advance(w, env).op.Switching? {
        PhasesKeepInv(Advance(w, env), env, cut - 1);
      }
    }
  }

  lemma EndedPassKeepsInv(w: World, v: World)
    requires Inv(w) && SameRolesAndEpochs(w.pods, v.pods) && v == w.(pods := v.pods, op := Idle)
    ensures Inv(v)
  {
    var u := w.(pods := v.pods);
    SameRolesKeepInv(w, u);
    StepKeepsInv(u, Abandon, v);
  }

  /** The Status phase of a covered pass. */
  lemma LookKeepsInv(w: World, env: Env)
    requires Inv(w) && w.op.Idle? && Covers(w.pods, env.look)
    ensures
      var seen := AfterStatusPhase(w, env);
      Inv(seen) && Inv(seen.(op := Observed(w.desired, w.status.switching)))
  {
    var fetched := w.(op := Fetched(w.desired, w.status.switching));
    StepKeepsInv(w, Fetch, fetched);
    var observed := fetched.(status := AfterStatus(fetched, env.look, {}, false),
                             op := Observed(w.desired, w.status.switching));
    StepKeepsInv(fetched, ObserveStatus(env.look, {}, false, false), observed);
    StepKeepsInv(observed, Abandon, observed.(op := Idle));
    assert observed.(op := Idle) == AfterStatusPhase(w, env);
  }

  lemma StartKeepsInv(w: World, env: Env)
    requires Inv(w) && ShouldSwitch(w) && Covers(w.pods, env.reach)
    requires w.op == Replicated(w.desired) || w.op == Observed(w.desired, true)
    ensures Inv(Start(w, env))
  {
    StepKeepsInv(w, BeginSwitchover(env.reach, {}, w.desired), Start(w, env));
  }

  /** A pass of a switchover, cut anywhere, keeps the invariant when its snapshot covers the top epoch. */
  lemma SwitchoverPassKeepsInv(w: World, env: Env, cut: nat)
    requires Inv(w) && w.op.Idle? && w.status.switching && Covers(w.pods, env.look) && Covers(w.pods, env.reach)
    ensures Inv(SwitchoverPass(w, env, cut))
  {
    LookKeepsInv(w, env);
    var seen := AfterStatusPhase(w, env);
    if env.statusLands && ShouldSwitch(seen) && env.flagLands {
      var observed := seen.(op := Observed(w.desired, true));
      StartKeepsInv(observed, env);
      assert Start(observed, env) == Start(seen, env);
      PhasesKeepInv(Start(seen, env), env, cut);
    }
  }

  /** Repairing a pod keeps the snapshot covering: nothing rises above the recorded epoch, which is the top one. */
  lemma RepairKeepsCover(w: World, issue: bool, v: World, reach: set<nat>)
    requires Inv(w) && Next(w, ConfigurePod(issue), v) && Covers(w.pods, reach)
    ensures Covers(v.pods, reach)
  {
    var c :| c in reach && c < |w.pods| && Bounds(w.pods, w.pods[c].epoch);
    assert IsTop(w.pods, w.status.epoch.value);
    assert w.pods[c].epoch == w.status.epoch.value;
    assert Bounds(v.pods, v.pods[c].epoch);
  }

  /** The pass while it repairs, once it has been abandoned, and once it is through. */
  ghost predicate RepairedWell(pods: seq<Pod>, desired: int, status: Status, target: int, ok: bool, reach: set<nat>) {
    && Inv(World(pods, desired, status, Idle))
    && (ok ==> Inv(World(pods, desired, status, Replicated(target))))
    && Covers(pods, reach)
  }

  lemma {:induction false} ConfigurePodsKeepsInv(w: World, reach: set<nat>)
    requires Inv(w) && w.op.Replicating? && w.op.index <= |w.pods| && w.status.primary.Some? && w.status.epoch.Some?
    requires Covers(w.pods, reach)
    ensures
      var r := ConfigurePods(w.pods, w.status, reach, w.op.index);
      RepairedWell(r.0, w.desired, w.status, w.op.target, r.1, reach)
    decreases |w.pods| - w.op.index
  {
    if w.op.index == |w.pods| || RepairFails(w.pods, w.status, reach, w.op.index) {
      RepairEndsWell(w, reach);
    } else {
      var v := RepairStep(w, reach);
      ConfigurePodsKeepsInv(v, reach);
    }
  }

  /** One pod further. */
  lemma RepairStep(w: World, reach: set<nat>) returns (v: World)
    requires Inv(w) && w.op.Replicating? && w.op.index < |w.pods| && w.status.primary.Some? && w.status.epoch.Some?
    requires Covers(w.pods, reach) && !RepairFails(w.pods, w.status, reach, w.op.index)
    ensures Inv(v) && Covers(v.pods, reach) && |v.pods| == |w.pods|
    ensures v.desired == w.desired && v.status == w.status && v.op == Replicating(w.op.target, w.op.index + 1)
    ensures ConfigurePods(w.pods, w.status, reach, w.op.index) == ConfigurePods(v.pods, w.status, reach, w.op.index + 1)
  {
    var i := w.op.index;
    var issue := !Configured(w.status, i);
    var r := AssumeRole(w.pods[i], ConfiguredRole(w.status.primary.value, i), w.status.epoch.value);
    v := w.(pods := if issue then w.pods[i := r.value] else w.pods, op := Replicating(w.op.target, i + 1));
    RepairStepKeepsInv(w, issue, v, reach);
  }

  lemma RepairEndsWell(w: World, reach: set<nat>)
    requires Inv(w) && w.op.Replicating? && w.op.index <= |w.pods| && w.status.primary.Some? && w.status.epoch.Some?
    requires Covers(w.pods, reach)
    requires w.op.index == |w.pods| || RepairFails(w.pods, w.status, reach, w.op.index)
    ensures
      var r := ConfigurePods(w.pods, w.status, reach, w.op.index);
      RepairedWell(r.0, w.desired, w.status, w.op.target, r.1, reach)
  {
    StepKeepsInv(w, Abandon, w.(op := Idle));
    if w.op.index == |w.pods| {
      StepKeepsInv(w, EndReplication, w.(op := Replicated(w.op.target)));
    }
  }

  lemma RepairStepKeepsInv(w: World, issue: bool, v: World, reach: set<nat>)
    requires Inv(w) && Next(w, ConfigurePod(issue), v) && Covers(w.pods, reach)
    ensures Inv(v) && Covers(v.pods, reach)
  {
    StepKeepsInv(w, ConfigurePod(issue), v);
    RepairKeepsCover(w, issue, v, reach);
  }

  lemma RepairKeepsInv(seen: World, env: Env)
    requires seen.op.Idle? && Covers(seen.pods, env.reach) && seen.status.primary.Some? && seen.status.epoch.Some?
    requires Inv(seen.(op := Observed(seen.desired, false)))
    ensures
      var r := ConfigurePods(seen.pods, seen.status, env.reach, 0);
      RepairedWell(r.0, seen.desired, seen.status, seen.desired, r.1, env.reach)
  {
    var replicating := seen.(op := Replicating(seen.desired, 0));
    StepKeepsInv(seen.(op := Observed(seen.desired, false)), BeginReplication, replicating);
    ConfigurePodsKeepsInv(replicating, env.reach);
  }

  /** From the repaired pods on. */
  lemma SwitchAfterRepairKeepsInv(repaired: World, env: Env, cut: nat)
    requires Inv(repaired.(op := Replicated(repaired.desired)))
    requires Covers(repaired.pods, env.reach) && ShouldSwitch(repaired)
    ensures Inv(RunPhases(Start(repaired, env), env, cut))
  {
    var replicated := repaired.(op := Replicated(repaired.desired));
    StartKeepsInv(replicated, env);
    assert Start(replicated, env) == Start(repaired, env);
    PhasesKeepInv(Start(repaired, env), env, cut);
  }

  /** A pass at rest, cut anywhere, keeps the invariant when its snapshot covers the top epoch. */
  lemma RestPassKeepsInv(w: World, env: Env, healthy: bool, cut: nat)
    requires Inv(w) && w.op.Idle? && !w.status.switching && Covers(w.pods, env.look) && Covers(w.pods, env.reach)
    ensures Inv(RestPass(w, env, healthy, cut))
  {
    LookKeepsInv(w, env);
    var v := RestPass(w, env, healthy, cut);
    var seen := AfterStatusPhase(w, env);
    if !env.statusLands {
      assert v == w;
    } else if !healthy || seen.status.epoch.None? {
      assert v == seen;
    } else {
      RepairKeepsInv(seen, env);
      var r := ConfigurePods(seen.pods, seen.status, env.reach, 0);
      var repaired := seen.(pods := r.0);
      if r.1 && ShouldSwitch(repaired) && env.flagLands {
        assert v == RunPhases(Start(repaired, env), env, cut);
        SwitchAfterRepairKeepsInv(repaired, env, cut);
      } else {
        assert v == repaired;
      }
    }
  }
}
