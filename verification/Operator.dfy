/**
  The replication part of the operator as it runs: an object whose methods patch pods and status call by call.
  Every method keeps the log of what it did a run of the state machine in module Protocol, so the theorems
  about runs are theorems about these methods; and a pass computes the function in module Switchover.
 */
module Operator {
  import opened Wrappers
  import opened Cluster
  import opened Snapshot
  import opened StatusPhase
  import opened Protocol
  import opened Switchover
  import opened Ordinals
  import opened Freshness

  class Reconciler {
    var pods: seq<Pod>
    var desired: int
    var status: Status
    var op: Op
    ghost var worlds: seq<World>
    ghost var events: seq<Event>

    ghost function Now(): World
      reads this
    {
      World(pods, desired, status, op)
    }

    ghost predicate Valid()
      reads this
    {
      IsRun(worlds, events) && worlds[|worlds| - 1] == Now()
    }

    /** The log only grows. */
    twostate predicate Extends()
      reads this
    {
      old(worlds) <= worlds && old(events) <= events
    }

    constructor (pods: seq<Pod>, desired: int, status: Status)
      ensures Valid() && Now() == World(pods, desired, status, Idle) && worlds == [Now()] && events == []
    {
      this.pods, this.desired, this.status, op := pods, desired, status, Idle;
      worlds, events := [World(pods, desired, status, Idle)], [];
    }

    /** Logs the step that led to the present state. */
    ghost method Log(e: Event)
      requires IsRun(worlds, events) && Next(worlds[|worlds| - 1], e, Now())
      modifies this`worlds, this`events
      ensures Valid() && Extends()
    {
      worlds, events := worlds + [Now()], events + [e];
    }

    /** `Reconcile` of the Status phase. */
    method ReconcileStatus(reach: set<nat>, failed: set<nat>)
      requires Valid() && op == Fetched(desired, status.switching)
      modifies this
      ensures Valid() && Extends()
      ensures Now() == old(Now()).(
        status := AfterStatus(old(Now()), reach, failed, false), op := Observed(old(desired), old(status.switching)))
    {
      var states := Observe(pods, reach, failed);
      var replication, highestEpoch := GetReplicationStatusAndEpoch(states, pods, status);
      status := status.(primary := DefaultPrimary(status.primary, desired));
      if highestEpoch != -1 {
        status := status.(epoch := UpdateReplicationEpoch(status.epoch, highestEpoch));
      }
      status := status.(replication := Some(replication));
      op := Observed(op.target, op.switching);
      Log(ObserveStatus(reach, failed, false, false));
    }

    /** `reconcileReplication`: false on an error return or a requeue. */
    method ReconcileReplication(reach: set<nat>) returns (ok: bool)
      requires Valid() && op.Observed? && !op.switching && status.replication.Some?
      modifies this
      ensures Valid() && Extends() && desired == old(desired) && status == old(status)
      ensures ok ==> status.primary.Some? && status.epoch.Some? && op == Replicated(old(op.target))
      ensures
        if status.primary.None? || status.epoch.None? then !ok && pods == old(pods)
        else (pods, ok) == ConfigurePods(old(pods), status, reach, 0)
    {
      if status.primary.None? || status.epoch.None? {
        return false;
      }
      op := Replicating(op.target, 0);
      Log(BeginReplication);
      var i := 0;
      while i < |pods|
        invariant Valid() && Extends() && desired == old(desired) && status == old(status)
        invariant 0 <= i <= |pods| && op == Replicating(old(op.target), i)
        invariant ConfigurePods(pods, status, reach, i) == ConfigurePods(old(pods), status, reach, 0)
      {
        var issue := !Configured(status, i);
        if issue {
          if i !in reach {
            return false;
          }
          // The recorded epoch, unincremented.
          var r := AssumeRole(pods[i], ConfiguredRole(status.primary.value, i), status.epoch.value);
          if r.None? {
            return false;
          }
          pods := pods[i := r.value];
        }
        op := Replicating(op.target, i + 1);
        Log(ConfigurePod(issue));
        i := i + 1;
      }
      op := Replicated(op.target);
      Log(EndReplication);
      return true;
    }

    /** `MarkRoleStandby`, when its patch lands. */
    method MarkRoleStandby(i: nat)
      requires Valid() && op.Switching? && op.phase == 0 && i < |pods|
      modifies this
      ensures Valid() && Extends() && Now() == old(Now()).(pods := Relabel(old(pods), i, Standby))
    {
      pods := Relabel(pods, i, Standby);
      Log(MarkStandby(i));
    }

    /** Skips pods that cannot be fetched; a patch that fails ends it. */
    method ShiftTrafficAwayFromPrimary(unpatched: set<nat>) returns (ok: bool)
      requires Valid() && op.Switching? && op.phase == 0
      modifies this
      ensures Valid() && Extends() && desired == old(desired) && status == old(status)
      ensures ok <==> forall k :: k in unpatched && k < |old(pods)| ==> !old(pods)[k].present
      ensures pods == ShiftAway(old(pods), unpatched)
      ensures op == if ok then old(op).(phase := 1) else old(op)
    {
      ghost var before := pods;
      var i := 0;
      while i < |pods|
        invariant Valid() && Extends() && desired == old(desired) && status == old(status) && op == old(op)
        invariant 0 <= i <= |pods| == |before|
        invariant forall k :: 0 <= k < i ==> pods[k] == ShiftAway(before, unpatched)[k]
        invariant forall k :: i <= k < |pods| ==> pods[k] == before[k]
        invariant forall k :: k in unpatched && k < i ==> !before[k].present
      {
        ShiftAwayAt(before, unpatched, i);
        if pods[i].present {
          if i in unpatched {
            assert pods == ShiftAway(before, unpatched);
            return false;
          }
          MarkRoleStandby(i);
        }
        i := i + 1;
      }
      assert pods == ShiftAway(before, unpatched);
      op := op.(phase := 1);
      Log(EndShiftAway);
      return true;
    }

    method SetPrimaryReadOnly(env: Env) returns (ok: bool)
      requires Valid() && op.Switching? && op.phase == 1 && status.primary.Some?
      modifies this
      ensures Valid() && Extends()
      ensures ok <==> PhaseStep(old(Now()), env).Some?
      ensures Now() == if ok then PhaseStep(old(Now()), env).value else old(Now())
    {
      var p := status.primary.value;
      if !(0 <= p < |pods|) || !pods[p].present {
        return false;
      }
      var applied := false;
      if pods[p].ready {
        if p !in env.reach {
          return false;
        }
        if pods[p].role != Standby {
          if !HasHealthyStandby(pods, p) || env.drain.Refused? {
            return false;
          }
          if env.drain.Drained? {
            var r := TransitionToStandby(pods[p], op.plan.epoch);
            if r.None? {
              return false;
            }
            pods := pods[p := r.value];
            applied := true;
          }
        }
      }
      op := op.(phase := 2);
      Log(SetReadOnly(applied));
      return true;
    }

    method ConfigureNewPrimary(env: Env) returns (ok: bool)
      requires Valid() && op.Switching? && op.phase == 2 && status.primary.Some?
      modifies this
      ensures Valid() && Extends()
      ensures ok <==> PhaseStep(old(Now()), env).Some?
      ensures Now() == if ok then PhaseStep(old(Now()), env).value else old(Now())
    {
      var t := op.target;
      if !(0 <= t < |pods|) || t !in env.reach {
        return false;
      }
      var r := AssumeRole(pods[t], Primary, op.plan.epoch);
      if r.None? {
        return false;
      }
      pods := pods[t := r.value];
      op := op.(phase := 3);
      Log(Promote);
      return true;
    }

    method ShiftTrafficToNewPrimary(env: Env) returns (ok: bool)
      requires Valid() && op.Switching? && op.phase == 3 && status.primary.Some?
      modifies this
      ensures Valid() && Extends()
      ensures ok <==> PhaseStep(old(Now()), env).Some?
      ensures Now() == if ok then PhaseStep(old(Now()), env).value else old(Now())
    {
      if !IsUp(pods, op.plan.current) || op.plan.current in env.unpatched {
        return false;
      }
      pods := Relabel(pods, op.plan.current, Primary);
      op := op.(phase := 4);
      Log(ShiftTo);
      return true;
    }

    /** An error return or a crash: the object is left as it is. */
    method Stop()
      requires Valid()
      modifies this
      ensures Valid() && Extends() && Now() == old(Now()).(op := Idle)
    {
      op := Idle;
      Log(Abandon);
    }

    /** The next phase of a running switchover, the closing status patch included; a failed phase ends the pass. */
    method RunPhase(env: Env)
      requires Valid() && op.Switching? && op.phase <= 4 && status.primary.Some?
      modifies this
      ensures Valid() && Extends() && Now() == Advance(old(Now()), env)
    {
      var ok := true;
      match op.phase {
        case 0 => ok := ShiftTrafficAwayFromPrimary(env.unpatched);
        case 1 => ok := SetPrimaryReadOnly(env);
        case 2 => ok := ConfigureNewPrimary(env);
        case 3 => ok := ShiftTrafficToNewPrimary(env);
        case _ =>
          status := status.(primary := Some(op.target),
                            epoch := UpdateReplicationEpoch(status.epoch, op.plan.epoch),
                            switching := false);
          op := Idle;
          Log(Record);
      }
      if !ok {
        Stop();
      }
    }

    /** The phase loop of `reconcileSwitchover`, cut after `cut` phases. */
    method RunSwitchoverPhases(env: Env, cut: nat)
      requires Valid() && op.Switching? && op.phase == 0 && status.primary.Some?
      modifies this
      ensures Valid() && Extends() && Now() == RunPhases(old(Now()), env, cut)
    {
      var left := cut;
      ghost var result := RunPhases(Now(), env, cut);
      while op.Switching? && left > 0
        invariant Valid() && Extends()
        invariant op.Switching? ==> op.phase <= 4 && status.primary.Some? && result == RunPhases(Now(), env, left)
        invariant !op.Switching? ==> Now() == result
        decreases left
      {
        RunAdvances(Now(), env, left);
        RunPhase(env);
        left := left - 1;
      }
      if op.Switching? {
        Stop();
      }
    }

    /** The plan of a switchover: from the snapshot, else from the status. */
    method MakePlan(states: seq<DBState>) returns (plan: Plan)
      ensures plan == PlanFor(states, status)
    {
      var r := CurrentPrimaryAndEpoch(states);
      return if r.Some? then Plan(r.value.0, r.value.1 + 1)
             else Plan(status.primary.GetOr(0), status.epoch.GetOr(0) + 1);
    }

    /** `reconcileSwitchover` after the Status phase of the same pass. */
    method ReconcileSwitchover(env: Env, cut: nat)
      requires Valid() && (op == Replicated(desired) || op == Observed(desired, true))
      modifies this
      ensures Valid() && Extends()
      ensures
        var w := old(Now());
        Now() == if !ShouldSwitch(w) || !env.flagLands then w.(op := Idle) else RunPhases(Start(w, env), env, cut)
    {
      var states := Observe(pods, env.reach);
      if status.resizing || status.primary.None? || status.primary.value == desired {
        Stop();
        return;
      }
      var plan := MakePlan(states);
      if !env.flagLands {
        Stop();
        return;
      }
      status := status.(switching := true);
      op := Op.Switching(0, desired, plan);
      Log(BeginSwitchover(env.reach, {}, desired));
      RunSwitchoverPhases(env, cut);
    }

    /** A pass of a cluster whose primary is being switched. */
    method ReconcileWhileSwitching(env: Env, cut: nat)
      requires Valid() && op.Idle? && status.switching
      modifies this
      ensures Valid() && Extends() && Now() == SwitchoverPass(old(Now()), env, cut)
    {
      op := Fetched(desired, status.switching);
      Log(Fetch);
      if !env.statusLands {
        Stop();
        return;
      }
      ReconcileStatus(env.look, {});
      ReconcileSwitchover(env, cut);
    }

    /** A pass of a cluster at rest: repair roles, then switch if the spec asks for another primary. */
    method ReconcileAtRest(env: Env, healthy: bool, cut: nat)
      requires Valid() && op.Idle? && !status.switching
      modifies this
      ensures Valid() && Extends() && Now() == RestPass(old(Now()), env, healthy, cut)
    {
      op := Fetched(desired, status.switching);
      Log(Fetch);
      if !env.statusLands {
        Stop();
        return;
      }
      ReconcileStatus(env.look, {});
      if healthy {
        var ok := ReconcileReplication(env.reach);
        if ok {
          ReconcileSwitchover(env, cut);
          return;
        }
      }
      Stop();
    }

    /** The label patch of a pod outside a switchover. */
    method PatchLabel(i: nat, role: Role)
      requires Valid() && i < |pods|
      modifies this
      ensures Valid() && Extends() && Now() == old(Now()).(pods := Relabel(old(pods), i, role))
    {
      pods := Relabel(pods, i, role);
      Log(Disturb(pods));
    }

    /** `reconcilePodLabels`; the patch of pod `conflict` fails. False is a requeue. */
    method ReconcilePodLabels(scheduled: set<nat>, conflict: Option<nat>) returns (done: bool)
      requires Valid() && op.Idle?
      modifies this
      ensures Valid() && Extends() && desired == old(desired) && status == old(status) && op == old(op)
      ensures done <==> status.primary.Some? && (conflict.Some? ==>
        conflict.value !in scheduled || !IsUp(old(pods), conflict.value))
      ensures status.primary.None? ==> pods == old(pods)
      ensures status.primary.Some? ==>
        var reached := if done then scheduled else set i | i in scheduled && i < conflict.value;
        pods == LabelledFor(old(pods), status.primary.value, reached)
    {
      if status.primary.None? {
        return false;
      }
      ghost var before := pods;
      var i := 0;
      while i < |pods|
        invariant Valid() && Extends() && desired == old(desired) && status == old(status) && op == old(op)
        invariant 0 <= i <= |pods| == |before|
        invariant forall k :: 0 <= k < i ==> pods[k] == LabelledFor(before, status.primary.value, scheduled)[k]
        invariant forall k :: i <= k < |pods| ==> pods[k] == before[k]
        invariant conflict.Some? && conflict.value < i ==>
          conflict.value !in scheduled || !IsUp(before, conflict.value)
      {
        if IsUp(pods, i) && i in scheduled {
          if conflict == Some(i) {
            ghost var reached := set k | k in scheduled && k < i;
            assert pods == LabelledFor(before, status.primary.value, reached);
            return false;
          }
          PatchLabel(i, ConfiguredRole(status.primary.value, i));
        }
        i := i + 1;
      }
      assert pods == LabelledFor(before, status.primary.value, scheduled);
      return true;
    }

    /** A pod that is not ready calls for a failover: it is the recorded primary, and failover is on and possible. */
    ghost predicate CallsForFailover(pod: int, automaticFailover: bool)
      reads this
    {
      automaticFailover && status.primary == Some(pod)
      && status.replication.Some? && ReplicationConfigured(status.replication.value)
    }

    /**
      `ReconcilePodNotReady`, at any moment of a DoltDB pass: asks for the freshest healthy standby as primary and
      raises the switching flag. Both patches are tried, and each may fail alone.
     */
    method ReconcilePodNotReady(
      pod: int, automaticFailover: bool, name: string, listing: seq<nat>, ready: set<nat>, reports: seq<Report>,
      specLands: bool, statusLands: bool)
      returns (target: Option<nat>)
      requires Valid()
      modifies this
      ensures Valid() && Extends() && pods == old(pods) && op == old(op)
      ensures target.Some? ==> old(CallsForFailover(pod, automaticFailover))
      ensures old(CallsForFailover(pod, automaticFailover)) ==>
        Chosen(reports, Healthy(SortByName(name, listing), ready, pod), target)
      ensures desired == if target.Some? && specLands then target.value else old(desired)
      ensures status == if target.Some? && statusLands then old(status).(switching := true) else old(status)
    {
      if !automaticFailover || status.replication.None? {
        return None;
      }
      var configured := IsReplicationConfigured(status.replication.value);
      if !configured || status.primary != Some(pod) {
        return None;
      }
      target := FailoverTarget(name, listing, ready, pod, reports);
      if target.Some? {
        RequestSwitchover(target.value, specLands, statusLands);
      }
    }

    /** The two patches of `ReconcilePodNotReady`. */
    method RequestSwitchover(target: int, specLands: bool, statusLands: bool)
      requires Valid()
      modifies this
      ensures Valid() && Extends() && pods == old(pods) && op == old(op)
      ensures desired == if specLands then target else old(desired)
      ensures status == if statusLands then old(status).(switching := true) else old(status)
    {
      if specLands {
        desired := target;
        Log(SetDesired(target));
      }
      if statusLands {
        status := status.(switching := true);
        Log(RaiseSwitching);
      }
    }
  }
}
