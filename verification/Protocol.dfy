/**
  The replication epoch protocol as a state machine. One DoltDB pass runs at a time (a controller never
  reconciles one key twice at once) and is made of atomic API and SQL calls; it can stop after any of them.
  Users, the pod controller and the pods themselves move at any moment in between.
 */
module Protocol {
  import opened Wrappers
  import opened Cluster
  import opened Snapshot
  import opened StatusPhase

  /** Where the running pass stands, with the part of its own copy of the DoltDB it still relies on. */
  datatype Op =
    | Idle
    | Fetched(target: int, switching: bool)
    | Observed(target: int, switching: bool)
    | Replicating(target: int, index: nat)
    | Replicated(target: int)
    | Switching(phase: nat, target: int, plan: Plan)

  datatype World = World(pods: seq<Pod>, desired: int, status: Status, op: Op)

  datatype Event =
    // outside the pass
    | Disturb(pods: seq<Pod>)        // readiness, presence and labels change; role and epoch persist
    | SetDesired(index: int)         // spec.replication.primary.podIndex, by a user or a controller
    | RaiseSwitching                 // the pod controller reports a primary that is not ready
    | SetResizing(on: bool)          // the Storage phase
    // the pass
    | Fetch
    | Abandon                        // error, crash or early return
    | ObserveStatus(reach: set<nat>, failed: set<nat>, overwrite: bool, refresh: bool)
    | BeginReplication
    | ConfigurePod(issue: bool)
    | EndReplication
    | BeginSwitchover(reach: set<nat>, failed: set<nat>, target: int)
    | MarkStandby(pod: nat)
    | EndShiftAway
    | SetReadOnly(applied: bool)
    | Promote
    | ShiftTo
    | Record

  predicate SameRolesAndEpochs(a: seq<Pod>, b: seq<Pod>) {
    |a| == |b| && forall i :: 0 <= i < |a| ==> a[i].role == b[i].role && a[i].epoch == b[i].epoch
  }

  function Relabel(pods: seq<Pod>, i: int, role: Role): seq<Pod>
    requires 0 <= i < |pods|
  {
    pods[i := pods[i].(roleLabel := Some(role))]
  }

  /**
    The status after the Status phase. `overwrite`: the patch carries the pass's own condition list,
    which replaces whatever another controller put there meanwhile.
   */
  function AfterStatus(w: World, reach: set<nat>, failed: set<nat>, overwrite: bool): Status
    requires w.op.Fetched?
  {
    var states := Observe(w.pods, reach, failed);
    w.status.(
      primary := DefaultPrimary(w.status.primary, w.op.target),
      epoch := RecordedEpoch(w.status.epoch, states),
      replication := Some(ReplicationStatus(states, w.pods, w.status.primary)),
      switching := if overwrite then w.op.switching else w.status.switching)
  }

  /** The role `reconcileReplicationInPod` issues to pod `i`. */
  function ConfiguredRole(primary: int, i: int): Role {
    if primary == i then Primary else Standby
  }

  ghost predicate Next(w: World, e: Event, v: World) {
    match e
    case Disturb(pods) => SameRolesAndEpochs(w.pods, pods) && v == w.(pods := pods)
    case SetDesired(i) => v == w.(desired := i)
    case RaiseSwitching => v == w.(status := w.status.(switching := true))
    case SetResizing(on) => v == w.(status := w.status.(resizing := on))
    case Fetch => w.op.Idle? && v == w.(op := Fetched(w.desired, w.status.switching))
    case Abandon => v == w.(op := Idle)
    case ObserveStatus(reach, failed, overwrite, refresh) =>
      w.op.Fetched?
      && var status := AfterStatus(w, reach, failed, overwrite);
      v == w.(status := status,
              // the answer to the patch may refresh the pass's copy
              op := if refresh then Observed(w.desired, status.switching) else Observed(w.op.target, w.op.switching))
    case BeginReplication =>
      w.op.Observed? && !w.op.switching && w.status.primary.Some? && w.status.epoch.Some?
      && v == w.(op := Replicating(w.op.target, 0))
    case ConfigurePod(issue) =>
      w.op.Replicating? && w.op.index < |w.pods| && w.status.primary.Some? && w.status.epoch.Some?
      && v.op == Replicating(w.op.target, w.op.index + 1) && v.desired == w.desired && v.status == w.status
      && (if issue then
            var role := ConfiguredRole(w.status.primary.value, w.op.index);
            var r := AssumeRole(w.pods[w.op.index], role, w.status.epoch.value);
            r.Some? && v.pods == w.pods[w.op.index := r.value]
          else v.pods == w.pods)
    case EndReplication =>
      w.op.Replicating? && w.op.index == |w.pods| && v == w.(op := Replicated(w.op.target))
    case BeginSwitchover(reach, failed, target) =>
      (w.op.Replicated? || (w.op.Observed? && w.op.switching))
      && !w.status.resizing && w.status.primary.Some? && w.status.primary.value != w.op.target
      && (target == w.op.target || target == w.desired)   // the patch below may refresh the pass's copy
      && v == w.(status := w.status.(switching := true),
                 op := Switching(0, target, PlanFor(Observe(w.pods, reach, failed), w.status)))
    case MarkStandby(i) =>
      w.op.Switching? && w.op.phase == 0 && i < |w.pods| && v == w.(pods := Relabel(w.pods, i, Standby))
    case EndShiftAway =>
      w.op.Switching? && w.op.phase == 0 && v == w.(op := w.op.(phase := 1))
    case SetReadOnly(applied) =>
      w.op.Switching? && w.op.phase == 1 && w.status.primary.Some?
      && v.op == w.op.(phase := 2) && v.desired == w.desired && v.status == w.status
      && (if applied then
            var p := w.status.primary.value;
            0 <= p < |w.pods| &&
            var r := TransitionToStandby(w.pods[p], w.op.plan.epoch);
            r.Some? && v.pods == w.pods[p := r.value]
          else v.pods == w.pods)
    case Promote =>
      w.op.Switching? && w.op.phase == 2 && 0 <= w.op.target < |w.pods|
      && var r := AssumeRole(w.pods[w.op.target], Primary, w.op.plan.epoch);
      r.Some? && v == w.(pods := w.pods[w.op.target := r.value], op := w.op.(phase := 3))
    case ShiftTo =>
      w.op.Switching? && w.op.phase == 3 && 0 <= w.op.plan.current < |w.pods|
      && v == w.(pods := Relabel(w.pods, w.op.plan.current, Primary), op := w.op.(phase := 4))
    case Record =>
      w.op.Switching? && w.op.phase == 4
      && v == w.(status := w.status.(primary := Some(w.op.target),
                                     epoch := UpdateReplicationEpoch(w.status.epoch, w.op.plan.epoch),
                                     switching := false),
                 op := Idle)
  }

  /** Bootstrap: ordinal 0 is primary, all are at epoch 1, nothing is recorded. */
  ghost predicate Init(w: World) {
    && w.pods != []
    && (forall i :: 0 <= i < |w.pods| ==>
          w.pods[i].epoch == 1 && w.pods[i].role == if i == 0 then Primary else Standby)
    && w.status == Status(None, None, None, false, w.status.resizing)
    && w.op.Idle?
  }

  ghost predicate IsRun(ws: seq<World>, es: seq<Event>) {
    |ws| == |es| + 1 && forall k :: 0 <= k < |es| ==> Next(ws[k], es[k], ws[k + 1])
  }

  /** The snapshots the operator takes reach some pod that carries the top epoch of that moment. */
  ghost predicate Covered(w: World, e: Event) {
    match e
    case ObserveStatus(reach, _, _, _) => Covers(w.pods, reach)
    case BeginSwitchover(reach, _, _) => Covers(w.pods, reach)
    case _ => true
  }

  // ----- the invariant

  /** Outside a switchover the recorded epoch is the top one and the recorded primary is at the top. */
  ghost predicate Settled(pods: seq<Pod>, status: Status) {
    && (status.epoch.Some? ==> IsTop(pods, status.epoch.value))
    && (status.primary.Some? && 0 <= status.primary.value < |pods| ==> Bounds(pods, pods[status.primary.value].epoch))
  }

  /** The running pass believes that no switchover is under way. */
  predicate BelievesSettled(op: Op) {
    || ((op.Fetched? || op.Observed?) && !op.switching)
    || op.Replicating?
    || op.Replicated?
  }

  /** How far the epoch of a running switchover has spread. */
  ghost predicate PhaseInv(pods: seq<Pod>, op: Op)
    requires op.Switching?
  {
    var e := op.plan.epoch;
    if op.phase <= 1 then
      Bounds(pods, e - 1)
    else if op.phase == 2 then
      && Bounds(pods, e)
      && forall i :: 0 <= i < |pods| && pods[i].epoch == e ==> pods[i].role == Standby
    else
      && Bounds(pods, e)
      && 0 <= op.target < |pods| && pods[op.target].epoch == e && pods[op.target].role == Primary
      && forall i :: 0 <= i < |pods| && i != op.target && pods[i].epoch == e ==> pods[i].role == Standby
  }

  ghost predicate Inv(w: World) {
    && w.pods != []
    && (forall i :: 0 <= i < |w.pods| ==> w.pods[i].epoch >= 1)
    && UniquePrimaryPerEpoch(w.pods)
    && (w.status.primary.None? ==> Bounds(w.pods, 1))
    && (w.status.epoch.Some? ==> exists i :: 0 <= i < |w.pods| && w.status.epoch.value <= w.pods[i].epoch)
    && (!w.status.switching || BelievesSettled(w.op) ==> Settled(w.pods, w.status))
    && (w.op.Observed? || w.op.Replicating? || w.op.Replicated? ==>
          w.status.epoch.Some? && IsTop(w.pods, w.status.epoch.value))
    && (w.op.Switching? ==> w.status.switching && w.status.primary.Some? && PhaseInv(w.pods, w.op))
  }

  lemma InitEstablishesInv(w: World)
    requires Init(w)
    ensures Inv(w)
  {
    assert w.pods[0].epoch == 1;
  }

  lemma SameRolesKeepTop(a: seq<Pod>, b: seq<Pod>, e: nat)
    requires SameRolesAndEpochs(a, b)
    ensures IsTop(a, e) ==> IsTop(b, e)
    ensures UniquePrimaryPerEpoch(a) ==> UniquePrimaryPerEpoch(b)
    ensures (exists i :: 0 <= i < |a| && e <= a[i].epoch) ==> exists i :: 0 <= i < |b| && e <= b[i].epoch
  {
    assert forall j :: IsPrimary(b, j) == IsPrimary(a, j);
    if IsTop(a, e) {
      var k :| 0 <= k < |a| && a[k].epoch == e;
      assert b[k].epoch == e;
    }
    if i :| 0 <= i < |a| && e <= a[i].epoch {
      assert e <= b[i].epoch;
    }
  }

  /** Steps that change no role and no epoch, but perhaps readiness, presence or a label. */
  lemma SameRolesKeepInv(w: World, v: World)
    requires Inv(w) && SameRolesAndEpochs(w.pods, v.pods) && v.status == w.status
    requires v.op == w.op || (w.op.Switching? && w.op.phase == 3 && v.op == w.op.(phase := 4))
    ensures Inv(v)
  {
    SameRolesKeepTop(w.pods, v.pods, w.status.epoch.GetOr(0));
    if w.op.Switching? {
      SameRolesKeepPhase(w.pods, v.pods, w.op, v.op);
    }
    SameRolesKeepSettled(w.pods, v.pods, w.status);
  }

  lemma SameRolesKeepPhase(a: seq<Pod>, b: seq<Pod>, o: Op, p: Op)
    requires SameRolesAndEpochs(a, b) && o.Switching? && PhaseInv(a, o)
    requires p == o || (o.phase == 3 && p == o.(phase := 4))
    ensures PhaseInv(b, p)
  {
  }

  lemma SameRolesKeepSettled(a: seq<Pod>, b: seq<Pod>, status: Status)
    requires SameRolesAndEpochs(a, b)
    ensures Settled(a, status) ==> Settled(b, status)
  {
    SameRolesKeepTop(a, b, status.epoch.GetOr(0));
  }

  /** Steps that leave the pods alone and record nothing about epochs. */
  lemma BookkeepingKeepsInv(w: World, e: Event, v: World)
    requires Inv(w) && Next(w, e, v)
    requires e.SetDesired? || e.RaiseSwitching? || e.SetResizing? || e.Fetch? || e.Abandon?
          || e.BeginReplication? || e.EndReplication? || e.EndShiftAway?
    ensures Inv(v)
  {
  }

  lemma ObserveStatusKeepsInv(w: World, e: Event, v: World)
    requires Inv(w) && Next(w, e, v) && Covered(w, e) && e.ObserveStatus?
    ensures Inv(v)
  {
    assert w.pods[0].epoch >= 1;
    CoveredStatusRecordsTop(w.pods, e.reach, e.failed, w.status.epoch);
  }

  lemma BeginSwitchoverKeepsInv(w: World, e: Event, v: World)
    requires Inv(w) && Next(w, e, v) && Covered(w, e) && e.BeginSwitchover?
    ensures Inv(v)
  {
    PlanIsAboveAll(w, e.reach, e.failed);
    assert !BelievesSettled(v.op) && PhaseInv(v.pods, v.op);
  }

  /** After a covered Status phase a covered snapshot plans an epoch above every pod's. */
  lemma PlanIsAboveAll(w: World, reach: set<nat>, failed: set<nat>)
    requires w.pods != [] && Covers(w.pods, reach)
    requires w.status.epoch.Some? && Bounds(w.pods, w.status.epoch.value)
    ensures Bounds(w.pods, PlanFor(Observe(w.pods, reach, failed), w.status).epoch - 1)
  {
    PromotionEpochFreshIff(w.pods, reach, failed, w.status);
  }

  /** A pod moved to a strictly higher epoch, or left alone, in a role nobody else holds there. */
  lemma UniqueAfterUpdate(pods: seq<Pod>, i: int, pod: Pod)
    requires 0 <= i < |pods| && UniquePrimaryPerEpoch(pods)
    requires pod.role == Primary ==> forall j :: j != i && IsPrimary(pods, j) ==> pods[j].epoch != pod.epoch
    ensures UniquePrimaryPerEpoch(pods[i := pod])
  {
    var after := pods[i := pod];
    forall a, b | 0 <= a < b < |after| && IsPrimary(after, a) && IsPrimary(after, b)
      ensures after[a].epoch != after[b].epoch
    {
      assert a != i ==> IsPrimary(pods, a);
      assert b != i ==> IsPrimary(pods, b);
    }
  }

  lemma ConfigurePodKeepsInv(w: World, e: Event, v: World)
    requires Inv(w) && Next(w, e, v) && e.ConfigurePod?
    ensures Inv(v)
  {
    if e.issue {
      var i, t := w.op.index, w.status.epoch.value;
      var pod := v.pods[i];
      // The recorded primary is at the top already: it is never raised.
      assert pod.role == Primary ==> w.pods[i].epoch == t && w.pods[i].role == Primary;
      UniqueAfterUpdate(w.pods, i, pod);
      var k :| 0 <= k < |w.pods| && w.pods[k].epoch == t;
      assert v.pods[k].epoch == t;
      assert IsTop(v.pods, t);
    }
  }

  lemma SetReadOnlyKeepsInv(w: World, e: Event, v: World)
    requires Inv(w) && Next(w, e, v) && e.SetReadOnly?
    ensures Inv(v)
  {
    if e.applied {
      var p := w.status.primary.value;
      UniqueAfterUpdate(w.pods, p, v.pods[p]);
      RecordedStaysBelow(w, v);
    }
  }

  lemma PromoteKeepsInv(w: World, e: Event, v: World)
    requires Inv(w) && Next(w, e, v) && e.Promote?
    ensures Inv(v)
  {
    UniqueAfterUpdate(w.pods, w.op.target, v.pods[w.op.target]);
    RecordedStaysBelow(w, v);
  }

  lemma RecordedStaysBelow(w: World, v: World)
    requires |w.pods| == |v.pods| && w.status == v.status
    requires forall i :: 0 <= i < |w.pods| ==> w.pods[i].epoch <= v.pods[i].epoch
    requires w.status.epoch.Some? ==> exists i :: 0 <= i < |w.pods| && w.status.epoch.value <= w.pods[i].epoch
    ensures v.status.epoch.Some? ==> exists i :: 0 <= i < |v.pods| && v.status.epoch.value <= v.pods[i].epoch
  {
    if w.status.epoch.Some? {
      var i :| 0 <= i < |w.pods| && w.status.epoch.value <= w.pods[i].epoch;
      assert v.status.epoch.value <= v.pods[i].epoch;
    }
  }

  lemma RecordKeepsInv(w: World, e: Event, v: World)
    requires Inv(w) && Next(w, e, v) && e.Record?
    ensures Inv(v)
  {
    assert v.status.epoch == Some(w.op.plan.epoch);
    assert v.pods[w.op.target].epoch == w.op.plan.epoch;
  }

  lemma StepKeepsInv(w: World, e: Event, v: World)
    requires Inv(w) && Next(w, e, v) && Covered(w, e)
    ensures Inv(v)
  {
    match e
    case ObserveStatus(_, _, _, _) => ObserveStatusKeepsInv(w, e, v);
    case ConfigurePod(_) => ConfigurePodKeepsInv(w, e, v);
    case BeginSwitchover(_, _, _) => BeginSwitchoverKeepsInv(w, e, v);
    case SetReadOnly(_) => SetReadOnlyKeepsInv(w, e, v);
    case Promote => PromoteKeepsInv(w, e, v);
    case Record => RecordKeepsInv(w, e, v);
    case Disturb(_) => SameRolesKeepInv(w, v);
    case MarkStandby(_) => SameRolesKeepInv(w, v);
    case ShiftTo => SameRolesKeepInv(w, v);
    case _ => BookkeepingKeepsInv(w, e, v);
  }

  // ----- theorems over every run

  lemma {:induction false} RunKeepsInv(ws: seq<World>, es: seq<Event>, k: nat)
    requires IsRun(ws, es) && Init(ws[0]) && k < |ws|
    requires forall i :: 0 <= i < |es| ==> Covered(ws[i], es[i])
    ensures Inv(ws[k])
  {
    if k == 0 {
      InitEstablishesInv(ws[0]);
    } else {
      RunKeepsInv(ws, es, k - 1);
      StepKeepsInv(ws[k - 1], es[k - 1], ws[k]);
    }
  }

  /**
    Safety: from bootstrap, whatever fails and whoever interferes, no two pods are ever primary at one epoch,
    as long as every snapshot the operator takes reaches a pod that carries the top epoch.
   */
  lemma NeverTwoPrimariesAtOneEpoch(ws: seq<World>, es: seq<Event>)
    requires IsRun(ws, es) && Init(ws[0])
    requires forall i :: 0 <= i < |es| ==> Covered(ws[i], es[i])
    ensures forall k :: 0 <= k < |ws| ==> UniquePrimaryPerEpoch(ws[k].pods)
  {
    forall k | 0 <= k < |ws| ensures UniquePrimaryPerEpoch(ws[k].pods) {
      RunKeepsInv(ws, es, k);
    }
  }

  /**
    A recorded switchover is fenced: the new primary is primary at the recorded epoch, which is the top one, and
    whoever else still holds the role holds it at a lower epoch.
   */
  lemma RecordedPrimaryIsFenced(w: World, v: World)
    requires Inv(w) && Next(w, Record, v)
    ensures
      var t := w.op.target;
      && v.status.primary == Some(t) && !v.status.switching && v.status.epoch.Some?
      && IsPrimary(v.pods, t) && v.pods[t].epoch == v.status.epoch.value && IsTop(v.pods, v.status.epoch.value)
      && (forall j :: IsPrimary(v.pods, j) && j != t ==> v.pods[j].epoch < v.status.epoch.value)
  {
    RecordKeepsInv(w, Record, v);
    forall j | IsPrimary(v.pods, j) && j != w.op.target ensures v.pods[j].epoch < v.status.epoch.value {
      assert v.pods[j].epoch <= w.op.plan.epoch;
    }
  }

  /** One step lowers neither the recorded epoch nor the epoch of any pod. */
  lemma StepNeverLowersEpochs(w: World, e: Event, v: World)
    requires Next(w, e, v)
    ensures |v.pods| == |w.pods| && forall i :: 0 <= i < |w.pods| ==> w.pods[i].epoch <= v.pods[i].epoch
    ensures w.status.epoch.Some? ==> v.status.epoch.Some? && w.status.epoch.value <= v.status.epoch.value
  {
  }

  /** Epochs only grow over a run, whether or not the snapshots cover the top. */
  lemma {:induction false} EpochsNeverDecrease(ws: seq<World>, es: seq<Event>, a: nat, b: nat)
    requires IsRun(ws, es) && a <= b < |ws|
    ensures |ws[a].pods| == |ws[b].pods|
    ensures forall i :: 0 <= i < |ws[a].pods| ==> ws[a].pods[i].epoch <= ws[b].pods[i].epoch
    ensures ws[a].status.epoch.Some? ==>
      ws[b].status.epoch.Some? && ws[a].status.epoch.value <= ws[b].status.epoch.value
    decreases b - a
  {
    if a < b {
      StepNeverLowersEpochs(ws[b - 1], es[b - 1], ws[b]);
      EpochsNeverDecrease(ws, es, a, b - 1);
    }
  }

  /**
    Replication reconcile issues the recorded epoch unincremented and makes a primary only of the recorded one.
    In a covered run it never makes a new primary at all.
   */
  lemma ReplicationNeverPromotes(w: World, v: World)
    requires Inv(w) && Next(w, ConfigurePod(true), v)
    ensures
      var i := w.op.index;
      && v.pods[i].epoch == w.status.epoch.value
      && (v.pods[i].role == Primary <==> w.status.primary.value == i)
      && (forall j :: IsPrimary(v.pods, j) ==> IsPrimary(w.pods, j))
  {
    forall j | IsPrimary(v.pods, j) ensures IsPrimary(w.pods, j) {
      assert j == w.op.index ==> w.pods[j].epoch == w.status.epoch.value;
    }
  }
}
