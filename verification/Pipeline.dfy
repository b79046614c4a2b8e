/**
  One DoltDB pass as a pipeline of phases over the DoltDB object: which conditions it raises and clears,
  and when it gets to resize the StatefulSet. Each phase is cut short by its inputs wherever a call can fail.
 */
module Pipeline {
  import opened Wrappers

  datatype ConditionType = Ready | PrimarySwitched | StorageResized | UpToDate

  datatype Reason =
    | SwitchPrimary | ResizingStorage | WaitStorageResize | StorageWasResized
    | PendingUpdate | Updating | WasUpdated | NotReady | Running | ReconcileFailed | InvalidSpec

  datatype Condition = Condition(status: bool, reason: Reason)

  datatype StatefulSet = StatefulSet(replicas: nat, size: Option<nat>, readyReplicas: nat)

  /** The DoltDB with the StatefulSet it owns. Replication is enabled when `replicated`. */
  datatype State = State(
    conditions: map<ConditionType, Condition>, replicated: bool, desired: int, replicas: nat, size: Option<nat>,
    primary: Option<int>, sts: Option<StatefulSet>)

  // ----- condition tests

  predicate Is(s: State, t: ConditionType, status: bool) { t in s.conditions && s.conditions[t].status == status }

  predicate IsBecause(s: State, t: ConditionType, reason: Reason) {
    Is(s, t, false) && s.conditions[t].reason == reason
  }

  predicate IsSwitchingPrimary(s: State) { Is(s, PrimarySwitched, false) }

  predicate IsResizingStorage(s: State) { Is(s, StorageResized, false) }

  predicate IsWaitingForStorageResize(s: State) { IsBecause(s, StorageResized, WaitStorageResize) }

  predicate IsUpdating(s: State) { IsBecause(s, UpToDate, Updating) }

  function Set(s: State, t: ConditionType, status: bool, reason: Reason): State {
    s.(conditions := s.conditions[t := Condition(status, reason)])
  }

  // ----- phases

  /** How a phase ends: go on, return with a requeue, fail, or fail in a way the pipeline skips. */
  datatype Ending = Continue | Return | Fail | Skip

  /** How far the resize of the Storage phase gets before a call fails. */
  datatype ResizeCut = BeforeFlag | AfterFlag | AfterDelete | AfterCreate | Whole

  /** How many pods carry the update revision. */
  datatype UpdateProgress = AllPods | SomePods | NoPods

  datatype Inputs = Inputs(
    statusLands: bool, updated: Option<UpdateProgress>, stsReady: bool, config: Ending,
    stsReadable: bool, resize: ResizeCut, volumesResizing: bool, resizedLands: bool,
    preScaleDownLands: bool, stsLands: bool, updates: Ending, services: Ending,
    healthy: bool, replication: Ending, flagLands: bool, switchoverLands: bool, labels: Ending,
    failedLands: bool)

  function DefaultPrimary(s: State): State {
    if s.primary.Some? then s else s.(primary := Some(if s.replicated then s.desired else 0))
  }

  /** `setUpdatedCondition`; without progress its error is dropped. */
  function SetUpdated(s: State, progress: Option<UpdateProgress>): State {
    match progress
    case Some(AllPods) => Set(s, UpToDate, true, WasUpdated)
    case Some(SomePods) => Set(s, UpToDate, false, Updating)
    case Some(NoPods) => Set(s, UpToDate, false, PendingUpdate)
    case None => s
  }

  /** `SetReadyWithDoltDB`. */
  function SetReady(s: State, stsReady: bool): State {
    if IsUpdating(s) then Set(s, Ready, false, Updating)
    else if !stsReady then Set(s, Ready, false, NotReady)
    else Set(s, Ready, true, if IsBecause(s, UpToDate, PendingUpdate) then PendingUpdate else Running)
  }

  function StatusPhase(s: State, x: Inputs): (State, Ending) {
    if !x.statusLands then (s, Fail)
    else
      var d := DefaultPrimary(s);
      if IsResizingStorage(d) || IsSwitchingPrimary(d) then (d, Continue)
      else (SetReady(SetUpdated(d, x.updated), x.stsReady), Continue)
  }

  /** `waitForStorageResize`. */
  function WaitForStorageResize(s: State, x: Inputs): (State, Ending) {
    if x.volumesResizing then (s, Return)
    else if !x.stsReadable then (s, Fail)
    else if s.sts.None? then (s, Skip)
    else if s.sts.value.readyReplicas != s.replicas then (s, Return)
    else if !x.resizedLands then (s, Fail)
    else (Set(s, StorageResized, true, StorageWasResized), Continue)
  }

  function NewStatefulSet(s: State): StatefulSet {
    StatefulSet(s.replicas, s.size, 0)
  }

  /** The Storage phase. Resizing recreates the StatefulSet, with the replicas the spec asks for. */
  function StoragePhase(s: State, x: Inputs): (State, Ending) {
    if IsUpdating(s) || IsSwitchingPrimary(s) then (s, Continue)
    else if IsWaitingForStorageResize(s) then WaitForStorageResize(s, x)
    else if !x.stsReadable then (s, Fail)
    else if s.sts.None? then (s, Skip)
    else if s.sts.value.size.None? || s.size.None? then (s, Fail)
    else if s.size.value == s.sts.value.size.value then (s, Continue)
    else if s.size.value < s.sts.value.size.value || x.resize.BeforeFlag? then (s, Fail)
    else
      var flagged := Set(Set(s, Ready, false, ResizingStorage), StorageResized, false, ResizingStorage);
      if x.resize.AfterFlag? then (flagged, Fail)
      else if x.resize.AfterDelete? then (flagged.(sts := None), Fail)
      else
        var created := flagged.(sts := Some(NewStatefulSet(s)));
        if x.resize.AfterCreate? then (created, Fail)
        else
          WaitForStorageResize(
            Set(Set(created, Ready, false, WaitStorageResize), StorageResized, false, WaitStorageResize), x)
  }

  /** The scale-down that the StatefulSet phase would carry out takes away the recorded primary. */
  predicate ScaleDownHitsPrimary(s: State) {
    && s.replicated && s.primary.Some? && s.sts.Some?
    && s.replicas < s.sts.value.replicas && s.primary.value >= s.replicas
  }

  /** `reconcilePreScaleDown`: asks for ordinal 0 as primary and requeues. */
  function PreScaleDownPhase(s: State, x: Inputs): (State, Ending) {
    if !s.replicated || s.primary.None? then (s, Continue)
    else if !x.stsReadable then (s, Fail)
    else if !ScaleDownHitsPrimary(s) then (s, Continue)
    else if !x.preScaleDownLands then (s, Fail)
    else (s.(desired := 0), Return)
  }

  /** The StatefulSet phase creates or scales the StatefulSet; module RollingUpdate has the update that follows. */
  function StatefulSetPhase(s: State, x: Inputs): (State, Ending) {
    if !x.stsLands then (s, Fail)
    else
      var sts := if s.sts.None? then NewStatefulSet(s) else s.sts.value.(replicas := s.replicas);
      (s.(sts := Some(sts)), x.updates)
  }

  /** `reconcileSwitchover` as the conditions see it. */
  function SwitchoverConditions(s: State, x: Inputs): (State, Ending) {
    if IsResizingStorage(s) || s.primary.None? || s.primary.value == s.desired then (s, Continue)
    else if !x.flagLands then (s, Fail)
    else
      var flagged := Set(Set(s, Ready, false, SwitchPrimary), PrimarySwitched, false, SwitchPrimary);
      if !x.switchoverLands then (flagged, Fail)
      else (Set(flagged.(primary := Some(s.desired)), PrimarySwitched, true, SwitchPrimary), Continue)
  }

  function ReplicationPhase(s: State, x: Inputs): (State, Ending) {
    if !s.replicated then (s, Continue)
    else if IsSwitchingPrimary(s) then SwitchoverConditions(s, x)
    else if !x.healthy then (s, Return)
    else if !x.replication.Continue? then (s, x.replication)
    else SwitchoverConditions(s, x)
  }

  datatype Phase = Status | Config | Storage | PreScaleDown | Sts | Services | Replication | PodLabels

  /**
    The phases in order. ConfigMap and RBAC (Config), and PodDisruptionBudget and Service (Services), touch nothing
    here but may end the pass.
   */
  const PHASES := [Status, Config, Storage, PreScaleDown, Sts, Services, Replication, PodLabels]

  function RunPhase(p: Phase, s: State, x: Inputs): (State, Ending) {
    match p
    case Status => StatusPhase(s, x)
    case Config => (s, x.config)
    case Storage => StoragePhase(s, x)
    case PreScaleDown => PreScaleDownPhase(s, x)
    case Sts => StatefulSetPhase(s, x)
    case Services => (s, x.services)
    case Replication => ReplicationPhase(s, x)
    case PodLabels => (s, x.labels)
  }

  /** What the pipeline does with the end of a phase: an error marks the DoltDB as not ready, if that patch lands. */
  function AfterPhase(r: (State, Ending), x: Inputs): State {
    if r.1.Fail? && x.failedLands then Set(r.0, Ready, false, ReconcileFailed) else r.0
  }

  predicate GoesOn(r: (State, Ending)) { r.1.Continue? || r.1.Skip? }

  function PassFrom(ps: seq<Phase>, s: State, x: Inputs): State {
    if ps == [] then s
    else
      var r := RunPhase(ps[0], s, x);
      if GoesOn(r) then PassFrom(ps[1..], AfterPhase(r, x), x) else AfterPhase(r, x)
  }

  /** `ValidateReplicationSpec` refuses the spec. */
  predicate Rejected(s: State) {
    s.replicated && s.replicas == 1
  }

  /** A pass: a refused spec ends it before the first phase, with a status patch that may fail. */
  function Pass(s: State, x: Inputs): State {
    if !Rejected(s) then PassFrom(PHASES, s, x)
    else if x.statusLands then Set(s, Ready, false, InvalidSpec)
    else s
  }

  /** The controller: `Reconcile` walks the phases and updates the object it holds. */
  class DoltDBReconciler {
    var state: State

    constructor (state: State)
      ensures this.state == state
    {
      this.state := state;
    }

    method Reconcile(x: Inputs)
      modifies this
      ensures state == Pass(old(state), x)
    {
      if Rejected(state) {
        if x.statusLands {
          state := Set(state, Ready, false, InvalidSpec);
        }
        return;
      }
      var i := 0;
      while i < |PHASES|
        invariant 0 <= i <= |PHASES|
        invariant PassFrom(PHASES[i..], state, x) == Pass(old(state), x)
      {
        assert PHASES[i..][1..] == PHASES[i + 1..];
        var r := RunPhase(PHASES[i], state, x);
        state := AfterPhase(r, x);
        if !GoesOn(r) {
          return;
        }
        i := i + 1;
      }
    }

    /**
      `ReconcilePodNotReady` once it has a candidate: the spec patch, then the status patch; each may fail alone.
      The candidate is asked for and a switch is in progress as far as the patches land; a resize in progress is
      neither looked at nor ended, and what else a pass reads is left alone.
     */
    method ReconcilePodNotReady(candidate: int, specLands: bool, statusLands: bool)
      modifies this
      ensures state == PodNotReady(old(state), candidate, specLands, statusLands)
      ensures state.desired == if specLands then candidate else old(state).desired
      ensures IsSwitchingPrimary(state) <==> statusLands || IsSwitchingPrimary(old(state))
      ensures IsResizingStorage(state) == IsResizingStorage(old(state))
      ensures IsWaitingForStorageResize(state) == IsWaitingForStorageResize(old(state))
      ensures IsUpdating(state) == IsUpdating(old(state))
      ensures state == old(state).(desired := state.desired, conditions := state.conditions)
    {
      if specLands {
        state := state.(desired := candidate);
      }
      if statusLands {
        state := Set(Set(state, Ready, false, SwitchPrimary), PrimarySwitched, false, SwitchPrimary);
      }
    }
  }

  function PodNotReady(s: State, candidate: int, specLands: bool, statusLands: bool): State {
    var t := if specLands then s.(desired := candidate) else s;
    if statusLands then Set(Set(t, Ready, false, SwitchPrimary), PrimarySwitched, false, SwitchPrimary) else t
  }
}
