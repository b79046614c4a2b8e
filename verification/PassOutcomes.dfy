/** What a whole pass does to the conditions and the spec, by what it meets. */
module PassOutcomes {
  import opened Wrappers
  import opened Pipeline
  import opened Interlock

  // ----- Ready

  /** Outside a resize and a switch a DoltDB is found ready exactly if its pods are and nothing updates. */
  lemma StatusSetsReady(s: State, x: Inputs)
    requires x.statusLands
    ensures
      var v := StatusPhase(s, x).0;
      if IsResizingStorage(s) || IsSwitchingPrimary(s) then Is(v, Ready, true) == Is(s, Ready, true)
      else Is(v, Ready, true) <==> x.stsReady && !SeenUpdating(s, x)
  {
    SetUpdatedKeeps(DefaultPrimary(s), x.updated);
  }

  /** The same look finds it up to date if all pods carry the update revision, and an update pending if none does. */
  lemma StatusSetsUpToDate(s: State, x: Inputs)
    requires x.statusLands && x.updated.Some? && !IsResizingStorage(s) && !IsSwitchingPrimary(s)
    ensures
      var v := StatusPhase(s, x).0;
      && (Is(v, UpToDate, true) <==> x.updated.value.AllPods?)
      && (IsUpdating(v) <==> x.updated.value.SomePods?)
      && (IsBecause(v, UpToDate, PendingUpdate) <==> x.updated.value.NoPods?)
  {
  }

  // ----- the Storage phase

  /** The Storage phase lets the pass go on: it is skipped, has nothing to do, or is through with a resize. */
  predicate StorageOpens(s: State, x: Inputs) {
    if IsUpdating(s) || IsSwitchingPrimary(s) then true
    else if !x.stsReadable then false
    else if IsWaitingForStorageResize(s) then
      !x.volumesResizing && (s.sts.Some? ==> s.sts.value.readyReplicas == s.replicas && x.resizedLands)
    else if s.sts.None? then true
    else if s.size.None? || s.sts.value.size.None? || s.size.value < s.sts.value.size.value then false
    else if s.size.value == s.sts.value.size.value then true
    else x.resize.Whole? && !x.volumesResizing && s.replicas == 0 && x.resizedLands
  }

  /** Volumes are never shrunk, and a resize under way holds the pass up. */
  lemma StorageOpensIff(s: State, x: Inputs)
    ensures GoesOn(StoragePhase(s, x)) <==> StorageOpens(s, x)
  {
  }

  // ----- the gate before a scale-down

  /** A blocked pass that gets to the gate asks for pod 0, and no other pass changes what is asked for. */
  lemma BlockedPassAsksForPodZero(s: State, x: Inputs)
    requires ScaleDownHitsPrimary(s) && !StorageGrows(s)
    ensures
      var asks := Starts(s, x) && StorageOpens(StatusPhase(s, x).0, x) && x.stsReadable && x.preScaleDownLands;
      Pass(s, x).desired == if asks then 0 else s.desired
  {
    if !Rejected(s) {
      PassInTwo(s, x);
      StatusKeepsSpec(s, x);
      var a := StatusPhase(s, x).0;
      StorageKeepsStatefulSet(a, x);
      StorageOpensIff(a, x);
    }
  }

  // ----- a switch in progress

  /** What the Replication phase does with a switch in progress. */
  lemma ReplicationEndsSwitch(s: State, x: Inputs)
    requires s.replicated && IsSwitchingPrimary(s) && s.primary.Some?
    ensures
      var v := ReplicationPhase(s, x).0;
      var ends := !IsResizingStorage(s) && s.primary.value != s.desired && x.flagLands && x.switchoverLands;
      && (!IsSwitchingPrimary(v) <==> ends) && v.primary == (if ends then Some(s.desired) else s.primary)
      && v == s.(conditions := v.conditions, primary := v.primary)
  {
  }

  /** And at rest: it flags a switch exactly if one is called for, and ends it if its calls get through. */
  lemma ReplicationBeginsSwitch(s: State, x: Inputs)
    requires s.replicated && !IsSwitchingPrimary(s) && s.primary.Some?
    ensures
      var v := ReplicationPhase(s, x).0;
      var begins := x.healthy && x.replication.Continue? && !IsResizingStorage(s) && s.primary.value != s.desired
                    && x.flagLands;
      && (IsSwitchingPrimary(v) <==> begins && !x.switchoverLands)
      && v.primary == (if begins && x.switchoverLands then Some(s.desired) else s.primary)
  {
  }

  /** The phases between the gate and the Replication phase go on. */
  predicate ReachesReplication(x: Inputs) {
    && x.stsLands && (x.updates.Continue? || x.updates.Skip?)
    && (x.services.Continue? || x.services.Skip?)
  }

  lemma TailEndsSwitch(s: State, x: Inputs)
    requires s.replicated && IsSwitchingPrimary(s) && s.primary.Some?
    ensures
      var v := PassFrom(TAIL, s, x);
      var ends := ReachesReplication(x) && !IsResizingStorage(s) && s.primary.value != s.desired
                  && x.flagLands && x.switchoverLands;
      && (!IsSwitchingPrimary(v) <==> ends) && v.primary == (if ends then Some(s.desired) else s.primary)
      && v.desired == s.desired && v.replicated && v.replicas == s.replicas
      && (v.sts == s.sts || (v.sts.Some? && v.sts.value.replicas == s.replicas))
  {
    assert TAIL == [Sts] + ([Services] + LAST);
    Cons(Sts, [Services] + LAST, s, x);
    var a := StatefulSetPhase(s, x);
    SetKeepsFlags(a.0, Ready, false, ReconcileFailed);
    var b := AfterPhase(a, x);
    Cons(Services, LAST, b, x);
    SetKeepsFlags(b, Ready, false, ReconcileFailed);
    LastPhasesEndSwitch(b, x);
  }

  const LAST := [Replication, PodLabels]

  lemma LastPhasesEndSwitch(s: State, x: Inputs)
    requires s.replicated && IsSwitchingPrimary(s) && s.primary.Some?
    ensures
      var v := PassFrom(LAST, s, x);
      var ends := !IsResizingStorage(s) && s.primary.value != s.desired && x.flagLands && x.switchoverLands;
      && (!IsSwitchingPrimary(v) <==> ends) && v.primary == (if ends then Some(s.desired) else s.primary)
      && v == s.(conditions := v.conditions, primary := v.primary)
  {
    assert LAST == [Replication] + [PodLabels];
    Cons(Replication, [PodLabels], s, x);
    ReplicationEndsSwitch(s, x);
    var r := ReplicationPhase(s, x);
    SetKeepsFlags(r.0, Ready, false, ReconcileFailed);
    var d := AfterPhase(r, x);
    assert [PodLabels] == [PodLabels] + [];
    Cons(PodLabels, [], d, x);
    SetKeepsFlags(d, Ready, false, ReconcileFailed);
  }

  /**
    A pass ends a switch in progress if and only if the spec is accepted and asks for another primary than the one
    recorded, no resize and no blocked scale-down is in its way, and every call gets through; then the primary asked
    for is recorded.
   */
  lemma SwitchEndsIff(s: State, x: Inputs)
    requires s.replicated && IsSwitchingPrimary(s) && s.primary.Some?
    ensures
      var v := Pass(s, x);
      var ends := Starts(s, x) && x.stsReadable && !ScaleDownHitsPrimary(s) && ReachesReplication(x)
                  && !IsResizingStorage(s) && s.primary.value != s.desired && x.flagLands && x.switchoverLands;
      && (!IsSwitchingPrimary(v) <==> ends) && v.primary == (if ends then Some(s.desired) else s.primary)
  {
    if !Rejected(s) {
      PassInTwo(s, x);
      StatusKeepsFlags(s, x);
      StatusKeepsSpec(s, x);
      var a := AfterPhase(StatusPhase(s, x), x);
      var f := AfterPhase((a, x.config), x);
      SetKeepsFlags(a, Ready, false, ReconcileFailed);
      StorageKeepsFlags(f, x);
      SetKeepsFlags(f, Ready, false, ReconcileFailed);
      if Starts(s, x) {
        assert a == DefaultPrimary(s) == s && StoragePhase(s, x) == (s, Continue);
        var c := PreScaleDownPhase(s, x);
        SetKeepsFlags(c.0, Ready, false, ReconcileFailed);
        TailEndsSwitch(AfterPhase(c, x), x);
      }
    }
  }

  // ----- a switch that was flagged with nobody asked for

  /** A switch is in progress, and the primary asked for is the one recorded. */
  predicate SwitchesToItself(s: State) {
    s.replicated && IsSwitchingPrimary(s) && s.primary == Some(s.desired) && !ScaleDownHitsPrimary(s)
  }

  lemma PassKeepsSwitchingToItself(s: State, x: Inputs)
    requires SwitchesToItself(s)
    ensures SwitchesToItself(Pass(s, x)) && Pass(s, x).primary == s.primary
  {
    SwitchEndsIff(s, x);
    if !Rejected(s) {
      PassInTwo(s, x);
      StatusKeepsSpec(s, x);
      StatusKeepsFlags(s, x);
      var a := AfterPhase(StatusPhase(s, x), x);
      var f := AfterPhase((a, x.config), x);
      SetKeepsFlags(a, Ready, false, ReconcileFailed);
      StorageKeepsFlags(f, x);
      if Starts(s, x) {
        assert a == s && StoragePhase(s, x) == (s, Continue);
        var c := PreScaleDownPhase(s, x);
        SetKeepsFlags(c.0, Ready, false, ReconcileFailed);
        TailEndsSwitch(AfterPhase(c, x), x);
      }
    }
  }

  /** Over every life without edits and further reports it stays in progress, and the pod recorded stays so. */
  lemma {:induction false} SwitchToItselfNeverEnds(ss: seq<State>, ms: seq<Move>, k: nat)
    requires IsLife(ss, ms) && k < |ss| && SwitchesToItself(ss[0])
    requires forall i :: 0 <= i < |ms| ==> ms[i].Reconciled? || ms[i].PodsReady?
    ensures SwitchesToItself(ss[k]) && ss[k].primary == ss[0].primary
  {
    if k > 0 {
      SwitchToItselfNeverEnds(ss, ms, k - 1);
      if ms[k - 1].Reconciled? {
        PassKeepsSwitchingToItself(ss[k - 1], ms[k - 1].x);
      }
    }
  }

  /** A report whose spec patch is lost and whose status patch lands does that to a cluster at rest. */
  lemma LostSpecPatchSwitchesToItselfIff(s: State, candidate: int, specLands: bool, statusLands: bool)
    requires s.replicated && !IsSwitchingPrimary(s) && s.primary == Some(s.desired) && candidate != s.desired
    requires !ScaleDownHitsPrimary(s)
    ensures SwitchesToItself(PodNotReady(s, candidate, specLands, statusLands)) <==> statusLands && !specLands
  {
  }
}
