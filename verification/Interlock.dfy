/** What whole passes and whole runs do to the flags that exclude each other, and to a pending scale-down. */
module Interlock {
  import opened Wrappers
  import opened Pipeline

  /** One move in the life of a DoltDB. */
  datatype Move =
    | Reconciled(x: Inputs)
    | PrimaryNotReady(candidate: int, specLands: bool, statusLands: bool)
    | Edited(desired: int, replicas: nat, size: Option<nat>)
    | PodsReady(readyReplicas: nat)

  function Apply(s: State, m: Move): State {
    match m
    case Reconciled(x) => Pass(s, x)
    case PrimaryNotReady(c, spec, status) => PodNotReady(s, c, spec, status)
    case Edited(desired, replicas, size) => s.(desired := desired, replicas := replicas, size := size)
    case PodsReady(n) => if s.sts.Some? then s.(sts := Some(s.sts.value.(readyReplicas := n))) else s
  }

  ghost predicate IsLife(ss: seq<State>, ms: seq<Move>) {
    |ss| == |ms| + 1 && forall k :: 0 <= k < |ms| ==> ss[k + 1] == Apply(ss[k], ms[k])
  }

  // ----- resizing and switching

  /** A resize and a primary switch are both in progress. */
  ghost predicate Both(s: State) {
    IsResizingStorage(s) && IsSwitchingPrimary(s)
  }

  lemma SetKeepsFlags(s: State, t: ConditionType, status: bool, reason: Reason)
    requires t == Ready || t == UpToDate
    ensures var v := Set(s, t, status, reason);
      IsResizingStorage(v) == IsResizingStorage(s) && IsSwitchingPrimary(v) == IsSwitchingPrimary(s)
  {
  }

  lemma StatusKeepsFlags(s: State, x: Inputs)
    ensures var v := StatusPhase(s, x).0;
      IsResizingStorage(v) == IsResizingStorage(s) && IsSwitchingPrimary(v) == IsSwitchingPrimary(s)
  {
    var d := DefaultPrimary(s);
    SetUpdatedKeeps(d, x.updated);
    SetReadyKeeps(SetUpdated(d, x.updated), x.stsReady);
  }

  lemma StorageKeepsFlags(s: State, x: Inputs)
    ensures var v := StoragePhase(s, x).0;
      IsSwitchingPrimary(v) == IsSwitchingPrimary(s) && (IsSwitchingPrimary(s) ==> v == s)
  {
  }

  lemma ReplicationKeepsFlags(s: State, x: Inputs)
    ensures var v := ReplicationPhase(s, x).0;
      IsResizingStorage(v) == IsResizingStorage(s) && (IsResizingStorage(s) ==> v == s)
  {
  }

  lemma PhaseKeepsFlags(p: Phase, s: State, x: Inputs)
    ensures Both(AfterPhase(RunPhase(p, s, x), x)) <==> Both(s)
  {
    var r := RunPhase(p, s, x);
    SetKeepsFlags(r.0, Ready, false, ReconcileFailed);
    match p
    case Status => StatusKeepsFlags(s, x);
    case Storage => StorageKeepsFlags(s, x);
    case Replication => ReplicationKeepsFlags(s, x);
    case _ =>
  }

  lemma {:induction false} PassFromKeepsFlags(ps: seq<Phase>, s: State, x: Inputs)
    ensures Both(PassFrom(ps, s, x)) <==> Both(s)
    decreases |ps|
  {
    if ps != [] {
      PhaseKeepsFlags(ps[0], s, x);
      var r := RunPhase(ps[0], s, x);
      if GoesOn(r) {
        PassFromKeepsFlags(ps[1..], AfterPhase(r, x), x);
      }
    }
  }

  /** The pod controller keeps the interlock if and only if it does not report while a resize is in progress. */
  lemma PodNotReadyKeepsInterlockIff(s: State, candidate: int, specLands: bool, statusLands: bool)
    requires !Both(s)
    ensures !Both(PodNotReady(s, candidate, specLands, statusLands)) <==> !(IsResizingStorage(s) && statusLands)
  {
  }

  /** A DoltDB pass neither creates nor resolves the state in which both are in progress. */
  lemma MoveKeepsBoth(s: State, m: Move)
    ensures Both(s) ==> Both(Apply(s, m))
    ensures !Both(s) && Both(Apply(s, m)) ==> m.PrimaryNotReady? && m.statusLands && IsResizingStorage(s)
  {
    if m.Reconciled? {
      PassFromKeepsFlags(PHASES, s, m.x);
    }
  }

  /** Interlock: both are in progress only after a pod was reported not ready while a resize was in progress. */
  lemma {:induction false} InterlockOverLife(ss: seq<State>, ms: seq<Move>, k: nat)
    requires IsLife(ss, ms) && k < |ss| && !Both(ss[0])
    requires forall i :: 0 <= i < |ms| && ms[i].PrimaryNotReady? && ms[i].statusLands ==> !IsResizingStorage(ss[i])
    ensures !Both(ss[k])
  {
    if k > 0 {
      InterlockOverLife(ss, ms, k - 1);
      MoveKeepsBoth(ss[k - 1], ms[k - 1]);
    }
  }

  /** And once both are in progress, nothing ends either. */
  lemma {:induction false} BothIsForever(ss: seq<State>, ms: seq<Move>, a: nat, b: nat)
    requires IsLife(ss, ms) && a <= b < |ss| && Both(ss[a])
    ensures Both(ss[b])
    decreases b - a
  {
    if a < b {
      BothIsForever(ss, ms, a, b - 1);
      MoveKeepsBoth(ss[b - 1], ms[b - 1]);
    }
  }

  // ----- scaling down

  /** The spec asks for more storage than the StatefulSet has. */
  predicate StorageGrows(s: State) {
    s.sts.Some? && s.sts.value.size.Some? && s.size.Some? && s.sts.value.size.value < s.size.value
  }

  lemma StatusKeepsSpec(s: State, x: Inputs)
    ensures var v := StatusPhase(s, x).0;
      v == s.(conditions := v.conditions, primary := v.primary)
      && (s.primary.Some? ==> v.primary == s.primary)
  {
    var d := DefaultPrimary(s);
    SetUpdatedKeeps(d, x.updated);
    SetReadyKeeps(SetUpdated(d, x.updated), x.stsReady);
  }

  lemma StorageKeepsStatefulSet(s: State, x: Inputs)
    requires !StorageGrows(s)
    ensures var v := StoragePhase(s, x).0; v == s.(conditions := v.conditions)
  {
  }

  lemma Cons(p: Phase, ps: seq<Phase>, s: State, x: Inputs)
    ensures
      var r := RunPhase(p, s, x);
      PassFrom([p] + ps, s, x) == if GoesOn(r) then PassFrom(ps, AfterPhase(r, x), x) else AfterPhase(r, x)
  {
    assert ([p] + ps)[1..] == ps;
  }

  const TAIL := [Sts, Services, Replication, PodLabels]

  /** A pass as its first four phases and the rest. */
  lemma PassInTwo(s: State, x: Inputs)
    ensures
      var a := StatusPhase(s, x);
      var f := (AfterPhase(a, x), x.config);
      var b := StoragePhase(AfterPhase(f, x), x);
      var c := PreScaleDownPhase(AfterPhase(b, x), x);
      PassFrom(PHASES, s, x) ==
        if !GoesOn(a) then AfterPhase(a, x)
        else if !GoesOn(f) then AfterPhase(f, x)
        else if !GoesOn(b) then AfterPhase(b, x)
        else if !GoesOn(c) then AfterPhase(c, x)
        else PassFrom(TAIL, AfterPhase(c, x), x)
  {
    var a := AfterPhase(StatusPhase(s, x), x);
    var f := AfterPhase((a, x.config), x);
    var b := AfterPhase(StoragePhase(f, x), x);
    assert PHASES == [Status] + ([Config] + ([Storage] + ([PreScaleDown] + TAIL)));
    Cons(Status, [Config] + ([Storage] + ([PreScaleDown] + TAIL)), s, x);
    Cons(Config, [Storage] + ([PreScaleDown] + TAIL), a, x);
    Cons(Storage, [PreScaleDown] + TAIL, f, x);
    Cons(PreScaleDown, TAIL, b, x);
  }

  /** Where a scale-down would take away the recorded primary, a pass that does not grow storage leaves it alone. */
  lemma BlockedPassKeepsPrimary(s: State, x: Inputs)
    requires ScaleDownHitsPrimary(s) && !StorageGrows(s)
    ensures
      var v := Pass(s, x);
      && ScaleDownHitsPrimary(v) && v.primary == s.primary
      && v.sts == s.sts && v.size == s.size && v.replicas == s.replicas
  {
    if !Rejected(s) {
      PassInTwo(s, x);
      StatusKeepsSpec(s, x);
      var a := AfterPhase(StatusPhase(s, x), x);
      StorageKeepsStatefulSet(a, x);
    }
  }

  /** A StatefulSet that leaves no room for the pod of ordinal `p`. */
  predicate Excludes(sts: Option<StatefulSet>, p: int) {
    sts.Some? && sts.value.replicas <= p
  }

  /** A rolling update is in progress once the Status phase has looked. */
  predicate SeenUpdating(s: State, x: Inputs) {
    if IsResizingStorage(s) || IsSwitchingPrimary(s) || x.updated.None? then IsUpdating(s)
    else x.updated.value.SomePods?
  }

  lemma StatusSeesUpdating(s: State, x: Inputs)
    requires x.statusLands
    ensures
      var a := StatusPhase(s, x).0;
      && StatusPhase(s, x).1.Continue?
      && IsUpdating(a) == SeenUpdating(s, x)
      && IsSwitchingPrimary(a) == IsSwitchingPrimary(s)
      && IsWaitingForStorageResize(a) == IsWaitingForStorageResize(s)
  {
    var d := DefaultPrimary(s);
    SetUpdatedKeeps(d, x.updated);
    SetReadyKeeps(SetUpdated(d, x.updated), x.stsReady);
  }

  lemma SetReadyKeeps(s: State, stsReady: bool)
    ensures
      var v := SetReady(s, stsReady);
      && v == s.(conditions := v.conditions)
      && IsUpdating(v) == IsUpdating(s) && IsSwitchingPrimary(v) == IsSwitchingPrimary(s)
      && IsResizingStorage(v) == IsResizingStorage(s) && IsWaitingForStorageResize(v) == IsWaitingForStorageResize(s)
  {
  }

  lemma SetUpdatedKeeps(s: State, progress: Option<UpdateProgress>)
    ensures
      var v := SetUpdated(s, progress);
      && v == s.(conditions := v.conditions)
      && (IsUpdating(v) <==> if progress.Some? then progress.value.SomePods? else IsUpdating(s))
      && IsSwitchingPrimary(v) == IsSwitchingPrimary(s)
      && IsResizingStorage(v) == IsResizingStorage(s) && IsWaitingForStorageResize(v) == IsWaitingForStorageResize(s)
  {
  }

  /** The pass gets past the phases that come before the Storage phase. */
  predicate Starts(s: State, x: Inputs) {
    !(s.replicated && s.replicas == 1) && x.statusLands && (x.config.Continue? || x.config.Skip?)
  }

  /** The Storage phase is not skipped. */
  predicate StorageRuns(s: State, x: Inputs) {
    !SeenUpdating(s, x) && !IsSwitchingPrimary(s)
  }

  /** The Storage phase grows storage and gets as far as creating the StatefulSet anew. */
  predicate Recreates(s: State, x: Inputs) {
    && StorageRuns(s, x) && !IsWaitingForStorageResize(s) && x.stsReadable && StorageGrows(s)
    && (x.resize.AfterCreate? || x.resize.Whole?)
  }

  /** With the StatefulSet gone, the pass gets as far as the StatefulSet phase, which creates it. */
  predicate Creates(s: State, x: Inputs) {
    && s.sts.None? && x.stsReadable && x.stsLands
    && (StorageRuns(s, x) && IsWaitingForStorageResize(s) ==> !x.volumesResizing)
  }

  lemma {:induction false} TailKeepsSts(ps: seq<Phase>, s: State, x: Inputs)
    requires Storage !in ps && Sts !in ps
    ensures PassFrom(ps, s, x).sts == s.sts
    decreases |ps|
  {
    if ps != [] {
      var r := RunPhase(ps[0], s, x);
      assert r.0.sts == s.sts by {
        if ps[0] == Status {
          StatusKeepsSpec(s, x);
        }
      }
      if GoesOn(r) {
        TailKeepsSts(ps[1..], AfterPhase(r, x), x);
      }
    }
  }

  /** What the phases from the StatefulSet phase on leave of the StatefulSet. */
  lemma TailScales(s: State, x: Inputs)
    ensures
      var v := PassFrom(TAIL, s, x);
      if !x.stsLands then v.sts == s.sts else v.sts.Some? && v.sts.value.replicas == s.replicas
  {
    var rest := [Services, Replication, PodLabels];
    assert TAIL == [Sts] + rest;
    Cons(Sts, rest, s, x);
    TailKeepsSts(rest, AfterPhase(RunPhase(Sts, s, x), x), x);
  }

  /** What the Storage phase leaves of the StatefulSet, and when it lets the pass go on. */
  lemma StorageOutcome(s: State, x: Inputs)
    ensures
      var b := StoragePhase(s, x);
      var runs := !IsUpdating(s) && !IsSwitchingPrimary(s);
      var grows := runs && !IsWaitingForStorageResize(s) && x.stsReadable && StorageGrows(s);
      && b.0 == s.(conditions := b.0.conditions, sts := b.0.sts)
      && (if grows && (x.resize.AfterCreate? || x.resize.Whole?) then b.0.sts == Some(NewStatefulSet(s))
          else if grows && x.resize.AfterDelete? then b.0.sts.None? && !GoesOn(b)
          else b.0.sts == s.sts)
      && (s.sts.None? ==>
            (GoesOn(b) <==>
             !runs || (x.stsReadable && (IsWaitingForStorageResize(s) ==> !x.volumesResizing))))
  {
  }

  /**
    Exactly when a pass leaves a StatefulSet without room for the recorded primary that did not lack it before: the
    spec is accepted and asks for too few pods, and either storage grows, whose phase comes before the gate, or
    the StatefulSet is gone, which the gate takes for nothing to do.
   */
  lemma LosesPrimaryIff(s: State, x: Inputs)
    requires s.replicated && s.primary.Some?
    ensures
      var p := s.primary.value;
      !Excludes(s.sts, p) && Excludes(Pass(s, x).sts, p) <==>
        && Starts(s, x) && p >= s.replicas && !Excludes(s.sts, p)
        && (Recreates(s, x) || Creates(s, x))
  {
    var p := s.primary.value;
    if Starts(s, x) {
      PassInTwo(s, x);
      StatusKeepsSpec(s, x);
      StatusSeesUpdating(s, x);
      var a := StatusPhase(s, x).0;
      StorageOutcome(a, x);
      TailScales(AfterPhase(PreScaleDownPhase(AfterPhase(StoragePhase(a, x), x), x), x), x);
    } else {
      StoppedPassKeepsSts(s, x);
    }
  }

  /** The pass leaves fewer pods than there were. */
  predicate ScalesDown(s: State, x: Inputs) {
    var v := Pass(s, x);
    s.sts.Some? && v.sts.Some? && v.sts.value.replicas < s.sts.value.replicas
  }

  /**
    While there is a StatefulSet the gate holds unless storage grows: a scale-down that would take away the recorded
    primary is carried out if and only if the Storage phase does it, and any other spares the primary.
   */
  lemma ScaleDownSparesPrimary(s: State, x: Inputs)
    requires s.replicated && s.primary.Some?
    ensures ScaleDownHitsPrimary(s) ==> (ScalesDown(s, x) <==> Starts(s, x) && Recreates(s, x))
    ensures !ScaleDownHitsPrimary(s) && ScalesDown(s, x) ==> s.primary.value < s.replicas
  {
    if Starts(s, x) {
      PassInTwo(s, x);
      StatusKeepsSpec(s, x);
      StatusSeesUpdating(s, x);
      var a := StatusPhase(s, x).0;
      StorageOutcome(a, x);
      TailScales(AfterPhase(PreScaleDownPhase(AfterPhase(StoragePhase(a, x), x), x), x), x);
    } else {
      StoppedPassKeepsSts(s, x);
    }
  }

  lemma StoppedPassKeepsSts(s: State, x: Inputs)
    requires !Starts(s, x)
    ensures Pass(s, x).sts == s.sts
  {
    if !Rejected(s) {
      PassInTwo(s, x);
      StatusKeepsSpec(s, x);
    }
  }

  /** Growing storage goes around the gate: a pass scales three pods down to two and takes away primary pod 2. */
  lemma GrowingStorageBypassesTheGate(x: Inputs)
    requires x.statusLands && x.updated.None? && x.config.Continue? && x.stsReadable && x.resize.Whole?
    ensures
      var s := State(map[], true, 2, 2, Some(2), Some(2), Some(StatefulSet(3, Some(1), 3)));
      ScaleDownHitsPrimary(s) && !Excludes(s.sts, 2) && Excludes(Pass(s, x).sts, 2)
  {
    LosesPrimaryIff(State(map[], true, 2, 2, Some(2), Some(2), Some(StatefulSet(3, Some(1), 3))), x);
  }

  /** So does a StatefulSet that is gone, without storage growing: it is created anew without room for primary pod 2. */
  lemma LostStatefulSetBypassesTheGate(x: Inputs)
    requires x.statusLands && x.updated.None? && x.config.Continue? && x.stsReadable && x.stsLands
    ensures
      var s := State(map[], true, 2, 2, Some(1), Some(2), None);
      !StorageGrows(s) && !Excludes(s.sts, 2) && Excludes(Pass(s, x).sts, 2)
  {
    LosesPrimaryIff(State(map[], true, 2, 2, Some(1), Some(2), None), x);
  }

  /**
    The gate never opens by itself: it returns before the Replication phase, so the switchover it asks for is
    never reached. Whatever the passes meet and however often pods are reported, the recorded primary stays.
   */
  lemma {:induction false} BlockedScaleDownNeverProgresses(ss: seq<State>, ms: seq<Move>, k: nat)
    requires IsLife(ss, ms) && k < |ss|
    requires ScaleDownHitsPrimary(ss[0]) && !StorageGrows(ss[0])
    requires forall i :: 0 <= i < |ms| ==> !ms[i].Edited?
    ensures ScaleDownHitsPrimary(ss[k]) && !StorageGrows(ss[k]) && ss[k].primary == ss[0].primary
    ensures ss[k].sts.value.replicas == ss[0].sts.value.replicas
  {
    if k > 0 {
      BlockedScaleDownNeverProgresses(ss, ms, k - 1);
      if ms[k - 1].Reconciled? {
        BlockedPassKeepsPrimary(ss[k - 1], ms[k - 1].x);
      }
    }
  }

  // ----- interrupted resizes

  /** Flagged as resizing, with the StatefulSet gone or already of the desired size. */
  ghost predicate ResizeLost(s: State) {
    && IsBecause(s, StorageResized, ResizingStorage)
    && s.size.Some?
    && (s.sts.Some? ==> s.sts.value.size == s.size)
  }

  lemma PhaseKeepsResizeLost(p: Phase, s: State, x: Inputs)
    requires ResizeLost(s)
    ensures ResizeLost(AfterPhase(RunPhase(p, s, x), x))
  {
  }

  lemma {:induction false} PassFromKeepsResizeLost(ps: seq<Phase>, s: State, x: Inputs)
    requires ResizeLost(s)
    ensures ResizeLost(PassFrom(ps, s, x))
    decreases |ps|
  {
    if ps != [] {
      PhaseKeepsResizeLost(ps[0], s, x);
      var r := RunPhase(ps[0], s, x);
      if GoesOn(r) {
        PassFromKeepsResizeLost(ps[1..], AfterPhase(r, x), x);
      }
    }
  }

  /** A resize cut between deleting the StatefulSet and flagging the wait stays in progress for good. */
  lemma {:induction false} LostResizeNeverEnds(ss: seq<State>, ms: seq<Move>, k: nat)
    requires IsLife(ss, ms) && k < |ss| && ResizeLost(ss[0])
    requires forall i :: 0 <= i < |ms| ==> !ms[i].Edited?
    ensures ResizeLost(ss[k]) && IsResizingStorage(ss[k])
  {
    if k > 0 {
      LostResizeNeverEnds(ss, ms, k - 1);
      if ms[k - 1].Reconciled? {
        PassFromKeepsResizeLost(PHASES, ss[k - 1], ms[k - 1].x);
      }
    }
  }

  /** The Storage phase of a resize ends lost if and only if it is cut between the deletion and the wait. */
  lemma StorageLosesResizeIff(s: State, x: Inputs)
    requires x.stsReadable && StorageGrows(s)
    requires !IsSwitchingPrimary(s) && !IsWaitingForStorageResize(s) && !IsUpdating(s)
    ensures
      var b := StoragePhase(s, x);
      && (ResizeLost(AfterPhase(b, x)) <==> x.resize.AfterDelete? || x.resize.AfterCreate?)
      && (ResizeLost(AfterPhase(b, x)) ==> !GoesOn(b))
      && (GoesOn(b) ==> !IsResizingStorage(AfterPhase(b, x)))
  {
  }

  /** And so does the whole pass, if the spec is accepted. */
  lemma CutResizeIsLost(s: State, x: Inputs)
    requires x.statusLands && x.config.Continue? && x.stsReadable
    requires StorageGrows(s) && !IsSwitchingPrimary(s) && !IsWaitingForStorageResize(s) && !SeenUpdating(s, x)
    ensures ResizeLost(Pass(s, x)) <==> !Rejected(s) && (x.resize.AfterDelete? || x.resize.AfterCreate?)
  {
    if !Rejected(s) {
      PassInThree(s, x);
      StatusKeepsSpec(s, x);
      StatusSeesUpdating(s, x);
      var a := StatusPhase(s, x).0;
      StorageLosesResizeIff(a, x);
      var b := StoragePhase(a, x);
      if GoesOn(b) {
        OtherPhasesKeepResizing([PreScaleDown] + TAIL, AfterPhase(b, x), x);
      }
    }
  }

  /** A pass whose first two phases go on, as its Storage phase and the rest. */
  lemma PassInThree(s: State, x: Inputs)
    requires Starts(s, x)
    ensures
      var b := StoragePhase(StatusPhase(s, x).0, x);
      Pass(s, x) == if GoesOn(b) then PassFrom([PreScaleDown] + TAIL, AfterPhase(b, x), x) else AfterPhase(b, x)
  {
    var a := AfterPhase(StatusPhase(s, x), x);
    assert PHASES == [Status] + ([Config] + ([Storage] + ([PreScaleDown] + TAIL)));
    Cons(Status, [Config] + ([Storage] + ([PreScaleDown] + TAIL)), s, x);
    Cons(Config, [Storage] + ([PreScaleDown] + TAIL), a, x);
    Cons(Storage, [PreScaleDown] + TAIL, a, x);
  }

  /** No phase but Storage starts or ends a resize. */
  lemma {:induction false} OtherPhasesKeepResizing(ps: seq<Phase>, s: State, x: Inputs)
    requires Storage !in ps
    ensures IsResizingStorage(PassFrom(ps, s, x)) == IsResizingStorage(s)
    decreases |ps|
  {
    if ps != [] {
      var r := RunPhase(ps[0], s, x);
      assert IsResizingStorage(AfterPhase(r, x)) == IsResizingStorage(s) by {
        SetKeepsFlags(r.0, Ready, false, ReconcileFailed);
        if ps[0] == Status {
          StatusKeepsFlags(s, x);
        } else if ps[0] == Replication {
          ReplicationKeepsFlags(s, x);
        }
      }
      if GoesOn(r) {
        OtherPhasesKeepResizing(ps[1..], AfterPhase(r, x), x);
      }
    }
  }

  lemma StoppedPassKeepsResizing(s: State, x: Inputs)
    requires !Starts(s, x)
    ensures IsResizingStorage(Pass(s, x)) == IsResizingStorage(s)
  {
    StatusKeepsFlags(s, x);
    if !Rejected(s) {
      PassInTwo(s, x);
    }
  }

  /**
    A pass ends a waiting resize if and only if the spec is accepted, the phases before it go on, no volume is
    resizing any more, the StatefulSet is there, can be read and has as many pods ready as the spec asks for, and the
    closing patch lands.
   */
  lemma WaitingResizeEnds(s: State, x: Inputs)
    requires IsWaitingForStorageResize(s) && !IsSwitchingPrimary(s) && !IsUpdating(s)
    ensures !IsResizingStorage(Pass(s, x)) <==>
      && Starts(s, x) && !x.volumesResizing && x.stsReadable && x.resizedLands
      && s.sts.Some? && s.sts.value.readyReplicas == s.replicas
  {
    if Starts(s, x) {
      PassInThree(s, x);
      var a := StatusPhase(s, x).0;
      assert a == DefaultPrimary(s);
      var b := StoragePhase(a, x);
      SetKeepsFlags(b.0, Ready, false, ReconcileFailed);
      if GoesOn(b) {
        OtherPhasesKeepResizing([PreScaleDown] + TAIL, AfterPhase(b, x), x);
      }
    } else {
      StoppedPassKeepsResizing(s, x);
    }
  }

  /**
    Cut anywhere else a resize is taken up again: one whole pass, the pods ready, and one more pass end it, unless
    the spec is refused.
   */
  lemma ResumedResizeEnds(s: State, x: Inputs)
    requires IsResizingStorage(s) && !IsSwitchingPrimary(s) && !IsUpdating(s) && !IsWaitingForStorageResize(s)
    requires StorageGrows(s) && s.replicas > 0
    requires x.statusLands && x.config.Continue? && x.stsReadable && x.resize.Whole?
    requires !x.volumesResizing && x.resizedLands
    ensures !IsResizingStorage(Pass(Apply(Pass(s, x), PodsReady(s.replicas)), x)) <==> !Rejected(s)
  {
    var v := Pass(s, x);
    if Rejected(s) {
      RejectedKeepsResizing(s, x);
      RejectedKeepsResizing(Apply(v, PodsReady(s.replicas)), x);
    } else {
      PassInThree(s, x);
      var a := DefaultPrimary(s);
      assert StatusPhase(s, x) == (a, Continue);
      RestartedResizeWaits(a, x);
      WaitingResizeEnds(Apply(v, PodsReady(s.replicas)), x);
    }
  }

  lemma RejectedKeepsResizing(s: State, x: Inputs)
    requires Rejected(s) && IsResizingStorage(s)
    ensures Rejected(Pass(s, x)) && IsResizingStorage(Pass(s, x))
  {
  }

  lemma RestartedResizeWaits(s: State, x: Inputs)
    requires !IsSwitchingPrimary(s) && !IsUpdating(s) && !IsWaitingForStorageResize(s)
    requires StorageGrows(s) && s.replicas > 0
    requires x.stsReadable && x.resize.Whole? && !x.volumesResizing
    ensures
      var b := StoragePhase(s, x);
      b.1.Return? && IsWaitingForStorageResize(b.0) && !IsSwitchingPrimary(b.0) && !IsUpdating(b.0)
      && b.0.replicas == s.replicas && b.0.sts == Some(NewStatefulSet(s))
  {
  }
}
