/** When a switchover that was interrupted anywhere finishes. */
module Progress {
  import opened Wrappers
  import opened Cluster
  import opened Snapshot
  import opened StatusPhase
  import opened Protocol
  import opened Switchover

  ghost predicate AnswersAsPrimary(w: World, env: Env, i: int) {
    i in env.reach && IsPrimary(w.pods, i)
  }

  /**
    A switchover under way that nothing but the pods that were primary can hold up: the target is ready and answers,
    patches land, and what answers after the Status phase has answered in it.
   */
  ghost predicate UnderWay(w: World, env: Env) {
    && w.op.Idle? && w.status.switching && !w.status.resizing
    && w.status.primary.Some? && w.status.primary.value != w.desired
    && IsUp(w.pods, w.desired) && w.desired in env.reach
    && env.reach <= env.look && env.statusLands && env.flagLands && LabelsLand(w.pods, env)
  }

  /** No pod is one whose label cannot be patched. */
  ghost predicate LabelsLand(pods: seq<Pod>, env: Env) {
    forall k :: k in env.unpatched ==> k >= |pods|
  }

  ghost predicate OldPrimaryUp(w: World) {
    w.status.primary.Some? && IsUp(w.pods, w.status.primary.value)
  }

  /**
    The recorded primary does not stop the second phase: its pod exists; and if it is ready, it answers, and is
    standby already or the drain does not fail.
   */
  ghost predicate Yields(pods: seq<Pod>, p: int, env: Env) {
    && 0 <= p < |pods| && pods[p].present
    && (pods[p].ready ==> p in env.reach && (pods[p].role == Standby || env.drain != Refused))
  }

  ghost predicate OldPrimaryYields(w: World, env: Env) {
    w.status.primary.Some? && Yields(w.pods, w.status.primary.value, env)
  }

  /** The start of the phases in a pass. */
  ghost function Begun(w: World, env: Env): World
    requires ShouldSwitch(w)
  {
    Start(AfterStatusPhase(w, env), env)
  }

  lemma PassBegins(w: World, env: Env, cut: nat)
    requires ShouldSwitch(w) && env.statusLands && env.flagLands
    ensures SwitchoverPass(w, env, cut) == RunPhases(Begun(w, env), env, cut)
  {
  }

  /** The promotion epoch exceeds what any answering pod carries, on both paths. */
  lemma PlanExceedsAnswers(w: World, env: Env)
    requires ShouldSwitch(w) && env.reach <= env.look
    ensures forall i :: i in env.reach && i < |w.pods| ==> w.pods[i].epoch < Begun(w, env).op.plan.epoch
  {
    var states, looked := Observe(w.pods, env.reach), Observe(w.pods, env.look);
    forall i | i in env.reach && i < |w.pods| ensures w.pods[i].epoch < Begun(w, env).op.plan.epoch {
      assert states[i].epoch <= Highest(states);
      assert looked[i].epoch <= Highest(looked);
    }
  }

  predicate SameUp(a: seq<Pod>, b: seq<Pod>) {
    |a| == |b| && forall i :: 0 <= i < |a| ==> a[i].present == b[i].present && a[i].ready == b[i].ready
  }

  /** The second phase succeeds if and only if the old primary yields. */
  lemma ReadOnlyIff(pods: seq<Pod>, p: int, t: int, epoch: nat, env: Env)
    requires p != t && IsUp(pods, t)
    requires p in env.reach && 0 <= p < |pods| ==> pods[p].epoch < epoch
    ensures
      var r := ReadOnly(pods, p, epoch, env);
      && (r.Some? <==> Yields(pods, p, env))
      && (r.Some? ==>
            && SameUp(pods, r.value)
            && (forall i :: 0 <= i < |pods| && i != p ==> r.value[i] == pods[i])
            && r.value == (
                 if IsUp(pods, p) && pods[p].role != Standby && env.drain == Drained then
                   pods[p := pods[p].(role := Standby, epoch := epoch)]
                 else pods))
  {
    assert HasHealthyStandby(pods, p);
  }

  /** A switchover at its first phase, with its target answering and the planned epoch above every answering pod. */
  ghost predicate Starting(b: World, env: Env) {
    && b.op.Switching? && b.op.phase == 0 && b.status.primary.Some? && LabelsLand(b.pods, env)
    && b.status.primary.value != b.op.target && IsUp(b.pods, b.op.target) && b.op.target in env.reach
    && (forall i :: i in env.reach && i < |b.pods| ==> b.pods[i].epoch < b.op.plan.epoch)
  }

  lemma BegunIsStarting(w: World, env: Env)
    requires UnderWay(w, env)
    ensures Starting(Begun(w, env), env)
    ensures Begun(w, env).pods == w.pods && Begun(w, env).status.primary == w.status.primary
  {
    PlanExceedsAnswers(w, env);
  }

  /** If the old primary does not yield, the pass has changed labels and nothing else. */
  lemma UnyieldingPhases(b: World, env: Env, cut: nat)
    requires Starting(b, env) && !OldPrimaryYields(b, env) && cut >= 2
    ensures
      var v := RunPhases(b, env, cut);
      v == b.(pods := v.pods, op := Idle) && SameUp(b.pods, v.pods) && SameRolesAndEpochs(b.pods, v.pods)
  {
    var w1 := PhaseStep(b, env).value;
    ReadOnlyIff(w1.pods, b.status.primary.value, b.op.target, b.op.plan.epoch, env);
    Unfold(b, env, cut);
    assert PhaseStep(w1, env).None?;
  }

  /** After three phases the target is primary at the planned epoch and the old primary, if it was drained, standby. */
  lemma ThreePhases(b: World, env: Env) returns (v: World)
    requires Starting(b, env) && OldPrimaryYields(b, env)
    ensures v == b.(pods := v.pods, op := b.op.(phase := 3))
    ensures forall cut :: cut >= 3 ==> RunPhases(b, env, cut) == RunPhases(v, env, cut - 3)
    ensures SameUp(b.pods, v.pods)
    ensures v.pods[b.op.target].role == Primary && v.pods[b.op.target].epoch == b.op.plan.epoch
    ensures IsUp(b.pods, b.status.primary.value) && env.drain == Drained ==>
              v.pods[b.status.primary.value].role == Standby
    ensures forall i :: 0 <= i < |b.pods| ==> v.pods[i].epoch == b.pods[i].epoch || v.pods[i].epoch == b.op.plan.epoch
    ensures forall i :: 0 <= i < |b.pods| && i != b.op.target && v.pods[i].role != b.pods[i].role ==>
              i == b.status.primary.value && IsUp(b.pods, i) && env.drain == Drained
  {
    var p, t, e := b.status.primary.value, b.op.target, b.op.plan.epoch;
    var w1 := PhaseStep(b, env).value;
    assert IsUp(w1.pods, p) == IsUp(b.pods, p);
    ReadOnlyIff(w1.pods, p, t, e, env);
    var w2 := PhaseStep(w1, env).value;
    assert w2.pods[t] == w1.pods[t] && w1.pods[t].epoch < e;
    v := PhaseStep(w2, env).value;
    forall cut | cut >= 3 ensures RunPhases(b, env, cut) == RunPhases(v, env, cut - 3) {
      Unfold(b, env, cut);
      Unfold(w1, env, cut - 1);
      Unfold(w2, env, cut - 2);
    }
  }

  /** The last two steps, from the end of the third phase on. */
  lemma ClosingSteps(v: World, env: Env, cut: nat)
    requires v.op.Switching? && v.op.phase == 3 && v.status.primary.Some? && cut >= 2 && LabelsLand(v.pods, env)
    ensures
      var u := RunPhases(v, env, cut);
      if IsUp(v.pods, v.op.plan.current) then
        && u.status.primary == Some(v.op.target) && !u.status.switching
        && u.pods == Relabel(v.pods, v.op.plan.current, Primary)
      else u == v.(op := Idle)
  {
    if IsUp(v.pods, v.op.plan.current) {
      Unfold(v, env, cut);
      Unfold(PhaseStep(v, env).value, env, cut - 1);
    }
  }

  /** A pass completes exactly when the old primary yields and the pod planned as current primary is up. */
  lemma PassCompletesIff(w: World, env: Env, cut: nat)
    requires UnderWay(w, env) && cut >= 5
    ensures Completed(SwitchoverPass(w, env, cut)) <==>
      OldPrimaryYields(w, env) && IsUp(w.pods, Begun(w, env).op.plan.current)
    ensures Completed(SwitchoverPass(w, env, cut)) ==>
      var v := SwitchoverPass(w, env, cut);
      && v.pods[w.desired].role == Primary
      && (OldPrimaryUp(w) && env.drain == Drained ==> v.pods[w.status.primary.value].role == Standby)
  {
    PassBegins(w, env, cut);
    BegunIsStarting(w, env);
    var b := Begun(w, env);
    if OldPrimaryYields(w, env) {
      var v := ThreePhases(b, env);
      assert RunPhases(b, env, cut) == RunPhases(v, env, cut - 3);
      assert IsUp(v.pods, v.op.plan.current) == IsUp(w.pods, b.op.plan.current);
      ClosingSteps(v, env, cut - 3);
    } else {
      UnyieldingPhases(b, env, cut);
    }
  }

  /** What a pass leaves behind whose old primary does not yield: nothing has changed but labels and epochs seen. */
  lemma UnyieldingPassStays(w: World, env: Env, cut: nat)
    requires UnderWay(w, env) && cut >= 5 && !OldPrimaryYields(w, env)
    ensures
      var v := SwitchoverPass(w, env, cut);
      UnderWay(v, env) && !OldPrimaryYields(v, env) && v.status.primary == w.status.primary
  {
    PassBegins(w, env, cut);
    BegunIsStarting(w, env);
    UnyieldingPhases(Begun(w, env), env, cut);
  }

  /** And one that fails in its last phase: the target promoted, nothing recorded, an old primary that is up demoted. */
  lemma FailedPassPromotes(w: World, env: Env, cut: nat)
    requires UnderWay(w, env) && cut >= 5 && OldPrimaryYields(w, env)
    requires !IsUp(w.pods, Begun(w, env).op.plan.current)
    ensures
      var v := SwitchoverPass(w, env, cut);
      && UnderWay(v, env) && OldPrimaryYields(v, env) && v.status.primary == w.status.primary
      && SameUp(w.pods, v.pods) && IsPrimary(v.pods, w.desired)
      && (forall i :: i != w.desired && (i == w.status.primary.value ==> !IsUp(w.pods, i)) ==>
            IsPrimary(v.pods, i) == IsPrimary(w.pods, i))
  {
    PassBegins(w, env, cut);
    BegunIsStarting(w, env);
    var v := ThreePhases(Begun(w, env), env);
    assert RunPhases(Begun(w, env), env, cut) == RunPhases(v, env, cut - 3);
    assert !IsUp(v.pods, v.op.plan.current);
    ClosingSteps(v, env, cut - 3);
    assert SwitchoverPass(w, env, cut) == v.(op := Idle);
    StillYields(w.pods, v.pods, w.status.primary.value, w.desired, env);
  }

  lemma StillYields(a: seq<Pod>, b: seq<Pod>, p: int, t: int, env: Env)
    requires Yields(a, p, env) && SameUp(a, b) && p != t
    requires IsUp(a, p) && env.drain == Drained ==> b[p].role == Standby
    requires forall i :: 0 <= i < |a| && i != t && b[i].role != a[i].role ==>
               i == p && IsUp(a, i) && env.drain == Drained
    ensures Yields(b, p, env)
  {
  }

  /** At most one pod answers as primary. */
  ghost predicate AtMostOneAnswers(w: World, env: Env) {
    forall i, j :: AnswersAsPrimary(w, env, i) && AnswersAsPrimary(w, env, j) ==> i == j
  }

  lemma AnswersMatchSnapshot(w: World, env: Env)
    ensures forall i :: AnswersAsPrimary(w, env, i) <==> AnswersPrimary(Observe(w.pods, env.reach), i)
  {
  }

  lemma PlannedCurrent(w: World, env: Env)
    requires UnderWay(w, env)
    ensures
      var c := Begun(w, env).op.plan.current;
      if AtMostOneAnswers(w, env) && (exists i :: AnswersAsPrimary(w, env, i)) then AnswersAsPrimary(w, env, c)
      else c == w.status.primary.value
  {
    var states := Observe(w.pods, env.reach);
    AnswersMatchSnapshot(w, env);
    if c :| SolePrimary(states, c) {
      assert AnswersAsPrimary(w, env, c);
    } else if AtMostOneAnswers(w, env) && exists i :: AnswersAsPrimary(w, env, i) {
      var i :| AnswersAsPrimary(w, env, i);
      assert SolePrimary(states, i);
    }
  }

  ghost function Iterate<S(!new)>(step: S -> S, s: S, n: nat): S {
    if n == 0 then s else step(Iterate(step, s, n - 1))
  }

  lemma {:induction false} IterateKeeps<S(!new)>(step: S -> S, keeps: S -> bool, s: S, n: nat)
    requires keeps(s) && forall x :: keeps(x) ==> keeps(step(x))
    ensures keeps(Iterate(step, s, n))
  {
    if n > 0 {
      IterateKeeps(step, keeps, s, n - 1);
    }
  }

  /** `n` passes nobody interrupts. */
  ghost function Passes(w: World, env: Env, n: nat): World {
    Iterate(u => SwitchoverPass(u, env, 5), w, n)
  }

  lemma OneAndTwoPasses(w: World, env: Env)
    ensures Passes(w, env, 1) == SwitchoverPass(w, env, 5)
    ensures Passes(w, env, 2) == SwitchoverPass(SwitchoverPass(w, env, 5), env, 5)
  {
    var step := u => SwitchoverPass(u, env, 5);
    assert Iterate(step, w, 0) == w;
    assert Iterate(step, w, 1) == step(w);
    assert Iterate(step, w, 2) == step(step(w));
  }

  /** One pass suffices when the old primary is up and answers, and nobody else that answers as primary is down. */
  lemma OnePassIfOldPrimaryUp(w: World, env: Env)
    requires UnderWay(w, env) && OldPrimaryUp(w) && OldPrimaryYields(w, env)
    requires forall i :: AnswersAsPrimary(w, env, i) ==> IsUp(w.pods, i)
    ensures Completed(Passes(w, env, 1))
  {
    PlannedCurrent(w, env);
    PassCompletesIff(w, env, 5);
    OneAndTwoPasses(w, env);
  }

  /**
    What it takes: the pod of the old primary exists; if it is ready, it answers, and is standby already or is not
    refused its drain; and if it is not, at most one pod answers as primary, and that one is ready.
   */
  ghost predicate Completable(w: World, env: Env) {
    && OldPrimaryYields(w, env)
    && (OldPrimaryUp(w) ||
        (AtMostOneAnswers(w, env) && forall i :: AnswersAsPrimary(w, env, i) ==> IsUp(w.pods, i)))
  }

  /** Then two passes suffice. */
  lemma TwoPassesIfCompletable(w: World, env: Env)
    requires UnderWay(w, env) && Completable(w, env)
    ensures Completed(Passes(w, env, 1)) || Completed(Passes(w, env, 2))
  {
    var v := SwitchoverPass(w, env, 5);
    OneAndTwoPasses(w, env);
    PlannedCurrent(w, env);
    PassCompletesIff(w, env, 5);
    if !Completed(v) {
      FailedPassPromotes(w, env, 5);
      SecondPassPlan(w, env, v);
      PassCompletesIff(v, env, 5);
    }
  }

  /** The second pass finds the target as sole primary, or falls back to an old primary that is up. */
  lemma SecondPassPlan(w: World, env: Env, v: World)
    requires UnderWay(w, env) && Completable(w, env) && !IsUp(w.pods, Begun(w, env).op.plan.current)
    requires UnderWay(v, env) && v.status.primary == w.status.primary && v.desired == w.desired
    requires SameUp(w.pods, v.pods) && IsPrimary(v.pods, w.desired)
    requires forall i :: i != w.desired && (i == w.status.primary.value ==> !IsUp(w.pods, i)) ==>
               IsPrimary(v.pods, i) == IsPrimary(w.pods, i)
    ensures IsUp(v.pods, Begun(v, env).op.plan.current)
  {
    var c := Begun(w, env).op.plan.current;
    PlannedCurrent(w, env);
    PlannedCurrent(v, env);
    assert AnswersAsPrimary(v, env, w.desired);
    if OldPrimaryUp(w) {
      // Somebody down was planned as current primary; now the target answers as primary beside it.
      assert AnswersAsPrimary(v, env, c) && c != w.desired;
    } else {
      assert forall i :: !AnswersAsPrimary(w, env, i);
      forall i | AnswersAsPrimary(v, env, i) ensures i == w.desired {
        assert !AnswersAsPrimary(w, env, i);
      }
    }
  }

  ghost predicate Stuck(w: World, env: Env) {
    UnderWay(w, env) && !Completable(w, env)
  }

  lemma StuckStays(w: World, env: Env)
    requires Stuck(w, env)
    ensures Stuck(SwitchoverPass(w, env, 5), env)
  {
    PlannedCurrent(w, env);
    var v := SwitchoverPass(w, env, 5);
    if !OldPrimaryYields(w, env) {
      UnyieldingPassStays(w, env, 5);
    } else {
      assert !IsUp(w.pods, Begun(w, env).op.plan.current);
      FailedPassPromotes(w, env, 5);
      TwoAnswerAfterwards(w, env, v);
    }
  }

  lemma TwoAnswerAfterwards(w: World, env: Env, v: World)
    requires Stuck(w, env) && OldPrimaryYields(w, env) && v.desired == w.desired
    requires IsPrimary(v.pods, w.desired)
    requires forall i :: i != w.desired ==> IsPrimary(v.pods, i) == IsPrimary(w.pods, i)
    ensures !AtMostOneAnswers(v, env)
  {
    assert AnswersAsPrimary(v, env, w.desired);
    if AtMostOneAnswers(w, env) {
      var i :| AnswersAsPrimary(w, env, i) && !IsUp(w.pods, i);
      assert AnswersAsPrimary(v, env, i) && i != w.desired;
    } else {
      var i, j :| AnswersAsPrimary(w, env, i) && AnswersAsPrimary(w, env, j) && i != j;
      assert AnswersAsPrimary(v, env, i) && AnswersAsPrimary(v, env, j);
    }
  }

  /** Otherwise no number of passes completes. */
  lemma NeverIfStuck(w: World, env: Env, n: nat)
    requires Stuck(w, env)
    ensures !Completed(Passes(w, env, n))
  {
    forall u | Stuck(u, env) ensures Stuck(SwitchoverPass(u, env, 5), env) {
      StuckStays(u, env);
    }
    IterateKeeps(u => SwitchoverPass(u, env, 5), u => Stuck(u, env), w, n);
  }

  /**
    A switchover that was interrupted anywhere completes if and only if the pod of its old primary exists and either
    is ready, answers and is not refused its drain, or is not ready while at most one pod, a ready one, answers as
    primary; and then two passes are enough.
   */
  lemma CompletesIff(w: World, env: Env)
    requires UnderWay(w, env)
    ensures (exists n :: Completed(Passes(w, env, n))) <==> Completable(w, env)
    ensures (exists n :: Completed(Passes(w, env, n))) ==> Completed(Passes(w, env, 1)) || Completed(Passes(w, env, 2))
  {
    if Completable(w, env) {
      TwoPassesIfCompletable(w, env);
    } else {
      forall n: nat ensures !Completed(Passes(w, env, n)) {
        NeverIfStuck(w, env, n);
      }
    }
  }

  // ----- the drain comes before the promotion

  lemma {:induction false} LaterPhasesSpareOthers(w: World, env: Env, cut: nat, p: int)
    requires w.op.Switching? && 2 <= w.op.phase <= 4 && w.status.primary.Some? && 0 <= p < |w.pods| && p != w.op.target
    ensures
      var v := RunPhases(w, env, cut);
      v.pods[p].role == w.pods[p].role && v.pods[p].epoch == w.pods[p].epoch
    decreases 5 - w.op.phase
  {
    if cut > 0 && PhaseStep(w, env).Some? {
      Unfold(w, env, cut);
      if w.op.phase <= 3 {
        LaterPhasesSpareOthers(PhaseStep(w, env).value, env, cut - 1, p);
      }
    }
  }

  /** No role, no epoch and nothing of the status has changed. */
  ghost predicate Untouched(w: World, v: World) {
    SameRolesAndEpochs(w.pods, v.pods) && v.status == w.status
  }

  /** The old primary was drained to some other pod that is up, or said that it is read-only already. */
  ghost predicate GaveWay(b: World, env: Env, v: World, p: int)
    requires b.op.Switching? && 0 <= p < |b.pods| == |v.pods|
  {
    && p in env.reach && (exists i :: i != p && IsUp(b.pods, i))
    && (env.drain == AlreadyReadOnly ||
        (env.drain == Drained && v.pods[p].role == Standby && v.pods[p].epoch == b.op.plan.epoch))
  }

  /**
    With a recorded primary that is up and not yet standby, a pass that changes any role, any epoch or the status,
    however it is cut and whatever it meets, has found that primary giving way first.
   */
  lemma ChangeNeedsDrain(b: World, env: Env, cut: nat, p: int)
    requires b.op.Switching? && b.op.phase == 0 && b.status.primary == Some(p) && p != b.op.target
    requires IsUp(b.pods, p) && b.pods[p].role != Standby
    ensures
      var v := RunPhases(b, env, cut);
      Untouched(b, v) || GaveWay(b, env, v, p)
  {
    if cut >= 2 && PhaseStep(b, env).Some? {
      var w1 := PhaseStep(b, env).value;
      Unfold(b, env, cut);
      if PhaseStep(w1, env).Some? {
        Unfold(w1, env, cut - 1);
        var w2 := PhaseStep(w1, env).value;
        LaterPhasesSpareOthers(w2, env, cut - 2, p);
        var i :| 0 <= i < |w1.pods| && i != p && IsUp(w1.pods, i);
        assert IsUp(b.pods, i);
      }
    }
  }

  /** So a drain that Dolt refuses changes nothing, however often it is tried and wherever the pass is cut. */
  lemma RefusedDrainChangesNothing(w: World, env: Env, cut: nat, p: int)
    requires w.op.Idle? && w.status.primary == Some(p) && IsUp(w.pods, p) && w.pods[p].role != Standby
    requires env.drain == Refused
    ensures
      var v := SwitchoverPass(w, env, cut);
      SameRolesAndEpochs(w.pods, v.pods) && v.status.primary == w.status.primary
  {
    var seen := AfterStatusPhase(w, env);
    if env.statusLands && env.flagLands && ShouldSwitch(seen) {
      ChangeNeedsDrain(Start(seen, env), env, cut, p);
    }
  }

  // ----- what blocks a switchover whatever the passes meet

  /** What the world does before a pass, and what the pass meets. */
  datatype Trial = Trial(pods: seq<Pod>, desired: int, env: Env, cut: nat)

  ghost predicate TrialStep(w: World, t: Trial, v: World) {
    && SameRolesAndEpochs(w.pods, t.pods)
    && v == SwitchoverPass(w.(pods := t.pods, desired := t.desired), t.env, t.cut)
  }

  /** The pod of `p` does not exist; or it is not ready, and two of the pods that are primary in `pods` answer. */
  ghost predicate Blocks(pods: seq<Pod>, p: int, t: Trial) {
    && !IsUp(t.pods, p)
    && (!(0 <= p < |t.pods| && t.pods[p].present)
        || exists i, j :: i != j && IsPrimary(pods, i) && IsPrimary(pods, j) && i in t.env.reach && j in t.env.reach)
  }

  /** No pod that is primary stops being primary. */
  ghost predicate PrimariesStay(a: seq<Pod>, b: seq<Pod>) {
    |a| == |b| && forall i :: IsPrimary(a, i) ==> IsPrimary(b, i)
  }

  lemma {:induction false} BlockedPhases(w: World, env: Env, cut: nat, p: int)
    requires w.op.Switching? && w.op.phase <= 3 && w.status.primary == Some(p) && !IsUp(w.pods, p)
    requires w.op.plan.current == p || (w.op.phase <= 1 && !(0 <= p < |w.pods| && w.pods[p].present))
    ensures
      var v := RunPhases(w, env, cut);
      v.op.Idle? && v.status == w.status && PrimariesStay(w.pods, v.pods)
    decreases 5 - w.op.phase
  {
    if cut > 0 && PhaseStep(w, env).Some? {
      Unfold(w, env, cut);
      var v := PhaseStep(w, env).value;
      assert PrimariesStay(w.pods, v.pods) && IsUp(v.pods, p) == IsUp(w.pods, p);
      BlockedPhases(v, env, cut - 1, p);
    }
  }

  lemma BlockedTrialStays(w: World, t: Trial, v: World, pods: seq<Pod>, p: int)
    requires w.op.Idle? && w.status.primary == Some(p) && PrimariesStay(pods, w.pods)
    requires TrialStep(w, t, v) && Blocks(pods, p, t)
    ensures v.op.Idle? && v.status.primary == Some(p) && PrimariesStay(pods, v.pods)
  {
    var u := w.(pods := t.pods, desired := t.desired);
    var seen := AfterStatusPhase(u, t.env);
    assert PrimariesStay(w.pods, u.pods);
    if t.env.statusLands && t.env.flagLands && ShouldSwitch(seen) {
      var states := Observe(u.pods, t.env.reach);
      if 0 <= p < |t.pods| && t.pods[p].present {
        var i, j :| i != j && IsPrimary(pods, i) && IsPrimary(pods, j) && i in t.env.reach && j in t.env.reach;
        assert IsPrimary(u.pods, i) && IsPrimary(u.pods, j);
        assert AnswersPrimary(states, i) && AnswersPrimary(states, j);
      }
      BlockedPhases(Start(seen, t.env), t.env, t.cut, p);
    }
  }

  /**
    As long as the old primary's pod is gone, or not ready while two of the pods that were primary at the start
    answer, no pass records another primary: however it is cut, whatever fails, whoever is asked for in between.
   */
  lemma {:induction false} BlockedForever(ws: seq<World>, ts: seq<Trial>, p: int, k: nat)
    requires |ws| == |ts| + 1 && k < |ws| && ws[0].op.Idle? && ws[0].status.primary == Some(p)
    requires forall j :: 0 <= j < |ts| ==> TrialStep(ws[j], ts[j], ws[j + 1]) && Blocks(ws[0].pods, p, ts[j])
    ensures ws[k].op.Idle? && ws[k].status.primary == Some(p) && PrimariesStay(ws[0].pods, ws[k].pods)
  {
    if k > 0 {
      BlockedForever(ws, ts, p, k - 1);
      BlockedTrialStays(ws[k - 1], ts[k - 1], ws[k], ws[0].pods, p);
    }
  }

  // ----- a switchover with one target, interrupted anywhere any number of times

  /** Nobody but the old primary and the target is primary. */
  ghost predicate OnlyPrimaries(pods: seq<Pod>, p: int, t: int) {
    forall i :: IsPrimary(pods, i) ==> i == p || i == t
  }

  /** On its way from `p` to `t`, or there. */
  ghost predicate OnTheWay(w: World, p: int, t: int) {
    && w.op.Idle? && w.desired == t && p != t
    && (Completed(w) || (w.status.primary == Some(p) && OnlyPrimaries(w.pods, p, t)))
  }

  lemma PhaseStaysOnTheWay(w: World, env: Env)
    requires w.op.Switching? && w.op.phase <= 4 && w.status.primary.Some? && PhaseStep(w, env).Some?
    requires OnlyPrimaries(w.pods, w.status.primary.value, w.op.target)
    ensures
      var v := PhaseStep(w, env).value;
      OnlyPrimaries(v.pods, w.status.primary.value, w.op.target) && v.desired == w.desired
      && (v.op.Switching? ==> v.status == w.status && v.op == w.op.(phase := w.op.phase + 1))
      && (v.op.Idle? ==> v.status.primary == Some(w.op.target) && !v.status.switching)
  {
    var v := PhaseStep(w, env).value;
    forall i | IsPrimary(v.pods, i) ensures i == w.status.primary.value || i == w.op.target {
      assert IsPrimary(w.pods, i) || i == w.op.target;
    }
  }

  lemma {:induction false} PhasesStayOnTheWay(w: World, env: Env, cut: nat)
    requires w.op.Switching? && w.op.phase <= 4 && w.status.primary.Some? && w.op.target == w.desired
    requires w.status.primary.value != w.desired
    requires OnlyPrimaries(w.pods, w.status.primary.value, w.op.target)
    ensures OnTheWay(RunPhases(w, env, cut), w.status.primary.value, w.desired)
    decreases cut
  {
    if cut > 0 && PhaseStep(w, env).Some? {
      PhaseStaysOnTheWay(w, env);
      Unfold(w, env, cut);
      var v := PhaseStep(w, env).value;
      if v.op.Switching? {
        PhasesStayOnTheWay(v, env, cut - 1);
      }
    } else {
      var v := RunPhases(w, env, cut);
      assert forall i :: IsPrimary(v.pods, i) == IsPrimary(w.pods, i);
    }
  }

  /** One attempt: the pods come and go, then a pass runs and is cut somewhere. */
  ghost predicate Attempt(w: World, pods: seq<Pod>, env: Env, cut: nat, v: World) {
    SameRolesAndEpochs(w.pods, pods) && v == SwitchoverPass(w.(pods := pods), env, cut)
  }

  lemma AttemptStaysOnTheWay(w: World, pods: seq<Pod>, env: Env, cut: nat, v: World, p: int, t: int)
    requires OnTheWay(w, p, t) && Attempt(w, pods, env, cut, v)
    ensures OnTheWay(v, p, t)
  {
    var u := w.(pods := pods);
    if !Completed(w) {
      forall i | IsPrimary(pods, i) ensures i == p || i == t {
        assert IsPrimary(w.pods, i);
      }
      if ShouldSwitch(u) && env.statusLands && env.flagLands {
        PassBegins(u, env, cut);
        PhasesStayOnTheWay(Begun(u, env), env, cut);
      }
    }
  }

  lemma {:induction false} AttemptsStayOnTheWay(
    ws: seq<World>, pods: seq<seq<Pod>>, envs: seq<Env>, cuts: seq<nat>, p: int, t: int, k: nat)
    requires |ws| == |pods| + 1 == |envs| + 1 == |cuts| + 1 && k < |ws|
    requires OnTheWay(ws[0], p, t)
    requires forall i :: 0 <= i < |envs| ==> Attempt(ws[i], pods[i], envs[i], cuts[i], ws[i + 1])
    ensures OnTheWay(ws[k], p, t)
  {
    if k > 0 {
      AttemptsStayOnTheWay(ws, pods, envs, cuts, p, t, k - 1);
      AttemptStaysOnTheWay(ws[k - 1], pods[k - 1], envs[k - 1], cuts[k - 1], ws[k], p, t);
    }
  }

  /** A switchover on its way from `p` to `t`, when nobody cuts its passes any more. */
  lemma OnTheWayIsCompletableIff(w: World, env: Env, p: int, t: int)
    requires OnTheWay(w, p, t) && UnderWay(w, env)
    ensures w.status.primary == Some(p)
    ensures Completable(w, env) <==> Yields(w.pods, p, env) && (IsUp(w.pods, p) || !AnswersAsPrimary(w, env, p))
    ensures IsUp(w.pods, p) ==> forall i :: AnswersAsPrimary(w, env, i) ==> IsUp(w.pods, i)
  {
    assert forall i :: AnswersAsPrimary(w, env, i) ==> i == p || i == t;
  }

  /** Completed by uncut passes: within two if at all, and within one if `p` is up. */
  ghost predicate CompletesExactlyIf(w: World, env: Env, p: int, condition: bool) {
    var completes := exists n :: Completed(Passes(w, env, n));
    && (completes <==> condition)
    && (completes ==> Completed(Passes(w, env, 1)) || Completed(Passes(w, env, 2)))
    && (completes && IsUp(w.pods, p) ==> Completed(Passes(w, env, 1)))
  }

  /**
    A switchover from `p` to `t`, cut any number of times at any phase while pods come and go, completes by passes
    that nobody cuts if and only if the pod of `p` exists and either is ready, answers and is not refused its drain,
    or is not ready and does not answer as primary. Then two passes are enough, and one if the old primary is up.
   */
  lemma InterruptedSwitchoverCompletes(
    ws: seq<World>, pods: seq<seq<Pod>>, envs: seq<Env>, cuts: seq<nat>, p: int, t: int, env: Env)
    requires |ws| == |pods| + 1 == |envs| + 1 == |cuts| + 1
    requires OnTheWay(ws[0], p, t)
    requires forall i :: 0 <= i < |envs| ==> Attempt(ws[i], pods[i], envs[i], cuts[i], ws[i + 1])
    requires UnderWay(ws[|ws| - 1], env)
    ensures
      var w := ws[|ws| - 1];
      CompletesExactlyIf(
        w, env, p, Yields(w.pods, p, env) && (IsUp(w.pods, p) || !AnswersAsPrimary(w, env, p)))
  {
    var w := ws[|ws| - 1];
    AttemptsStayOnTheWay(ws, pods, envs, cuts, p, t, |ws| - 1);
    OnTheWayCompletes(w, env, p, t);
  }

  lemma OnTheWayCompletes(w: World, env: Env, p: int, t: int)
    requires OnTheWay(w, p, t) && UnderWay(w, env)
    ensures CompletesExactlyIf(
              w, env, p, Yields(w.pods, p, env) && (IsUp(w.pods, p) || !AnswersAsPrimary(w, env, p)))
  {
    OnTheWayIsCompletableIff(w, env, p, t);
    CompletesIff(w, env);
    if Completable(w, env) && IsUp(w.pods, p) {
      OnePassIfOldPrimaryUp(w, env);
    }
  }
}
