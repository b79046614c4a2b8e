/** Who gets client traffic: the primary Service selects pods by label. */
module Routing {
  import opened Wrappers
  import opened Cluster
  import opened Names
  import opened Protocol
  import opened Switchover
  import opened Progress

  const APP_LABEL := "app.kubernetes.io/name"
  const POD_NAME_LABEL := "statefulset.kubernetes.io/pod-name"
  const ROLE_LABEL := "k8s.dolthub.com/cluster-role"

  type Labels = map<string, string>

  function RoleText(role: Role): string {
    match role
    case Primary => "primary"
    case Standby => "standby"
    case Other => "other"
  }

  /** The labels of pod `i`: the StatefulSet controller sets the first two. */
  function LabelsOf(name: string, i: nat, pod: Pod): Labels {
    var own := map[APP_LABEL := name, POD_NAME_LABEL := PodName(name, i)];
    if pod.roleLabel.Some? then own[ROLE_LABEL := RoleText(pod.roleLabel.value)] else own
  }

  /** `BuildDoltPrimaryService`'s selector. */
  function PrimarySelector(name: string, current: nat): Labels {
    map[APP_LABEL := name, ROLE_LABEL := "primary", POD_NAME_LABEL := PodName(name, current)]
  }

  predicate Selects(selector: Labels, labels: Labels) {
    forall k :: k in selector ==> k in labels && labels[k] == selector[k]
  }

  /** The Service routes to pod `i`. */
  predicate Routed(pods: seq<Pod>, name: string, current: nat, i: nat) {
    i < |pods| && pods[i].present && Selects(PrimarySelector(name, current), LabelsOf(name, i, pods[i]))
  }

  lemma RoutedIff(pods: seq<Pod>, name: string, current: nat, i: nat)
    ensures Routed(pods, name, current, i) <==>
      i < |pods| && pods[i].present && pods[i].roleLabel == Some(Primary) && i == current
  {
    var selector := PrimarySelector(name, current);
    if i < |pods| {
      var labels := LabelsOf(name, i, pods[i]);
      assert POD_NAME_LABEL != ROLE_LABEL && APP_LABEL != ROLE_LABEL && APP_LABEL != POD_NAME_LABEL by {
        assert |POD_NAME_LABEL| != |ROLE_LABEL| && |APP_LABEL| != |ROLE_LABEL| && |APP_LABEL| != |POD_NAME_LABEL|;
      }
      assert |"primary"| == 7 && "standby"[0] != "primary"[0] && "other"[0] != "primary"[0];
      if Selects(selector, labels) {
        assert POD_NAME_LABEL in selector && ROLE_LABEL in selector;
        assert labels[POD_NAME_LABEL] == selector[POD_NAME_LABEL];
        PodNameInjective(name, i, current);
      }
    }
  }

  /** Whatever the role labels are and however stale the Service is, it routes to one pod at most. */
  lemma AtMostOneRouted(pods: seq<Pod>, name: string, current: nat, i: nat, j: nat)
    requires Routed(pods, name, current, i) && Routed(pods, name, current, j)
    ensures i == j
  {
    RoutedIff(pods, name, current, i);
    RoutedIff(pods, name, current, j);
  }

  // ----- during a switchover

  /** Pod `i` exists and is labelled primary. */
  predicate Labelled(pods: seq<Pod>, i: int) {
    0 <= i < |pods| && pods[i].present && pods[i].roleLabel == Some(Primary)
  }

  /** After `phase` phases: none is labelled from the first to the fourth, then exactly the planned current primary. */
  ghost predicate LabelsAfter(pods: seq<Pod>, phase: nat, current: int) {
    && (1 <= phase <= 3 ==> forall i :: !Labelled(pods, i))
    && (phase >= 4 ==> forall i :: Labelled(pods, i) <==> i == current)
  }

  ghost predicate Promoted(w: World, target: int, epoch: nat) {
    IsPrimary(w.pods, target) && w.pods[target].epoch == epoch
  }

  ghost predicate LabelsAt(w: World)
    requires w.op.Switching?
  {
    && LabelsAfter(w.pods, w.op.phase, w.op.plan.current)
    && (w.op.phase >= 3 ==> Promoted(w, w.op.target, w.op.plan.epoch))
  }

  lemma PhaseKeepsLabels(w: World, env: Env)
    requires w.op.Switching? && w.op.phase <= 3 && w.status.primary.Some? && PhaseStep(w, env).Some? && LabelsAt(w)
    ensures
      var v := PhaseStep(w, env).value;
      v.op == w.op.(phase := w.op.phase + 1) && v.status == w.status && LabelsAt(v)
  {
    var v := PhaseStep(w, env).value;
    forall i ensures Labelled(v.pods, i) <==>
      (w.op.phase > 0 && Labelled(w.pods, i)) || (w.op.phase == 3 && i == w.op.plan.current)
    {
    }
  }

  /**
    However a pass ends after its first phase, by a cut or by a failing phase, the labels are those of the phases
    that got through; and a pod is labelled primary again only once the target has been promoted.
   */
  lemma {:induction false} TrafficOnlyAfterPromotion(w: World, env: Env, cut: nat)
    requires w.op.Switching? && 1 <= w.op.phase <= 4 && w.status.primary.Some? && LabelsAt(w)
    ensures
      var v, n := RunPhases(w, env, cut), w.op.phase + PhasesDone(w, env, cut);
      && LabelsAfter(v.pods, n, w.op.plan.current)
      && (n >= 3 ==> Promoted(v, w.op.target, w.op.plan.epoch))
      && ((exists i :: Labelled(v.pods, i)) ==> n >= 4)
    decreases 5 - w.op.phase
  {
    if cut > 0 && PhaseStep(w, env).Some? {
      Unfold(w, env, cut);
      if w.op.phase <= 3 {
        PhaseKeepsLabels(w, env);
        TrafficOnlyAfterPromotion(PhaseStep(w, env).value, env, cut - 1);
      }
    }
  }

  /**
    Once the first phase is through, and wherever the pass ends after that, the primary Service routes to a pod if
    and only if the fourth phase got through and it is the planned current primary, which the Service names.
   */
  lemma RoutedOnlyFromFourthPhase(w: World, env: Env, cut: nat, name: string, current: nat, i: nat)
    requires w.op.Switching? && w.op.phase == 0 && w.status.primary.Some? && PhasesDone(w, env, cut) >= 1
    ensures Routed(RunPhases(w, env, cut).pods, name, current, i) <==>
      PhasesDone(w, env, cut) >= 4 && i == current == w.op.plan.current
  {
    Unfold(w, env, cut);
    PhaseKeepsLabels(w, env);
    TrafficOnlyAfterPromotion(PhaseStep(w, env).value, env, cut - 1);
    var pods := RunPhases(w, env, cut).pods;
    RoutedIff(pods, name, current, i);
    assert Labelled(pods, i) <==> PhasesDone(w, env, cut) >= 4 && i == w.op.plan.current;
  }

  /** A completed switchover leaves the label on exactly the planned current primary. */
  lemma CompletedPassLabels(w: World, env: Env)
    requires UnderWay(w, env) && Completed(SwitchoverPass(w, env, 5))
    ensures forall i :: Labelled(SwitchoverPass(w, env, 5).pods, i) <==> i == Begun(w, env).op.plan.current
    ensures IsUp(SwitchoverPass(w, env, 5).pods, w.desired)
  {
    PassBegins(w, env, 5);
    BegunIsStarting(w, env);
    PassCompletesIff(w, env, 5);
    var b := Begun(w, env);
    var u := ThreePhases(b, env);
    assert RunPhases(b, env, 5) == RunPhases(u, env, 2);
    ClosingSteps(u, env, 2);
    FirstPhaseLabels(b, env);
  }

  /** The labels of a pass, and how far it came, from its first phase. */
  lemma FirstPhaseLabels(b: World, env: Env)
    requires b.op.Switching? && b.op.phase == 0 && b.status.primary.Some? && PhaseStep(b, env).Some?
    requires RunPhases(b, env, 5).status.primary != b.status.primary
    ensures forall i :: Labelled(RunPhases(b, env, 5).pods, i) <==> i == b.op.plan.current
  {
    Unfold(b, env, 5);
    PhaseKeepsLabels(b, env);
    var b1 := PhaseStep(b, env).value;
    TrafficOnlyAfterPromotion(b1, env, 4);
    RecordedOnlyAtTheEnd(b1, env, 4);
  }

  lemma {:induction false} RecordedOnlyAtTheEnd(w: World, env: Env, cut: nat)
    requires w.op.Switching? && w.op.phase <= 4 && w.status.primary.Some?
    requires RunPhases(w, env, cut).status.primary != w.status.primary
    ensures w.op.phase + PhasesDone(w, env, cut) == 5
    decreases 5 - w.op.phase
  {
    Unfold(w, env, cut);
    if w.op.phase <= 3 {
      RecordedOnlyAtTheEnd(PhaseStep(w, env).value, env, cut - 1);
    }
  }

  /**
    The fourth phase labels the pod that was planned as current primary, not the target: a completed switchover
    leaves the target labelled primary if and only if the target alone answered as primary before it.
   */
  lemma TargetLabelledIff(w: World, env: Env)
    requires UnderWay(w, env) && Completed(SwitchoverPass(w, env, 5))
    ensures SwitchoverPass(w, env, 5).pods[w.desired].roleLabel == Some(Primary) <==>
      AtMostOneAnswers(w, env) && AnswersAsPrimary(w, env, w.desired)
  {
    CompletedPassLabels(w, env);
    PlannedCurrent(w, env);
    assert Labelled(SwitchoverPass(w, env, 5).pods, w.desired) <==> w.desired == Begun(w, env).op.plan.current;
  }

  /**
    So a graceful switchover from a pod that is up completes with the old primary, by then a standby, labelled
    primary until the Labels phase.
   */
  lemma OldPrimaryKeepsTheLabel(w: World, env: Env)
    requires UnderWay(w, env) && OldPrimaryUp(w) && env.drain != Refused
    requires AtMostOneAnswers(w, env) && AnswersAsPrimary(w, env, w.status.primary.value)
    ensures
      var v := SwitchoverPass(w, env, 5);
      var p := w.status.primary.value;
      && Completed(v) && v.pods[p].roleLabel == Some(Primary) && (env.drain == Drained ==> v.pods[p].role == Standby)
      && v.pods[w.desired].role == Primary && v.pods[w.desired].roleLabel != Some(Primary)
  {
    PlannedCurrent(w, env);
    PassCompletesIff(w, env, 5);
    CompletedPassLabels(w, env);
    TargetLabelledIff(w, env);
    assert Labelled(SwitchoverPass(w, env, 5).pods, w.status.primary.value);
  }

  // ----- after the Labels phase

  /** A pod the Labels phase cannot touch still carries the primary label. */
  ghost predicate LeftLabelled(pods: seq<Pod>, scheduled: set<nat>, i: int) {
    Labelled(pods, i) && !(IsUp(pods, i) && i in scheduled)
  }

  /**
    After a completed Labels phase exactly the recorded primary is labelled primary, if and only if it is up or was
    left labelled, and no other pod was left labelled.
   */
  lemma ExactlyPrimaryLabelledIff(pods: seq<Pod>, primary: int, scheduled: set<nat>)
    requires 0 <= primary < |pods|
    ensures
      var after := LabelledFor(pods, primary, scheduled);
      (forall i :: Labelled(after, i) <==> i == primary) <==>
        && ((IsUp(pods, primary) && primary in scheduled) || LeftLabelled(pods, scheduled, primary))
        && (forall i :: LeftLabelled(pods, scheduled, i) ==> i == primary)
  {
    var after := LabelledFor(pods, primary, scheduled);
    forall i
      ensures Labelled(after, i) <==>
        (IsUp(pods, i) && i in scheduled && i == primary) || LeftLabelled(pods, scheduled, i)
    {
    }
  }

  /** With every pod up, the primary Service then routes to exactly the recorded primary. */
  lemma RoutedAfterLabelsPhase(pods: seq<Pod>, name: string, primary: nat, scheduled: set<nat>, i: nat)
    requires primary < |pods| && forall k :: 0 <= k < |pods| ==> IsUp(pods, k) && k in scheduled
    ensures Routed(LabelledFor(pods, primary, scheduled), name, primary, i) <==> i == primary
  {
    RoutedIff(LabelledFor(pods, primary, scheduled), name, primary, i);
  }

  // ----- the reader Service

  /** `BuildDoltReaderService`'s selector. */
  function ReaderSelector(name: string): Labels {
    map[APP_LABEL := name, ROLE_LABEL := "standby"]
  }

  predicate ReadFrom(pods: seq<Pod>, name: string, i: nat) {
    i < |pods| && pods[i].present && Selects(ReaderSelector(name), LabelsOf(name, i, pods[i]))
  }

  lemma ReadFromIff(pods: seq<Pod>, name: string, i: nat)
    ensures ReadFrom(pods, name, i) <==> i < |pods| && pods[i].present && pods[i].roleLabel == Some(Standby)
  {
    var selector := ReaderSelector(name);
    if i < |pods| {
      var labels := LabelsOf(name, i, pods[i]);
      assert POD_NAME_LABEL != ROLE_LABEL && APP_LABEL != ROLE_LABEL && APP_LABEL != POD_NAME_LABEL by {
        assert |POD_NAME_LABEL| != |ROLE_LABEL| && |APP_LABEL| != |ROLE_LABEL| && |APP_LABEL| != |POD_NAME_LABEL|;
      }
      assert "primary"[0] != "standby"[0] && "other"[0] != "standby"[0];
      if Selects(selector, labels) {
        assert ROLE_LABEL in selector && labels[ROLE_LABEL] == selector[ROLE_LABEL];
      }
    }
  }

  /**
    After a completed Labels phase the reader Service selects, of the pods it touched, exactly those other than the
    recorded primary, and of the rest those that carried the label before.
   */
  lemma ReadersAfterLabelsPhase(pods: seq<Pod>, name: string, primary: int, scheduled: set<nat>, i: nat)
    ensures ReadFrom(LabelledFor(pods, primary, scheduled), name, i) <==>
      if i < |pods| && pods[i].present && pods[i].ready && i in scheduled then i != primary
      else ReadFrom(pods, name, i)
  {
    ReadFromIff(pods, name, i);
    ReadFromIff(LabelledFor(pods, primary, scheduled), name, i);
  }

  /** Once the first phase of a switchover is through, it selects every pod there is. */
  lemma ReadersAfterFirstPhase(w: World, env: Env, name: string, i: nat)
    requires w.op.Switching? && w.op.phase == 0 && w.status.primary.Some? && PhaseStep(w, env).Some?
    ensures ReadFrom(PhaseStep(w, env).value.pods, name, i) <==> i < |w.pods| && w.pods[i].present
  {
    ReadFromIff(PhaseStep(w, env).value.pods, name, i);
  }
}
