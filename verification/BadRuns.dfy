/**
  Runs from bootstrap that end badly: one whose snapshots miss the top epoch ends in a split brain, and two whose
  snapshots never do end in a switchover that cannot complete, because two pods answer as primary or because the
  pod of the recorded primary is gone.
 */
module BadRuns {
  import opened Wrappers
  import opened Cluster
  import opened Snapshot
  import opened StatusPhase
  import opened Protocol
  import opened Switchover
  import opened Progress

  /** Some run from bootstrap ends in `w`; if `covered`, one whose snapshots all reach the top epoch. */
  ghost predicate Reachable(w: World, covered: bool) {
    exists ws, es :: IsRun(ws, es) && Init(ws[0]) && ws[|ws| - 1] == w && (covered ==> AllCovered(ws, es))
  }

  ghost predicate AllCovered(ws: seq<World>, es: seq<Event>)
    requires |ws| == |es| + 1
  {
    forall k :: 0 <= k < |es| ==> Covered(ws[k], es[k])
  }

  lemma StartIsReachable(w: World)
    requires Init(w)
    ensures Reachable(w, true)
  {
    assert IsRun([w], []) && AllCovered([w], []);
  }

  lemma Take(w: World, e: Event, v: World, covered: bool)
    requires Reachable(w, covered) && Next(w, e, v) && (covered ==> Covered(w, e))
    ensures Reachable(v, covered)
  {
    var ws, es :| IsRun(ws, es) && Init(ws[0]) && ws[|ws| - 1] == w && (covered ==> AllCovered(ws, es));
    var ws', es' := ws + [v], es + [e];
    forall k | 0 <= k < |es'| ensures Next(ws'[k], es'[k], ws'[k + 1]) && (covered ==> Covered(ws'[k], es'[k])) {
    }
    assert IsRun(ws', es') && (covered ==> AllCovered(ws', es'));
  }

  function At(role: Role, epoch: nat): Pod {
    Pod(role, epoch, None, true, true)
  }

  ghost predicate PodsAre(pods: seq<Pod>, a: Pod, b: Pod, c: Pod) {
    pods == [a, b, c]
  }

  /** Pod 0 bootstraps as primary and is recorded, at epoch 1. */
  lemma Bootstrapped() returns (w: World)
    ensures Reachable(w, true) && w.op.Idle? && !w.status.resizing
    ensures w.status.primary == Some(0) && w.status.epoch == Some(1)
    ensures PodsAre(w.pods, At(Primary, 1), At(Standby, 1), At(Standby, 1))
  {
    var w0 := World([At(Primary, 1), At(Standby, 1), At(Standby, 1)], 0, Status(None, None, None, false, false), Idle);
    StartIsReachable(w0);
    var w1 := w0.(op := Fetched(0, false));
    Take(w0, Fetch, w1, true);
    var all := {0, 1, 2};
    assert Bounds(w1.pods, w1.pods[0].epoch);
    var states := Observe(w1.pods, all);
    assert states[0] == Answered(Primary, 1, false);
    var w2 := w1.(status := AfterStatus(w1, all, {}, false), op := Observed(0, false));
    Take(w1, ObserveStatus(all, {}, false, true), w2, true);
    w := w2.(op := Idle);
    Take(w2, Abandon, w, true);
  }

  /** A pass towards pod `t` that sees only `reach`, as far as the end of its first phase. */
  lemma PassUnderWay(w: World, t: int, reach: set<nat>, epoch: nat, plan: Plan, covered: bool) returns (v: World)
    requires Reachable(w, covered) && w.op.Idle? && !w.status.resizing && w.status.primary == Some(0) && t != 0
    requires RecordedEpoch(w.status.epoch, Observe(w.pods, reach)) == Some(epoch)
    requires PlanFor(Observe(w.pods, reach), w.status.(epoch := Some(epoch))) == plan
    requires covered ==> Covers(w.pods, reach)
    ensures Reachable(v, covered) && v.pods == w.pods && !v.status.resizing && v.desired == t && v.status.switching
    ensures v.status.primary == Some(0) && v.status.epoch == Some(epoch)
    ensures v.op == Switching(1, t, plan)
  {
    var a := w.(desired := t);
    Take(w, SetDesired(t), a, covered);
    var b := a.(status := a.status.(switching := true));
    Take(a, RaiseSwitching, b, covered);
    var c := b.(op := Fetched(t, true));
    Take(b, Fetch, c, covered);
    var d := c.(status := AfterStatus(c, reach, {}, false), op := Observed(t, true));
    Take(c, ObserveStatus(reach, {}, false, true), d, covered);
    var f := d.(op := Op.Switching(0, t, plan));
    assert PlanFor(Observe(d.pods, reach), d.status) == plan;
    Take(d, BeginSwitchover(reach, {}, t), f, covered);
    v := f.(op := f.op.(phase := 1));
    Take(f, EndShiftAway, v, covered);
  }

  /** From there on, with the old primary skipped, the target is promoted and the pass is cut. */
  lemma PromotedAndCut(w: World, pods: seq<Pod>, covered: bool) returns (v: World)
    requires Reachable(w, covered) && w.op.Switching? && w.op.phase == 1 && w.status.primary.Some?
    requires 0 <= w.op.target < |w.pods|
    requires
      var r := AssumeRole(w.pods[w.op.target], Primary, w.op.plan.epoch);
      r.Some? && pods == w.pods[w.op.target := r.value]
    ensures Reachable(v, covered) && v == w.(pods := pods, op := Idle)
  {
    var b := w.(op := w.op.(phase := 2));
    Take(w, SetReadOnly(false), b, covered);
    var c := b.(pods := pods, op := b.op.(phase := 3));
    Take(b, Promote, c, covered);
    v := c.(op := Idle);
    Take(c, Abandon, v, covered);
  }

  /**
    Pod 0 is out of reach, and perhaps not ready: pod 1 is promoted at epoch 2, and the pass is cut before anything
    is recorded.
   */
  lemma FirstPassIsCut(ready: bool) returns (d: World)
    ensures Reachable(d, true) && d.op.Idle? && !d.status.resizing
    ensures d.status.primary == Some(0) && d.status.epoch == Some(1)
    ensures PodsAre(d.pods, At(Primary, 1).(ready := ready), At(Primary, 2), At(Standby, 1))
  {
    var w := Bootstrapped();
    var zero := At(Primary, 1).(ready := ready);
    var u := w.(pods := [zero, At(Standby, 1), At(Standby, 1)]);
    Take(w, Disturb(u.pods), u, true);
    var states := Observe(u.pods, {1, 2});
    assert states[1] == Answered(Standby, 1, false);
    assert forall i :: !AnswersPrimary(states, i);
    assert Bounds(u.pods, u.pods[1].epoch);
    var a := PassUnderWay(u, 1, {1, 2}, 1, Plan(0, 2), true);
    d := PromotedAndCut(a, [zero, At(Primary, 2), At(Standby, 1)], true);
  }

  // ----- a split brain

  lemma StaleSnapshot(pods: seq<Pod>, status: Status)
    requires PodsAre(pods, At(Primary, 1), At(Primary, 2), At(Standby, 1))
    ensures Highest(Observe(pods, {0, 2})) == 1
    ensures PlanFor(Observe(pods, {0, 2}), status) == Plan(0, 2)
  {
    var states := Observe(pods, {0, 2});
    assert SolePrimary(states, 0);
    assert states[0] == Answered(Primary, 1, false);
  }

  /**
    After the first cut pod 1 is out of reach and pod 0 answers again, as the sole primary and at epoch 1: pod 2 is
    promoted at epoch 2 as well. That snapshot does not reach the pod that carries the top epoch.
   */
  lemma UncoveredRunSplits()
    ensures exists w :: Reachable(w, false) && !UniquePrimaryPerEpoch(w.pods)
  {
    var d := FirstPassIsCut(true);
    StaleSnapshot(d.pods, d.status.(epoch := Some(1)));
    var e := PassUnderWay(d, 2, {0, 2}, 1, Plan(0, 2), false);
    var f := e.(pods := [At(Standby, 2), At(Primary, 2), At(Standby, 1)], op := e.op.(phase := 2));
    Take(e, SetReadOnly(true), f, false);
    var g := f.(pods := [At(Standby, 2), At(Primary, 2), At(Primary, 2)], op := f.op.(phase := 3));
    Take(f, Promote, g, false);
    assert IsPrimary(g.pods, 1) && IsPrimary(g.pods, 2);
  }

  // ----- a switchover that is stuck

  lemma PromotedSnapshot(pods: seq<Pod>, status: Status)
    requires PodsAre(pods, At(Primary, 1).(ready := false), At(Primary, 2), At(Standby, 1))
    ensures Highest(Observe(pods, {1, 2})) == 2
    ensures PlanFor(Observe(pods, {1, 2}), status) == Plan(1, 3)
    ensures Covers(pods, {1, 2})
  {
    var states := Observe(pods, {1, 2});
    assert SolePrimary(states, 1);
    assert states[1] == Answered(Primary, 2, false) && states[2] == Answered(Standby, 1, false);
    assert Bounds(pods, pods[1].epoch);
  }

  /**
    With pod 0 down throughout, pod 1 is promoted and the pass is cut; the user then asks for pod 2, which is
    promoted too, and the pass is cut again. Every snapshot reaches the top epoch, and no pass completes any more.
   */
  lemma StuckIsReachable()
    ensures exists w, env :: Reachable(w, true) && Stuck(w, env) && forall n: nat :: !Completed(Passes(w, env, n))
  {
    var d := FirstPassIsCut(false);
    PromotedSnapshot(d.pods, d.status.(epoch := Some(2)));
    var a := PassUnderWay(d, 2, {1, 2}, 2, Plan(1, 3), true);
    var pods := [At(Primary, 1).(ready := false), At(Primary, 2), At(Primary, 3)];
    var w := PromotedAndCut(a, pods, true);
    var env := Env({1, 2}, {1, 2}, Drained, {}, true, true);
    assert AnswersAsPrimary(w, env, 1) && AnswersAsPrimary(w, env, 2);
    assert Stuck(w, env);
    forall n: nat ensures !Completed(Passes(w, env, n)) {
      NeverIfStuck(w, env, n);
    }
  }

  /**
    Nor does any pass complete once the pod of the recorded primary is gone: pod 1 is asked for, nobody
    answers as primary, and the second phase cannot fetch pod 0.
   */
  lemma GonePrimaryIsReachable()
    ensures exists w, env ::
      && Reachable(w, true) && UnderWay(w, env) && AtMostOneAnswers(w, env)
      && forall n: nat :: !Completed(Passes(w, env, n))
  {
    var b := Bootstrapped();
    var gone := At(Primary, 1).(ready := false, present := false);
    var c := b.(pods := [gone, At(Standby, 1), At(Standby, 1)]);
    Take(b, Disturb(c.pods), c, true);
    var d := c.(desired := 1);
    Take(c, SetDesired(1), d, true);
    var w := d.(status := d.status.(switching := true));
    Take(d, RaiseSwitching, w, true);
    var env := Env({1, 2}, {1, 2}, Drained, {}, true, true);
    assert forall i :: !AnswersAsPrimary(w, env, i);
    assert UnderWay(w, env) && AtMostOneAnswers(w, env);
    forall n: nat ensures !Completed(Passes(w, env, n)) {
      NeverIfStuck(w, env, n);
    }
  }
}
