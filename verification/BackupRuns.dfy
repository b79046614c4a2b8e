/** Runs of the Backup controller: exclusion, accounting of attempts, and draining. */
module BackupRuns {
  import opened Wrappers
  import opened Backups

  /** One reconcile: which backup, which calls get through, what its execution meets. */
  datatype Turn = Turn(index: nat, calls: Calls, work: Work)

  ghost function After(hash: string -> string, bs: seq<Backup>, t: Turn): (r: seq<Backup>)
    ensures |r| == |bs|
  {
    ReconcileAt(hash, bs, t.index, t.calls, t.work)
  }

  ghost function Run(hash: string -> string, bs: seq<Backup>, ts: seq<Turn>): (r: seq<Backup>)
    ensures |r| == |bs|
    decreases |ts|
  {
    if ts == [] then bs else Run(hash, After(hash, bs, ts[0]), ts[1..])
  }

  /** A reconcile changes its own backup only, and never what the backup is of. */
  lemma OthersKept(hash: string -> string, bs: seq<Backup>, t: Turn)
    ensures forall j :: 0 <= j < |bs| && j != t.index ==> After(hash, bs, t)[j] == bs[j]
    ensures forall j :: 0 <= j < |bs| ==>
      var b := After(hash, bs, t)[j];
      b.namespace == bs[j].namespace && b.target == bs[j].target && b.backoffLimit == bs[j].backoffLimit
      && b.databases == bs[j].databases && b.url == bs[j].url
  {
  }

  // ----- one running backup per target

  ghost predicate OneRunningPerTarget(bs: seq<Backup>) {
    forall i, j :: 0 <= i < j < |bs| && SameTarget(bs, i, j) ==> bs[i].phase != Running || bs[j].phase != Running
  }

  /** Becoming pending blocks nobody and unblocks nobody. */
  lemma PendingBlockedSame(bs: seq<Backup>, i: nat, j: nat)
    requires i < |bs| && j < |bs|
    ensures Blocked(bs[i := BecomePending(bs[i])], j) <==> Blocked(bs, j)
  {
    var p := bs[i := BecomePending(bs[i])];
    if Blocked(bs, j) {
      var k :| 0 <= k < |bs| && k != j && SameTarget(bs, j, k) && bs[k].phase == Running;
      assert SameTarget(p, j, k);
    }
    if Blocked(p, j) {
      var k :| 0 <= k < |p| && k != j && SameTarget(p, j, k) && p[k].phase == Running;
      assert SameTarget(bs, j, k);
    }
  }

  /** A backup starts running only when no other backup of its target is. */
  lemma RunsOnlyUnblocked(hash: string -> string, bs: seq<Backup>, t: Turn)
    requires t.index < |bs| && After(hash, bs, t)[t.index].phase == Running && bs[t.index].phase != Running
    ensures !Blocked(bs, t.index)
  {
    PendingBlockedSame(bs, t.index, t.index);
  }

  lemma TurnKeepsOneRunning(hash: string -> string, bs: seq<Backup>, t: Turn)
    requires OneRunningPerTarget(bs)
    ensures OneRunningPerTarget(After(hash, bs, t))
  {
    var v := After(hash, bs, t);
    OthersKept(hash, bs, t);
    forall i, j | 0 <= i < j < |v| && SameTarget(v, i, j) ensures v[i].phase != Running || v[j].phase != Running {
      assert SameTarget(bs, i, j) && SameTarget(bs, j, i);
      if t.index < |bs| && v[t.index].phase == Running && bs[t.index].phase != Running {
        RunsOnlyUnblocked(hash, bs, t);
      }
    }
  }

  /** Over every run, whatever calls fail, at most one backup of a target is running. */
  lemma {:induction false} NeverTwoRunning(hash: string -> string, bs: seq<Backup>, ts: seq<Turn>)
    requires OneRunningPerTarget(bs)
    ensures OneRunningPerTarget(Run(hash, bs, ts))
    decreases |ts|
  {
    if ts != [] {
      TurnKeepsOneRunning(hash, bs, ts[0]);
      NeverTwoRunning(hash, After(hash, bs, ts[0]), ts[1..]);
    }
  }

  /** Completed and Failed are final, whatever happens. */
  lemma {:induction false} TerminalIsFinal(hash: string -> string, bs: seq<Backup>, ts: seq<Turn>, i: nat)
    requires i < |bs| && bs[i].IsTerminal()
    ensures Run(hash, bs, ts)[i] == bs[i]
    decreases |ts|
  {
    if ts != [] {
      OthersKept(hash, bs, ts[0]);
      TerminalIsFinal(hash, After(hash, bs, ts[0]), ts[1..], i);
    }
  }

  // ----- what a completed backup has synced

  /** Turn `t` completed the backup that `b` is now: `b` records what that turn selected, and all of it is synced. */
  ghost predicate CompletedBy(hash: string -> string, b: Backup, t: Turn) {
    && t.calls.runningLands && t.calls.completedLands && t.work.connects
    && (b.databases != [] || t.work.listed.Some?)
    && b.selected == (if b.databases != [] then b.databases else t.work.listed.GetOr([]))
    && (forall d :: d in b.selected ==> d !in t.work.failing)
    && SyncedAll(hash, b)
  }

  /** Every database selected is synced, one by one and in order, under its stable name at the backup's own URL. */
  ghost predicate SyncedAll(hash: string -> string, b: Backup) {
    && (b.selected != [] ==> b.url.Some?)
    && (b.databases != [] ==> b.selected == b.databases)
    && |b.synced| == |b.selected| && SyncsInOrder(hash, b.url.GetOr(""), b.selected, b.synced)
  }

  lemma AllSyncedIsSyncedAll(hash: string -> string, b: Backup)
    requires b.synced == AllSynced(hash, b.url.GetOr(""), b.selected) && (b.selected != [] ==> b.url.Some?)
    requires b.databases != [] ==> b.selected == b.databases
    ensures SyncedAll(hash, b)
  {
    assert b.selected[..|b.selected|] == b.selected;
    AllSyncedInOrder(hash, b.url.GetOr(""), b.selected, |b.selected|);
  }

  // ----- one turn, spelled out

  /** A turn gets to execute its backup. */
  ghost predicate Executes(bs: seq<Backup>, t: Turn)
    requires t.index < |bs|
  {
    && bs[t.index].phase in {Unset, Pending, Running} && (bs[t.index].phase == Unset ==> t.calls.pendingLands)
    && t.calls.targetReady && t.calls.lists
    && (forall j :: 0 <= j < |bs| && j != t.index && bs[j].phase == Running ==>
          bs[j].namespace != bs[t.index].namespace || bs[j].target != bs[t.index].target)
  }

  /** And completes it. */
  ghost predicate Completes(bs: seq<Backup>, t: Turn)
    requires t.index < |bs|
  {
    && Executes(bs, t) && t.calls.runningLands && t.calls.completedLands
    && t.work.connects && AllSync(bs[t.index], t.work)
  }

  /**
    What a turn does to its backup, by what it meets: it executes unless the backup is finished, cannot be made
    pending, or its target is not ready or busy; it completes if every call and every database goes well; and
    otherwise the failure is counted, and ends the backup at its limit, which is 2 unless the spec sets one.
   */
  lemma TurnOutcome(hash: string -> string, bs: seq<Backup>, t: Turn)
    requires t.index < |bs|
    ensures
      var b, v, c := bs[t.index], After(hash, bs, t)[t.index], t.calls;
      var before := if b.phase == Unset && c.pendingLands then Pending else b.phase;
      && v.attempts == b.attempts + (if Executes(bs, t) then 1 else 0)
      && v.retries == b.retries + (if Executes(bs, t) && !Completes(bs, t) && c.retryLands then 1 else 0)
      && v.phase == (
           if !Executes(bs, t) then before
           else if Completes(bs, t) then Completed
           else if b.retries + 1 >= b.backoffLimit.GetOr(2) && c.failedLands then Failed
           else if c.runningLands then Running
           else before)
      && (v.phase == Completed && b.phase != Completed ==> CompletedBy(hash, v, t))
  {
    var i := t.index;
    var b, v := bs[i], After(hash, bs, t)[i];
    BlockedSpelledOut(bs, i);
    PendingBlockedSame(bs, i, i);
    SucceedsIff(BecomePending(b), t.work);
    if v.phase == Completed && b.phase != Completed {
      AllSyncedIsSyncedAll(hash, v);
    }
  }

  lemma BlockedSpelledOut(bs: seq<Backup>, i: nat)
    requires i < |bs|
    ensures !Blocked(bs, i) <==> forall j :: 0 <= j < |bs| && j != i && bs[j].phase == Running ==>
      bs[j].namespace != bs[i].namespace || bs[j].target != bs[i].target
  {
    if Blocked(bs, i) {
      var j :| 0 <= j < |bs| && j != i && SameTarget(bs, i, j) && bs[j].phase == Running;
    } else {
      forall j | 0 <= j < |bs| && j != i && bs[j].phase == Running
        ensures bs[j].namespace != bs[i].namespace || bs[j].target != bs[i].target
      {
        assert !SameTarget(bs, i, j);
      }
    }
  }

  lemma SucceedsIff(b: Backup, w: Work)
    ensures Succeeds(b, w) <==> w.connects && AllSync(b, w)
  {
  }

  /**
    Over every run, whatever calls fail: a backup that gets Completed does so in one of its own turns, which synced
    the databases named in its spec, or, if it names none, those listed in that turn.
   */
  lemma {:induction false} CompletedHasSynced(hash: string -> string, bs: seq<Backup>, ts: seq<Turn>, i: nat)
    requires i < |bs| && bs[i].phase != Completed && Run(hash, bs, ts)[i].phase == Completed
    ensures exists k :: 0 <= k < |ts| && ts[k].index == i && CompletedBy(hash, Run(hash, bs, ts)[i], ts[k])
    decreases |ts|
  {
    var v := After(hash, bs, ts[0]);
    if v[i].phase == Completed {
      assert ts[0].index == i;
      TerminalIsFinal(hash, v, ts[1..], i);
      TurnOutcome(hash, bs, ts[0]);
    } else {
      CompletedHasSynced(hash, v, ts[1..], i);
      var k :| 0 <= k < |ts[1..]| && ts[1..][k].index == i && CompletedBy(hash, Run(hash, bs, ts)[i], ts[1..][k]);
      assert ts[k + 1] == ts[1..][k];
    }
  }

  // ----- accounting of attempts

  /** Attempts and failures of a backup agree, and end where they should. */
  ghost predicate Accounted(hash: string -> string, b: Backup) {
    && b.retries >= 0
    && (!b.IsTerminal() ==> b.attempts == b.retries < b.Tries())
    && (b.phase == Failed ==> b.attempts == b.retries == b.Tries())
    && (b.phase == Completed ==> b.attempts == b.retries + 1 <= b.Tries() && SyncedAll(hash, b))
  }

  /** The calls of a turn that matter once its execution has failed. */
  predicate FailureIsRecorded(b: Backup, c: Calls) {
    c.retryLands && (b.retries + 1 >= b.Limit() ==> c.failedLands)
  }

  /** An execution keeps the account if and only if it completes the backup or its failure gets recorded. */
  lemma AccountedIff(hash: string -> string, b: Backup, c: Calls, w: Work)
    requires !b.IsTerminal() && Accounted(hash, b)
    ensures Accounted(hash, AfterExecution(hash, b, c, w)) <==>
      (c.runningLands && Succeeds(b, w) && c.completedLands) || FailureIsRecorded(b, c)
  {
    if c.runningLands && Succeeds(b, w) && c.completedLands {
      AllSyncedIsSyncedAll(hash, AfterExecution(hash, b, c, w));
    }
  }

  ghost predicate AllAccounted(hash: string -> string, bs: seq<Backup>) {
    forall i :: 0 <= i < |bs| ==> Accounted(hash, bs[i])
  }

  lemma TurnIsAccounted(hash: string -> string, bs: seq<Backup>, t: Turn)
    requires AllAccounted(hash, bs) && t.calls.retryLands && t.calls.failedLands
    ensures AllAccounted(hash, After(hash, bs, t))
  {
    OthersKept(hash, bs, t);
    if t.index < |bs| && !bs[t.index].IsTerminal() {
      AccountedIff(hash, BecomePending(bs[t.index]), t.calls, t.work);
    }
  }

  /**
    While retry and failure patches land: attempts never exceed the tries, Failed comes exactly at that many
    failures, and a completed backup has synced every database it selected.
   */
  lemma {:induction false} AttemptsAreAccounted(hash: string -> string, bs: seq<Backup>, ts: seq<Turn>)
    requires AllAccounted(hash, bs)
    requires forall k :: 0 <= k < |ts| ==> ts[k].calls.retryLands && ts[k].calls.failedLands
    ensures AllAccounted(hash, Run(hash, bs, ts))
    ensures forall i :: 0 <= i < |bs| ==>
      Run(hash, bs, ts)[i].attempts <= if bs[i].backoffLimit.GetOr(2) <= 1 then 1 else bs[i].backoffLimit.GetOr(2)
    decreases |ts|
  {
    if ts != [] {
      TurnIsAccounted(hash, bs, ts[0]);
      OthersKept(hash, bs, ts[0]);
      AttemptsAreAccounted(hash, After(hash, bs, ts[0]), ts[1..]);
    }
  }

  // ----- attempts when patches are lost

  /** Turns of backup `i` that lose a retry or a failure patch. */
  function Lossy(ts: seq<Turn>, i: nat): nat {
    if ts == [] then 0 else Lossy(ts[1..], i) + LossyTurn(ts[0], i)
  }

  function LossyTurn(t: Turn, i: nat): nat {
    if t.index == i && !(t.calls.retryLands && t.calls.failedLands) then 1 else 0
  }

  /** All attempts but `lost` are within the tries, and short of them while the backup goes on. */
  ghost predicate Within(b: Backup, lost: nat) {
    && b.retries >= 0
    && b.attempts <= b.Tries() + lost
    && (!b.IsTerminal() ==> b.attempts <= b.retries + lost && b.attempts < b.Tries() + lost)
  }

  lemma TurnStaysWithin(hash: string -> string, bs: seq<Backup>, t: Turn, i: nat, lost: nat)
    requires i < |bs| && Within(bs[i], lost)
    ensures Within(After(hash, bs, t)[i], lost + LossyTurn(t, i)) && After(hash, bs, t)[i].Tries() == bs[i].Tries()
  {
    OthersKept(hash, bs, t);
  }

  lemma {:induction false} AttemptsAreBounded(hash: string -> string, bs: seq<Backup>, ts: seq<Turn>, i: nat, lost: nat)
    requires i < |bs| && Within(bs[i], lost)
    ensures Within(Run(hash, bs, ts)[i], lost + Lossy(ts, i)) && Run(hash, bs, ts)[i].Tries() == bs[i].Tries()
    decreases |ts|
  {
    if ts != [] {
      TurnStaysWithin(hash, bs, ts[0], i, lost);
      AttemptsAreBounded(hash, After(hash, bs, ts[0]), ts[1..], i, lost + LossyTurn(ts[0], i));
    }
  }

  /** Over every run, a backup exceeds its tries by no more turns than lost a retry or a failure patch of it. */
  lemma AttemptsExceedByLossyTurns(hash: string -> string, bs: seq<Backup>, ts: seq<Turn>, i: nat)
    requires i < |bs| && Accounted(hash, bs[i])
    ensures Run(hash, bs, ts)[i].attempts <= bs[i].Tries() + Lossy(ts, i)
  {
    AttemptsAreBounded(hash, bs, ts, i, 0);
  }

  // ----- draining

  function Remaining(b: Backup): int {
    if b.IsTerminal() then 0 else b.Tries() - b.retries
  }

  /** Attempts left over all backups. */
  function Left(bs: seq<Backup>): int {
    if bs == [] then 0 else Left(bs[..|bs| - 1]) + Remaining(bs[|bs| - 1])
  }

  lemma {:induction false} LeftAfterUpdate(bs: seq<Backup>, i: nat, b: Backup)
    requires i < |bs|
    ensures Left(bs[i := b]) == Left(bs) - Remaining(bs[i]) + Remaining(b)
  {
    var n := |bs| - 1;
    if i == n {
      assert bs[i := b][..n] == bs[..n];
    } else {
      assert bs[i := b][..n] == bs[..n][i := b];
      LeftAfterUpdate(bs[..n], i, b);
    }
  }

  lemma {:induction false} NoneLeftIffDrained(hash: string -> string, bs: seq<Backup>)
    requires AllAccounted(hash, bs)
    ensures Left(bs) >= 0
    ensures Left(bs) == 0 <==> Drained(bs)
  {
    if bs != [] {
      var n := |bs| - 1;
      NoneLeftIffDrained(hash, bs[..n]);
      assert Drained(bs) <==> Drained(bs[..n]) && bs[n].IsTerminal();
    }
  }

  ghost predicate Drained(bs: seq<Backup>) {
    forall i :: 0 <= i < |bs| ==> bs[i].IsTerminal()
  }

  /** A reconcile of `i` with the target ready gets to execute. */
  ghost predicate Executable(bs: seq<Backup>, i: nat) {
    i < |bs| && !bs[i].IsTerminal() && !Blocked(bs, i)
  }

  /** No set of unfinished backups is deadlocked. */
  lemma SomeBackupIsExecutable(bs: seq<Backup>)
    requires OneRunningPerTarget(bs) && !Drained(bs)
    ensures exists i :: Executable(bs, i)
  {
    var i: nat :| i < |bs| && !bs[i].IsTerminal();
    if Blocked(bs, i) {
      var j: nat :| j < |bs| && j != i && SameTarget(bs, i, j) && bs[j].phase == Running;
      if Blocked(bs, j) {
        var k: nat :| k < |bs| && k != j && SameTarget(bs, j, k) && bs[k].phase == Running;
        assert SameTarget(bs, k, j);
        assert false;
      }
      assert Executable(bs, j);
    } else {
      assert Executable(bs, i);
    }
  }

  /** With all calls landing a reconcile uses up an attempt if its backup is executable, and costs nothing otherwise. */
  lemma TurnUsesAttempt(hash: string -> string, bs: seq<Backup>, i: nat, w: Work)
    requires AllAccounted(hash, bs)
    ensures
      var v := After(hash, bs, Turn(i, ALL_LAND, w));
      if Executable(bs, i) then Left(v) < Left(bs)
      else Left(v) == Left(bs) && forall j: nat :: Executable(bs, j) ==> Executable(v, j)
  {
    var v := After(hash, bs, Turn(i, ALL_LAND, w));
    if i < |bs| && !bs[i].IsTerminal() {
      PendingBlockedSame(bs, i, i);
      assert v == bs[i := v[i]];
      LeftAfterUpdate(bs, i, v[i]);
      if Executable(bs, i) {
        var b := BecomePending(bs[i]);
        AccountedIff(hash, b, ALL_LAND, w);
        assert v[i] == AfterExecution(hash, b, ALL_LAND, w);
      } else {
        var p := bs[i := BecomePending(bs[i])];
        assert v == p;
        forall j: nat | Executable(bs, j) ensures Executable(v, j) {
          PendingBlockedSame(bs, i, j);
        }
      }
    }
  }

  /** A turn of a calm run: every call lands. */
  ghost predicate Calm(ts: seq<Turn>) {
    forall k :: 0 <= k < |ts| ==> ts[k].calls == ALL_LAND
  }

  lemma {:induction false} CalmRunNeverRaisesLeft(hash: string -> string, bs: seq<Backup>, ts: seq<Turn>)
    requires AllAccounted(hash, bs) && Calm(ts)
    ensures Left(Run(hash, bs, ts)) <= Left(bs)
    decreases |ts|
  {
    if ts != [] {
      TurnUsesAttempt(hash, bs, ts[0].index, ts[0].work);
      TurnIsAccounted(hash, bs, ts[0]);
      CalmRunNeverRaisesLeft(hash, After(hash, bs, ts[0]), ts[1..]);
    }
  }

  /** A calm run that reconciles some executable backup uses up an attempt. */
  lemma {:induction false} ReachingExecutableUsesAttempt(
    hash: string -> string, bs: seq<Backup>, ts: seq<Turn>, i: nat, k: nat)
    requires AllAccounted(hash, bs) && Calm(ts) && Executable(bs, i) && k < |ts| && ts[k].index == i
    ensures Left(Run(hash, bs, ts)) < Left(bs)
    decreases |ts|
  {
    TurnUsesAttempt(hash, bs, ts[0].index, ts[0].work);
    TurnIsAccounted(hash, bs, ts[0]);
    var v := After(hash, bs, ts[0]);
    if Executable(bs, ts[0].index) {
      CalmRunNeverRaisesLeft(hash, v, ts[1..]);
    } else {
      assert k > 0;
      ReachingExecutableUsesAttempt(hash, v, ts[1..], i, k - 1);
    }
  }

  ghost predicate Visits(ts: seq<Turn>, i: nat) {
    exists k :: 0 <= k < |ts| && ts[k].index == i
  }

  /** A round reconciles every backup at least once, in any order. */
  ghost predicate IsRound(n: nat, ts: seq<Turn>) {
    Calm(ts) && forall i: nat :: i < n ==> Visits(ts, i)
  }

  lemma RoundUsesAttempt(hash: string -> string, bs: seq<Backup>, ts: seq<Turn>)
    requires AllAccounted(hash, bs) && OneRunningPerTarget(bs) && IsRound(|bs|, ts) && !Drained(bs)
    ensures Left(Run(hash, bs, ts)) < Left(bs)
  {
    SomeBackupIsExecutable(bs);
    var i :| Executable(bs, i);
    assert Visits(ts, i);
    var k :| 0 <= k < |ts| && ts[k].index == i;
    ReachingExecutableUsesAttempt(hash, bs, ts, i, k);
  }

  ghost function Rounds(hash: string -> string, bs: seq<Backup>, rounds: seq<seq<Turn>>): (r: seq<Backup>)
    ensures |r| == |bs|
    decreases |rounds|
  {
    if rounds == [] then bs else Rounds(hash, Run(hash, bs, rounds[0]), rounds[1..])
  }

  /** As many rounds as there are attempts left finish every backup, however executions end. */
  lemma {:induction false} RoundsDrain(hash: string -> string, bs: seq<Backup>, rounds: seq<seq<Turn>>)
    requires AllAccounted(hash, bs) && OneRunningPerTarget(bs) && |rounds| >= Left(bs)
    requires forall r :: 0 <= r < |rounds| ==> IsRound(|bs|, rounds[r])
    ensures Drained(Rounds(hash, bs, rounds))
    decreases |rounds|
  {
    NoneLeftIffDrained(hash, bs);
    if rounds != [] {
      var v := Run(hash, bs, rounds[0]);
      AttemptsAreAccounted(hash, bs, rounds[0]);
      NeverTwoRunning(hash, bs, rounds[0]);
      if Drained(bs) {
        CalmRunNeverRaisesLeft(hash, bs, rounds[0]);
        NoneLeftIffDrained(hash, v);
      } else {
        RoundUsesAttempt(hash, bs, rounds[0]);
      }
      RoundsDrain(hash, v, rounds[1..]);
    }
  }

  /** `n` turns of backup 0 whose execution fails and whose failure patch is lost. */
  function LosingTurns(w: Work, n: nat): seq<Turn> {
    seq(n, _ => Turn(0, ALL_LAND.(failedLands := false), w))
  }

  /**
    The bound is reached: a backup at its limit whose failure patches are lost stays Running, is executed again in
    every turn, and blocks the other backups of its target meanwhile.
   */
  lemma {:induction false} LostFailurePatchesRepeat(hash: string -> string, b: Backup, other: Backup, w: Work, n: nat)
    requires b.phase in {Pending, Running} && b.retries + 1 >= b.Limit() && !Succeeds(b, w) && n > 0
    requires other.phase == Pending && other.namespace == b.namespace && other.target == b.target
    ensures
      var v := Run(hash, [b, other], LosingTurns(w, n));
      v[0].phase == Running && v[0].attempts == b.attempts + n && v[1] == other && Blocked(v, 1)
    decreases n
  {
    var bs, t := [b, other], Turn(0, ALL_LAND.(failedLands := false), w);
    assert BecomePending(b) == b && bs[0 := b] == bs;
    assert !Blocked(bs, 0);
    var v := After(hash, bs, t);
    assert v == [v[0], other];
    assert LosingTurns(w, n)[1..] == LosingTurns(w, n - 1);
    if n == 1 {
      assert SameTarget(v, 1, 0);
    } else {
      LostFailurePatchesRepeat(hash, v[0], other, w, n - 1);
    }
  }

  /** Until a failure patch lands: that turn is the last attempt and ends it as Failed. */
  lemma LandedFailurePatchEnds(hash: string -> string, bs: seq<Backup>, i: nat, w: Work)
    requires i < |bs| && !bs[i].IsTerminal() && !Blocked(bs, i)
    requires bs[i].retries + 1 >= bs[i].Limit() && !Succeeds(bs[i], w)
    ensures
      var b := After(hash, bs, Turn(i, ALL_LAND, w))[i];
      b.phase == Failed && b.attempts == bs[i].attempts + 1
  {
    PendingBlockedSame(bs, i, i);
  }
}
