/** Backup schedules: at most one Backup per cron tick. Times are nanoseconds since the Unix epoch. */
module Schedule {
  import opened Wrappers

  const SECOND: int := 1_000_000_000

  /** Go's zero time, the first of January of the year 1. */
  const ZERO_TIME: int := -62_135_596_800 * SECOND

  /** A parsed schedule: its ticks, and the least tick strictly after a time, None if there is none. */
  datatype Cron = Cron(tick: int -> bool, next: int -> Option<int>)

  /** Ticks fall on whole seconds. */
  ghost predicate IsCron(c: Cron) {
    && (forall t :: c.next(t).Some? ==> c.next(t).value > t && c.tick(c.next(t).value))
    && (forall t, u :: t < u && c.tick(u) ==> c.next(t).Some? && c.next(t).value <= u)
    && (forall t :: c.tick(t) ==> t % SECOND == 0)
  }

  /** There is always another tick. */
  ghost predicate IsEndless(c: Cron) {
    forall t :: c.next(t).Some?
  }

  /** `Next`, which answers with the zero time if no tick is left. */
  function NextTime(c: Cron, t: int): int {
    c.next(t).GetOr(ZERO_TIME)
  }

  /** A time as the API server keeps it, and as a backup's name has it: whole seconds. */
  function Truncate(t: int): (r: int)
    ensures r <= t < r + SECOND && r % SECOND == 0
  {
    t - t % SECOND
  }

  /** A BackupSchedule and the creation times of the Backups it has created, latest last. */
  datatype State = State(created: int, last: Option<int>, backups: seq<int>)
  {
    /** `LastScheduleTime`. */
    function LastTime(): int { last.GetOr(created) }
  }

  /** Which calls of a reconcile get through: the status patch before, the creation, the status patch after. */
  datatype Calls = Calls(nextLands: bool, creates: bool, lastLands: bool)

  const ALL_LAND := Calls(true, true, true)

  function ComputeRequeueAfter(c: Cron, lastTime: int, now: int): int {
    if NextTime(c, lastTime) < now then 10 * SECOND else NextTime(c, lastTime) - now
  }

  /** A Backup of that name exists. */
  predicate NameTaken(s: State, now: int) {
    exists i :: 0 <= i < |s.backups| && Truncate(s.backups[i]) == Truncate(now)
  }

  predicate Due(c: Cron, s: State, now: int) {
    NextTime(c, s.LastTime()) <= now
  }

  /** A tick has come since the last time. */
  predicate TickHasCome(c: Cron, s: State, now: int) {
    c.next(s.LastTime()).Some? && c.next(s.LastTime()).value <= now
  }

  function Reconciled(c: Cron, s: State, now: int, calls: Calls): State {
    if !calls.nextLands || !Due(c, s, now) || NameTaken(s, now) || !calls.creates then s
    else
      var made := s.(backups := s.backups + [now]);
      if calls.lastLands then made.(last := Some(Truncate(now))) else made
  }

  class Scheduler {
    const cron: Cron
    var state: State

    constructor (cron: Cron, created: int)
      ensures this.cron == cron && state == State(created, None, [])
    {
      this.cron := cron;
      state := State(created, None, []);
    }

    /** `Reconcile`; the result is the requeue delay, None for an error return. */
    method Reconcile(now: int, calls: Calls) returns (requeueAfter: Option<int>)
      modifies this
      ensures state == Reconciled(cron, old(state), now, calls)
      ensures calls == ALL_LAND && !Due(cron, old(state), now) ==>
        requeueAfter == Some(NextTime(cron, old(state).LastTime()) - now)
      ensures requeueAfter.None? <==>
        !calls.nextLands ||
        (Due(cron, old(state), now) && !NameTaken(old(state), now) && (!calls.creates || !calls.lastLands))
      ensures calls.nextLands && Due(cron, old(state), now) && NameTaken(old(state), now) ==>
        requeueAfter == Some(if NextTime(cron, old(state).LastTime()) == now then 0 else 10 * SECOND)
      ensures IsCron(cron) && ZERO_TIME < now && calls == ALL_LAND && |state.backups| > |old(state).backups| ==>
        requeueAfter.Some? && now + requeueAfter.value == cron.next(now).GetOr(now + 10 * SECOND)
    {
      var lastTime := state.LastTime();
      var nextScheduleTime := NextTime(cron, lastTime);
      if !calls.nextLands {
        return None;
      }
      var requeue := ComputeRequeueAfter(cron, lastTime, now);
      if now < nextScheduleTime {
        return Some(requeue);
      }
      if NameTaken(state, now) {
        return Some(requeue);
      }
      if !calls.creates {
        return None;
      }
      state := state.(backups := state.backups + [now]);
      if !calls.lastLands {
        return None;
      }
      state := state.(last := Some(Truncate(now)));
      return Some(ComputeRequeueAfter(cron, now, now));
    }
  }

  // ----- counting ticks

  /** Ticks after `a`, up to and including `b`. */
  ghost function Ticks(c: Cron, a: int, b: int): nat
    decreases b - a
  {
    if b <= a then 0 else Ticks(c, a, b - 1) + if c.tick(b) then 1 else 0
  }

  lemma {:induction false} TicksAdd(c: Cron, a: int, b: int, d: int)
    requires a <= b <= d
    ensures Ticks(c, a, d) == Ticks(c, a, b) + Ticks(c, b, d)
    decreases d - b
  {
    if b < d {
      TicksAdd(c, a, b, d - 1);
    }
  }

  lemma TickCounts(c: Cron, a: int, t: int, b: int)
    requires a < t <= b && c.tick(t)
    ensures Ticks(c, a, b) >= 1
  {
    TicksAdd(c, a, t, b);
  }

  // ----- runs

  ghost predicate IsRun(c: Cron, ss: seq<State>, nows: seq<int>, calls: seq<Calls>) {
    && |ss| == |nows| + 1 == |calls| + 1
    && (forall k :: 0 <= k < |nows| ==> ss[k + 1] == Reconciled(c, ss[k], nows[k], calls[k]))
    && (forall k :: 0 < k < |nows| ==> nows[k - 1] <= nows[k])
  }

  ghost predicate Increasing(times: seq<int>) {
    forall i, j :: 0 <= i < j < |times| ==> times[i] < times[j]
  }

  /** Every Backup so far has a tick of its own, and the recorded time is that of the latest. */
  ghost predicate Inv(c: Cron, s: State) {
    && s.created <= s.LastTime()
    && |s.backups| <= Ticks(c, s.created, s.LastTime())
    && Increasing(s.backups)
    && (s.backups == [] <==> s.last.None?)
    && (s.backups != [] ==> s.last == Some(Truncate(s.backups[|s.backups| - 1])))
  }

  /** The tick that makes a schedule due is at a later second than the last Backup. */
  lemma DueAfterLast(c: Cron, s: State, now: int)
    requires IsCron(c) && Inv(c, s) && TickHasCome(c, s, now) && s.backups != []
    ensures Truncate(s.backups[|s.backups| - 1]) < Truncate(now) && s.backups[|s.backups| - 1] < now
  {
    var latest := s.backups[|s.backups| - 1];
    CreationUsesATick(c, s, now);
  }

  /** A tick that has come lies in a whole second that has come. */
  lemma AlignedFits(t: int, now: int)
    requires t % SECOND == 0 && t <= now
    ensures t <= Truncate(now)
  {
  }

  /** Creating a Backup uses up a tick. */
  lemma CreationUsesATick(c: Cron, s: State, now: int)
    requires IsCron(c) && TickHasCome(c, s, now) && s.created <= s.LastTime()
    ensures s.LastTime() < Truncate(now)
    ensures Ticks(c, s.created, Truncate(now)) >= Ticks(c, s.created, s.LastTime()) + 1
  {
    var t := c.next(s.LastTime()).value;
    assert c.tick(t);
    AlignedFits(t, now);
    TickCounts(c, s.LastTime(), t, Truncate(now));
    TicksAdd(c, s.created, s.LastTime(), Truncate(now));
  }

  lemma ReconcileKeepsInv(c: Cron, s: State, now: int, calls: Calls)
    requires IsCron(c) && IsEndless(c) && Inv(c, s) && calls.lastLands
    ensures Inv(c, Reconciled(c, s, now, calls))
  {
    var v := Reconciled(c, s, now, calls);
    if v != s {
      CreationUsesATick(c, s, now);
      if s.backups != [] {
        DueAfterLast(c, s, now);
      }
    }
  }

  lemma {:induction false} RunKeepsInv(c: Cron, ss: seq<State>, nows: seq<int>, calls: seq<Calls>, k: nat)
    requires IsCron(c) && IsEndless(c) && IsRun(c, ss, nows, calls)
    requires k < |ss| && ss[0] == State(ss[0].created, None, [])
    requires forall i :: 0 <= i < |calls| ==> calls[i].lastLands
    ensures Inv(c, ss[k]) && ss[k].created == ss[0].created
    ensures k > 0 && ss[k].last.Some? ==> ss[k].last.value <= nows[k - 1]
  {
    if k > 0 {
      RunKeepsInv(c, ss, nows, calls, k - 1);
      ReconcileKeepsInv(c, ss[k - 1], nows[k - 1], calls[k - 1]);
    }
  }

  /**
    Over any run with a clock that does not go back and landed status patches, Backups never outnumber the ticks
    since the schedule was created, and each is created later than the one before.
   */
  lemma BackupsNeverOutnumberTicks(c: Cron, ss: seq<State>, nows: seq<int>, calls: seq<Calls>, k: nat)
    requires IsCron(c) && IsEndless(c) && IsRun(c, ss, nows, calls)
    requires 0 < k < |ss| && ss[0] == State(ss[0].created, None, [])
    requires forall i :: 0 <= i < |calls| ==> calls[i].lastLands
    ensures |ss[k].backups| <= Ticks(c, ss[0].created, nows[k - 1])
    ensures Increasing(ss[k].backups)
  {
    RunKeepsInv(c, ss, nows, calls, k);
    if ss[k].last.Some? {
      TicksAdd(c, ss[k].created, ss[k].LastTime(), nows[k - 1]);
    }
  }

  /** How many of the first `k` reconciles lose the patch that records a creation. */
  function Lost(calls: seq<Calls>, k: nat): nat
    requires k <= |calls|
  {
    if k == 0 then 0 else Lost(calls, k - 1) + if calls[k - 1].lastLands then 0 else 1
  }

  /** Backups but for `lost` have a tick of their own, and none is later than `now`. */
  ghost predicate Within(c: Cron, s: State, lost: nat, now: int) {
    && s.created <= s.LastTime() && (s.last.Some? ==> s.last.value <= now)
    && |s.backups| <= Ticks(c, s.created, s.LastTime()) + lost
    && Increasing(s.backups)
    && (forall i :: 0 <= i < |s.backups| ==> s.backups[i] <= now)
  }

  lemma ReconcileStaysWithin(c: Cron, s: State, lost: nat, before: int, now: int, calls: Calls)
    requires IsCron(c) && IsEndless(c) && Within(c, s, lost, before) && before <= now
    ensures Within(c, Reconciled(c, s, now, calls), lost + if calls.lastLands then 0 else 1, now)
  {
    var v := Reconciled(c, s, now, calls);
    if v != s {
      CreationUsesATick(c, s, now);
      forall i | 0 <= i < |s.backups| ensures s.backups[i] < now {
        assert Truncate(s.backups[i]) != Truncate(now);
      }
    }
  }

  lemma {:induction false} RunStaysWithin(c: Cron, ss: seq<State>, nows: seq<int>, calls: seq<Calls>, k: nat)
    requires IsCron(c) && IsEndless(c) && IsRun(c, ss, nows, calls)
    requires 0 < k < |ss| && ss[0] == State(ss[0].created, None, [])
    ensures Within(c, ss[k], Lost(calls, k), nows[k - 1]) && ss[k].created == ss[0].created
  {
    if k == 1 {
      ReconcileStaysWithin(c, ss[0], 0, nows[0], nows[0], calls[0]);
    } else {
      RunStaysWithin(c, ss, nows, calls, k - 1);
      ReconcileStaysWithin(c, ss[k - 1], Lost(calls, k - 1), nows[k - 2], nows[k - 1], calls[k - 1]);
    }
  }

  /**
    Over any run with a clock that does not go back, Backups outnumber the ticks since the schedule was created by
    no more than the patches lost; and each is created later than the one before, whatever is lost.
   */
  lemma BackupsExceedTicksByLostPatches(c: Cron, ss: seq<State>, nows: seq<int>, calls: seq<Calls>, k: nat)
    requires IsCron(c) && IsEndless(c) && IsRun(c, ss, nows, calls)
    requires 0 < k < |ss| && ss[0] == State(ss[0].created, None, [])
    ensures |ss[k].backups| <= Ticks(c, ss[0].created, nows[k - 1]) + Lost(calls, k)
    ensures Increasing(ss[k].backups)
  {
    RunStaysWithin(c, ss, nows, calls, k);
    if ss[k].last.Some? {
      TicksAdd(c, ss[k].created, ss[k].LastTime(), nows[k - 1]);
    }
  }

  /** With landed patches a due schedule always creates its Backup: the name is never taken. */
  lemma DueCreates(c: Cron, s: State, now: int)
    requires IsCron(c) && Inv(c, s) && TickHasCome(c, s, now)
    ensures Reconciled(c, s, now, ALL_LAND).backups == s.backups + [now]
  {
    if s.backups != [] {
      DueAfterLast(c, s, now);
      forall i | 0 <= i < |s.backups| ensures Truncate(s.backups[i]) < Truncate(now) {
        var latest := s.backups[|s.backups| - 1];
        TruncateMonotone(s.backups[i], latest);
      }
    }
  }

  lemma TruncateMonotone(a: int, b: int)
    requires a <= b
    ensures Truncate(a) <= Truncate(b)
  {
  }

  /** The wake-up that follows a creation is at the next tick, and then the schedule is due again, not before. */
  lemma WakesAtNextTick(c: Cron, s: State, now: int, later: int)
    requires IsCron(c) && Inv(c, s) && TickHasCome(c, s, now) && ZERO_TIME <= now <= later
    ensures Due(c, Reconciled(c, s, now, ALL_LAND), later) <==>
      c.next(now).None? || c.next(now).value <= later
  {
    DueCreates(c, s, now);
    var v := Reconciled(c, s, now, ALL_LAND);
    assert v.LastTime() == Truncate(now);
    NextAfterTruncation(c, now);
  }

  /** No tick lies between a time and its whole second. */
  lemma NextAfterTruncation(c: Cron, t: int)
    requires IsCron(c)
    ensures c.next(Truncate(t)) == c.next(t)
  {
    var a, b := c.next(Truncate(t)), c.next(t);
    if a.Some? {
      assert c.tick(a.value) && a.value % SECOND == 0;
      assert a.value > t;
    }
  }

  /**
    Before the next tick the schedule is due again if and only if the patch that records the creation was lost.
   */
  lemma DueAgainIffPatchLost(c: Cron, s: State, now: int, later: int, lands: bool)
    requires IsCron(c) && Inv(c, s) && TickHasCome(c, s, now)
    requires c.next(now).Some? && now <= later < c.next(now).value
    ensures Due(c, Reconciled(c, s, now, ALL_LAND.(lastLands := lands)), later) <==> !lands
  {
    DueCreates(c, s, now);
    NextAfterTruncation(c, now);
  }

  lemma {:induction false} NoTicksBeforeNext(c: Cron, a: int, b: int)
    requires IsCron(c) && a <= b && (c.next(a).Some? ==> b < c.next(a).value)
    ensures Ticks(c, a, b) == 0
    decreases b - a
  {
    if a < b {
      NoTicksBeforeNext(c, a, b - 1);
    }
  }

  /** A schedule that was due by exactly one tick, a tick at `now` or between its last time and `now`. */
  ghost predicate DueByOneTick(c: Cron, s: State, now: int) {
    TickHasCome(c, s, now) && Ticks(c, s.LastTime(), now) == 1
  }

  lemma NextSecond(t: int)
    ensures Truncate(t + SECOND) == Truncate(t) + SECOND
  {
  }

  lemma NameFreeASecondLater(c: Cron, s: State, now: int)
    requires IsCron(c) && Inv(c, s) && TickHasCome(c, s, now)
    ensures !NameTaken(s.(backups := s.backups + [now]), now + SECOND)
  {
    NextSecond(now);
    forall i | 0 <= i < |s.backups| ensures Truncate(s.backups[i]) <= Truncate(now) {
      DueAfterLast(c, s, now);
      TruncateMonotone(s.backups[i], now);
    }
  }

  /** So with the patch lost one tick makes two Backups: a second later, with no further tick, there is another. */
  lemma LostPatchRepeatsATick(c: Cron, s: State, now: int)
    requires IsCron(c) && Inv(c, s) && DueByOneTick(c, s, now)
    requires c.next(now).Some? && now + SECOND < c.next(now).value
    ensures
      var v := Reconciled(c, s, now, ALL_LAND.(lastLands := false));
      var u := Reconciled(c, v, now + SECOND, ALL_LAND);
      && u.backups == s.backups + [now, now + SECOND]
      && |u.backups| == |s.backups| + Ticks(c, s.LastTime(), now + SECOND) + 1
  {
    DueCreates(c, s, now);
    DueAgainIffPatchLost(c, s, now, now + SECOND, false);
    NoTicksBeforeNext(c, now, now + SECOND);
    TicksAdd(c, s.LastTime(), now, now + SECOND);
    var v := Reconciled(c, s, now, ALL_LAND.(lastLands := false));
    assert v == s.(backups := s.backups + [now]);
    NameFreeASecondLater(c, s, now);
    assert s.backups + [now] + [now + SECOND] == s.backups + [now, now + SECOND];
  }

  // ----- schedules without a tick left

  /** A schedule is due exactly if a tick has come or none is left; and no tick has come exactly in the latter case. */
  lemma DueIff(c: Cron, s: State, now: int)
    requires IsCron(c) && ZERO_TIME <= now && s.LastTime() <= now
    ensures Due(c, s, now) <==> Ticks(c, s.LastTime(), now) >= 1 || c.next(s.LastTime()).None?
    ensures Due(c, s, now) && Ticks(c, s.LastTime(), now) == 0 <==> c.next(s.LastTime()).None?
  {
    var next := c.next(s.LastTime());
    if next.Some? && next.value <= now {
      TickCounts(c, s.LastTime(), next.value, now);
    } else {
      NoTicksBeforeNext(c, s.LastTime(), now);
    }
  }

  /** `n` reconciles, each at the wake-up that the one before it asked for. */
  function DryRun(c: Cron, s: State, now: int, n: nat): State
    decreases n
  {
    if n == 0 then s else DryRun(c, Reconciled(c, s, now, ALL_LAND), now + 10 * SECOND, n - 1)
  }

  /** The names of all Backups so far are of seconds before `now`. */
  ghost predicate NamesBefore(s: State, now: int) {
    forall i :: 0 <= i < |s.backups| ==> Truncate(s.backups[i]) < Truncate(now)
  }

  /** With no tick left, every wake-up, ten seconds apart, makes a Backup. */
  lemma {:induction false} DryScheduleRepeats(c: Cron, s: State, now: int, n: nat)
    requires IsCron(c) && c.next(s.LastTime()).None? && ZERO_TIME <= now && s.LastTime() <= Truncate(now)
    requires NamesBefore(s, now)
    ensures |DryRun(c, s, now, n).backups| == |s.backups| + n
    decreases n
  {
    if n > 0 {
      var v := Reconciled(c, s, now, ALL_LAND);
      assert v.backups == s.backups + [now] && v.LastTime() == Truncate(now);
      LaterSecond(now);
      assert c.next(v.LastTime()).None?;
      DryScheduleRepeats(c, v, now + 10 * SECOND, n - 1);
    }
  }

  lemma LaterSecond(t: int)
    ensures Truncate(t) < Truncate(t + 10 * SECOND)
  {
  }

  /** Backups never outnumber ticks in any run whose patches land. */
  ghost predicate NeverOutnumbers(c: Cron) {
    forall ss: seq<State>, nows: seq<int>, calls: seq<Calls>, k: nat |
      IsLandedRun(c, ss, nows, calls) && 0 < k < |ss| ::
      |ss[k].backups| <= Ticks(c, ss[0].created, nows[k - 1])
  }

  ghost predicate IsLandedRun(c: Cron, ss: seq<State>, nows: seq<int>, calls: seq<Calls>) {
    && IsRun(c, ss, nows, calls) && ss[0] == State(ss[0].created, None, [])
    && (forall i :: 0 <= i < |nows| ==> nows[i] >= ZERO_TIME)
    && (forall i :: 0 <= i < |calls| ==> calls[i].lastLands)
  }

  /** That holds of a schedule if and only if it is endless. */
  lemma NeverOutnumbersIff(c: Cron)
    requires IsCron(c)
    ensures NeverOutnumbers(c) <==> IsEndless(c)
  {
    if IsEndless(c) {
      forall ss: seq<State>, nows: seq<int>, calls: seq<Calls>, k: nat | IsLandedRun(c, ss, nows, calls) && 0 < k < |ss|
        ensures |ss[k].backups| <= Ticks(c, ss[0].created, nows[k - 1])
      {
        BackupsNeverOutnumberTicks(c, ss, nows, calls, k);
      }
    } else {
      var t :| c.next(t).None?;
      var created := if t < ZERO_TIME then ZERO_TIME else t;
      assert c.next(created).None?;
      var s := State(created, None, []);
      var ss, nows, calls := [s, Reconciled(c, s, created, ALL_LAND)], [created], [ALL_LAND];
      assert IsLandedRun(c, ss, nows, calls);
      assert |ss[1].backups| == 1 && Ticks(c, created, created) == 0;
    }
  }
}
