/** The Backup controller: one reconcile at a time, retries up to a limit, one running backup per target. */
module Backups {
  import opened Wrappers

  const DEFAULT_BACKOFF_LIMIT := 2

  datatype Phase = Unset | Pending | Running | Completed | Failed

  /**
    A Backup object; its position in the list stands for its name. `url` is what `BuildBackupURL` makes of its
    storage, None for an error. The last three fields are history: how often `executeBackup` was entered, and for
    the execution that completed it the databases it selected and what it synced, as (database, remote name).
   */
  datatype Backup = Backup(
    namespace: string, target: string, backoffLimit: Option<int>, databases: seq<string>, url: Option<string>,
    phase: Phase, retries: int, attempts: nat, selected: seq<string>, synced: seq<(string, string)>)
  {
    function Limit(): int { backoffLimit.GetOr(DEFAULT_BACKOFF_LIMIT) }
    /** How many failures end the backup. */
    function Tries(): nat { if Limit() <= 1 then 1 else Limit() }
    predicate IsTerminal() { phase == Completed || phase == Failed }
  }

  /** What one execution meets: the listing of databases, and the databases whose sync fails. */
  datatype Work = Work(connects: bool, listed: Option<seq<string>>, failing: set<string>)

  /** Which calls of a reconcile get through. */
  datatype Calls = Calls(
    pendingLands: bool, targetReady: bool, lists: bool, runningLands: bool, completedLands: bool,
    retryLands: bool, failedLands: bool)

  const ALL_LAND := Calls(true, true, true, true, true, true, true)

  // ----- executing

  function StableBackupName(hash: string -> string, url: string, database: string): string {
    "bk-" + database + "-" + hash(url)
  }

  /** For one URL, names are those of the databases; for one database, those of the URLs as far as they hash apart. */
  lemma StableNames(hash: string -> string, url: string, other: string, a: string, b: string)
    ensures StableBackupName(hash, url, a) == StableBackupName(hash, url, b) <==> a == b
    ensures |hash(url)| == |hash(other)| ==>
      (StableBackupName(hash, url, a) == StableBackupName(hash, other, b) <==> a == b && hash(url) == hash(other))
  {
    var s, t, u := StableBackupName(hash, url, a), StableBackupName(hash, url, b), StableBackupName(hash, other, b);
    assert s[3..|s| - |hash(url)| - 1] == a && t[3..|t| - |hash(url)| - 1] == b;
    assert u[3..|u| - |hash(other)| - 1] == b;
    assert s[|s| - |hash(url)|..] == hash(url) && u[|u| - |hash(other)|..] == hash(other);
  }

  function Selected(b: Backup, w: Work): Option<seq<string>> {
    if b.databases != [] then Some(b.databases) else w.listed
  }

  /** Every selected database is synced under its stable name. */
  function AllSynced(hash: string -> string, url: string, databases: seq<string>): seq<(string, string)> {
    seq(|databases|, i requires 0 <= i < |databases| => (databases[i], StableBackupName(hash, url, databases[i])))
  }

  ghost predicate Succeeds(b: Backup, w: Work) {
    && w.connects && Selected(b, w).Some?
    && (Selected(b, w).value == [] ||
        (b.url.Some? && forall i :: 0 <= i < |Selected(b, w).value| ==> Selected(b, w).value[i] !in w.failing))
  }

  /** The databases in question: those the spec names, or all that are listed if it names none. */
  function Wanted(b: Backup, w: Work): seq<string> {
    if b.databases != [] then b.databases else w.listed.GetOr([])
  }

  /** The databases are known, and there is none, or a URL and none that fails. */
  ghost predicate AllSync(b: Backup, w: Work) {
    && (b.databases != [] || w.listed.Some?)
    && (Wanted(b, w) == [] || (b.url.Some? && forall d :: d in Wanted(b, w) ==> d !in w.failing))
  }

  /** The databases from the first on are synced, one entry each, under their stable names at `url`. */
  ghost predicate SyncsInOrder(
    hash: string -> string, url: string, databases: seq<string>, synced: seq<(string, string)>)
  {
    && |synced| <= |databases|
    && (forall i :: 0 <= i < |synced| ==> synced[i].0 == databases[i])
    && (forall i :: 0 <= i < |synced| ==> synced[i].1 == StableBackupName(hash, url, databases[i]))
  }

  lemma AllSyncedInOrder(hash: string -> string, url: string, databases: seq<string>, n: nat)
    requires n <= |databases|
    ensures SyncsInOrder(hash, url, databases, AllSynced(hash, url, databases[..n]))
    ensures |AllSynced(hash, url, databases[..n])| == n
  {
  }

  /** `Execute`: syncs database by database, each of them, and stops at the first that fails. */
  method Execute(hash: string -> string, b: Backup, w: Work) returns (ok: bool, synced: seq<(string, string)>)
    requires w.connects
    ensures ok <==> AllSync(b, w)
    ensures ok <==> Succeeds(b, w)
    ensures ok ==> synced == AllSynced(hash, b.url.GetOr(""), Selected(b, w).value)
    ensures SyncsInOrder(hash, b.url.GetOr(""), Wanted(b, w), synced)
    ensures ok ==> |synced| == |Wanted(b, w)|
    ensures ok ==> forall d :: d in Wanted(b, w) ==> exists i :: 0 <= i < |synced| && synced[i].0 == d
    ensures !ok && b.url.Some? && (b.databases != [] || w.listed.Some?) ==>
      |synced| < |Wanted(b, w)| && Wanted(b, w)[|synced|] in w.failing
  {
    synced := [];
    var selected := Selected(b, w);
    if selected.None? {
      return false, [];
    }
    var databases := selected.value;
    if |databases| == 0 {
      return true, [];
    }
    if b.url.None? {
      return false, [];
    }
    for i := 0 to |databases|
      invariant synced == AllSynced(hash, b.url.value, databases[..i])
      invariant forall k :: 0 <= k < i ==> databases[k] !in w.failing
    {
      AllSyncedInOrder(hash, b.url.value, databases, i);
      if databases[i] in w.failing {
        return false, synced;
      }
      synced := synced + [(databases[i], StableBackupName(hash, b.url.value, databases[i]))];
    }
    assert databases[..|databases|] == databases;
    AllSyncedInOrder(hash, b.url.value, databases, |databases|);
    forall d | d in databases ensures exists i :: 0 <= i < |synced| && synced[i].0 == d {
      var i :| 0 <= i < |databases| && databases[i] == d;
      assert synced[i].0 == d;
    }
    return true, synced;
  }

  // ----- reconciling

  ghost predicate SameTarget(bs: seq<Backup>, i: int, j: int)
    requires 0 <= i < |bs| && 0 <= j < |bs|
  {
    bs[i].namespace == bs[j].namespace && bs[i].target == bs[j].target
  }

  /** Another backup of the same target is running. */
  ghost predicate Blocked(bs: seq<Backup>, i: nat)
    requires i < |bs|
  {
    exists j :: 0 <= j < |bs| && j != i && SameTarget(bs, i, j) && bs[j].phase == Running
  }

  function BecomePending(b: Backup): Backup {
    if b.phase == Unset then b.(phase := Pending) else b
  }

  /** `handleFailure`: the server's copy; the limit is checked on the count the reconcile holds. */
  function AfterFailure(b: Backup, c: Calls): Backup {
    var counted := if c.retryLands then b.(retries := b.retries + 1) else b;
    if b.retries + 1 >= b.Limit() && c.failedLands then counted.(phase := Failed) else counted
  }

  /** The backup after an execution. */
  ghost function AfterExecution(hash: string -> string, b: Backup, c: Calls, w: Work): Backup {
    var begun := b.(attempts := b.attempts + 1);
    if !c.runningLands then AfterFailure(begun, c)
    else
      var running := begun.(phase := Running);
      if Succeeds(b, w) && c.completedLands then
        var selected := Selected(b, w).value;
        running.(phase := Completed, selected := selected, synced := AllSynced(hash, b.url.GetOr(""), selected))
      else AfterFailure(running, c)
  }

  /** The whole list after one reconcile of backup `i`. */
  ghost function ReconcileAt(hash: string -> string, bs: seq<Backup>, i: nat, c: Calls, w: Work): (r: seq<Backup>)
    ensures |r| == |bs|
  {
    if i >= |bs| || bs[i].IsTerminal() then bs
    else if bs[i].phase == Unset && !c.pendingLands then bs
    else
      var pending := bs[i := BecomePending(bs[i])];
      if !c.targetReady || !c.lists || Blocked(pending, i) then pending
      else pending[i := AfterExecution(hash, pending[i], c, w)]
  }

  class BackupReconciler {
    const hash: string -> string
    var backups: seq<Backup>

    constructor (hash: string -> string, backups: seq<Backup>)
      ensures this.hash == hash && this.backups == backups
    {
      this.hash, this.backups := hash, backups;
    }

    method HasRunningBackup(i: nat) returns (running: bool)
      requires i < |backups|
      ensures running <==> Blocked(backups, i)
    {
      for j := 0 to |backups|
        invariant forall k :: 0 <= k < j && k != i && SameTarget(backups, i, k) ==> backups[k].phase != Running
      {
        if j == i {
          continue;
        }
        if backups[j].namespace == backups[i].namespace && backups[j].target == backups[i].target
           && backups[j].phase == Running {
          assert SameTarget(backups, i, j);
          return true;
        }
      }
      return false;
    }

    /** `handleFailure`. */
    method HandleFailure(i: nat, c: Calls)
      requires i < |backups|
      modifies this
      ensures backups == old(backups)[i := AfterFailure(old(backups[i]), c)]
    {
      var retries := backups[i].retries + 1;
      if c.retryLands {
        backups := backups[i := backups[i].(retries := retries)];
      }
      if retries >= backups[i].Limit() {
        if c.failedLands {
          backups := backups[i := backups[i].(phase := Failed)];
        }
      }
    }

    /** `executeBackup`; false is an error. */
    method ExecuteBackup(i: nat, c: Calls, w: Work) returns (ok: bool)
      requires i < |backups|
      modifies this
      ensures |backups| == |old(backups)| && forall j :: 0 <= j < |backups| && j != i ==> backups[j] == old(backups[j])
      ensures ok ==> backups[i] == AfterExecution(hash, old(backups[i]), c, w)
      ensures !ok ==> AfterFailure(backups[i], c) == AfterExecution(hash, old(backups[i]), c, w)
    {
      var b := backups[i].(attempts := backups[i].attempts + 1);
      backups := backups[i := b];
      if !c.runningLands {
        return false;
      }
      b := b.(phase := Running);
      backups := backups[i := b];
      if !w.connects {
        return false;
      }
      var done, synced := Execute(hash, b, w);
      assert Succeeds(b, w) == Succeeds(old(backups[i]), w);
      if !done || !c.completedLands {
        return false;
      }
      backups := backups[i := b.(phase := Completed, selected := Selected(b, w).value, synced := synced)];
      return true;
    }

    method Reconcile(i: nat, c: Calls, w: Work)
      modifies this
      ensures backups == ReconcileAt(hash, old(backups), i, c, w)
    {
      if i >= |backups| || backups[i].IsTerminal() {
        return;
      }
      if backups[i].phase == Unset && !c.pendingLands {
        return;
      }
      backups := backups[i := BecomePending(backups[i])];
      if !c.targetReady || !c.lists {
        return;
      }
      var running := HasRunningBackup(i);
      if running {
        return;
      }
      ghost var pending := backups;
      var ok := ExecuteBackup(i, c, w);
      if !ok {
        HandleFailure(i, c);
      }
      assert backups == pending[i := AfterExecution(hash, pending[i], c, w)];
    }
  }
}
