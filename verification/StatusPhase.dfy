/** The Status phase: what one look at the pods writes into the status. Replication is enabled throughout. */
module StatusPhase {
  import opened Wrappers
  import opened Cluster
  import opened Snapshot

  /** `UpdateReplicationEpoch`: never lowers the recorded epoch. */
  function UpdateReplicationEpoch(recorded: Option<nat>, epoch: nat): Option<nat> {
    if recorded.Some? && epoch < recorded.value then recorded else Some(epoch)
  }

  /** `defaultPrimary`: the first recorded primary is the one the spec asks for. */
  function DefaultPrimary(recorded: Option<int>, desired: int): Option<int> {
    if recorded.Some? then recorded else Some(desired)
  }

  /** The epoch recorded after a Status phase that saw `states`. */
  function RecordedEpoch(recorded: Option<nat>, states: seq<DBState>): Option<nat> {
    if Highest(states) > recorded.GetOr(0) then UpdateReplicationEpoch(recorded, Highest(states)) else recorded
  }

  /** Pod `i` gets an entry in the replication status: it is up, answers, and is no second primary. */
  predicate Reported(states: seq<DBState>, pods: seq<Pod>, primary: Option<int>, i: int)
    requires |states| == |pods|
  {
    && 0 <= i < |states|
    && states[i].Answered?
    && !(states[i].failed && states[i].epoch == 0)
    && pods[i].present && pods[i].ready
    && (states[i].role == Primary && primary.Some? ==> primary.value == i)
  }

  function StateOf(role: Role): ReplicationState {
    match role
    case Primary => StatePrimary
    case Standby => StateStandby
    case Other => NotConfigured
  }

  /** The entries of the pods below `n`. */
  function StatusUpTo(states: seq<DBState>, pods: seq<Pod>, primary: Option<int>, n: nat): map<int, ReplicationState>
    requires |states| == |pods|
  {
    map i | 0 <= i < n && Reported(states, pods, primary, i) :: StateOf(states[i].role)
  }

  function ReplicationStatus(states: seq<DBState>, pods: seq<Pod>, primary: Option<int>): map<int, ReplicationState>
    requires |states| == |pods|
  {
    StatusUpTo(states, pods, primary, |states|)
  }

  lemma StatusStep(states: seq<DBState>, pods: seq<Pod>, primary: Option<int>, n: nat)
    requires n < |states| == |pods|
    ensures
      var before, after := StatusUpTo(states, pods, primary, n), StatusUpTo(states, pods, primary, n + 1);
      after == if Reported(states, pods, primary, n) then before[n := StateOf(states[n].role)] else before
  {
  }

  /** The second half of the loop body: the entry of a pod that answered, if it gets one. */
  method EntryOf(states: seq<DBState>, pods: seq<Pod>, primary: Option<int>, i: nat)
    returns (entry: Option<ReplicationState>)
    requires i < |states| == |pods| && states[i].Answered? && !(states[i].failed && states[i].epoch == 0)
    ensures entry == if Reported(states, pods, primary, i) then Some(StateOf(states[i].role)) else None
  {
    if !pods[i].present || !pods[i].ready {
      return None;
    }
    var state := NotConfigured;
    if states[i].role == Primary {
      if primary.Some? && primary.value != i {
        return None;
      }
      state := StatePrimary;
    } else if states[i].role == Standby {
      state := StateStandby;
    }
    return Some(state);
  }

  /** `getReplicationStatusAndEpoch`; -1 stands for "no epoch above the recorded one". */
  method GetReplicationStatusAndEpoch(states: seq<DBState>, pods: seq<Pod>, status: Status)
    returns (replication: map<int, ReplicationState>, highestEpoch: int)
    requires |states| == |pods|
    ensures replication == ReplicationStatus(states, pods, status.primary)
    ensures highestEpoch == if Highest(states) > status.epoch.GetOr(0) then Highest(states) else -1
  {
    highestEpoch := -1;
    replication := map[];
    for i := 0 to |states|
      invariant highestEpoch ==
        if Highest(states[..i]) > status.epoch.GetOr(0) then Highest(states[..i]) else -1
      invariant replication == StatusUpTo(states, pods, status.primary, i)
    {
      HighestStep(states, i);
      StatusStep(states, pods, status.primary, i);
      var s := states[i];
      if s.Unanswered? || (s.failed && s.epoch == 0) {
        continue;
      }
      if s.epoch > highestEpoch && s.epoch > status.epoch.GetOr(0) {
        highestEpoch := s.epoch;
      }
      var entry := EntryOf(states, pods, status.primary, i);
      if entry.Some? {
        replication := replication[i := entry.value];
      }
    }
    assert states[..|states|] == states;
  }

  /**
    Epoch accounting: a recorded epoch is the maximum of what was recorded and what was observed,
    and none is recorded only when nothing above 0 was ever seen.
   */
  lemma RecordedEpochIsMaximum(recorded: Option<nat>, states: seq<DBState>)
    ensures
      var e := RecordedEpoch(recorded, states);
      && (recorded.Some? ==> e.Some? && recorded.value <= e.value)
      && (e.Some? ==> forall i :: 0 <= i < |states| && states[i].Answered? ==> states[i].epoch <= e.value)
      && (e.Some? ==>
            e == recorded || exists i :: 0 <= i < |states| && states[i].Answered? && states[i].epoch == e.value)
      && (e.None? <==> recorded.None? && forall i :: 0 <= i < |states| && states[i].Answered? ==> states[i].epoch == 0)
  {
    var h := Highest(states);
    if h > 0 {
      var i :| 0 <= i < |states| && states[i].Answered? && states[i].epoch == h;
    }
  }

  /** When the reachable pods cover the top epoch, the phase records exactly that epoch. */
  lemma CoveredStatusRecordsTop(pods: seq<Pod>, reach: set<nat>, failed: set<nat>, recorded: Option<nat>)
    requires Covers(pods, reach)
    requires exists i :: 0 <= i < |pods| && pods[i].epoch > 0
    requires recorded.Some? ==> exists i :: 0 <= i < |pods| && recorded.value <= pods[i].epoch
    ensures
      var e := RecordedEpoch(recorded, Observe(pods, reach, failed));
      e.Some? && IsTop(pods, e.value)
  {
    CoveringSnapshotSeesTop(pods, reach, failed);
  }

  /** Nothing is unconfigured and some standby is configured. */
  ghost predicate ReplicationConfigured(replication: map<int, ReplicationState>) {
    && (forall i :: i in replication ==> replication[i] != NotConfigured)
    && SomeStandby(replication, {})
  }

  ghost predicate SomeStandby(replication: map<int, ReplicationState>, except: set<int>) {
    exists i :: i in replication && i !in except && replication[i] == StateStandby
  }

  /** The Status phase hears from pod `i`, which is up. */
  ghost predicate Heard(pods: seq<Pod>, reach: set<nat>, failed: set<nat>, i: int) {
    && 0 <= i < |pods| && i in reach && pods[i].present && pods[i].ready
    && (i in failed ==> pods[i].epoch > 0)
  }

  /**
    What the recorded replication status says of the pods: the entry of a pod that is heard is its role's, and none
    for a second primary; so at most the recorded primary has a primary entry.
   */
  lemma EntriesReflectRoles(pods: seq<Pod>, reach: set<nat>, failed: set<nat>, primary: Option<int>, i: int)
    ensures
      var r := ReplicationStatus(Observe(pods, reach, failed), pods, primary);
      && (i in r && r[i] == StatePrimary <==>
            Heard(pods, reach, failed, i) && pods[i].role == Primary && (primary.Some? ==> i == primary.value))
      && (i in r && r[i] == StateStandby <==> Heard(pods, reach, failed, i) && pods[i].role == Standby)
      && (i in r && r[i] == NotConfigured <==> Heard(pods, reach, failed, i) && pods[i].role == Other)
  {
  }

  /**
    Across the Status phase and `IsReplicationConfigured`: replication counts as configured if and only if a standby
    is heard and no pod in neither role is.
   */
  lemma ConfiguredIffStandbyHeard(pods: seq<Pod>, reach: set<nat>, failed: set<nat>, primary: Option<int>)
    ensures ReplicationConfigured(ReplicationStatus(Observe(pods, reach, failed), pods, primary)) <==>
      && (exists i :: Heard(pods, reach, failed, i) && pods[i].role == Standby)
      && (forall i :: Heard(pods, reach, failed, i) ==> pods[i].role != Other)
  {
    var r := ReplicationStatus(Observe(pods, reach, failed), pods, primary);
    forall i
      ensures i in r && r[i] == StateStandby <==> Heard(pods, reach, failed, i) && pods[i].role == Standby
      ensures i in r && r[i] == NotConfigured <==> Heard(pods, reach, failed, i) && pods[i].role == Other
    {
      EntriesReflectRoles(pods, reach, failed, primary, i);
    }
    assert SomeStandby(r, {}) <==> exists i :: Heard(pods, reach, failed, i) && pods[i].role == Standby;
  }

  lemma HasElement(s: set<int>)
    requires s != {}
    ensures exists i :: i in s
  {
    if forall i :: i !in s {
      assert false;
    }
  }

  /** `IsReplicationConfigured`; the order of iteration is whatever `:|` picks. */
  method IsReplicationConfigured(replication: map<int, ReplicationState>) returns (configured: bool)
    ensures configured <==> ReplicationConfigured(replication)
  {
    configured := false;
    var left := replication.Keys;
    while left != {}
      invariant left <= replication.Keys
      invariant forall i :: i in replication && i !in left ==> replication[i] != NotConfigured
      invariant configured <==> SomeStandby(replication, left)
      decreases left
    {
      HasElement(left);
      var k :| k in left;
      left := left - {k};
      if replication[k] == NotConfigured {
        return false;
      }
      if replication[k] == StateStandby {
        configured := true;
      }
    }
  }
}
