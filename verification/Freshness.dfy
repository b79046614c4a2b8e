/** Choosing whom to promote: the standby whose stalest database is the freshest. */
module Freshness {
  import opened Wrappers
  import opened Cluster
  import opened Names
  import opened Ordinals

  /** What one pod reports; each database row has a `last_update` or none. Time 0 is Go's zero time. */
  datatype Report = Silent | Reports(role: Role, updates: seq<Option<nat>>)

  // ----- the stalest database of one pod

  /** One step of the inner loop: a zero running value counts as unset. */
  function Staler(oldest: nat, update: Option<nat>): nat {
    if update.Some? && (oldest == 0 || update.value < oldest) then update.value else oldest
  }

  /** The running value after all rows; 0 is none. */
  function Oldest(updates: seq<Option<nat>>): nat {
    if updates == [] then 0
    else Staler(Oldest(updates[..|updates| - 1]), updates[|updates| - 1])
  }

  method OldestUpdate(updates: seq<Option<nat>>) returns (oldest: nat)
    ensures oldest == Oldest(updates)
  {
    oldest := 0;
    for i := 0 to |updates|
      invariant oldest == Oldest(updates[..i])
    {
      assert updates[..i + 1][..i] == updates[..i];
      if updates[i].Some? {
        if oldest == 0 || updates[i].value < oldest {
          oldest := updates[i].value;
        }
      }
    }
    assert updates[..|updates|] == updates;
  }

  /** Without zero timestamps the value is the minimum, and it is unset only if there is no timestamp. */
  lemma {:induction false} OldestIsMinimum(updates: seq<Option<nat>>)
    requires Some(0) !in updates
    ensures Oldest(updates) == 0 <==> forall i :: 0 <= i < |updates| ==> updates[i].None?
    ensures Oldest(updates) != 0 ==> Some(Oldest(updates)) in updates
    ensures forall i :: 0 <= i < |updates| && updates[i].Some? ==> Oldest(updates) <= updates[i].value
  {
    if updates != [] {
      var rest, last := updates[..|updates| - 1], updates[|updates| - 1];
      assert last in updates;
      assert forall u :: u in rest ==> u in updates;
      OldestIsMinimum(rest);
      assert Oldest(updates) == last.GetOr(0) || Some(Oldest(updates)) in rest || Oldest(updates) == 0;
    }
  }

  /** A zero timestamp makes the loop forget everything before it. */
  lemma {:induction false} ZeroTimestampForgets(before: seq<Option<nat>>, after: seq<Option<nat>>)
    ensures Oldest(before + [Some(0)] + after) == Oldest(after)
  {
    var all := before + [Some(0)] + after;
    if after == [] {
      assert all[..|all| - 1] == before;
    } else {
      assert all[..|all| - 1] == before + [Some(0)] + after[..|after| - 1];
      ZeroTimestampForgets(before, after[..|after| - 1]);
    }
  }

  // ----- choosing among several

  function Fresh(reports: seq<Report>, o: nat): nat {
    if o < |reports| && reports[o].Reports? then Oldest(reports[o].updates) else 0
  }

  /** Position `k` of the list is the first with the highest freshness, and it has data. */
  ghost predicate Best(reports: seq<Report>, l: seq<nat>, k: int) {
    && 0 <= k < |l| && Fresh(reports, l[k]) != 0
    && (forall j :: 0 <= j < |l| ==> Fresh(reports, l[j]) <= Fresh(reports, l[k]))
    && (forall j :: 0 <= j < k ==> Fresh(reports, l[j]) < Fresh(reports, l[k]))
  }

  /** The outcome both selections aim at: the best of the list, else its first element. */
  ghost predicate Chosen(reports: seq<Report>, l: seq<nat>, r: Option<nat>) {
    if exists k :: Best(reports, l, k) then exists k :: Best(reports, l, k) && r == Some(l[k])
    else r == if l == [] then None else Some(l[0])
  }

  lemma ChosenIsUnique(reports: seq<Report>, l: seq<nat>, r: Option<nat>, q: Option<nat>)
    requires Chosen(reports, l, r) && Chosen(reports, l, q)
    ensures r == q
  {
    if i :| Best(reports, l, i) {
      var j :| Best(reports, l, j) && r == Some(l[j]);
      var k :| Best(reports, l, k) && q == Some(l[k]);
      assert j == k;
    }
  }

  /** A selection loop after the list `l`: the position of the best so far (-1 for none) and its freshness. */
  ghost predicate Leading(reports: seq<Report>, l: seq<nat>, best: int, update: nat) {
    if best == -1 then update == 0 && forall k :: 0 <= k < |l| ==> Fresh(reports, l[k]) == 0
    else Best(reports, l, best) && update == Fresh(reports, l[best])
  }

  lemma LeadingStep(reports: seq<Report>, l: seq<nat>, best: int, update: nat, o: nat)
    requires Leading(reports, l, best, update)
    ensures
      var f := Fresh(reports, o);
      if f != 0 && f > update then Leading(reports, l + [o], |l|, f) else Leading(reports, l + [o], best, update)
  {
    var m := l + [o];
    assert forall k :: 0 <= k < |l| ==> m[k] == l[k];
  }

  /**
    `selectFailoverCandidate` on the healthy standbys: max-min optimal, ties to the earliest, a standby without
    timestamps never, and an error exactly when no standby is usable.
   */
  method SelectFailoverCandidate(reports: seq<Report>, healthy: seq<nat>) returns (r: Option<nat>)
    ensures r.None? <==> forall k :: 0 <= k < |healthy| ==> Fresh(reports, healthy[k]) == 0
    ensures r.Some? ==> exists k :: Best(reports, healthy, k) && r.value == healthy[k]
  {
    var best := -1;
    var bestLastUpdate: nat := 0;
    for i := 0 to |healthy|
      invariant -1 <= best < i
      invariant Leading(reports, healthy[..i], best, bestLastUpdate)
    {
      assert healthy[..i + 1] == healthy[..i] + [healthy[i]];
      LeadingStep(reports, healthy[..i], best, bestLastUpdate, healthy[i]);
      if healthy[i] < |reports| && reports[healthy[i]].Reports? {
        var oldestUpdate := OldestUpdate(reports[healthy[i]].updates);
        if oldestUpdate != 0 {
          if best == -1 || oldestUpdate > bestLastUpdate {
            best := i;
            bestLastUpdate := oldestUpdate;
          }
        }
      }
    }
    assert healthy[..|healthy|] == healthy;
    return if best == -1 then None else Some(healthy[best]);
  }

  /** `HealthyDoltDBStandbys`: the ready pods but the recorded primary, in the order of the listing. */
  function Healthy(listing: seq<nat>, ready: set<nat>, primary: int): (r: seq<nat>)
    ensures forall o :: o in r <==> o in listing && o in ready && o != primary
  {
    if listing == [] then []
    else
      var rest := Healthy(listing[..|listing| - 1], ready, primary);
      var o := listing[|listing| - 1];
      if o in ready && o != primary then rest + [o] else rest
  }

  method HealthyDoltDBStandbys(name: string, listing: seq<nat>, ready: set<nat>, primary: int) returns (pods: seq<nat>)
    ensures pods == Healthy(SortByName(name, listing), ready, primary)
  {
    var sorted := SortByName(name, listing);
    pods := [];
    for i := 0 to |sorted|
      invariant pods == Healthy(sorted[..i], ready, primary)
    {
      assert sorted[..i + 1][..i] == sorted[..i];
      if sorted[i] == primary {
        continue;
      }
      if sorted[i] in ready {
        pods := pods + [sorted[i]];
      }
    }
    assert sorted[..|sorted|] == sorted;
  }

  /** `ReconcilePodNotReady`'s choice: by freshness, else the first healthy replica. */
  method FailoverTarget(name: string, listing: seq<nat>, ready: set<nat>, primary: int, reports: seq<Report>)
    returns (r: Option<nat>)
    ensures Chosen(reports, Healthy(SortByName(name, listing), ready, primary), r)
  {
    var healthy := HealthyDoltDBStandbys(name, listing, ready, primary);
    r := SelectFailoverCandidate(reports, healthy);
    if r.None? {
      assert forall k :: !Best(reports, healthy, k);
      // `HealthyDoltDBReplica`: the same walk, stopping at the first pod.
      r := if healthy == [] then None else Some(healthy[0]);
    }
  }

  function Standbys(reports: seq<Report>): (r: seq<nat>)
    ensures forall o: nat :: o in r <==> o < |reports| && reports[o].Reports? && reports[o].role == Standby
  {
    if reports == [] then []
    else
      var n := |reports| - 1;
      var rest := Standbys(reports[..n]);
      assert forall o: nat :: o < n ==> reports[..n][o] == reports[o];
      if reports[n].Reports? && reports[n].role == Standby then rest + [n] else rest
  }

  lemma StandbyListGrows(reports: seq<Report>, i: nat)
    requires i < |reports|
    ensures Standbys(reports[..i + 1]) ==
      if reports[i].Reports? && reports[i].role == Standby then Standbys(reports[..i]) + [i] else Standbys(reports[..i])
  {
    assert reports[..i + 1][..i] == reports[..i];
  }

  /** `PickNextPrimary`; None is -1. */
  method PickNextPrimary(reports: seq<Report>) returns (r: Option<nat>)
    ensures Chosen(reports, Standbys(reports), r)
  {
    var firstStandby, nextPrimary: Option<nat> := None, None;
    var updated: nat := 0;
    ghost var at := -1;
    for i := 0 to |reports|
      invariant firstStandby == (if Standbys(reports[..i]) == [] then None else Some(Standbys(reports[..i])[0]))
      invariant -1 <= at < |Standbys(reports[..i])| && Leading(reports, Standbys(reports[..i]), at, updated)
      invariant nextPrimary == if at == -1 then None else Some(Standbys(reports[..i])[at])
    {
      ghost var l := Standbys(reports[..i]);
      StandbyListGrows(reports, i);
      if reports[i].Reports? && reports[i].role == Standby {
        LeadingStep(reports, l, at, updated, i);
        if firstStandby.None? {
          firstStandby := Some(i);
        }
        var oldestDB := OldestUpdate(reports[i].updates);
        if oldestDB != 0 && (updated == 0 || updated < oldestDB) {
          at := |l|;
          nextPrimary, updated := Some(i), oldestDB;
        }
      }
    }
    assert reports[..|reports|] == reports;
    r := if nextPrimary.Some? then nextPrimary else firstStandby;
    if nextPrimary.None? {
      assert forall k :: !Best(reports, Standbys(reports), k);
    }
  }

  // ----- the two selections compared

  /** The snapshot that answers as standby is exactly the healthy standbys. */
  ghost predicate HealthyAnswerAsStandbys(reports: seq<Report>, ready: set<nat>, primary: int) {
    forall o: nat :: o < |reports| ==>
      ((reports[o].Reports? && reports[o].role == Standby) <==> (o in ready && o != primary))
  }

  ghost predicate IsListing(listing: seq<nat>, n: nat) {
    |listing| == n && Distinct(listing) && forall o :: o in listing <==> o < n
  }

  lemma FirstOfTheBest(reports: seq<Report>, l: seq<nat>)
    ensures (exists k :: Best(reports, l, k)) <==> exists o :: o in l && Fresh(reports, o) != 0
  {
    if k :| Best(reports, l, k) {
      assert l[k] in l;
    }
    if o :| o in l && Fresh(reports, o) != 0 {
      var j :| 0 <= j < |l| && l[j] == o;
      BestExists(reports, l, j);
    }
  }

  lemma {:induction false} BestExists(reports: seq<Report>, l: seq<nat>, j: nat)
    requires j < |l| && Fresh(reports, l[j]) != 0
    ensures exists k :: Best(reports, l, k)
    decreases |l|
  {
    var n := |l| - 1;
    var rest := l[..n];
    if i :| 0 <= i < n && Fresh(reports, l[i]) != 0 {
      assert rest[i] == l[i];
      BestExists(reports, rest, i);
      var k :| Best(reports, rest, k);
      assert forall m :: 0 <= m < n ==> rest[m] == l[m];
      if Fresh(reports, l[n]) <= Fresh(reports, l[k]) {
        assert Best(reports, l, k);
      } else {
        assert Best(reports, l, n);
      }
    } else {
      assert j == n;
      assert Best(reports, l, j);
    }
  }

  /** The choice by element: the freshest member, the lowest ordinal among equals. */
  ghost predicate FreshestOf(reports: seq<Report>, l: seq<nat>, o: nat) {
    o in l && forall x :: x in l ==>
      Fresh(reports, x) <= Fresh(reports, o) && (x < o ==> Fresh(reports, x) < Fresh(reports, o))
  }

  lemma ChosenOfAscending(reports: seq<Report>, l: seq<nat>, r: Option<nat>)
    requires Ascending(l) && Chosen(reports, l, r)
    ensures if l == [] then r.None? else
      r.Some? && r.value in l &&
      if exists o :: o in l && Fresh(reports, o) != 0 then FreshestOf(reports, l, r.value)
      else forall x :: x in l ==> r.value <= x
  {
    FirstOfTheBest(reports, l);
    if i :| Best(reports, l, i) {
      var k :| Best(reports, l, k) && r == Some(l[k]);
      forall x | x in l
        ensures Fresh(reports, x) <= Fresh(reports, l[k]) && (x < l[k] ==> Fresh(reports, x) < Fresh(reports, l[k]))
      {
        var j :| 0 <= j < |l| && l[j] == x;
      }
    }
  }

  lemma {:induction false} HealthyAscend(l: seq<nat>, ready: set<nat>, primary: int)
    requires Ascending(l)
    ensures Ascending(Healthy(l, ready, primary))
  {
    if l != [] {
      var n := |l| - 1;
      HealthyAscend(l[..n], ready, primary);
      var rest := Healthy(l[..n], ready, primary);
      forall i | 0 <= i < |rest| ensures rest[i] < l[n] {
        assert rest[i] in l[..n];
      }
    }
  }

  lemma {:induction false} StandbysAscend(reports: seq<Report>)
    ensures Ascending(Standbys(reports))
  {
    if reports != [] {
      var rest := Standbys(reports[..|reports| - 1]);
      StandbysAscend(reports[..|reports| - 1]);
      assert forall i :: 0 <= i < |rest| ==> rest[i] in rest;
    }
  }

  /** Of two ascending lists, one within the other, the choices agree if and only if the wider one's is in both. */
  lemma ChosenFromSublist(reports: seq<Report>, l: seq<nat>, m: seq<nat>, r: Option<nat>, q: Option<nat>)
    requires Ascending(l) && Ascending(m) && forall o :: o in l ==> o in m
    requires Chosen(reports, l, r) && Chosen(reports, m, q)
    ensures r == q <==> (q.Some? ==> q.value in l)
  {
    ChosenOfAscending(reports, l, r);
    ChosenOfAscending(reports, m, q);
    if l != [] {
      assert l[0] in l;
      assert l[0] in m;
    }
  }

  lemma HealthyOfUpToTen(name: string, listing: seq<nat>, ready: set<nat>, primary: int, n: nat)
    requires n <= 10 && IsListing(listing, n)
    ensures
      var l := Healthy(SortByName(name, listing), ready, primary);
      Ascending(l) && forall o: nat :: o in l <==> o < n && o in ready && o != primary
  {
    NameOrderOfUpToTen(name, listing, n);
    var all := SortByName(name, listing);
    HealthyAscend(all, ready, primary);
    forall o: nat ensures o in all <==> o < n {
      MultisetMembers(all, listing, o);
    }
  }

  /**
    Up to ten pods, when the healthy standbys answer as standbys, the two-stage failover choice is
    `PickNextPrimary`'s if and only if that one is itself healthy and not the recorded primary.
   */
  lemma FailoverAgreesIff(
    name: string, listing: seq<nat>, ready: set<nat>, primary: int, reports: seq<Report>,
    r: Option<nat>, q: Option<nat>)
    requires |reports| <= 10 && IsListing(listing, |reports|)
    requires forall o: nat :: o < |reports| && o in ready && o != primary ==>
      reports[o].Reports? && reports[o].role == Standby
    requires Chosen(reports, Healthy(SortByName(name, listing), ready, primary), r)
    requires Chosen(reports, Standbys(reports), q)
    ensures r == q <==> (q.Some? ==> q.value in ready && q.value != primary)
  {
    HealthyOfUpToTen(name, listing, ready, primary, |reports|);
    var l := Healthy(SortByName(name, listing), ready, primary);
    StandbysAscend(reports);
    ChosenFromSublist(reports, l, Standbys(reports), r, q);
    ChosenOfAscending(reports, Standbys(reports), q);
  }

  /** So it always is when no other pod answers as standby. */
  lemma FailoverAgreesUpToTen(
    name: string, listing: seq<nat>, ready: set<nat>, primary: int, reports: seq<Report>,
    r: Option<nat>, q: Option<nat>)
    requires |reports| <= 10 && IsListing(listing, |reports|)
    requires HealthyAnswerAsStandbys(reports, ready, primary)
    requires Chosen(reports, Healthy(SortByName(name, listing), ready, primary), r)
    requires Chosen(reports, Standbys(reports), q)
    ensures r == q
  {
    FailoverAgreesIff(name, listing, ready, primary, reports, r, q);
    StandbysAscend(reports);
    ChosenOfAscending(reports, Standbys(reports), q);
  }

  /** For any number of pods the two selections pick equally fresh standbys, or neither finds one with data. */
  lemma FailoverEquallyFresh(
    name: string, listing: seq<nat>, ready: set<nat>, primary: int, reports: seq<Report>,
    r: Option<nat>, q: Option<nat>)
    requires IsListing(listing, |reports|) && HealthyAnswerAsStandbys(reports, ready, primary)
    requires Chosen(reports, Healthy(SortByName(name, listing), ready, primary), r)
    requires Chosen(reports, Standbys(reports), q)
    ensures r.Some? <==> q.Some?
    ensures r.Some? ==> Fresh(reports, r.value) == Fresh(reports, q.value)
  {
    var l, m := Healthy(SortByName(name, listing), ready, primary), Standbys(reports);
    forall o: nat ensures o in l <==> o in m {
      MultisetMembers(SortByName(name, listing), listing, o);
    }
    assert l == [] <==> m == [] by {
      assert l != [] ==> l[0] in m;
      assert m != [] ==> m[0] in l;
    }
    FirstOfTheBest(reports, l);
    FirstOfTheBest(reports, m);
    if i :| Best(reports, l, i) {
      var j :| Best(reports, l, j) && r == Some(l[j]);
      var k :| Best(reports, m, k) && q == Some(m[k]);
      assert l[j] in m && m[k] in l;
    } else if l != [] {
      assert l[0] in l && m[0] in m;
    }
  }

  lemma {:induction false} HealthyKeepsOrder(name: string, l: seq<nat>, ready: set<nat>, primary: int)
    requires SortedByName(name, l)
    ensures SortedByName(name, Healthy(l, ready, primary))
  {
    if l != [] {
      var n := |l| - 1;
      HealthyKeepsOrder(name, l[..n], ready, primary);
      var rest := Healthy(l[..n], ready, primary);
      forall i | 0 <= i < |rest| ensures NameLess(name, rest[i], l[n]) {
        assert rest[i] in l[..n];
      }
    }
  }

  /** With eleven pods they can differ: pods 2 and 10 tie, and name order puts 10 first. */
  lemma ElevenPodsDisagree(name: string, listing: seq<nat>)
    requires IsListing(listing, 11)
    ensures
      var reports := seq(11, (o: nat) => if o == 2 || o == 10 then Reports(Standby, [Some(1)]) else Silent);
      && HealthyAnswerAsStandbys(reports, {2, 10}, 0)
      && Chosen(reports, Healthy(SortByName(name, listing), {2, 10}, 0), Some(10))
      && Chosen(reports, Standbys(reports), Some(2))
  {
    var reports := seq(11, (o: nat) => if o == 2 || o == 10 then Reports(Standby, [Some(1)]) else Silent);
    assert Oldest([Some(1)]) == 1 by {
      assert [Some(1)][..0] == [];
    }
    var sorted := SortByName(name, listing);
    SortByNameSorts(name, listing);
    HealthyKeepsOrder(name, sorted, {2, 10}, 0);
    MultisetMembers(sorted, listing, 2);
    MultisetMembers(sorted, listing, 10);
    var l := Healthy(sorted, {2, 10}, 0);
    TenSortsBeforeTwo(name);
    assert 2 in l && 10 in l;
    assert l[0] == 10 by {
      assert l[0] in l;
      if l[0] == 2 {
        var i :| 0 < i < |l| && l[i] == 10;
        LessTransitive(PodName(name, 2), PodName(name, 10), PodName(name, 2));
        LessIrreflexive(PodName(name, 2));
      }
    }
    assert forall j :: 0 <= j < |l| ==> l[j] in l;
    assert Best(reports, l, 0);
    var m := Standbys(reports);
    StandbysAscend(reports);
    assert 2 in m && forall j :: 0 <= j < |m| ==> m[j] in m;
    assert m[0] == 2;
    assert Best(reports, m, 0);
  }
}
