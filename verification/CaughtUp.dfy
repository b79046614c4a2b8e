/** What the operator makes of the rows of DOLT_CLUSTER_TRANSITION_TO_STANDBY, and what the updater makes of that. */
module CaughtUp {
  import opened Wrappers
  import opened Names
  import opened Ordinals
  import opened Urls
  import opened ConfigMesh
  import opened Freshness

  /** One result row; `host` is the host of the remote URL, None if the URL does not parse. */
  datatype Row = Row(caughtUp: int, database: string, host: Option<string>)

  predicate Counts(row: Row, h: string) {
    row.caughtUp == 1 && row.host == Some(h)
  }

  /** Rows on which host `h` is caught up. */
  function Count(rows: seq<Row>, h: string): nat {
    if rows == [] then 0
    else Count(rows[..|rows| - 1], h) + if Counts(rows[|rows| - 1], h) then 1 else 0
  }

  /** No host is caught up on more rows. */
  ghost predicate Maximal(rows: seq<Row>, h: string) {
    forall g :: Count(rows, g) <= Count(rows, h)
  }

  lemma CountGrows(rows: seq<Row>, i: nat, h: string)
    requires i < |rows|
    ensures Count(rows[..i + 1], h) == Count(rows[..i], h) + if Counts(rows[i], h) then 1 else 0
  {
    assert rows[..i + 1][..i] == rows[..i];
  }

  method CountCaughtUp(rows: seq<Row>) returns (parsed: bool, numCaughtUp: map<string, nat>)
    ensures parsed <==> forall i :: 0 <= i < |rows| ==> rows[i].host.Some?
    ensures parsed ==> forall h :: h in numCaughtUp <==> Count(rows, h) > 0
    ensures parsed ==> forall h :: h in numCaughtUp ==> numCaughtUp[h] == Count(rows, h)
  {
    numCaughtUp := map[];
    for i := 0 to |rows|
      invariant forall k :: 0 <= k < i ==> rows[k].host.Some?
      invariant forall h :: h in numCaughtUp <==> Count(rows[..i], h) > 0
      invariant forall h :: h in numCaughtUp ==> numCaughtUp[h] == Count(rows[..i], h)
    {
      forall h ensures Count(rows[..i + 1], h) == Count(rows[..i], h) + if Counts(rows[i], h) then 1 else 0 {
        CountGrows(rows, i, h);
      }
      if rows[i].host.None? {
        return false, map[];
      }
      if rows[i].caughtUp == 1 {
        var h := rows[i].host.value;
        numCaughtUp := numCaughtUp[h := (if h in numCaughtUp then numCaughtUp[h] else 0) + 1];
      }
    }
    assert rows[..|rows|] == rows;
    parsed := true;
  }

  /** The running maximum over a map: the order of iteration is whatever `:|` picks. */
  method ArgMax(numCaughtUp: map<string, nat>) returns (host: string, max: nat)
    ensures forall h :: h in numCaughtUp ==> numCaughtUp[h] <= max
    ensures max > 0 ==> host in numCaughtUp && numCaughtUp[host] == max
    ensures max == 0 ==> host == ""
  {
    host, max := "", 0;
    var left := numCaughtUp.Keys;
    while left != {}
      invariant left <= numCaughtUp.Keys
      invariant forall h :: h in numCaughtUp && h !in left ==> numCaughtUp[h] <= max
      invariant max > 0 ==> host in numCaughtUp && numCaughtUp[host] == max
      invariant max == 0 ==> host == ""
      decreases left
    {
      var k :| k in left;
      left := left - {k};
      if numCaughtUp[k] > max {
        host, max := k, numCaughtUp[k];
      }
    }
  }

  /** The host the result processing settles on; None is an error return. */
  method SettledHost(rows: seq<Row>) returns (r: Option<string>)
    ensures r.Some? ==> MaySettle(rows, r.value)
    ensures r.Some? ==> forall i :: 0 <= i < |rows| ==> rows[i].host.Some?
    ensures r.Some? ==> Count(rows, r.value) > 0 || r.value == ""
    ensures Usable(rows) ==> r.Some? && Count(rows, r.value) > 0
  {
    var parsed, numCaughtUp := CountCaughtUp(rows);
    if !parsed {
      return None;
    }
    var host, max := ArgMax(numCaughtUp);
    forall g ensures Count(rows, g) <= Count(rows, host) {
      assert g in numCaughtUp || Count(rows, g) == 0;
    }
    var i := 0;
    while i < |rows|
      invariant 0 <= i <= |rows|
      invariant forall k :: 0 <= k < i ==> rows[k].host != Some(host)
    {
      if rows[i].host == Some(host) {
        return Some(host);
      }
      i := i + 1;
    }
    if Count(rows, host) > 0 {
      CountedRow(rows, host);
    }
    return None;
  }

  lemma {:induction false} CountedRow(rows: seq<Row>, h: string)
    requires Count(rows, h) > 0
    ensures exists i :: 0 <= i < |rows| && rows[i].host == Some(h)
  {
    var n := |rows| - 1;
    if !Counts(rows[n], h) {
      CountedRow(rows[..n], h);
      var i :| 0 <= i < n && rows[..n][i].host == Some(h);
      assert rows[i].host == Some(h);
    }
  }

  /** A listed host is taken for the settled one if that is a prefix of it. */
  predicate Matches(host: string, hostname: string) {
    host == hostname || hostname <= host
  }

  /** A host the result processing may settle on: it occurs in the rows and no host is caught up on more. */
  ghost predicate MaySettle(rows: seq<Row>, h: string) {
    Maximal(rows, h) && exists i :: 0 <= i < |rows| && rows[i].host == Some(h)
  }

  /** No row's URL is malformed and some host is caught up on something. */
  ghost predicate Usable(rows: seq<Row>) {
    (forall i :: 0 <= i < |rows| ==> rows[i].host.Some?) && exists h :: Count(rows, h) > 0
  }

  /** The position in `hosts` that `TransitionToStandby` returns, None for an error. */
  method CaughtUpPosition(rows: seq<Row>, hosts: seq<string>) returns (r: Option<nat>)
    ensures r.Some? ==> forall i :: 0 <= i < |rows| ==> rows[i].host.Some?
    ensures r.Some? ==> exists h ::
      MaySettle(rows, h) && (Count(rows, h) > 0 || h == "") && IsPosition(hosts, Hostname(h), r.value)
    ensures r.None? && Usable(rows) ==>
      exists h :: MaySettle(rows, h) && forall k :: 0 <= k < |hosts| ==> !(Hostname(h) <= hosts[k])
  {
    var host := SettledHost(rows);
    if host.None? {
      return None;
    }
    var hostname := Hostname(host.value);
    assert MaySettle(rows, host.value);
    var i := 0;
    while i < |hosts|
      invariant 0 <= i <= |hosts|
      invariant forall k :: 0 <= k < i ==> !Matches(hosts[k], hostname)
    {
      if Matches(hosts[i], hostname) {
        assert IsPosition(hosts, hostname, i);
        return Some(i);
      }
      i := i + 1;
    }
    return None;
  }

  /** `i` is the first position whose host matches. */
  ghost predicate IsPosition(hosts: seq<string>, hostname: string, i: nat) {
    i < |hosts| && hostname <= hosts[i] && forall k :: 0 <= k < i ==> !(hostname <= hosts[k])
  }

  // ----- caught up on every database

  ghost function Databases(rows: seq<Row>): set<string> {
    set i | 0 <= i < |rows| :: rows[i].database
  }

  ghost function CaughtUpDatabases(rows: seq<Row>, h: string): set<string> {
    set i | 0 <= i < |rows| && rows[i].caughtUp == 1 && rows[i].host == Some(h) :: rows[i].database
  }

  ghost predicate OneRowPerDatabaseAndHost(rows: seq<Row>) {
    forall i, j :: 0 <= i < j < |rows| ==> rows[i].database != rows[j].database || rows[i].host != rows[j].host
  }

  lemma {:induction false} CountIsNumberOfDatabases(rows: seq<Row>, h: string)
    requires OneRowPerDatabaseAndHost(rows)
    ensures Count(rows, h) == |CaughtUpDatabases(rows, h)|
  {
    if rows != [] {
      var n := |rows| - 1;
      var rest := rows[..n];
      CountIsNumberOfDatabases(rest, h);
      var before := CaughtUpDatabases(rest, h);
      assert forall i :: 0 <= i < n ==> rest[i] == rows[i];
      if Counts(rows[n], h) {
        assert rows[n].database !in before;
        assert CaughtUpDatabases(rows, h) == before + {rows[n].database};
      } else {
        assert CaughtUpDatabases(rows, h) == before;
      }
    }
  }

  lemma SubsetOfEqualSize(a: set<string>, b: set<string>)
    requires a <= b && |a| >= |b|
    ensures a == b
  {
    assert b == a + (b - a);
    assert |b| == |a| + |b - a|;
  }

  /** If any host is caught up on every database, so is every host that the result processing may settle on. */
  lemma MaximalHostIsCaughtUpEverywhere(rows: seq<Row>, h: string, g: string)
    requires OneRowPerDatabaseAndHost(rows) && Maximal(rows, g)
    requires CaughtUpDatabases(rows, h) == Databases(rows)
    ensures CaughtUpDatabases(rows, g) == Databases(rows)
  {
    CountIsNumberOfDatabases(rows, h);
    CountIsNumberOfDatabases(rows, g);
    assert Count(rows, h) <= Count(rows, g);
    SubsetOfEqualSize(CaughtUpDatabases(rows, g), Databases(rows));
  }

  // ----- the position used as an ordinal

  /** `StandbyHostFQDNs` of the healthy standbys `l`. */
  function Hosts(l: seq<nat>, name: string, service: string, namespace: string): seq<string> {
    seq(|l|, i requires 0 <= i < |l| => PodHost(name, l[i], service, namespace))
  }

  /** The returned position is the rank of the settled standby in the healthy list. */
  lemma PositionIsRank(l: seq<nat>, name: string, service: string, namespace: string, o: nat, i: nat)
    requires IsPosition(Hosts(l, name, service, namespace), PodHost(name, o, service, namespace), i)
    ensures i < |l| && l[i] == o
  {
    var hosts := Hosts(l, name, service, namespace);
    assert hosts[i] == PodHost(name, l[i], service, namespace);
    PodHostPrefixFree(name, o, l[i], service, namespace);
  }

  /** The healthy standbys as `StandbyHostFQDNs` lists them: in name order, whatever their number. */
  lemma HealthyIsInNameOrder(name: string, listing: seq<nat>, ready: set<nat>, primary: int)
    requires Distinct(listing)
    ensures SortedByName(name, Healthy(SortByName(name, listing), ready, primary))
  {
    SortByNameSorts(name, listing);
    HealthyKeepsOrder(name, SortByName(name, listing), ready, primary);
  }

  /** Every pod below `o` is ready and not the recorded primary. */
  ghost predicate LowerAreHealthy(ready: set<nat>, primary: nat, o: nat) {
    forall k: nat :: k < o ==> k in ready && k != primary
  }

  lemma AscendingPositionIff(l: seq<nat>, n: nat, ready: set<nat>, primary: nat, i: nat)
    requires Ascending(l) && i < |l|
    requires forall k: nat :: k in l <==> k < n && k in ready && k != primary
    ensures i == l[i] <==> LowerAreHealthy(ready, primary, l[i])
    ensures primary < l[i] ==> i != l[i]
  {
    RankIsOrdinalIff(l, i);
    assert l[i] in l && primary !in l;
    assert forall k: nat :: k < l[i] ==> (k in l <==> k in ready && k != primary);
  }

  /** The position of standby `o` among the healthy standbys as `StandbyHostFQDNs` lists them. */
  ghost predicate PositionOf(
    name: string, service: string, namespace: string, listing: seq<nat>, ready: set<nat>, primary: nat,
    o: nat, i: nat)
  {
    var l := Healthy(SortByName(name, listing), ready, primary);
    IsPosition(Hosts(l, name, service, namespace), PodHost(name, o, service, namespace), i)
  }

  /** For any number of pods, that is the number of healthy standbys that precede it by name. */
  lemma PositionCountsPreceding(
    name: string, service: string, namespace: string, listing: seq<nat>, ready: set<nat>, primary: nat,
    o: nat, i: nat)
    requires Distinct(listing) && PositionOf(name, service, namespace, listing, ready, primary, o, i)
    ensures
      var l := Healthy(SortByName(name, listing), ready, primary);
      i < |l| && l[i] == o && i == |Preceding(name, l, o)|
  {
    var l := Healthy(SortByName(name, listing), ready, primary);
    PositionIsRank(l, name, service, namespace, o, i);
    HealthyIsInNameOrder(name, listing, ready, primary);
    RankByName(name, l, i);
  }

  lemma UpToTenIntendedIff(
    name: string, service: string, namespace: string, listing: seq<nat>, n: nat, ready: set<nat>, primary: nat,
    o: nat, i: nat)
    requires IsListing(listing, n) && n <= 10
    requires PositionOf(name, service, namespace, listing, ready, primary, o, i)
    ensures i == o <==> LowerAreHealthy(ready, primary, o)
    ensures primary < o ==> i != o
  {
    PositionCountsPreceding(name, service, namespace, listing, ready, primary, o, i);
    HealthyOfUpToTen(name, listing, ready, primary, n);
    AscendingPositionIff(Healthy(SortByName(name, listing), ready, primary), n, ready, primary, i);
  }

  /**
    The updater takes the position for an ordinal. It is the ordinal of the standby settled on if and only if as many
    healthy standbys precede that one by name. Up to ten pods this means that every lower ordinal is a healthy
    standby too; so it never is for one that comes after the recorded primary.
   */
  lemma UpdaterPromotesIntendedIff(
    name: string, service: string, namespace: string, listing: seq<nat>, n: nat, ready: set<nat>, primary: nat,
    o: nat, i: nat)
    requires IsListing(listing, n) && PositionOf(name, service, namespace, listing, ready, primary, o, i)
    ensures i == o <==> |Preceding(name, Healthy(SortByName(name, listing), ready, primary), o)| == o
    ensures n <= 10 ==> (i == o <==> LowerAreHealthy(ready, primary, o))
    ensures n <= 10 && primary < o ==> i != o
  {
    PositionCountsPreceding(name, service, namespace, listing, ready, primary, o, i);
    if n <= 10 {
      UpToTenIntendedIff(name, service, namespace, listing, n, ready, primary, o, i);
    }
  }

  /** Every row is about the remote of some pod, as the generated configuration spells it. */
  ghost predicate AboutRemotes(rows: seq<Row>, m: Meta) {
    forall i :: 0 <= i < |rows| ==> exists o: nat :: rows[i].host == HttpHost(RemoteOf(m, o).url)
  }

  /**
    From the configured remotes through the procedure's rows to the host list: the position stands for a healthy
    standby whose remote is caught up on every database, if any remote is.
   */
  lemma DrainEndsAtCaughtUpStandby(m: Meta, l: seq<nat>, rows: seq<Row>, h: string, g: string, i: nat)
    requires (forall o: nat :: IsDnsName(m.Host(o))) && AboutRemotes(rows, m) && OneRowPerDatabaseAndHost(rows)
    requires MaySettle(rows, h) && IsPosition(Hosts(l, m.name, m.Service(), m.namespace), Hostname(h), i)
    requires CaughtUpDatabases(rows, g) == Databases(rows)
    ensures i < |l| && Some(h) == HttpHost(RemoteOf(m, l[i]).url)
    ensures CaughtUpDatabases(rows, h) == Databases(rows)
  {
    var k :| 0 <= k < |rows| && rows[k].host == Some(h);
    var o: nat :| rows[k].host == HttpHost(RemoteOf(m, o).url);
    RemoteUrlNamesTheHost(m, o);
    PositionIsRank(l, m.name, m.Service(), m.namespace, o, i);
    MaximalHostIsCaughtUpEverywhere(rows, g, h);
  }
}
