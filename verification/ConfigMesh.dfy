/** The server configurations: one per pod, each listing every other pod as a standby remote. */
module ConfigMesh {
  import opened Wrappers
  import opened Cluster
  import opened Names
  import opened Ordinals
  import opened Urls

  const REMOTES_API_PORT: nat := 50051

  datatype Remote = Remote(name: string, url: string)

  /** The `cluster` section; the serializer that turns a config into text is not modelled. */
  datatype ClusterConfig = ClusterConfig(remotes: seq<Remote>, bootstrapEpoch: nat, bootstrapRole: Role, port: nat)

  datatype Meta = Meta(name: string, namespace: string, replicas: int, replicated: bool, remotesApiPort: nat)
  {
    function Service(): string { name + "-internal" }
    function Count(): nat { if replicas < 0 then 0 else replicas }
    function Port(): nat { if remotesApiPort == 0 then REMOTES_API_PORT else remotesApiPort }
    function Host(i: nat): string { PodHost(name, i, Service(), namespace) }
    function ConfigKey(i: nat): string { PodName(name, i) + ".yaml" }
  }

  function RemoteOf(m: Meta, i: nat): Remote {
    Remote(PodName(m.name, i), "http://" + m.Host(i) + ":" + Decimal(m.Port()) + "/{database}")
  }

  /** Every ordinal below `n` but `i`, in order. */
  function Others(i: nat, n: nat): (r: seq<nat>)
    ensures forall o: nat :: o in r <==> o < n && o != i
    ensures |r| == if i < n then n - 1 else n
  {
    if n == 0 then [] else if n - 1 == i then Others(i, n - 1) else Others(i, n - 1) + [n - 1]
  }

  lemma {:induction false} OthersAscend(i: nat, n: nat)
    ensures Ascending(Others(i, n))
  {
    if n > 0 {
      OthersAscend(i, n - 1);
      var rest := Others(i, n - 1);
      assert forall k :: 0 <= k < |rest| ==> rest[k] in rest;
    }
  }

  /** `generateStandbyRemotes`. */
  method GenerateStandbyRemotes(current: nat, m: Meta) returns (remotes: seq<Remote>)
    ensures |remotes| == |Others(current, m.Count())|
    ensures forall k :: 0 <= k < |remotes| ==> remotes[k] == RemoteOf(m, Others(current, m.Count())[k])
  {
    remotes := [];
    for i := 0 to m.Count()
      invariant |remotes| == |Others(current, i)|
      invariant forall k :: 0 <= k < |remotes| ==> remotes[k] == RemoteOf(m, Others(current, i)[k])
    {
      if i != current {
        remotes := remotes + [RemoteOf(m, i)];
      }
    }
  }

  function BootstrapRole(i: nat): Role {
    if i == 0 then Primary else Standby
  }

  /**
    Pod `i` is told about exactly the other pods, in ordinal order, and about nobody when replication is off;
    ordinal 0, and no other, bootstraps as primary.
   */
  ghost predicate ConfiguredFor(m: Meta, i: nat, config: Option<ClusterConfig>) {
    if !m.replicated then config.None?
    else
      config.Some? && var c, others := config.value, Others(i, m.Count());
      && |c.remotes| == |others| && (forall k :: 0 <= k < |others| ==> c.remotes[k] == RemoteOf(m, others[k]))
      && c.bootstrapEpoch == 1 && c.port == m.Port()
      && c.bootstrapRole in {Primary, Standby} && (c.bootstrapRole == Primary <==> i == 0)
  }

  lemma ConfigKeyInjective(m: Meta, i: nat, j: nat)
    requires m.ConfigKey(i) == m.ConfigKey(j)
    ensures i == j
  {
    var a, b := PodName(m.name, i), PodName(m.name, j);
    assert a == m.ConfigKey(i)[..|a|] && b == m.ConfigKey(j)[..|b|];
    PodNameInjective(m.name, i, j);
  }

  /** A configuration is a YAML file whose name tells the pod. */
  lemma ConfigKeyNamesThePod(m: Meta, i: nat)
    requires i <= MAX_INT
    ensures
      var key := m.ConfigKey(i);
      |key| > 5 && key[|key| - 5..] == ".yaml" && PodIndex(key[..|key| - 5]) == Some(i)
  {
    var key := m.ConfigKey(i);
    assert key[..|key| - 5] == PodName(m.name, i);
    PodIndexOfPodName(m.name, i);
  }

  /** The entries of the pods below `n`, and no others. */
  ghost predicate EntriesUpTo(m: Meta, data: map<string, Option<ClusterConfig>>, n: nat) {
    && (forall k: nat :: k < n ==> m.ConfigKey(k) in data && ConfiguredFor(m, k, data[m.ConfigKey(k)]))
    && (forall key :: key in data ==> exists k: nat :: k < n && key == m.ConfigKey(k))
  }

  lemma NextKeyIsNew(m: Meta, data: map<string, Option<ClusterConfig>>, n: nat)
    requires EntriesUpTo(m, data, n)
    ensures m.ConfigKey(n) !in data
  {
    if m.ConfigKey(n) in data {
      var k: nat :| k < n && m.ConfigKey(n) == m.ConfigKey(k);
      ConfigKeyInjective(m, n, k);
    }
  }

  lemma EntryAdded(m: Meta, data: map<string, Option<ClusterConfig>>, n: nat, config: Option<ClusterConfig>)
    requires EntriesUpTo(m, data, n) && ConfiguredFor(m, n, config) && m.ConfigKey(n) !in data
    ensures EntriesUpTo(m, data[m.ConfigKey(n) := config], n + 1)
  {
    var after := data[m.ConfigKey(n) := config];
    forall k: nat | k < n + 1 ensures m.ConfigKey(k) in after && ConfiguredFor(m, k, after[m.ConfigKey(k)]) {
      assert k < n ==> m.ConfigKey(k) in data;
    }
    forall key | key in after ensures exists k: nat :: k < n + 1 && key == m.ConfigKey(k) {
      if key in data {
        var k: nat :| k < n && key == m.ConfigKey(k);
      }
    }
  }

  /** `GenerateConfigMapData`: exactly one entry per pod, each the configuration of that pod. */
  method GenerateConfigMapData(m: Meta) returns (data: map<string, Option<ClusterConfig>>)
    ensures |data| == m.Count() && EntriesUpTo(m, data, m.Count())
  {
    data := map[];
    for i := 0 to m.Count()
      invariant |data| == i && EntriesUpTo(m, data, i)
    {
      var config: Option<ClusterConfig> := None;
      if m.replicated {
        var remotes := GenerateStandbyRemotes(i, m);
        config := Some(ClusterConfig(remotes, 1, BootstrapRole(i), m.Port()));
      }
      NextKeyIsNew(m, data, i);
      EntryAdded(m, data, i, config);
      data := data[m.ConfigKey(i) := config];
    }
  }

  /** The mesh is complete: pod `j` is a remote of pod `i` exactly if they differ. */
  lemma MeshIsComplete(m: Meta, i: nat, j: nat, config: Option<ClusterConfig>)
    requires m.replicated && i < m.Count() && j < m.Count() && ConfiguredFor(m, i, config)
    ensures RemoteOf(m, j) in config.value.remotes <==> i != j
    ensures |config.value.remotes| == m.Count() - 1
  {
    var others := Others(i, m.Count());
    if RemoteOf(m, j) in config.value.remotes {
      var k :| 0 <= k < |others| && config.value.remotes[k] == RemoteOf(m, j);
      PodNameInjective(m.name, others[k], j);
      assert j in others;
    }
    if i != j {
      assert j in others;
      var k :| 0 <= k < |others| && others[k] == j;
      assert config.value.remotes[k] == RemoteOf(m, j);
    }
  }

  lemma RemoteHostPort(m: Meta, i: nat)
    requires IsDnsName(m.Host(i))
    ensures HttpHost(RemoteOf(m, i).url) == Some(m.Host(i) + ":" + Decimal(m.Port()))
    ensures var url := RemoteOf(m, i).url; |url| > 11 && url[|url| - 11..] == "/{database}"
  {
    var hostPort := m.Host(i) + ":" + Decimal(m.Port());
    var url := RemoteOf(m, i).url;
    assert url == "http://" + (hostPort + "/" + "{database}");
    assert url[7..] == hostPort + "/" + "{database}";
    forall k | 0 <= k < |hostPort| ensures hostPort[k] !in {'/', '?', '#'} {
      if k < |m.Host(i)| {
        assert hostPort[k] == m.Host(i)[k];
      } else if k > |m.Host(i)| {
        assert hostPort[k] == Decimal(m.Port())[k - |m.Host(i)| - 1];
      }
    }
    UpToPathStops(hostPort, "{database}");
  }

  /** The host of a remote URL is the name under which `StandbyHostFQDNs` lists that pod. */
  lemma RemoteUrlNamesTheHost(m: Meta, i: nat)
    requires IsDnsName(m.Host(i))
    ensures
      var h := HttpHost(RemoteOf(m, i).url);
      h.Some? && Hostname(h.value) == PodHost(m.name, i, m.name + "-internal", m.namespace)
  {
    RemoteHostPort(m, i);
    HostnameOfHostPort(m.Host(i), m.Port());
  }

  /** The number after the last colon. */
  function PortOf(hostPort: string): Option<int> {
    Atoi(hostPort[LastIndex(hostPort, ':') + 1..])
  }

  /**
    The port of the remote URL of pod `j` is the one that pod's own configuration listens on: the spec's if it sets
    one, and 50051 otherwise.
   */
  lemma RemoteUrlNamesThePort(m: Meta, j: nat, config: Option<ClusterConfig>)
    requires IsDnsName(m.Host(j)) && m.replicated && ConfiguredFor(m, j, config) && m.remotesApiPort <= 65535
    ensures
      var h := HttpHost(RemoteOf(m, j).url);
      h.Some? && PortOf(h.value) == Some(config.value.port)
    ensures config.value.port == if m.remotesApiPort == 0 then 50051 else m.remotesApiPort
  {
    RemoteHostPort(m, j);
    PortOfHostPort(m.Host(j), m.Port());
  }

  lemma {:induction false} PortOfHostPort(host: string, port: nat)
    requires IsDnsName(host) && port <= MAX_INT
    ensures PortOf(host + ":" + Decimal(port)) == Some(port)
  {
    LastColon(host, Decimal(port));
    AtoiOfDecimal(port);
  }

  lemma {:induction false} LastColon(host: string, digits: string)
    requires AllDigits(digits)
    ensures
      var s := host + ":" + digits;
      LastIndex(s, ':') == |host| && s[|host| + 1..] == digits
  {
    var s := host + ":" + digits;
    assert forall i :: |host| < i < |s| ==> s[i] == digits[i - |host| - 1];
    assert s[|host|] == ':';
  }
}
