/** The host of a URL, as `net/url` reads it from the operator's remote URLs. */
module Urls {
  import opened Wrappers
  import opened Names

  function LastIndex(s: string, c: char): (k: int)
    ensures -1 <= k < |s|
    ensures k >= 0 ==> s[k] == c
    ensures forall i :: k < i < |s| ==> s[i] != c
  {
    if s == "" then -1
    else if s[|s| - 1] == c then |s| - 1
    else LastIndex(s[..|s| - 1], c)
  }

  /** `URL.Hostname`: a trailing port and enclosing brackets are taken off. */
  function Hostname(hostPort: string): string {
    var k := LastIndex(hostPort, ':');
    var host := if k >= 0 && AllDigits(hostPort[k + 1..]) then hostPort[..k] else hostPort;
    if |host| >= 2 && host[0] == '[' && host[|host| - 1] == ']' then host[1..|host| - 1] else host
  }

  function UpToPath(s: string): string {
    if s == "" || s[0] in {'/', '?', '#'} then "" else [s[0]] + UpToPath(s[1..])
  }

  /** `URL.Host` of an http URL: what stands between the slashes and the path. */
  function HttpHost(url: string): Option<string> {
    if "http://" <= url then Some(UpToPath(url[7..])) else None
  }

  /** Characters of a DNS name. */
  predicate IsDnsName(s: string) {
    s != "" && forall i :: 0 <= i < |s| ==> 'a' <= s[i] <= 'z' || IsDigit(s[i]) || s[i] == '-' || s[i] == '.'
  }

  lemma {:induction false} UpToPathStops(host: string, path: string)
    requires forall i :: 0 <= i < |host| ==> host[i] !in {'/', '?', '#'}
    ensures UpToPath(host + "/" + path) == host
  {
    var s := host + "/" + path;
    if host != "" {
      assert s[1..] == host[1..] + "/" + path;
      UpToPathStops(host[1..], path);
    }
  }

  /** A port printed after a host comes off again. */
  lemma HostnameOfHostPort(host: string, port: nat)
    requires IsDnsName(host)
    ensures Hostname(host + ":" + Decimal(port)) == host
  {
    var s := host + ":" + Decimal(port);
    assert forall i :: |host| < i < |s| ==> s[i] == Decimal(port)[i - |host| - 1];
    assert s[|host|] == ':';
    assert LastIndex(s, ':') == |host|;
    assert s[|host| + 1..] == Decimal(port);
  }

  /** A host in brackets, as an IPv6 address is written, comes out of them, with or without a port. */
  lemma {:induction false} HostnameOfBrackets(host: string, port: nat)
    ensures Hostname("[" + host + "]") == host
    ensures Hostname("[" + host + "]:" + Decimal(port)) == host
  {
    var s, t := "[" + host + "]", "[" + host + "]:" + Decimal(port);
    var k := LastIndex(s, ':');
    if k >= 0 {
      assert s[k + 1..][|s| - k - 2] == ']';
    }
    assert s[1..|s| - 1] == host;
    assert forall i :: |s| < i < |t| ==> t[i] == Decimal(port)[i - |s| - 1];
    assert t[|s|] == ':' && LastIndex(t, ':') == |s|;
    assert t[|s| + 1..] == Decimal(port) && t[..|s|] == s;
  }

  /** A host without a port and without brackets is taken as it is. */
  lemma {:induction false} HostnameOfPlainHost(host: string)
    requires (forall i :: 0 <= i < |host| ==> host[i] != ':') && (host == "" || host[0] != '[')
    ensures Hostname(host) == host
  {
    assert LastIndex(host, ':') == -1;
  }
}
