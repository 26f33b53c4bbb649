/**
 Host names (internal/mongodb/client.go: GetPodFQDN, GetPodsFQDN; internal/mongodb/replicaset.go:
 BuildReplicaSetConfig, GetPrimaryPod; internal/mongodb/sharding.go: BuildShardConnectionString).
 */
module Hosts {
  import opened Options
  import opened Text
  import RS = ReplicaSetConfig

  function PodName(base: string, i: nat): string {
    base + "-" + FromNat(i)
  }

  function DomainParts(service: string, namespace: string, port: int): seq<string> {
    [service, namespace, "svc", "cluster", "local:" + FromInt(port)]
  }

  function Domain(service: string, namespace: string, port: int): string {
    Join(DomainParts(service, namespace, port), ".")
  }

  function PodFqdn(pod: string, service: string, namespace: string, port: int): string {
    pod + "." + Domain(service, namespace, port)
  }

  function HostAt(base: string, service: string, namespace: string, port: int, i: nat): string {
    PodFqdn(PodName(base, i), service, namespace, port)
  }

  /** The hosts of pods 0 .. n-1, in order. */
  function HostList(base: string, service: string, namespace: string, n: nat, port: int): (hosts: seq<string>)
    ensures |hosts| == n
    ensures forall i | 0 <= i < n :: hosts[i] == HostAt(base, service, namespace, port, i)
  {
    seq(n, i requires 0 <= i < n => HostAt(base, service, namespace, port, i))
  }

  method GetPodsFQDN(base: string, service: string, namespace: string, replicas: nat, port: int)
    returns (fqdns: array<string>)
    ensures fresh(fqdns) && fqdns[..] == HostList(base, service, namespace, replicas, port)
  {
    fqdns := new string[replicas](_ => "");
    for i := 0 to replicas
      invariant forall j | 0 <= j < i :: fqdns[j] == HostAt(base, service, namespace, port, j)
    {
      fqdns[i] := PodFqdn(PodName(base, i), service, namespace, port);
    }
  }

  method BuildReplicaSetConfig(base: string, service: string, namespace: string, members: nat, port: int)
    returns (cfg: RS.Config)
    ensures cfg.version == 0 && RS.Distinct(cfg.members)
    ensures |cfg.members| == members
    ensures forall i | 0 <= i < members :: cfg.members[i].host == HostList(base, service, namespace, members, port)[i]
    ensures forall i | 0 <= i < members :: cfg.members[i].id == i && !cfg.members[i].arbiterOnly
  {
    var ms := new RS.Member[members](_ => RS.Member(0, "", false));
    for i := 0 to members
      invariant forall j | 0 <= j < i :: ms[j] == RS.Member(j, HostAt(base, service, namespace, port, j), false)
    {
      ms[i] := RS.Member(i, PodFqdn(PodName(base, i), service, namespace, port), false);
    }
    forall i, j | 0 <= i < j < members ensures ms[i].host != ms[j].host {
      HostsDiffer(base, service, namespace, port, i, j);
    }
    cfg := RS.Config(ms[..], 0);
  }

  function SeedList(shard: string, hosts: seq<string>): string {
    shard + "/" + Join(hosts, ",")
  }

  method BuildShardConnectionString(shard: string, base: string, service: string, namespace: string, members: nat,
                                    port: int)
    returns (conn: string)
    ensures conn == SeedList(shard, HostList(base, service, namespace, members, port))
  {
    var hosts := new string[members](_ => "");
    for i := 0 to members
      invariant forall j | 0 <= j < i :: hosts[j] == HostAt(base, service, namespace, port, j)
    {
      hosts[i] := PodFqdn(PodName(base, i), service, namespace, port);
    }
    assert hosts[..] == HostList(base, service, namespace, members, port);
    conn := shard + "/" + Join(hosts[..], ",");
  }

  /** Different ordinals, different hosts, whatever the names are. */
  lemma HostsDiffer(base: string, service: string, namespace: string, port: int, i: nat, j: nat)
    requires i != j
    ensures HostAt(base, service, namespace, port, i) != HostAt(base, service, namespace, port, j)
  {
    if HostAt(base, service, namespace, port, i) == HostAt(base, service, namespace, port, j) {
      Cancel(base + "-", FromNat(i), FromNat(j), ".", Domain(service, namespace, port));
      ToNatFromNat(i);
      ToNatFromNat(j);
    }
  }

  lemma Cancel(p: string, a: string, b: string, sep: string, t: string)
    requires p + a + sep + t == p + b + sep + t
    ensures a == b
  {
    var s := p + a + sep + t;
    assert |a| == |b|;
    assert a == s[|p|..|p| + |a|] == b;
  }

  lemma DigitsFree(n: nat, c: char)
    requires !IsDigit(c)
    ensures c !in FromNat(n)
  {
  }

  lemma FromIntFree(z: int, c: char)
    requires !IsDigit(c) && c != '-'
    ensures c !in FromInt(z)
  {
  }

  /** The first dot-segment of a host is its pod name exactly when the pod name has no dot. */
  lemma FirstSegmentIsPodIff(pod: string, service: string, namespace: string, port: int)
    ensures Split(PodFqdn(pod, service, namespace, port), '.')[0] == pod <==> '.' !in pod
  {
    var host := PodFqdn(pod, service, namespace, port);
    if '.' !in pod {
      SplitHead(pod, Domain(service, namespace, port), '.');
    } else {
      SplitIsFree(host, '.');
    }
  }

  /** Read as a domain name, a host names its pod, its service and its namespace, in this order, and the port. */
  lemma HostParts(pod: string, service: string, namespace: string, port: int)
    requires '.' !in pod && '.' !in service && '.' !in namespace
    ensures Split(PodFqdn(pod, service, namespace, port), '.') ==
            [pod, service, namespace, "svc", "cluster", "local:" + FromInt(port)]
  {
    FromIntFree(port, '.');
    SplitJoin(DomainParts(service, namespace, port), '.');
    SplitHead(pod, Domain(service, namespace, port), '.');
  }

  /**
   The seed list handed to addShard, read as "name/host,host,...", names exactly the members of
   the configuration that initiated the shard, in order; without members nothing follows the slash.
   */
  lemma SeedListNamesConfig(shard: string, base: string, service: string, namespace: string, n: nat, port: int)
    requires ',' !in base && ',' !in service && ',' !in namespace && '/' !in shard
    ensures var hosts := HostList(base, service, namespace, n, port);
            var seeds := SeedList(shard, hosts);
            && Split(seeds, '/')[0] == shard
            && (if n == 0 then seeds[|shard| + 1..] == "" else Split(seeds[|shard| + 1..], ',') == hosts)
  {
    var hosts := HostList(base, service, namespace, n, port);
    forall i | 0 <= i < n ensures ',' !in hosts[i] {
      HostHasNoComma(base, service, namespace, port, i);
    }
    if n > 0 { SplitJoin(hosts, ','); }
    SplitHead(shard, Join(hosts, ","), '/');
    assert SeedList(shard, hosts)[|shard| + 1..] == Join(hosts, ",");
  }

  lemma HostHasNoComma(base: string, service: string, namespace: string, port: int, i: nat)
    requires ',' !in base && ',' !in service && ',' !in namespace
    ensures ',' !in HostAt(base, service, namespace, port, i)
  {
    DigitsFree(i, ',');
    FromIntFree(port, ',');
    assert ',' !in PodName(base, i);
    JoinFree(DomainParts(service, namespace, port), ".", ',');
  }

  datatype MemberStatus = MemberStatus(name: string, state: string)

  /** The pod of the first member that reports itself primary. */
  method GetPrimaryPod(members: seq<MemberStatus>) returns (pod: Option<string>)
    ensures pod.None? <==> forall i | 0 <= i < |members| :: members[i].state != "PRIMARY"
    ensures pod.Some? ==> exists k | 0 <= k < |members| ::
                            && members[k].state == "PRIMARY" && pod.value == Split(members[k].name, '.')[0]
                            && forall i | 0 <= i < k :: members[i].state != "PRIMARY"
  {
    for i := 0 to |members|
      invariant forall j | 0 <= j < i :: members[j].state != "PRIMARY"
    {
      if members[i].state == "PRIMARY" {
        var parts := Split(members[i].name, '.');
        if |parts| > 0 { return Some(parts[0]); }
      }
    }
    return None;
  }
}
