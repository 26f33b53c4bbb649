/**
 Editing the member list of a replica set (internal/mongodb/replicaset.go: AddMember,
 RemoveMember).  Each call fetches the server's configuration, edits its own copy and sends it
 back; the server takes it over, or does not, whatever the caller is told.
 */
module ReplicaSetConfig {

  datatype Member = Member(id: int, host: string, arbiterOnly: bool)

  datatype Config = Config(members: seq<Member>, version: int)

  function Hosts(ms: seq<Member>): set<string> {
    set m | m in ms :: m.host
  }

  /** The largest id, or -1. */
  function MaxId(ms: seq<Member>): int {
    if ms == [] then -1
    else
      var r := MaxId(ms[..|ms| - 1]);
      if ms[|ms| - 1].id > r then ms[|ms| - 1].id else r
  }

  lemma {:induction false} MaxIdBounds(ms: seq<Member>)
    ensures MaxId(ms) >= -1 && forall m | m in ms :: m.id <= MaxId(ms)
  {
    if ms != [] {
      MaxIdBounds(ms[..|ms| - 1]);
      assert ms == ms[..|ms| - 1] + [ms[|ms| - 1]];
    }
  }

  function Without(ms: seq<Member>, host: string): seq<Member> {
    if ms == [] then []
    else
      var front := Without(ms[..|ms| - 1], host);
      if ms[|ms| - 1].host == host then front else front + [ms[|ms| - 1]]
  }

  function Add(cfg: Config, host: string, arbiterOnly: bool): Config {
    if host in Hosts(cfg.members) then cfg
    else Config(cfg.members + [Member(MaxId(cfg.members) + 1, host, arbiterOnly)], cfg.version + 1)
  }

  function Remove(cfg: Config, host: string): Config {
    if host !in Hosts(cfg.members) then cfg
    else Config(Without(cfg.members, host), cfg.version + 1)
  }

  // ---------------------------------------------------------------- removal keeps order

  /** `r` is what is left of `s` when exactly the positions in `at` are kept, in order. */
  ghost predicate KeptAt(s: seq<Member>, r: seq<Member>, at: seq<nat>) {
    && |at| == |r|
    && (forall k | 0 <= k < |at| :: at[k] < |s| && r[k] == s[at[k]])
    && (forall k, l | 0 <= k < l < |at| :: at[k] < at[l])
  }

  /** The positions of the members on other hosts. */
  function Others(ms: seq<Member>, host: string): (at: seq<nat>)
    ensures forall k | 0 <= k < |at| :: at[k] < |ms|
  {
    if ms == [] then []
    else
      var front := Others(ms[..|ms| - 1], host);
      if ms[|ms| - 1].host == host then front else front + [|ms| - 1]
  }

  lemma {:induction false} OthersAreKept(ms: seq<Member>, host: string)
    ensures KeptAt(ms, Without(ms, host), Others(ms, host))
  {
    if ms != [] {
      OthersAreKept(ms[..|ms| - 1], host);
    }
  }

  lemma {:induction false} OthersAreAll(ms: seq<Member>, host: string, i: nat)
    requires i < |ms|
    ensures i in Others(ms, host) <==> ms[i].host != host
  {
    if i < |ms| - 1 { OthersAreAll(ms[..|ms| - 1], host, i); }
  }

  /** Removal keeps the other members, all of them, in their order. */
  lemma WithoutKeepsOrder(ms: seq<Member>, host: string) returns (at: seq<nat>)
    ensures KeptAt(ms, Without(ms, host), at)
    ensures forall i: nat | i < |ms| :: i in at <==> ms[i].host != host
  {
    at := Others(ms, host);
    OthersAreKept(ms, host);
    forall i: nat | i < |ms| ensures i in at <==> ms[i].host != host { OthersAreAll(ms, host, i); }
  }

  lemma {:induction false} WithoutMembers(ms: seq<Member>, host: string)
    ensures forall m :: m in Without(ms, host) <==> m in ms && m.host != host
    ensures Hosts(Without(ms, host)) == Hosts(ms) - {host}
  {
    if ms != [] {
      WithoutMembers(ms[..|ms| - 1], host);
      assert ms == ms[..|ms| - 1] + [ms[|ms| - 1]];
    }
  }

  // ---------------------------------------------------------------- any sequence of edits

  ghost predicate Distinct(ms: seq<Member>) {
    && (forall i, j | 0 <= i < j < |ms| :: ms[i].id != ms[j].id)
    && (forall i, j | 0 <= i < j < |ms| :: ms[i].host != ms[j].host)
  }

  /** One call; `lands` says whether the server takes the new configuration over. */
  datatype Edit = AddMember(host: string, arbiterOnly: bool, lands: bool) | RemoveMember(host: string, lands: bool)

  function Apply(cfg: Config, e: Edit): Config {
    if !e.lands then cfg
    else match e
      case AddMember(host, arbiterOnly, _) => Add(cfg, host, arbiterOnly)
      case RemoveMember(host, _) => Remove(cfg, host)
  }

  function Run(cfg: Config, es: seq<Edit>): Config
    decreases |es|
  {
    if es == [] then cfg else Run(Apply(cfg, es[0]), es[1..])
  }

  /** The same edit on the set of hosts alone. */
  function ApplySet(hosts: set<string>, e: Edit): set<string> {
    if !e.lands then hosts
    else if e.AddMember? then hosts + {e.host}
    else hosts - {e.host}
  }

  function RunSet(hosts: set<string>, es: seq<Edit>): set<string>
    decreases |es|
  {
    if es == [] then hosts else RunSet(ApplySet(hosts, es[0]), es[1..])
  }

  /** How many edits change the set of hosts. */
  function Changes(hosts: set<string>, es: seq<Edit>): nat
    decreases |es|
  {
    if es == [] then 0
    else (if ApplySet(hosts, es[0]) != hosts then 1 else 0) + Changes(ApplySet(hosts, es[0]), es[1..])
  }

  lemma HostsSnoc(ms: seq<Member>, m: Member)
    ensures Hosts(ms + [m]) == Hosts(ms) + {m.host}
  {
    assert forall x :: x in ms + [m] <==> x in ms || x == m;
  }

  lemma {:induction false} MaxIdIsTaken(ms: seq<Member>)
    ensures MaxId(ms) == -1 || exists m | m in ms :: m.id == MaxId(ms)
  {
    if ms != [] {
      MaxIdIsTaken(ms[..|ms| - 1]);
      assert ms == ms[..|ms| - 1] + [ms[|ms| - 1]];
    }
  }

  /** A new host comes last, with the flag asked for and the next id above all others, from 0 up. */
  lemma AddAppends(cfg: Config, host: string, arbiterOnly: bool)
    requires host !in Hosts(cfg.members)
    ensures var r := Add(cfg, host, arbiterOnly).members;
            && |r| == |cfg.members| + 1 && r[..|cfg.members|] == cfg.members
            && r[|cfg.members|].host == host && r[|cfg.members|].arbiterOnly == arbiterOnly
            && r[|cfg.members|].id >= 0 && (forall m | m in cfg.members :: m.id < r[|cfg.members|].id)
            && (r[|cfg.members|].id == 0 || exists m | m in cfg.members :: m.id == r[|cfg.members|].id - 1)
  {
    MaxIdBounds(cfg.members);
    MaxIdIsTaken(cfg.members);
  }

  lemma AddKeepsDistinct(cfg: Config, host: string, arbiterOnly: bool)
    requires Distinct(cfg.members)
    ensures Distinct(Add(cfg, host, arbiterOnly).members)
    ensures Hosts(Add(cfg, host, arbiterOnly).members) == Hosts(cfg.members) + {host}
  {
    if host !in Hosts(cfg.members) {
      var ms, r := cfg.members, Add(cfg, host, arbiterOnly).members;
      MaxIdBounds(ms);
      forall i | 0 <= i < |ms| ensures r[i] == ms[i] && ms[i].id < r[|ms|].id && ms[i].host != host {
        assert ms[i] in ms && ms[i].host in Hosts(ms);
      }
      HostsSnoc(ms, r[|ms|]);
    }
  }

  lemma RemoveKeepsDistinct(cfg: Config, host: string)
    requires Distinct(cfg.members)
    ensures Distinct(Remove(cfg, host).members)
    ensures Hosts(Remove(cfg, host).members) == Hosts(cfg.members) - {host}
  {
    WithoutMembers(cfg.members, host);
    var at := WithoutKeepsOrder(cfg.members, host);
  }

  lemma StepRefinesSet(cfg: Config, e: Edit)
    requires Distinct(cfg.members)
    ensures Distinct(Apply(cfg, e).members)
    ensures Hosts(Apply(cfg, e).members) == ApplySet(Hosts(cfg.members), e)
    ensures Apply(cfg, e).version ==
            cfg.version + (if ApplySet(Hosts(cfg.members), e) != Hosts(cfg.members) then 1 else 0)
  {
    match e
    case AddMember(host, arbiterOnly, _) => AddKeepsDistinct(cfg, host, arbiterOnly);
    case RemoveMember(host, _) => RemoveKeepsDistinct(cfg, host);
  }

  /**
   Over any sequence of edits the ids and the hosts stay distinct, the hosts are what the same
   edits give on plain sets, and the version rises by exactly one per effective change.
   */
  lemma {:induction false} EditsRefineSet(cfg: Config, es: seq<Edit>)
    requires Distinct(cfg.members)
    ensures Distinct(Run(cfg, es).members)
    ensures Hosts(Run(cfg, es).members) == RunSet(Hosts(cfg.members), es)
    ensures Run(cfg, es).version == cfg.version + Changes(Hosts(cfg.members), es)
    decreases |es|
  {
    if es != [] {
      StepRefinesSet(cfg, es[0]);
      EditsRefineSet(Apply(cfg, es[0]), es[1..]);
    }
  }

  predicate Removes(es: seq<Edit>, host: string) {
    exists i | 0 <= i < |es| :: es[i].RemoveMember? && es[i].host == host
  }

  lemma StepKeepsOrder(cfg: Config, e: Edit, i: nat, j: nat) returns (i': nat, j': nat)
    requires i < j < |cfg.members|
    requires e.RemoveMember? ==> e.host != cfg.members[i].host && e.host != cfg.members[j].host
    ensures i' < j' < |Apply(cfg, e).members|
    ensures Apply(cfg, e).members[i'] == cfg.members[i] && Apply(cfg, e).members[j'] == cfg.members[j]
  {
    i', j' := i, j;
    if e.lands && e.RemoveMember? && e.host in Hosts(cfg.members) {
      var at := WithoutKeepsOrder(cfg.members, e.host);
      i' :| 0 <= i' < |at| && at[i'] == i;
      j' :| 0 <= j' < |at| && at[j'] == j;
    }
  }

  /** Members no edit removes keep their ids, their flags and their order, over any sequence of edits. */
  lemma {:induction false} SurvivorsKeepOrder(cfg: Config, es: seq<Edit>, i: nat, j: nat) returns (i': nat, j': nat)
    requires i < j < |cfg.members|
    requires !Removes(es, cfg.members[i].host) && !Removes(es, cfg.members[j].host)
    ensures i' < j' < |Run(cfg, es).members|
    ensures Run(cfg, es).members[i'] == cfg.members[i] && Run(cfg, es).members[j'] == cfg.members[j]
    decreases |es|
  {
    if es == [] {
      i', j' := i, j;
    } else {
      assert es[0].RemoveMember? ==> es[0].host != cfg.members[i].host && es[0].host != cfg.members[j].host;
      i', j' := StepKeepsOrder(cfg, es[0], i, j);
      assert forall k | 0 <= k < |es[1..]| :: es[1..][k] == es[k + 1];
      i', j' := SurvivorsKeepOrder(Apply(cfg, es[0]), es[1..], i', j');
    }
  }

  lemma RemoveLeaves(cfg: Config, k: nat)
    requires Distinct(cfg.members) && k < |cfg.members|
    ensures var rest := Remove(cfg, cfg.members[k].host).members;
            && (forall m :: m in cfg.members <==> m in rest || m == cfg.members[k])
            && Hosts(rest) <= Hosts(cfg.members)
  {
    var m := cfg.members[k];
    assert m in cfg.members && m.host in Hosts(cfg.members);
    WithoutMembers(cfg.members, m.host);
  }

  /**
   An id can come back: adding after a removal reuses the id of the removed member exactly when
   that id lies one above all the remaining ones.
   */
  lemma IdReusedIff(cfg: Config, k: nat, host: string, arbiterOnly: bool)
    requires Distinct(cfg.members) && k < |cfg.members| && host !in Hosts(cfg.members)
    ensures var rest := Remove(cfg, cfg.members[k].host);
            var r := Add(rest, host, arbiterOnly).members;
            && |r| > 0 && r[|r| - 1].host == host
            && ((exists m | m in cfg.members :: m.id == r[|r| - 1].id) <==>
                cfg.members[k].id == MaxId(rest.members) + 1)
  {
    var rest := Remove(cfg, cfg.members[k].host);
    RemoveLeaves(cfg, k);
    MaxIdBounds(rest.members);
    var r := Add(rest, host, arbiterOnly).members;
    assert r == rest.members + [Member(MaxId(rest.members) + 1, host, arbiterOnly)];
    assert r[|r| - 1] == Member(MaxId(rest.members) + 1, host, arbiterOnly);
  }

  // ---------------------------------------------------------------- the loops

  /** The scan of AddMember: the largest id, unless the host turns up. */
  method Scan(ms: seq<Member>, host: string) returns (present: bool, maxId: int)
    ensures present <==> host in Hosts(ms)
    ensures !present ==> maxId == MaxId(ms)
  {
    maxId := -1;
    for i := 0 to |ms|
      invariant maxId == MaxId(ms[..i])
      invariant forall j | 0 <= j < i :: ms[j].host != host
    {
      var m := ms[i];
      if m.host == host {
        assert m in ms;
        return true, maxId;
      }
      assert ms[..i + 1][..i] == ms[..i];
      if m.id > maxId { maxId := m.id; }
    }
    assert ms[..|ms|] == ms;
    return false, maxId;
  }

  lemma WithoutSnoc(ms: seq<Member>, i: nat, host: string)
    requires i < |ms|
    ensures Without(ms[..i + 1], host) ==
            if ms[i].host == host then Without(ms[..i], host) else Without(ms[..i], host) + [ms[i]]
  {
    assert ms[..i + 1][..i] == ms[..i];
  }

  /** Removal shortens the list exactly when the host is there. */
  lemma {:induction false} WithoutShorter(ms: seq<Member>, host: string)
    ensures |Without(ms, host)| <= |ms|
    ensures |Without(ms, host)| < |ms| <==> host in Hosts(ms)
  {
    if ms != [] {
      var front := ms[..|ms| - 1];
      WithoutShorter(front, host);
      assert ms == front + [ms[|ms| - 1]];
      HostsSnoc(front, ms[|ms| - 1]);
    }
  }

  /** The filter of RemoveMember, which writes the survivors over the slice it is reading. */
  method FilterInPlace(a: array<Member>, host: string) returns (kept: nat, removed: bool)
    modifies a
    ensures kept <= a.Length && a[..kept] == Without(old(a[..]), host)
    ensures removed <==> host in Hosts(old(a[..]))
  {
    ghost var was, out: seq<Member> := a[..], [];
    kept, removed := 0, false;
    for i := 0 to a.Length
      invariant kept <= i
      invariant forall j | i <= j < a.Length :: a[j] == was[j]
      invariant |out| == kept && out == Without(was[..i], host)
      invariant forall j | 0 <= j < kept :: a[j] == out[j]
      invariant removed <==> kept < i
    {
      var m := a[i];
      WithoutSnoc(was, i, host);
      if m.host == host {
        removed := true;
      } else {
        a[kept] := m;
        out := out + [m];
        kept := kept + 1;
      }
    }
    assert was[..a.Length] == was && a[..kept] == out;
    WithoutShorter(was, host);
  }

  /** A replica set as seen through replSetGetConfig and replSetReconfig. */
  class Server {
    var config: Config

    constructor (config: Config)
      ensures this.config == config
    {
      this.config := config;
    }

    method AddMember(newHost: string, arbiterOnly: bool, fetched: bool, lands: bool, replies: bool) returns (ok: bool)
      modifies this
      ensures config == Apply(old(config), Edit.AddMember(newHost, arbiterOnly, fetched && lands))
      ensures ok <==> fetched && (newHost in Hosts(old(config).members) || replies)
    {
      if !fetched { return false; }
      var cfg := config;
      var present, maxId := Scan(cfg.members, newHost);
      if present { return true; }
      cfg := Config(cfg.members + [Member(maxId + 1, newHost, arbiterOnly)], cfg.version + 1);
      if lands { config := cfg; }
      return replies;
    }

    method RemoveMember(hostToRemove: string, fetched: bool, lands: bool, replies: bool) returns (ok: bool)
      modifies this
      ensures config == Apply(old(config), Edit.RemoveMember(hostToRemove, fetched && lands))
      ensures ok <==> fetched && (hostToRemove !in Hosts(old(config).members) || replies)
    {
      if !fetched { return false; }
      var cfg := config;
      var members := new Member[|cfg.members|](i requires 0 <= i < |cfg.members| => cfg.members[i]);
      assert members[..] == cfg.members;
      var kept, removed := FilterInPlace(members, hostToRemove);
      if !removed { return true; }
      cfg := Config(members[..kept], cfg.version + 1);
      if lands { config := cfg; }
      return replies;
    }
  }
}
