/** What a configuration asks the agent to listen on: desiredListeners and the effective limits. */
module Desired {
  import opened Common
  import opened Trackers

  datatype Network = Tcp | Udp

  datatype Key = Key(rule: nat, network: Network)

  datatype Bind = Bind(network: Network, host: string, port: int)

  /** Status and protocol are trimmed and lower case; notes stands for the fields only the fingerprint reads. */
  datatype Rule = Rule(id: nat, tenant: Option<nat>, user: nat, tunnel: nat, protocol: string, listenPort: int,
                       remoteHost: string, remotePort: int, status: string, policy: Option<nat>, notes: string)

  datatype Tunnel = Tunnel(policy: Option<nat>, notes: string)

  datatype Group = Group(id: nat, policy: Option<nat>, host: string)

  datatype SpeedLimit = SpeedLimit(rule: Option<nat>, tunnel: Option<nat>, user: Option<nat>, tenant: Option<nat>,
                                   limit: Limit)

  datatype AgentConfig = AgentConfig(revision: int, nonce: string, validUntil: Option<int>, generatedAt: Option<int>, rules: seq<Rule>,
                                     tunnels: map<nat, Tunnel>, policies: map<nat, string>, group: Group,
                                     limits: seq<SpeedLimit>, probes: seq<Probe>)

  /** targetOk: whether the target parses as its kind demands. */
  datatype Probe = Probe(id: nat, enabled: bool, kind: string, target: string, targetOk: bool, interval: int, timeout: int)

  /** Everything a listener works with; the fingerprint is exactly these values, so equal means unchanged. */
  datatype Wanted = Wanted(rule: Rule, tunnel: Tunnel, group: nat, policy: Option<string>, limit: Limit,
                           tenantLimit: Limit, host: string, network: Network)

  function BindOf(w: Wanted): Bind {
    Bind(w.network, w.host, w.rule.listenPort)
  }

  function KeyOf(w: Wanted): Key {
    Key(w.rule.id, w.network)
  }

  predicate Skips(r: Rule) {
    r.status in ["paused", "disabled", "deleted", "quota_exhausted"] || r.listenPort <= 0 || r.remoteHost == "" || r.remotePort <= 0
  }

  predicate UsesNetwork(r: Rule, n: Network) {
    if n == Tcp then r.protocol in ["tcp", "tcp_udp", ""] else r.protocol in ["udp", "tcp_udp"]
  }

  /** Rule r of the configuration gets a listener on network n. */
  predicate Serves(r: Rule, n: Network) {
    !Skips(r) && UsesNetwork(r, n)
  }

  // ---- limits ----

  function Tighter(current: int, candidate: int): int {
    if candidate <= 0 then current else if current <= 0 || candidate < current then candidate else current
  }

  const NO_LIMIT := Limit(0, 0, 0, 0)

  predicate IsEmpty(l: Limit) {
    l.uploadBps <= 0 && l.downloadBps <= 0 && l.maxConns <= 0 && l.maxIps <= 0
  }

  function Tightened(a: Limit, b: Limit): Limit {
    Limit(Tighter(a.uploadBps, b.uploadBps), Tighter(a.downloadBps, b.downloadBps), Tighter(a.maxConns, b.maxConns),
          Tighter(a.maxIps, b.maxIps))
  }

  predicate AtLevel(l: SpeedLimit, r: Rule, level: nat) {
    match level
    case 0 => l.rule == Some(r.id)
    case 1 => l.rule == None && l.tunnel == Some(r.tunnel)
    case 2 => l.rule == None && l.tunnel == None && l.user == Some(r.user)
    case _ => r.tenant.Some? && l.tenant == r.tenant && l.user == None && l.tunnel == None && l.rule == None
  }

  /** The strictest of the first n limits that apply to r at one level. */
  function Strictest(limits: seq<SpeedLimit>, n: nat, r: Rule, level: nat): Limit
    requires n <= |limits|
  {
    if n == 0 then NO_LIMIT
    else
      var before := Strictest(limits, n - 1, r, level);
      if AtLevel(limits[n - 1], r, level) then Tightened(before, limits[n - 1].limit) else before
  }

  predicate HasLevel(limits: seq<SpeedLimit>, r: Rule, level: nat) {
    exists k | 0 <= k < |limits| :: AtLevel(limits[k], r, level)
  }

  function RuleLimit(c: AgentConfig, r: Rule): Limit {
    if HasLevel(c.limits, r, 0) then Strictest(c.limits, |c.limits|, r, 0)
    else if HasLevel(c.limits, r, 1) then Strictest(c.limits, |c.limits|, r, 1)
    else if HasLevel(c.limits, r, 2) then Strictest(c.limits, |c.limits|, r, 2)
    else NO_LIMIT
  }

  function TenantLimit(c: AgentConfig, r: Rule): Limit {
    if r.tenant == None || r.tenant == Some(0) then NO_LIMIT else Strictest(c.limits, |c.limits|, r, 3)
  }

  // ---- desiredListeners ----

  function PolicyOf(c: AgentConfig, r: Rule, t: Tunnel): Option<string> {
    var id := if r.policy.Some? then r.policy else if t.policy.Some? then t.policy else c.group.policy;
    if id.Some? && id.value in c.policies then Some(c.policies[id.value]) else None
  }

  function WantedFor(c: AgentConfig, r: Rule, n: Network): Wanted
    requires r.tunnel in c.tunnels
  {
    var t := c.tunnels[r.tunnel];
    Wanted(r, t, c.group.id, PolicyOf(c, r, t), RuleLimit(c, r), TenantLimit(c, r), c.group.host, n)
  }

  type Listening = map<Key, Wanted>

  /** Rule r's listeners override those of an earlier rule with the same id. */
  function WithRule(c: AgentConfig, r: Rule, d: Listening): Listening
    requires r.tunnel in c.tunnels
  {
    var tcp := if UsesNetwork(r, Tcp) then d[Key(r.id, Tcp) := WantedFor(c, r, Tcp)] else d;
    if UsesNetwork(r, Udp) then tcp[Key(r.id, Udp) := WantedFor(c, r, Udp)] else tcp
  }

  predicate Lives(r: Rule) {
    Serves(r, Tcp) || Serves(r, Udp)
  }

  /** The listeners asked for by the first n rules, or the first live rule without its tunnel. */
  function DesiredFrom(c: AgentConfig, n: nat): Result<Listening, nat>
    requires n <= |c.rules|
  {
    if n == 0 then Ok(map[])
    else
      var before := DesiredFrom(c, n - 1);
      var r := c.rules[n - 1];
      if before.Err? || !Lives(r) then before
      else if r.tunnel !in c.tunnels then Err(r.id)
      else Ok(WithRule(c, r, before.value))
  }

  function DesiredOf(c: AgentConfig): Result<Listening, nat> {
    DesiredFrom(c, |c.rules|)
  }

  /** Rule k is the last of the first n with this key. */
  predicate Decides(c: AgentConfig, n: nat, k: nat, key: Key)
    requires n <= |c.rules|
  {
    && k < n && c.rules[k].id == key.rule && Serves(c.rules[k], key.network)
    && forall j | k < j < n :: !(c.rules[j].id == key.rule && Serves(c.rules[j], key.network))
  }

  /** It fails exactly when a live rule's tunnel is missing. */
  lemma {:induction false} DesiredFails(c: AgentConfig, n: nat)
    requires n <= |c.rules|
    ensures DesiredFrom(c, n).Err? <==> exists k | 0 <= k < n :: Lives(c.rules[k]) && c.rules[k].tunnel !in c.tunnels
  {
    if n > 0 {
      DesiredFails(c, n - 1);
    }
  }

  /** A key is asked for exactly when some live rule has it, with the settings of the last such rule. */
  lemma {:induction false} DesiredMeans(c: AgentConfig, n: nat, key: Key)
    requires n <= |c.rules| && DesiredFrom(c, n).Ok?
    ensures key in DesiredFrom(c, n).value <==> exists k: nat :: Decides(c, n, k, key)
    ensures forall k: nat :: Decides(c, n, k, key) ==>
              c.rules[k].tunnel in c.tunnels && DesiredFrom(c, n).value[key] == WantedFor(c, c.rules[k], key.network)
  {
    if n > 0 {
      DesiredMeans(c, n - 1, key);
      var r := c.rules[n - 1];
      if r.id == key.rule && Serves(r, key.network) {
        assert Decides(c, n, n - 1, key);
      } else {
        forall k: nat ensures Decides(c, n, k, key) <==> Decides(c, n - 1, k, key) {
        }
        if key in DesiredFrom(c, n).value {
          var k: nat :| Decides(c, n - 1, k, key);
          assert Decides(c, n, k, key);
        }
      }
    }
  }

  ghost predicate WellKeyed(d: Listening) {
    forall k | k in d :: KeyOf(d[k]) == k
  }

  lemma {:induction false} DesiredKeyed(c: AgentConfig, n: nat)
    requires n <= |c.rules| && DesiredFrom(c, n).Ok?
    ensures WellKeyed(DesiredFrom(c, n).value)
  {
    if n > 0 {
      DesiredKeyed(c, n - 1);
    }
  }

  method StrictestLimit(limits: seq<SpeedLimit>, r: Rule, level: nat) returns (found: bool, out: Limit)
    ensures found <==> HasLevel(limits, r, level)
    ensures out == Strictest(limits, |limits|, r, level)
  {
    found, out := false, NO_LIMIT;
    for k := 0 to |limits|
      invariant found <==> exists j | 0 <= j < k :: AtLevel(limits[j], r, level)
      invariant out == Strictest(limits, k, r, level)
    {
      if AtLevel(limits[k], r, level) {
        found := true;
        out := Tightened(out, limits[k].limit);
      }
    }
  }

  /** A strictest limit is positive where any limit of the level is, and then the least of those. */
  lemma {:induction false} StrictestIsLeast(limits: seq<SpeedLimit>, n: nat, r: Rule, level: nat, k: nat)
    requires k < n <= |limits| && AtLevel(limits[k], r, level) && limits[k].limit.maxConns > 0
    ensures 0 < Strictest(limits, n, r, level).maxConns <= limits[k].limit.maxConns
  {
    if k < n - 1 {
      StrictestIsLeast(limits, n - 1, r, level, k);
    }
  }

  method DesiredListeners(c: AgentConfig) returns (r: Result<Listening, nat>)
    ensures r == DesiredOf(c)
    ensures r.Ok? ==> WellKeyed(r.value)
    ensures r.Err? <==> exists k | 0 <= k < |c.rules| :: Lives(c.rules[k]) && c.rules[k].tunnel !in c.tunnels
  {
    DesiredFails(c, |c.rules|);
    var desired: Listening := map[];
    for n := 0 to |c.rules|
      invariant DesiredFrom(c, n) == Ok(desired)
    {
      var rule := c.rules[n];
      if Skips(rule) || (!UsesNetwork(rule, Tcp) && !UsesNetwork(rule, Udp)) {
        continue;
      }
      if rule.tunnel !in c.tunnels {
        assert Lives(rule);
        FailsFrom(c, n + 1, |c.rules|);
        return Err(rule.id);
      }
      if UsesNetwork(rule, Tcp) {
        desired := desired[Key(rule.id, Tcp) := WantedFor(c, rule, Tcp)];
      }
      if UsesNetwork(rule, Udp) {
        desired := desired[Key(rule.id, Udp) := WantedFor(c, rule, Udp)];
      }
    }
    DesiredKeyed(c, |c.rules|);
    return Ok(desired);
  }

  lemma {:induction false} FailsFrom(c: AgentConfig, n: nat, m: nat)
    requires n <= m <= |c.rules| && DesiredFrom(c, n).Err?
    ensures DesiredFrom(c, m) == DesiredFrom(c, n)
    decreases m - n
  {
    if n < m {
      FailsFrom(c, n, m - 1);
    }
  }
}
