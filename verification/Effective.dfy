/**
 * What a configuration means for each listener, in plain terms: which rules listen, with which settings, and under
 * which limits. Every level of limits decides alone, rule before tunnel before user, and the strictest of a level wins.
 */
module Effective {
  import opened Common
  import opened Desired
  import opened Trackers
  import opened Runtime
  import opened ApplyFacts
  import opened Apply
  import opened LimitFacts

  // ---- limits ----

  /** The four things a limit bounds. */
  datatype Part = Upload | Download | Conns | Ips

  function PartOf(l: Limit, p: Part): int {
    match p
    case Upload => l.uploadBps
    case Download => l.downloadBps
    case Conns => l.maxConns
    case Ips => l.maxIps
  }

  /** v is the least positive value of part p among the limits at these places, and 0 if none of them is positive. */
  ghost predicate LeastOf(limits: seq<SpeedLimit>, at: set<nat>, p: Part, v: int)
    requires forall k | k in at :: k < |limits|
  {
    && (v == 0 || (v > 0 && exists k | k in at :: PartOf(limits[k].limit, p) == v))
    && forall k | k in at :: PartOf(limits[k].limit, p) > 0 ==> 0 < v <= PartOf(limits[k].limit, p)
  }

  function NamingRule(limits: seq<SpeedLimit>, r: Rule): set<nat> {
    set k | 0 <= k < |limits| && limits[k].rule == Some(r.id)
  }

  function NamingTunnel(limits: seq<SpeedLimit>, r: Rule): set<nat> {
    set k | 0 <= k < |limits| && limits[k].rule == None && limits[k].tunnel == Some(r.tunnel)
  }

  function NamingUser(limits: seq<SpeedLimit>, r: Rule): set<nat> {
    set k | 0 <= k < |limits| && limits[k].rule == None && limits[k].tunnel == None && limits[k].user == Some(r.user)
  }

  /** Limits for a tenant name nothing else, and a rule of no tenant has none. */
  function NamingTenant(limits: seq<SpeedLimit>, r: Rule): set<nat> {
    set k | 0 <= k < |limits| && limits[k].rule == None && limits[k].tunnel == None && limits[k].user == None
            && r.tenant.Some? && r.tenant.value > 0 && limits[k].tenant == r.tenant
  }

  /** The limits of the first level that has any. */
  function Deciding(limits: seq<SpeedLimit>, r: Rule): set<nat> {
    if NamingRule(limits, r) != {} then NamingRule(limits, r)
    else if NamingTunnel(limits, r) != {} then NamingTunnel(limits, r)
    else NamingUser(limits, r)
  }

  ghost predicate LimitedBy(limits: seq<SpeedLimit>, at: set<nat>, l: Limit)
    requires forall k | k in at :: k < |limits|
  {
    forall p :: LeastOf(limits, at, p, PartOf(l, p))
  }

  function AtLevelUpTo(limits: seq<SpeedLimit>, n: nat, r: Rule, level: nat): set<nat>
    requires n <= |limits|
  {
    set k | 0 <= k < n && AtLevel(limits[k], r, level)
  }

  lemma {:induction false} StrictestMeans(limits: seq<SpeedLimit>, n: nat, r: Rule, level: nat)
    requires n <= |limits|
    ensures LimitedBy(limits, AtLevelUpTo(limits, n, r, level), Strictest(limits, n, r, level))
  {
    if n > 0 {
      StrictestMeans(limits, n - 1, r, level);
      var was, at := AtLevelUpTo(limits, n - 1, r, level), AtLevelUpTo(limits, n, r, level);
      var before, now := Strictest(limits, n - 1, r, level), Strictest(limits, n, r, level);
      if AtLevel(limits[n - 1], r, level) {
        assert at == was + {n - 1};
        forall p ensures LeastOf(limits, at, p, PartOf(now, p)) {
          assert LeastOf(limits, was, p, PartOf(before, p));
          assert PartOf(now, p) == Tighter(PartOf(before, p), PartOf(limits[n - 1].limit, p));
        }
      } else {
        assert at == was;
      }
    }
  }

  lemma LevelsMean(limits: seq<SpeedLimit>, r: Rule)
    ensures AtLevelUpTo(limits, |limits|, r, 0) == NamingRule(limits, r)
    ensures AtLevelUpTo(limits, |limits|, r, 1) == NamingTunnel(limits, r)
    ensures AtLevelUpTo(limits, |limits|, r, 2) == NamingUser(limits, r)
    ensures r.tenant.Some? && r.tenant.value > 0 ==> AtLevelUpTo(limits, |limits|, r, 3) == NamingTenant(limits, r)
  {
  }

  lemma RuleLimitMeans(c: AgentConfig, r: Rule)
    ensures LimitedBy(c.limits, Deciding(c.limits, r), RuleLimit(c, r))
  {
    LevelsMean(c.limits, r);
    forall level: nat | level < 3 ensures HasLevel(c.limits, r, level) <==> AtLevelUpTo(c.limits, |c.limits|, r, level) != {} {
      if HasLevel(c.limits, r, level) {
        var k :| 0 <= k < |c.limits| && AtLevel(c.limits[k], r, level);
        assert k in AtLevelUpTo(c.limits, |c.limits|, r, level);
      }
    }
    forall level: nat | level < 3
      ensures LimitedBy(c.limits, AtLevelUpTo(c.limits, |c.limits|, r, level), Strictest(c.limits, |c.limits|, r, level))
    {
      StrictestMeans(c.limits, |c.limits|, r, level);
    }
  }

  lemma TenantLimitMeans(c: AgentConfig, r: Rule)
    ensures LimitedBy(c.limits, NamingTenant(c.limits, r), TenantLimit(c, r))
  {
    LevelsMean(c.limits, r);
    StrictestMeans(c.limits, |c.limits|, r, 3);
  }

  // ---- settings ----

  /** A rule that listens on this network: running, complete, and of a protocol that includes it. */
  predicate Listens(r: Rule, n: Network) {
    && r.status != "paused" && r.status != "disabled" && r.status != "deleted" && r.status != "quota_exhausted"
    && r.listenPort > 0 && r.remoteHost != "" && r.remotePort > 0
    && (r.protocol == "tcp_udp" || (n == Tcp && (r.protocol == "tcp" || r.protocol == "")) || (n == Udp && r.protocol == "udp"))
  }

  /** Rule i is the last of the configuration that listens under this key. */
  predicate LastUnder(c: AgentConfig, i: nat, key: Key) {
    && i < |c.rules| && c.rules[i].id == key.rule && Listens(c.rules[i], key.network)
    && forall j | i < j < |c.rules| :: c.rules[j].id != key.rule || !Listens(c.rules[j], key.network)
  }

  /** The policy of the rule, or else of its tunnel, or else of the group: the first that is set, if it is known. */
  ghost predicate PolicyFrom(c: AgentConfig, r: Rule, t: Tunnel, policy: Option<string>) {
    && (r.policy.Some? ==> policy == if r.policy.value in c.policies then Some(c.policies[r.policy.value]) else None)
    && (r.policy == None && t.policy.Some? ==> policy == if t.policy.value in c.policies then Some(c.policies[t.policy.value]) else None)
    && (r.policy == None && t.policy == None ==>
          policy == if c.group.policy.Some? && c.group.policy.value in c.policies then Some(c.policies[c.group.policy.value]) else None)
  }

  /** Everything a listener is told, for rule i of the configuration on this network. */
  ghost predicate AsConfigured(c: AgentConfig, i: nat, n: Network, w: Wanted)
    requires i < |c.rules|
  {
    var r := c.rules[i];
    && w.rule == r && w.network == n && w.group == c.group.id && w.host == c.group.host
    && r.tunnel in c.tunnels && w.tunnel == c.tunnels[r.tunnel] && PolicyFrom(c, r, w.tunnel, w.policy)
    && LimitedBy(c.limits, Deciding(c.limits, r), w.limit) && LimitedBy(c.limits, NamingTenant(c.limits, r), w.tenantLimit)
    && BindOf(w) == Bind(n, c.group.host, r.listenPort)
  }

  lemma ListensIsServes(r: Rule, n: Network)
    ensures Serves(r, n) <==> Listens(r, n)
  {
  }

  /** Exactly the rules that listen are wanted, each under its own settings and limits. */
  lemma WantedMeans(c: AgentConfig, key: Key)
    requires DesiredOf(c).Ok?
    ensures key in DesiredOf(c).value <==> exists i: nat :: LastUnder(c, i, key)
    ensures forall i: nat :: LastUnder(c, i, key) ==> AsConfigured(c, i, key.network, DesiredOf(c).value[key])
  {
    var n := |c.rules|;
    DesiredMeans(c, n, key);
    forall i: nat ensures LastUnder(c, i, key) <==> Decides(c, n, i, key) {
      forall j | 0 <= j < |c.rules| ensures Serves(c.rules[j], key.network) <==> Listens(c.rules[j], key.network) {
        ListensIsServes(c.rules[j], key.network);
      }
    }
    forall i: nat | LastUnder(c, i, key) ensures AsConfigured(c, i, key.network, DesiredOf(c).value[key]) {
      RuleLimitMeans(c, c.rules[i]);
      TenantLimitMeans(c, c.rules[i]);
    }
  }

  /** A configuration cannot be served when a listening rule has no tunnel, and the first such rule is named. */
  lemma {:induction false} MissingTunnelIff(c: AgentConfig, n: nat)
    requires n <= |c.rules|
    ensures DesiredFrom(c, n).Err? <==>
              exists i: nat | i < n :: (Listens(c.rules[i], Tcp) || Listens(c.rules[i], Udp)) && c.rules[i].tunnel !in c.tunnels
    ensures forall i: nat | i < n && (Listens(c.rules[i], Tcp) || Listens(c.rules[i], Udp)) && c.rules[i].tunnel !in c.tunnels
                            && (forall j: nat | j < i :: c.rules[j].tunnel in c.tunnels || !(Listens(c.rules[j], Tcp) || Listens(c.rules[j], Udp))) ::
              DesiredFrom(c, n) == Err(c.rules[i].id)
  {
    if n > 0 {
      MissingTunnelIff(c, n - 1);
      ListensIsServes(c.rules[n - 1], Tcp);
      ListensIsServes(c.rules[n - 1], Udp);
    }
  }

  // ---- what runs after an apply ----

  /** Some part of a limit is set. */
  predicate Limits(l: Limit) {
    exists p :: PartOf(l, p) > 0
  }

  /** A running listener: settings, tracker and tenant tracker as the configuration says. */
  ghost predicate RunsAs(b: State, c: AgentConfig, i: nat, key: Key)
    requires i < |c.rules|
  {
    && key in b.listeners
    && var l, r := b.listeners[key], c.rules[i];
       && l.stage == Active && AsConfigured(c, i, key.network, l.cfg.want) && Bind(key.network, c.group.host, r.listenPort) in b.held
       && r.id in b.trackers && l.cfg.tracker == b.trackers[r.id].id
       && LimitedBy(c.limits, Deciding(c.limits, r), b.trackers[r.id].limit)
       && (l.cfg.tenantTracker.Some? <==> r.tenant.Some? && Limits(l.cfg.want.tenantLimit))
       && (l.cfg.tenantTracker.Some? ==>
             && r.tenant.value in b.tenantTrackers && l.cfg.tenantTracker.value == b.tenantTrackers[r.tenant.value].id
             && LimitedBy(c.limits, NamingTenant(c.limits, r), b.tenantTrackers[r.tenant.value].limit))
  }

  lemma LimitsIffNotEmpty(l: Limit)
    ensures Limits(l) <==> !IsEmpty(l)
  {
    if !IsEmpty(l) {
      assert PartOf(l, Upload) > 0 || PartOf(l, Download) > 0 || PartOf(l, Conns) > 0 || PartOf(l, Ips) > 0;
    }
  }

  lemma NoTenantNoLimit(c: AgentConfig, r: Rule)
    requires r.tenant == None || r.tenant == Some(0)
    ensures !Limits(TenantLimit(c, r))
  {
  }

  /** After a successful apply the agent listens for exactly the configured rules, each under its configured limits. */
  lemma AppliedMeans(a: State, byBind: Index, c: AgentConfig, grants: set<Bind>, order: seq<Key>, b: State, key: Key)
    requires StateOk(a) && IsIndex(a.listeners, byBind) && DesiredOf(c).Ok? && IsOrder(order, DesiredOf(c).value)
    requires UniqueIds(c) && ApplyIn(a, byBind, c, grants, order) == (b, None)
    ensures key in b.listeners <==> exists i: nat :: LastUnder(c, i, key)
    ensures forall i: nat :: LastUnder(c, i, key) ==> RunsAs(b, c, i, key)
  {
    ApplySucceeds(a, byBind, c, grants, order, b);
    AppliedLimits(a, byBind, c, grants, order, b);
    WantedMeans(c, key);
    forall i: nat | LastUnder(c, i, key) ensures RunsAs(b, c, i, key) {
      AppliedRuns(a, c, b, i, key);
    }
  }

  lemma AppliedRuns(a: State, c: AgentConfig, b: State, i: nat, key: Key)
    requires DesiredOf(c).Ok? && AppliedTo(a, b, DesiredOf(c).value) && LimitsMatch(b) && LastUnder(c, i, key)
    ensures RunsAs(b, c, i, key)
  {
    WantedMeans(c, key);
    var want := DesiredOf(c).value;
    var w := want[key];
    assert ServedAs(a, b, w, b.listeners[key]);
    assert Wants(want, BindOf(w));
    LimitsIffNotEmpty(w.tenantLimit);
    assert w == WantedFor(c, c.rules[i], key.network) by { DesiredMeans(c, |c.rules|, key); DecidesLast(c, i, key); }
    if w.rule.tenant == Some(0) {
      NoTenantNoLimit(c, w.rule);
    }
  }

  lemma DecidesLast(c: AgentConfig, i: nat, key: Key)
    requires LastUnder(c, i, key)
    ensures Decides(c, |c.rules|, i, key)
  {
    forall j | 0 <= j < |c.rules| ensures Serves(c.rules[j], key.network) <==> Listens(c.rules[j], key.network) {
      ListensIsServes(c.rules[j], key.network);
    }
  }
}
