/** The trackers an apply installs carry exactly the limits the configuration asks for. */
module LimitFacts {
  import opened Common
  import opened Desired
  import opened Trackers
  import opened Runtime
  import opened ApplyFacts
  import opened Apply

  /** One limit per owner explains all wanted limits. */
  ghost predicate Explains(want: Listening, rules: map<nat, Limit>, tenants: map<nat, Limit>) {
    && (forall k | k in want :: want[k].rule.id in rules && rules[want[k].rule.id] == want[k].limit)
    && forall k | k in want && Limited(want[k]) ::
         want[k].rule.tenant.value in tenants && tenants[want[k].rule.tenant.value] == want[k].tenantLimit
  }

  ghost predicate Carries(table: TrackerTable, limits: map<nat, Limit>) {
    forall o | o in table :: o in limits && table[o].limit == limits[o]
  }

  lemma {:induction false} PickedLimits(a: State, byBind: Index, grants: set<Bind>, want: Listening, order: seq<Key>,
                      rules: map<nat, Limit>, tenants: map<nat, Limit>)
    requires (forall k | k in order :: k in want) && Explains(want, rules, tenants)
    ensures var pi := StageKeys(a, byBind, grants, want, order).pi;
      Carries(pi.trackers, rules) && Carries(pi.tenants, tenants)
  {
    if order != [] {
      var n := |order| - 1;
      PickedLimits(a, byBind, grants, want, order[..n], rules, tenants);
      RoundLimits(a, byBind, grants, StageKeys(a, byBind, grants, want, order[..n]), want, order[n], rules, tenants);
    }
  }

  lemma RoundLimits(a: State, byBind: Index, grants: set<Bind>, st: Staging, want: Listening, k: Key,
                    rules: map<nat, Limit>, tenants: map<nat, Limit>)
    requires k in want && Explains(want, rules, tenants) && Carries(st.pi.trackers, rules) && Carries(st.pi.tenants, tenants)
    ensures var pi := Round(a, byBind, grants, st, k, want[k]).pi;
      Carries(pi.trackers, rules) && Carries(pi.tenants, tenants)
  {
  }

  predicate SameOwner(c: AgentConfig, i: int, j: int)
    requires 0 <= i < |c.rules| && 0 <= j < |c.rules|
  {
    c.rules[i].id == c.rules[j].id
  }

  /** The server's rule ids are primary keys. */
  predicate UniqueIds(c: AgentConfig) {
    forall i, j | 0 <= i < j < |c.rules| :: !SameOwner(c, i, j)
  }

  lemma {:induction false} SameTenantLimit(limits: seq<SpeedLimit>, n: nat, r: Rule, s: Rule)
    requires n <= |limits| && r.tenant == s.tenant
    ensures Strictest(limits, n, r, 3) == Strictest(limits, n, s, 3)
  {
    if n > 0 {
      SameTenantLimit(limits, n - 1, r, s);
    }
  }

  function RuleLimits(c: AgentConfig, n: nat): map<nat, Limit>
    requires n <= |c.rules|
  {
    if n == 0 then map[] else RuleLimits(c, n - 1)[c.rules[n - 1].id := RuleLimit(c, c.rules[n - 1])]
  }

  function TenantLimits(c: AgentConfig, n: nat): map<nat, Limit>
    requires n <= |c.rules|
  {
    if n == 0 then map[]
    else if c.rules[n - 1].tenant.Some? then TenantLimits(c, n - 1)[c.rules[n - 1].tenant.value := TenantLimit(c, c.rules[n - 1])]
    else TenantLimits(c, n - 1)
  }

  predicate AmongFirst(c: AgentConfig, n: nat, id: nat)
    requires n <= |c.rules|
  {
    exists i :: 0 <= i < n && c.rules[i].id == id
  }

  lemma {:induction false} RulesExplained(c: AgentConfig, n: nat, k: Key)
    requires n <= |c.rules| && UniqueIds(c) && DesiredFrom(c, n).Ok? && k in DesiredFrom(c, n).value
    ensures var w := DesiredFrom(c, n).value[k];
      && AmongFirst(c, n, w.rule.id) && w.rule.id in RuleLimits(c, n) && RuleLimits(c, n)[w.rule.id] == w.limit
  {
    var r := c.rules[n - 1];
    var w := DesiredFrom(c, n).value[k];
    if k in DesiredFrom(c, n - 1).value && DesiredFrom(c, n - 1).value[k] == w {
      RulesExplained(c, n - 1, k);
      var i :| 0 <= i < n - 1 && c.rules[i].id == w.rule.id;
      assert !SameOwner(c, i, n - 1);
    } else {
      assert w.rule == r;
    }
  }

  lemma {:induction false} TenantExplained(c: AgentConfig, n: nat, r: Rule)
    requires n <= |c.rules| && r.tenant.Some? && r in c.rules[..n]
    ensures r.tenant.value in TenantLimits(c, n) && TenantLimits(c, n)[r.tenant.value] == TenantLimit(c, r)
  {
    var last := c.rules[n - 1];
    if last.tenant == r.tenant {
      SameTenantLimit(c.limits, |c.limits|, last, r);
    } else {
      assert c.rules[..n] == c.rules[..n - 1] + [last];
      TenantExplained(c, n - 1, r);
    }
  }

  lemma {:induction false} WantedRule(c: AgentConfig, n: nat, k: Key)
    requires n <= |c.rules| && DesiredFrom(c, n).Ok? && k in DesiredFrom(c, n).value
    ensures DesiredFrom(c, n).value[k].rule in c.rules[..n]
    ensures DesiredFrom(c, n).value[k].tenantLimit == TenantLimit(c, DesiredFrom(c, n).value[k].rule)
  {
    assert c.rules[..n] == c.rules[..n - 1] + [c.rules[n - 1]];
    if k in DesiredFrom(c, n - 1).value {
      WantedRule(c, n - 1, k);
    }
  }

  /** All rules of a tenant get the same tenant limit. */
  lemma TenantAlike(c: AgentConfig, j: Key, k: Key)
    requires DesiredOf(c).Ok? && j in DesiredOf(c).value && k in DesiredOf(c).value
    requires DesiredOf(c).value[j].rule.tenant == DesiredOf(c).value[k].rule.tenant
    ensures DesiredOf(c).value[j].tenantLimit == DesiredOf(c).value[k].tenantLimit
  {
    WantedRule(c, |c.rules|, j);
    WantedRule(c, |c.rules|, k);
    SameTenantLimit(c.limits, |c.limits|, DesiredOf(c).value[j].rule, DesiredOf(c).value[k].rule);
  }

  lemma LimitsExplained(c: AgentConfig)
    requires DesiredOf(c).Ok? && UniqueIds(c)
    ensures Explains(DesiredOf(c).value, RuleLimits(c, |c.rules|), TenantLimits(c, |c.rules|))
  {
    var n := |c.rules|;
    assert c.rules[..n] == c.rules;
    var want := DesiredOf(c).value;
    forall k | k in want
      ensures want[k].rule.id in RuleLimits(c, n) && RuleLimits(c, n)[want[k].rule.id] == want[k].limit
      ensures Limited(want[k]) ==> want[k].rule.tenant.value in TenantLimits(c, n)
      ensures Limited(want[k]) ==> TenantLimits(c, n)[want[k].rule.tenant.value] == want[k].tenantLimit
    {
      RulesExplained(c, n, k);
      WantedRule(c, n, k);
      if Limited(want[k]) {
        TenantExplained(c, n, want[k].rule);
      }
    }
  }

  /** Each listener's trackers enforce the limits of its settings. */
  ghost predicate LimitsMatch(a: State) {
    forall k | k in a.listeners ::
      var w := a.listeners[k].cfg.want;
      && HasTrackers(w, a.trackers, a.tenantTrackers) && a.trackers[w.rule.id].limit == w.limit
      && (Limited(w) ==> a.tenantTrackers[w.rule.tenant.value].limit == w.tenantLimit)
  }

  /** Trackers installed by a successful apply enforce exactly the configured limits. */
  lemma AppliedLimits(a: State, byBind: Index, c: AgentConfig, grants: set<Bind>, order: seq<Key>, b: State)
    requires StateOk(a) && IsIndex(a.listeners, byBind) && DesiredOf(c).Ok? && IsOrder(order, DesiredOf(c).value)
    requires UniqueIds(c) && ApplyIn(a, byBind, c, grants, order) == (b, None)
    ensures LimitsMatch(b)
  {
    ApplySucceeds(a, byBind, c, grants, order, b);
    LimitsExplained(c);
    PickedLimits(a, byBind, grants, DesiredOf(c).value, order, RuleLimits(c, |c.rules|), TenantLimits(c, |c.rules|));
    InstalledLimits(a, b, DesiredOf(c).value, RuleLimits(c, |c.rules|), TenantLimits(c, |c.rules|));
  }

  lemma InstalledLimits(a: State, b: State, want: Listening, rules: map<nat, Limit>, tenants: map<nat, Limit>)
    requires AppliedTo(a, b, want) && Explains(want, rules, tenants)
    requires Carries(b.trackers, rules) && Carries(b.tenantTrackers, tenants)
    ensures LimitsMatch(b)
  {
    forall k | k in b.listeners ensures b.listeners[k].cfg.want == want[k] && HasTrackers(want[k], b.trackers, b.tenantTrackers) {
      assert ServedAs(a, b, want[k], b.listeners[k]);
    }
  }
}
