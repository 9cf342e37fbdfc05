/** Theorems over whole runs of panel requests. */
module PanelFacts {
  import opened Store
  import opened Quota
  import opened Ports
  import opened RulesFacts
  import opened Panel

  lemma RuleRequestKeeps(s: State, q: Request)
    requires PanelExact(s) && (q.Create? || q.Update? || q.Delete? || q.Batch?)
    ensures PanelExact(Handle(s, q))
  {
    match q
    case Create(id, d, at) => CreateKeeps(s, id, d, at);
    case Update(id, d, at) => if id in s.rules { UpdateKeeps(s, id, d, at); }
    case Delete(id) => DeleteKeeps(s, id);
    case Batch(drafts, ids, at, preview) => if |ids| == |drafts| { BatchRequestKeeps(s, drafts, ids, at, preview); }
  }

  lemma AccountRequestKeeps(s: State, q: Request)
    requires PanelExact(s) && !(q.Create? || q.Update? || q.Delete? || q.Batch?)
    ensures PanelExact(Handle(s, q))
  {
    match q
    case ReportTraffic(node, reportId, samples, at) => AgentTrafficKeeps(s, node, reportId, samples, at);
    case ResetUser(user) => UserResetKeeps(s, user);
    case UpdateUser(user, e) => UserEditsKeep(s, user, e);
    case ResetTenant(tenant, at) => if tenant in s.tenants { TenantResetKeeps(s, tenant, at); }
    case UpdateTenant(tenant, e, at) => TenantEditsKeep(s, tenant, e, at);
    case ReadTenant(tenant, at) => if tenant in s.tenants { TenantRollKeeps(s, tenant, at); }
    case RollDueTenants(at) => RollAllKeeps(s, at);
  }

  /** Every single request keeps quotas and ports exact. */
  lemma HandleKeeps(s: State, q: Request)
    requires PanelExact(s)
    ensures PanelExact(Handle(s, q))
  {
    if q.Create? || q.Update? || q.Delete? || q.Batch? {
      RuleRequestKeeps(s, q);
    } else {
      AccountRequestKeeps(s, q);
    }
  }

  lemma {:induction false} InvariantOverRuns(handle: (State, Request) -> State, inv: State -> bool, s: State, qs: seq<Request>)
    requires inv(s) && forall x, q | inv(x) :: inv(handle(x, q))
    ensures inv(HandleWith(handle, s, qs))
  {
    if qs != [] {
      InvariantOverRuns(handle, inv, s, qs[..|qs| - 1]);
    }
  }

  /** Runs start from a panel without rules, whatever its users, tenants, tunnels, groups and grants are. */
  lemma NewPanelExact(s: State)
    requires s.rules == map[] && s.leases == {} && 0 !in s.users && 0 !in s.tenants
    requires forall u | u in s.users :: s.users[u].tenant == 0 || s.users[u].tenant in s.tenants
    requires forall t | t in s.net.tunnelGroup :: s.net.tunnelGroup[t] in s.net.groups
    requires UsersBounded(s) && TenantsExact(s)
    ensures PanelExact(s)
  {
  }

  /** From an exact state every run of requests, in any order and whatever their input, stays exact. */
  lemma RunKeepsExact(s: State, qs: seq<Request>)
    requires PanelExact(s)
    ensures PanelExact(Run(s, qs))
  {
    forall x, q | PanelExact(x) ensures PanelExact(Handle(x, q)) {
      HandleKeeps(x, q);
    }
    InvariantOverRuns(Handle, PanelExact, s, qs);
  }

  /** In every reachable state a rule that is not shelved is off exactly when one of its two quotas is used up. */
  lemma QuotaFollowsBothLayers(s: State, qs: seq<Request>, id: Id)
    requires PanelExact(s) && id in Run(s, qs).rules
    ensures var t := Run(s, qs); var r := t.rules[id];
      && r.user in t.users && r.tenant == t.users[r.user].tenant && (r.tenant == 0 || r.tenant in t.tenants)
      && var u := t.users[r.user];
         var overTenant := r.tenant != 0 && UsedUp(t.tenants[r.tenant].trafficLimit, t.tenants[r.tenant].used);
      && (r.status != Paused && r.status != Disabled && r.status != Deleted ==>
            (r.status == QuotaExhausted <==> UsedUp(u.flowLimit, u.used) || overTenant))
      && (r.source == UserSource ==> UsedUp(u.flowLimit, u.used)) && (r.source == TenantSource ==> overTenant)
      && (r.source == NoSource <==> r.status != QuotaExhausted)
  {
    RunKeepsExact(s, qs);
    ExactMeans(Run(s, qs), id);
  }

  /** In every reachable state no two rules of an entry group listen on one port and transport. */
  lemma NoSharedListener(s: State, qs: seq<Request>, a: Id, b: Id, transport: Transport)
    requires PanelExact(s) && a in Run(s, qs).rules && b in Run(s, qs).rules && a != b
    requires var t := Run(s, qs); var x, y := t.rules[a], t.rules[b];
             && x.status != Disabled && x.status != Deleted && y.status != Disabled && y.status != Deleted
             && x.tunnel in t.net.tunnelGroup && y.tunnel in t.net.tunnelGroup
             && t.net.tunnelGroup[x.tunnel] == t.net.tunnelGroup[y.tunnel]
             && ListensOn(x.protocol, transport) && ListensOn(y.protocol, transport)
    ensures Run(s, qs).rules[a].port != Run(s, qs).rules[b].port
  {
    RunKeepsExact(s, qs);
    assert Apart(Run(s, qs), a, b);
    assert transport in TransportList(Run(s, qs).rules[a].protocol);
    assert transport in TransportList(Run(s, qs).rules[b].protocol);
  }

  /**
   * In every reachable state the lease table holds exactly one lease for each transport of each rule that is neither
   * disabled nor deleted, in the rule's group and at its port, and no two leases meet the same unique index.
   */
  lemma LeasesMirrorRules(s: State, qs: seq<Request>, l: Lease)
    requires PanelExact(s)
    ensures var t := Run(s, qs);
            l in t.leases <==>
              l.rule in t.rules
              && var r := t.rules[l.rule];
                 && r.status != Disabled && r.status != Deleted && ListensOn(r.protocol, l.transport)
                 && r.tunnel in t.net.tunnelGroup && l.group == t.net.tunnelGroup[r.tunnel] && l.port == r.port
                 && l.group in t.net.groups && l.bindIp == t.net.groups[l.group].bindIp
    ensures l in Run(s, qs).leases ==>
              forall o | o in Run(s, qs).leases && o != l && o.transport == l.transport ::
                o.rule != l.rule && (o.group != l.group || o.port != l.port)
  {
    RunKeepsExact(s, qs);
    var t := Run(s, qs);
    assert l in t.leases <==> Claims(t, l);
    if l in t.leases {
      forall o | o in t.leases && o != l && o.transport == l.transport
        ensures o.rule != l.rule && (o.group != l.group || o.port != l.port)
      {
        assert Claims(t, o) && Claims(t, l);
        if o.rule != l.rule {
          assert Apart(t, o.rule, l.rule);
        }
      }
    }
  }

  // ---- protocol violations ----

  /** agentViolation with action block: the status is written over whatever it was. */
  function BlockForViolation(s: State, id: Id): State {
    if id in s.rules then s.(rules := s.rules[id := s.rules[id].(status := Other("protocol_violation"))]) else s
  }

  lemma HarmlessViolation(s: State, id: Id)
    requires PanelExact(s) && id in s.rules && NeedsLease(s.rules[id].status)
    requires !Spent(s, s.rules[id].user) && !Blocked(s, s.rules[id].tenant)
    ensures PanelExact(BlockForViolation(s, id))
  {
    var s' := BlockForViolation(s, id);
    assert RuleExact(s, s.rules[id], {});
    forall x | x in s'.rules ensures RuleExact(s', s'.rules[x], {}) {
      assert RuleExact(s, s.rules[x], {});
    }
    PlacedKeeps(s, s');
  }

  lemma ClaimsWithoutLease(s: State, id: Id)
    requires PanelExact(s) && id in s.rules && !NeedsLease(s.rules[id].status)
    ensures !PortsExact(BlockForViolation(s, id))
  {
    var r, s' := s.rules[id], BlockForViolation(s, id);
    assert RuleExact(s, r, {});
    var group := GroupOf(s, r).value;
    var l := Lease(group, s.net.groups[group].bindIp, TransportList(r.protocol)[0], r.port, id);
    assert l in s.leases <==> Claims(s, l);
    assert !Claims(s, l) && l !in s'.leases;
    assert Claims(s', l);
  }

  /**
   * Blocking a rule for a violation is not part of the machine above because it can break it. It keeps
   * the invariant if and only if the rule still holds its port and neither of its quotas is used up.
   */
  lemma ViolationKeepsIff(s: State, id: Id)
    requires PanelExact(s) && id in s.rules
    ensures PanelExact(BlockForViolation(s, id)) <==>
              NeedsLease(s.rules[id].status) && !Spent(s, s.rules[id].user) && !Blocked(s, s.rules[id].tenant)
  {
    var r := s.rules[id];
    if !NeedsLease(r.status) {
      ClaimsWithoutLease(s, id);
    } else if Spent(s, r.user) || Blocked(s, r.tenant) {
      assert RuleExact(s, r, {});
      var s' := BlockForViolation(s, id);
      assert !RuleExact(s', s'.rules[id], {});
    } else {
      HarmlessViolation(s, id);
    }
  }
}
