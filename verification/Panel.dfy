/**
 * The panel as a state machine: every request that touches quotas, rules or ports, each one atomic
 * database transaction, and the invariants that hold in every state a run of requests can reach.
 */
module Panel {
  import opened Common
  import opened Store
  import opened Quota
  import opened Accounting
  import opened Report
  import opened Ports
  import opened Rules
  import opened RulesFacts

  datatype UserEdits = UserEdits(tenant: Id, role: Role, isActive: bool, expiresAt: Option<int>, flowLimit: int, forwardLimit: int)

  datatype TenantEdits = TenantEdits(isActive: bool, expiresAt: Option<int>, trafficLimit: int, forwardLimit: int, userLimit: int, resetDays: int)

  datatype Request =
    | ReportTraffic(node: Node, reportId: string, samples: seq<Sample>, at: int)
    | ResetUser(user: Id)
    | UpdateUser(user: Id, userEdits: UserEdits)
    | ResetTenant(tenant: Id, at: int)
    | UpdateTenant(tenant: Id, tenantEdits: TenantEdits, at: int)
    | ReadTenant(tenant: Id, at: int)
    | RollDueTenants(at: int)
    | Create(id: Id, draft: Draft, at: int)
    | Update(id: Id, draft: Draft, at: int)
    | Delete(id: Id)
    | Batch(drafts: seq<Draft>, ids: seq<Id>, at: int, preview: bool)

  // ---- users ----

  function EditedUser(u: User, e: UserEdits): User {
    u.(tenant := e.tenant, role := e.role, isActive := e.isActive, expiresAt := e.expiresAt,
       flowLimit := e.flowLimit, forwardLimit := e.forwardLimit)
  }

  /** ensureTenantUserCapacityWithDB: the tenant has room for one user besides those it has now. */
  predicate HasRoom(s: State, tenant: Id, user: Id)
    requires tenant in s.tenants
  {
    s.tenants[tenant].userLimit <= 0
    || |set u | u in s.users && s.users[u].tenant == tenant && u != user| < s.tenants[tenant].userLimit
  }

  /** updateUser: the edits are refused if they move an owner of rules to another tenant. */
  function ApplyUserEdits(s: State, user: Id, e: UserEdits): Result<State, Error> {
    if user !in s.users then Err(NotFound)
    else if e.flowLimit < 0 || e.forwardLimit < 0 then Err(BadPayload)
    else if e.tenant != 0 && e.tenant !in s.tenants then Err(Refused("tenant not found"))
    else if e.tenant != s.users[user].tenant && exists r | r in s.rules :: s.rules[r].user == user
    then Err(Refused("user with forwarding rules cannot be moved between tenants"))
    else if e.tenant != 0 && !HasRoom(s, e.tenant, user) then Err(Refused("tenant user limit reached"))
    else ReconcileUserQuota(s.(users := s.users[user := EditedUser(s.users[user], e)]), user)
  }

  function ResetUserTraffic(s: State, user: Id): Result<State, Error> {
    if user !in s.users then Err(NotFound)
    else ReconcileUserQuota(s.(users := s.users[user := s.users[user].(used := 0)]), user)
  }

  // ---- tenants ----

  /** applyTenantPayload: a changed reset interval restarts the period clock. */
  function EditedTenant(t: Tenant, e: TenantEdits, now: int): Tenant {
    t.(isActive := e.isActive, expiresAt := e.expiresAt, trafficLimit := e.trafficLimit, forwardLimit := e.forwardLimit,
       userLimit := e.userLimit, resetDays := e.resetDays,
       nextReset := if e.resetDays == t.resetDays then t.nextReset
                    else if e.resetDays > 0 then Some(now + e.resetDays * DAY) else None)
  }

  function ApplyTenantEdits(s: State, tenant: Id, e: TenantEdits, now: int): Result<State, Error> {
    if tenant !in s.tenants then Err(NotFound)
    else if e.trafficLimit < 0 || e.forwardLimit < 0 || e.userLimit < 0 || e.resetDays < 0 || e.resetDays > 3660 then Err(BadPayload)
    else Ok(ReconcileTenantQuota(s.(tenants := s.tenants[tenant := EditedTenant(s.tenants[tenant], e, now)]), tenant, now))
  }

  function RollStep(tenants: seq<Id>, now: int): (State, nat) -> Result<State, Error> {
    (s: State, k: nat) =>
      if k < |tenants| && tenants[k] in s.tenants then Ok(RollTenantPeriod(s, tenants[k], now)) else Ok(s)
  }

  /** rollDueTenantPeriods: one transaction per tenant whose period is over. */
  function RollAll(s: State, now: int): Result<State, Error> {
    var due := Sorted(set t | t in s.tenants && s.tenants[t].nextReset.Some? && s.tenants[t].nextReset.value <= now);
    Iterate(RollStep(due, now), s, |due|)
  }

  // ---- the machine ----

  function OrElse(r: Result<State, Error>, s: State): State {
    if r.Ok? then r.value else s
  }

  /** The state after a request; a request that fails leaves the state as it was. */
  function Handle(s: State, q: Request): State {
    match q
    case ReportTraffic(node, reportId, samples, at) => AgentTraffic(s, node, reportId, samples, at).0
    case ResetUser(user) => OrElse(ResetUserTraffic(s, user), s)
    case UpdateUser(user, e) => OrElse(ApplyUserEdits(s, user, e), s)
    case ResetTenant(tenant, at) => if tenant in s.tenants then ResetTenantTraffic(s, tenant, at) else s
    case UpdateTenant(tenant, e, at) => OrElse(ApplyTenantEdits(s, tenant, e, at), s)
    case ReadTenant(tenant, at) => if tenant in s.tenants then RollTenantPeriod(s, tenant, at) else s
    case RollDueTenants(at) => OrElse(RollAll(s, at), s)
    case Create(id, d, at) => OrElse(CreateRule(s, id, d, at), s)
    case Update(id, d, at) => OrElse(UpdateRule(s, id, d, at), s)
    case Delete(id) => OrElse(DeleteRule(s, id), s)
    case Batch(drafts, ids, at, preview) =>
      if |ids| == |drafts| then ApplyBatch(s, drafts, ids, at, preview).state else s
  }

  function HandleWith(handle: (State, Request) -> State, s: State, qs: seq<Request>): State {
    if qs == [] then s else handle(HandleWith(handle, s, qs[..|qs| - 1]), qs[|qs| - 1])
  }

  /** The state after a whole run of requests. */
  function Run(s: State, qs: seq<Request>): State {
    HandleWith(Handle, s, qs)
  }

  // ---- each request keeps the invariant ----

  lemma UserReconciled(s: State, user: Id, u: User)
    requires PanelExact(s) && UserEdit(s, user, u)
    ensures ReconcileUserQuota(s.(users := s.users[user := u]), user).Ok?
    ensures PanelExact(ReconcileUserQuota(s.(users := s.users[user := u]), user).value)
  {
    var s1 := s.(users := s.users[user := u]);
    ReconcileUserKeeps(s, user, u);
    ReconcileUserWrites(s1, user);
    var s' := ReconcileUserQuota(s1, user).value;
    QuotaWritesPlace(s1, s');
    PlacedKeeps(s, s1);
    PlacedKeeps(s1, s');
  }

  lemma UserEditsKeep(s: State, user: Id, e: UserEdits)
    requires PanelExact(s)
    ensures PanelExact(OrElse(ApplyUserEdits(s, user, e), s))
  {
    if ApplyUserEdits(s, user, e).Ok? {
      UserReconciled(s, user, EditedUser(s.users[user], e));
    }
  }

  lemma UserResetKeeps(s: State, user: Id)
    requires PanelExact(s)
    ensures PanelExact(OrElse(ResetUserTraffic(s, user), s))
  {
    if user in s.users {
      assert s.users[user].tenant == 0 || s.users[user].tenant in s.tenants;
      UserReconciled(s, user, s.users[user].(used := 0));
    }
  }

  lemma TenantResetKeeps(s: State, tenant: Id, now: int)
    requires PanelExact(s) && tenant in s.tenants
    ensures PanelExact(ResetTenantTraffic(s, tenant, now))
  {
    ResetTenantKeeps(s, tenant, now, {});
    PlacedKeeps(s, ResetTenantTraffic(s, tenant, now));
  }

  lemma TenantRollKeeps(s: State, tenant: Id, now: int)
    requires PanelExact(s) && tenant in s.tenants
    ensures PanelExact(RollTenantPeriod(s, tenant, now))
  {
    if RollDue(s.tenants[tenant], now) { TenantResetKeeps(s, tenant, now); }
  }

  lemma TenantEditsKeep(s: State, tenant: Id, e: TenantEdits, now: int)
    requires PanelExact(s)
    ensures PanelExact(OrElse(ApplyTenantEdits(s, tenant, e, now), s))
  {
    if ApplyTenantEdits(s, tenant, e, now).Ok? {
      var t := EditedTenant(s.tenants[tenant], e, now);
      assert TenantExact(s.tenants[tenant]);
      ReconcileTenantKeeps(s, tenant, t, now, {});
      var s1 := s.(tenants := s.tenants[tenant := t]);
      ReconcileTenantWrites(s1, tenant, now);
      QuotaWritesPlace(s1, ReconcileTenantQuota(s1, tenant, now));
      PlacedKeeps(s, s1);
      PlacedKeeps(s1, ReconcileTenantQuota(s1, tenant, now));
    }
  }

  lemma RollAllKeeps(s: State, now: int)
    requires PanelExact(s)
    ensures PanelExact(OrElse(RollAll(s, now), s))
  {
    var due := Sorted(set t | t in s.tenants && s.tenants[t].nextReset.Some? && s.tenants[t].nextReset.value <= now);
    forall c, k: nat | k < |due| && PanelExact(c) && RollStep(due, now)(c, k).Ok?
      ensures PanelExact(RollStep(due, now)(c, k).value)
    {
      if due[k] in c.tenants { TenantRollKeeps(c, due[k], now); }
    }
    IterateKeeps(PanelExact, RollStep(due, now), s, |due|);
  }

  lemma MarkedExact(s: State, markers: map<MarkerKey, nat>)
    requires PanelExact(s)
    ensures PanelExact(s.(ledger := s.ledger.(markers := markers)))
  {
    var s' := s.(ledger := s.ledger.(markers := markers));
    forall r | r in s'.rules ensures RuleExact(s', s'.rules[r], {}) {
      assert RuleExact(s, s.rules[r], {});
    }
    PlacedKeeps(s, s');
  }

  lemma TrafficKeeps(s: State, node: Node, samples: seq<Sample>, now: int)
    requires PanelExact(s) && AllValid(samples) && AccountTraffic(s, node, samples, now).Ok?
    ensures PanelExact(AccountTraffic(s, node, samples, now).value)
  {
    ReportKeepsExact(s, node, samples, now);
    ReportRules(s, node, samples, now);
    var s' := AccountTraffic(s, node, samples, now).value;
    forall r | r in s.rules ensures RuleReported(s.rules[r], s'.rules[r], samples, r) {}
    PlacedKeeps(s, s');
  }

  lemma AgentTrafficKeeps(s: State, node: Node, reportId: string, samples: seq<Sample>, now: int)
    requires PanelExact(s)
    ensures PanelExact(AgentTraffic(s, node, reportId, samples, now).0)
  {
    var key := MarkerKey(node.id, reportId);
    var s1 := if reportId == "" then s else s.(ledger := s.ledger.(markers := s.ledger.markers[key := |samples|]));
    MarkedExact(s, s1.ledger.markers);
    assert s.(ledger := s.ledger.(markers := s.ledger.markers)) == s;
    if AllValid(samples) && AccountTraffic(s1, node, samples, now).Ok? {
      TrafficKeeps(s1, node, samples, now);
    }
  }

  lemma BatchRequestKeeps(s: State, drafts: seq<Draft>, ids: seq<Id>, now: int, preview: bool)
    requires PanelExact(s) && |ids| == |drafts|
    ensures PanelExact(ApplyBatch(s, drafts, ids, now, preview).state)
  {
    if CreateFirst(s, drafts, ids, now, |drafts|).Ok? {
      BatchKeeps(s, drafts, ids, now, |drafts|);
    }
  }
}
