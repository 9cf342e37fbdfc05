/** What each request leaves behind, in plain table facts: statuses, usage, edited columns and rolled periods. */
module Requests {
  import opened Common
  import opened Store
  import opened Quota
  import opened Accounting
  import opened ReportFacts
  import opened Report
  import opened Ports
  import opened Rules
  import opened RulesFacts
  import opened Panel
  import opened PanelFacts

  // ---- rule statuses ----

  /** A request about other rules: it may move this one's status and count its traffic, and nothing else. */
  ghost predicate Moved(r: Rule, r': Rule) {
    r' == r.(status := r'.status, source := r'.source, inBytes := r'.inBytes, outBytes := r'.outBytes) && StatusMoves(r, r')
  }

  lemma QuotaWriteMoves(s: State, s': State, id: Id)
    requires QuotaWrites(s, s') && id in s.rules
    ensures id in s'.rules && Moved(s.rules[id], s'.rules[id])
    ensures OnlyWakes(s, s') ==> Woken(s.rules[id], s'.rules[id])
  {
    assert StatusWrite(s.rules[id], s'.rules[id]);
  }

  lemma ReportMoves(s: State, node: Node, samples: seq<Sample>, now: int, id: Id)
    requires QuotaExact(s) && AllValid(samples) && id in s.rules && AccountTraffic(s, node, samples, now).Ok?
    ensures var s' := AccountTraffic(s, node, samples, now).value; id in s'.rules && Moved(s.rules[id], s'.rules[id])
  {
    ReportRules(s, node, samples, now);
    assert RuleReported(s.rules[id], AccountTraffic(s, node, samples, now).value.rules[id], samples, id);
  }

  lemma TrafficMoves(s: State, node: Node, reportId: string, samples: seq<Sample>, now: int, id: Id)
    requires PanelExact(s) && id in s.rules
    ensures var s' := AgentTraffic(s, node, reportId, samples, now).0; id in s'.rules && Moved(s.rules[id], s'.rules[id])
  {
    var key := MarkerKey(node.id, reportId);
    var s1 := if reportId == "" then s else s.(ledger := s.ledger.(markers := s.ledger.markers[key := |samples|]));
    ExactIgnoresLedger(s, s1.ledger, {});
    assert s1 == s.(ledger := s1.ledger);
    if AllValid(samples) && AccountTraffic(s1, node, samples, now).Ok? {
      ReportMoves(s1, node, samples, now, id);
    }
  }

  lemma UserMoves(s: State, user: Id, u: User, id: Id)
    requires user in s.users && id in s.rules
    ensures var s1 := s.(users := s.users[user := u]);
            ReconcileUserQuota(s1, user).Ok? ==>
              id in ReconcileUserQuota(s1, user).value.rules && Moved(s.rules[id], ReconcileUserQuota(s1, user).value.rules[id])
  {
    var s1 := s.(users := s.users[user := u]);
    if ReconcileUserQuota(s1, user).Ok? {
      ReconcileUserWrites(s1, user);
      QuotaWriteMoves(s1, ReconcileUserQuota(s1, user).value, id);
    }
  }

  lemma TenantMoves(s: State, tenant: Id, t: Tenant, now: int, id: Id)
    requires tenant in s.tenants && id in s.rules
    ensures var s' := ReconcileTenantQuota(s.(tenants := s.tenants[tenant := t]), tenant, now);
            id in s'.rules && Moved(s.rules[id], s'.rules[id])
  {
    var s1 := s.(tenants := s.tenants[tenant := t]);
    ReconcileTenantWrites(s1, tenant, now);
    QuotaWriteMoves(s1, ReconcileTenantQuota(s1, tenant, now), id);
  }

  lemma RollMoves(s: State, tenant: Id, now: int, id: Id)
    requires tenant in s.tenants && id in s.rules
    ensures var s' := RollTenantPeriod(s, tenant, now); id in s'.rules && Woken(s.rules[id], s'.rules[id])
  {
    RollWrites(s, tenant, now);
    QuotaWriteMoves(s, RollTenantPeriod(s, tenant, now), id);
  }

  lemma RollAllMoves(s: State, now: int, id: Id)
    requires id in s.rules
    ensures var s' := OrElse(RollAll(s, now), s); id in s'.rules && Woken(s.rules[id], s'.rules[id])
  {
    var due := Sorted(set t | t in s.tenants && s.tenants[t].nextReset.Some? && s.tenants[t].nextReset.value <= now);
    var inv := (c: State) => id in c.rules && Woken(s.rules[id], c.rules[id]);
    forall c, k: nat | k < |due| && inv(c) && RollStep(due, now)(c, k).Ok? ensures inv(RollStep(due, now)(c, k).value) {
      if due[k] in c.tenants { RollMoves(c, due[k], now, id); }
    }
    IterateKeeps(inv, RollStep(due, now), s, |due|);
  }

  lemma PreparedMoves(s: State, row: Rule, d: Draft, exclude: Id, now: int, p: Prepared, id: Id)
    requires PanelExact(s) && id in s.rules && Prepare(s, row, d, exclude, now) == Ok(p)
    ensures id in p.state.rules && Woken(s.rules[id], p.state.rules[id])
  {
    PreparedExact(s, row, d, exclude, now, p);
    QuotaWriteMoves(s, p.state, id);
  }

  lemma CreateMoves(s: State, key: Id, d: Draft, now: int, id: Id)
    requires PanelExact(s) && id in s.rules && CreateRule(s, key, d, now).Ok?
    ensures var s' := CreateRule(s, key, d, now).value; id in s'.rules && Woken(s.rules[id], s'.rules[id])
  {
    CreateKeeps(s, key, d, now);
    PreparedMoves(s, NewRow(d), d, 0, now, Prepare(s, NewRow(d), d, 0, now).value, id);
  }

  lemma UpdateMoves(s: State, other: Id, d: Draft, now: int, id: Id)
    requires PanelExact(s) && id in s.rules && id != other && UpdateRule(s, other, d, now).Ok?
    ensures var s' := UpdateRule(s, other, d, now).value; id in s'.rules && Woken(s.rules[id], s'.rules[id])
  {
    UpdateKeeps(s, other, d, now);
    var row := EditedRow(s.rules[other], d);
    PreparedMoves(s, row, d, other, now, Prepare(s, row, d, other, now).value, id);
  }

  lemma BatchMoves(s: State, drafts: seq<Draft>, ids: seq<Id>, now: int, n: nat, id: Id)
    requires PanelExact(s) && id in s.rules && CreateFirst(s, drafts, ids, now, n).Ok?
    ensures var s' := CreateFirst(s, drafts, ids, now, n).value.state; id in s'.rules && Woken(s.rules[id], s'.rules[id])
  {
    var step := BatchStep(CreateAt(now), drafts, ids);
    var inv := (c: Created) => PanelExact(c.state) && id in c.state.rules && Woken(s.rules[id], c.state.rules[id]);
    forall c, k: nat | k < n && inv(c) && step(c, k).Ok? ensures inv(step(c, k).value) {
      CreateKeeps(c.state, ids[k], drafts[k], now);
      CreateMoves(c.state, ids[k], drafts[k], now, id);
    }
    IterateKeeps(inv, step, Created(s, []), n);
  }

  lemma BatchRequestMoves(s: State, drafts: seq<Draft>, ids: seq<Id>, now: int, preview: bool, id: Id)
    requires PanelExact(s) && id in s.rules && |ids| == |drafts|
    ensures var s' := ApplyBatch(s, drafts, ids, now, preview).state; id in s'.rules && Moved(s.rules[id], s'.rules[id])
  {
    if CreateFirst(s, drafts, ids, now, |drafts|).Ok? {
      BatchMoves(s, drafts, ids, now, |drafts|, id);
    }
  }

  lemma OwnerRequestMoves(s: State, q: Request, id: Id)
    requires id in s.rules && (q.ResetUser? || q.UpdateUser? || q.UpdateTenant?)
    ensures id in Handle(s, q).rules && Moved(s.rules[id], Handle(s, q).rules[id])
  {
    match q
    case ResetUser(user) => if user in s.users { UserMoves(s, user, s.users[user].(used := 0), id); }
    case UpdateUser(user, e) => if user in s.users { UserMoves(s, user, EditedUser(s.users[user], e), id); }
    case UpdateTenant(tenant, e, at) =>
      if tenant in s.tenants { TenantMoves(s, tenant, EditedTenant(s.tenants[tenant], e, at), at, id); }
  }

  lemma PeriodRequestMoves(s: State, q: Request, id: Id)
    requires id in s.rules && (q.ResetTenant? || q.ReadTenant? || q.RollDueTenants?)
    ensures id in Handle(s, q).rules && Moved(s.rules[id], Handle(s, q).rules[id])
  {
    match q
    case ResetTenant(tenant, at) => if tenant in s.tenants {
        ResetTenantWrites(s, tenant, at);
        QuotaWriteMoves(s, ResetTenantTraffic(s, tenant, at), id);
      }
    case ReadTenant(tenant, at) => if tenant in s.tenants { RollMoves(s, tenant, at, id); }
    case RollDueTenants(at) => RollAllMoves(s, at, id);
  }

  lemma WriteRequestMoves(s: State, q: Request, id: Id)
    requires PanelExact(s) && id in s.rules && (q.Create? || q.Update?) && !(q.Update? && q.id == id)
    ensures id in Handle(s, q).rules && Moved(s.rules[id], Handle(s, q).rules[id])
  {
    match q
    case Create(key, d, at) => if CreateRule(s, key, d, at).Ok? { CreateMoves(s, key, d, at, id); }
    case Update(other, d, at) => if UpdateRule(s, other, d, at).Ok? { UpdateMoves(s, other, d, at, id); }
  }

  lemma RuleRequestMoves(s: State, q: Request, id: Id)
    requires PanelExact(s) && id in s.rules && (q.Delete? || q.Batch?) && !(q.Delete? && q.id == id)
    ensures id in Handle(s, q).rules && Moved(s.rules[id], Handle(s, q).rules[id])
  {
    match q
    case Delete(_) =>
    case Batch(drafts, ids, at, preview) => if |ids| == |drafts| { BatchRequestMoves(s, drafts, ids, at, preview, id); }
  }

  lemma RequestMoves(s: State, q: Request, id: Id)
    requires PanelExact(s) && id in s.rules && !(q.Update? && q.id == id) && !(q.Delete? && q.id == id)
    ensures id in Handle(s, q).rules && Moved(s.rules[id], Handle(s, q).rules[id])
  {
    if q.ReportTraffic? {
      TrafficMoves(s, q.node, q.reportId, q.samples, q.at, id);
    } else if q.ResetUser? || q.UpdateUser? || q.UpdateTenant? {
      OwnerRequestMoves(s, q, id);
    } else if q.ResetTenant? || q.ReadTenant? || q.RollDueTenants? {
      PeriodRequestMoves(s, q, id);
    } else if q.Create? || q.Update? {
      WriteRequestMoves(s, q, id);
    } else {
      RuleRequestMoves(s, q, id);
    }
  }

  /**
   * What any request does to the status of a rule it does not itself edit or delete: a shelved rule stays as it is, any
   * other is off when one of its quotas is now used up, comes back as active when none is, and otherwise keeps running
   * under the status it had.
   */
  lemma StatusFollowsQuota(s: State, q: Request, id: Id)
    requires PanelExact(s) && id in s.rules && !(q.Update? && q.id == id) && !(q.Delete? && q.id == id)
    ensures id in Handle(s, q).rules
    ensures var s' := Handle(s, q); var r, r' := s.rules[id], s'.rules[id];
      && r' == r.(status := r'.status, source := r'.source, inBytes := r'.inBytes, outBytes := r'.outBytes)
      && r.user in s'.users && (r.tenant == 0 || r.tenant in s'.tenants)
      && var off := UsedUp(s'.users[r.user].flowLimit, s'.users[r.user].used)
                    || (r.tenant != 0 && UsedUp(s'.tenants[r.tenant].trafficLimit, s'.tenants[r.tenant].used));
         r'.status == if r.status == Paused || r.status == Disabled || r.status == Deleted then r.status
                      else if off then QuotaExhausted
                      else if r.status == QuotaExhausted then Active
                      else r.status
  {
    RequestMoves(s, q, id);
    HandleKeeps(s, q);
    ExactMeans(Handle(s, q), id);
  }

  // ---- users ----

  /** Clearing a user's usage changes that one number and the statuses that follow from it. */
  lemma UserResetMeans(s: State, user: Id)
    requires PanelExact(s)
    ensures ResetUserTraffic(s, user).Ok? <==> user in s.users
    ensures var s' := Handle(s, ResetUser(user));
            s' == if user in s.users then s.(users := s.users[user := s.users[user].(used := 0)], rules := s'.rules) else s
  {
    if user in s.users {
      assert s.users[user].tenant == 0 || s.users[user].tenant in s.tenants;
      var u := s.users[user].(used := 0);
      ReconcileUserKeeps(s, user, u);
    }
  }

  /** When an edit of a user is accepted. */
  lemma UserEditIff(s: State, user: Id, e: UserEdits)
    requires PanelExact(s)
    ensures ApplyUserEdits(s, user, e).Ok? <==>
              user in s.users && e.flowLimit >= 0 && e.forwardLimit >= 0
              && (forall r | r in s.rules && s.rules[r].user == user :: s.rules[r].tenant == e.tenant)
              && (e.tenant != 0 ==>
                    e.tenant in s.tenants
                    && var others := set u | u in s.users && u != user && s.users[u].tenant == e.tenant;
                       s.tenants[e.tenant].userLimit > 0 ==> |others| < s.tenants[e.tenant].userLimit)
  {
    if user in s.users && (e.tenant == 0 || e.tenant in s.tenants) {
      assert (set u | u in s.users && s.users[u].tenant == e.tenant && u != user)
          == (set u | u in s.users && u != user && s.users[u].tenant == e.tenant);
      var u := EditedUser(s.users[user], e);
      if UserEdit(s, user, u) {
        ReconcileUserKeeps(s, user, u);
      }
    }
  }

  /** Then every edited column lands, and no other. */
  lemma UserEditMeans(s: State, user: Id, e: UserEdits)
    ensures ApplyUserEdits(s, user, e).Err? ==> Handle(s, UpdateUser(user, e)) == s
    ensures ApplyUserEdits(s, user, e).Ok? ==> user in s.users
    ensures ApplyUserEdits(s, user, e).Ok? ==>
              var s' := Handle(s, UpdateUser(user, e));
              s' == s.(rules := s'.rules, users := s.users[user :=
                    User(e.tenant, e.role, e.isActive, e.expiresAt, e.flowLimit, s.users[user].used, e.forwardLimit)])
  {
    if ApplyUserEdits(s, user, e).Ok? {
      ReconcileUserWrites(s.(users := s.users[user := EditedUser(s.users[user], e)]), user);
    }
  }

  // ---- tenants ----

  /** When an edit of a tenant is accepted. */
  lemma TenantEditIff(s: State, tenant: Id, e: TenantEdits, now: int)
    ensures ApplyTenantEdits(s, tenant, e, now).Ok? <==>
              tenant in s.tenants && e.trafficLimit >= 0 && e.forwardLimit >= 0 && e.userLimit >= 0 && 0 <= e.resetDays <= 3660
    ensures ApplyTenantEdits(s, tenant, e, now).Err? ==> Handle(s, UpdateTenant(tenant, e, now)) == s
  {
  }

  /**
   * Then usage is kept, the blocked flag follows the new limit, and the period clock restarts exactly when the length
   * of the period changes.
   */
  lemma TenantEditMeans(s: State, tenant: Id, e: TenantEdits, now: int)
    requires PanelExact(s) && tenant in s.tenants && ApplyTenantEdits(s, tenant, e, now).Ok?
    ensures var s', t := Handle(s, UpdateTenant(tenant, e, now)), s.tenants[tenant];
            var over := UsedUp(e.trafficLimit, t.used);
            var since := if !over then None else if t.blocked then t.blockedAt else Some(now);
            var clock := if e.resetDays == t.resetDays then t.nextReset
                         else if e.resetDays == 0 then None
                         else Some(now + e.resetDays * (24 * 60 * 60 * 1_000_000_000));
            s' == s.(rules := s'.rules, tenants := s.tenants[tenant :=
                       Tenant(e.isActive, e.expiresAt, e.trafficLimit, t.used, e.forwardLimit, e.userLimit, e.resetDays,
                              clock, over, since)])
  {
    TenantReconciled(s, tenant, EditedTenant(s.tenants[tenant], e, now), now);
  }

  lemma TenantReconciled(s: State, tenant: Id, t: Tenant, now: int)
    requires PanelExact(s) && tenant in s.tenants
    requires t.blocked == s.tenants[tenant].blocked && t.blockedAt == s.tenants[tenant].blockedAt && t.used == s.tenants[tenant].used
    ensures var s' := ReconcileTenantQuota(s.(tenants := s.tenants[tenant := t]), tenant, now);
            var over := UsedUp(t.trafficLimit, t.used);
            var since := if !over then None else if t.blocked then t.blockedAt else Some(now);
            s' == s.(rules := s'.rules, tenants := s.tenants[tenant := t.(blocked := over, blockedAt := since)])
  {
    assert TenantExact(s.tenants[tenant]);
    ReconcileTenantKeeps(s, tenant, t, now, {});
    ReconcileTenantWrites(s.(tenants := s.tenants[tenant := t]), tenant, now);
  }

  /** The row a reset leaves: nothing used, not blocked, and the next period begins at the time of the reset. */
  ghost predicate BeginsPeriod(t: Tenant, t': Tenant, now: int) {
    && t' == t.(used := 0, blocked := false, blockedAt := None, nextReset := t'.nextReset)
    && (t.resetDays <= 0 ==> t'.nextReset == None)
    && (t.resetDays > 0 ==> t'.nextReset == Some(now + t.resetDays * (24 * 60 * 60 * 1_000_000_000)))
  }

  lemma TenantResetMeans(s: State, tenant: Id, now: int)
    requires tenant in s.tenants
    ensures tenant in Handle(s, ResetTenant(tenant, now)).tenants
    ensures var s' := Handle(s, ResetTenant(tenant, now));
            && BeginsPeriod(s.tenants[tenant], s'.tenants[tenant], now)
            && s' == s.(tenants := s.tenants[tenant := s'.tenants[tenant]], rules := s'.rules)
  {
  }

  /** Looking at a tenant resets it when its period is over, and changes nothing otherwise. */
  lemma TenantReadMeans(s: State, tenant: Id, now: int)
    requires tenant in s.tenants
    ensures Handle(s, ReadTenant(tenant, now))
            == if PeriodOver(s.tenants[tenant], now) then Handle(s, ResetTenant(tenant, now)) else s
  {
  }

  /** Exactly these tenants begin a period, and only their rules are touched. */
  ghost predicate Swept(s: State, s': State, due: set<Id>, now: int) {
    && s' == s.(tenants := s'.tenants, rules := s'.rules) && s'.tenants.Keys == s.tenants.Keys
    && (forall t | t in s.tenants ::
          if t in due then BeginsPeriod(s.tenants[t], s'.tenants[t], now) else s'.tenants[t] == s.tenants[t])
    && OnlyRulesOf(s, s', due)
  }

  ghost function Overdue(s: State, done: set<Id>, now: int): set<Id> {
    set t | t in done && t in s.tenants && PeriodOver(s.tenants[t], now)
  }

  /** After a part of the sweep: those among them whose period was over have begun a new one. */
  ghost predicate Rolled(s: State, s': State, done: set<Id>, now: int) {
    && Swept(s, s', Overdue(s, done, now), now)
    && s'.rules.Keys == s.rules.Keys && forall r | r in s.rules :: s'.rules[r].tenant == s.rules[r].tenant
  }

  lemma RolledNext(s: State, s1: State, done: set<Id>, t: Id, now: int)
    requires Rolled(s, s1, done, now) && t in s.tenants
    ensures Rolled(s, RollTenantPeriod(s1, t, now), done + {t}, now)
  {
    var s2 := RollTenantPeriod(s1, t, now);
    RollWrites(s1, t, now);
    forall r | r in s1.rules ensures s2.rules[r].tenant == s1.rules[r].tenant {
      assert StatusWrite(s1.rules[r], s2.rules[r]);
    }
  }

  function FirstOf(due: seq<Id>, n: nat): set<Id>
    requires n <= |due|
  {
    set k | 0 <= k < n :: due[k]
  }

  ghost function RolledBy(s: State, due: seq<Id>, now: int): (nat, State) -> bool {
    (k: nat, c: State) => k <= |due| && Rolled(s, c, FirstOf(due, k), now)
  }

  lemma RolledStep(s: State, due: seq<Id>, now: int, k: nat, c: State)
    requires (forall i | 0 <= i < |due| :: due[i] in s.tenants) && k < |due| && RolledBy(s, due, now)(k, c)
    ensures RollStep(due, now)(c, k).Ok? && RolledBy(s, due, now)(k + 1, RollStep(due, now)(c, k).value)
  {
    RolledNext(s, c, FirstOf(due, k), due[k], now);
    assert FirstOf(due, k + 1) == FirstOf(due, k) + {due[k]};
  }

  lemma RolledAll(s: State, due: seq<Id>, now: int)
    requires forall k | 0 <= k < |due| :: due[k] in s.tenants
    ensures Iterate(RollStep(due, now), s, |due|).Ok?
    ensures RolledBy(s, due, now)(|due|, Iterate(RollStep(due, now), s, |due|).value)
  {
    assert FirstOf(due, 0) == {} && Rolled(s, s, {}, now);
    forall k: nat, c | k < |due| && RolledBy(s, due, now)(k, c)
      ensures RolledBy(s, due, now)(k + 1, RollStep(due, now)(c, k).value)
    {
      RolledStep(s, due, now, k, c);
    }
    IterateReaches(RolledBy(s, due, now), RollStep(due, now), s, |due|);
    RollsOk(s, due, now, |due|);
  }

  lemma {:induction false} RollsOk(s: State, due: seq<Id>, now: int, n: nat)
    ensures Iterate(RollStep(due, now), s, n).Ok?
  {
    if n > 0 {
      RollsOk(s, due, now, n - 1);
    }
  }

  /** The sweep resets exactly the tenants whose period is over, and touches rules of those only. */
  lemma SweepMeans(s: State, now: int)
    ensures var due := set t | t in s.tenants && PeriodOver(s.tenants[t], now); Swept(s, Handle(s, RollDueTenants(now)), due, now)
  {
    var ids := set t | t in s.tenants && s.tenants[t].nextReset.Some? && s.tenants[t].nextReset.value <= now;
    var due := Sorted(ids);
    RolledAll(s, due, now);
    assert FirstOf(due, |due|) == ids by {
      forall t | t in ids ensures t in FirstOf(due, |due|) { assert t in due; }
    }
    assert Overdue(s, ids, now) == set t | t in s.tenants && PeriodOver(s.tenants[t], now);
  }
}
