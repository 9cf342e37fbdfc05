/**
 * The two quota layers (user flow limit, tenant traffic limit) as functions on the database state:
 * the bulk updates that turn rules off, the restores that turn them on again, and the invariant that
 * rule status and quota_source follow both layers exactly.
 */
module Quota {
  import opened Common
  import opened Store

  /** Nanoseconds of one day: AddDate(0, 0, n) on a UTC time adds n of these. */
  const DAY: int := 86_400_000_000_000

  // ---- the updates ----

  function UserExhausted(r: Rule, user: Id): Rule {
    if r.user == user && Stoppable(r.status)
    then r.(status := QuotaExhausted, source := UserSource) else r
  }

  /** exhaustUserQuota: one UPDATE over the user's running rules. */
  function ExhaustUserQuota(s: State, user: Id): State {
    s.(rules := map id | id in s.rules :: UserExhausted(s.rules[id], user))
  }

  function TenantExhausted(r: Rule, tenant: Id): Rule {
    if r.tenant == tenant && Stoppable(r.status)
    then r.(status := QuotaExhausted, source := TenantSource) else r
  }

  function ExhaustTenantQuota(s: State, tenant: Id): State {
    s.(rules := map id | id in s.rules :: TenantExhausted(s.rules[id], tenant))
  }

  /** What restoreTenantQuotaRulesTx writes: back to active, unless the owner's own quota is used up. */
  function TenantRestored(s: State, r: Rule, tenant: Id): Rule {
    if r.tenant == tenant && r.status == QuotaExhausted && r.source == TenantSource then
      if r.user in s.users && UserSpent(s.users[r.user])
      then r.(status := QuotaExhausted, source := UserSource)
      else r.(status := Active, source := NoSource)
    else r
  }

  function RestoreTenantRules(s: State, tenant: Id): State {
    s.(rules := map id | id in s.rules :: TenantRestored(s, s.rules[id], tenant))
  }

  function ResetTenantRow(t: Tenant, now: int): Tenant {
    t.(used := 0, blocked := false, blockedAt := None,
       nextReset := if t.resetDays > 0 then Some(now + t.resetDays * DAY) else None)
  }

  function ResetTenantTraffic(s: State, tenant: Id, now: int): State
    requires tenant in s.tenants
  {
    RestoreTenantRules(s.(tenants := s.tenants[tenant := ResetTenantRow(s.tenants[tenant], now)]), tenant)
  }

  predicate RollDue(t: Tenant, now: int) {
    t.nextReset.Some? && t.nextReset.value <= now && t.resetDays > 0
  }

  function RollTenantPeriod(s: State, tenant: Id, now: int): State
    requires tenant in s.tenants
  {
    if RollDue(s.tenants[tenant], now) then ResetTenantTraffic(s, tenant, now) else s
  }

  function ReconcileTenantRow(t: Tenant, now: int): Tenant {
    if TenantOver(t) then
      if t.blocked then t else t.(blocked := true, blockedAt := Some(now))
    else if t.blocked then t.(blocked := false, blockedAt := None)
    else t
  }

  function ReconcileTenantQuota(s: State, tenant: Id, now: int): State
    requires tenant in s.tenants
  {
    var t := s.tenants[tenant];
    var s1 := s.(tenants := s.tenants[tenant := ReconcileTenantRow(t, now)]);
    if TenantOver(t) then ExhaustTenantQuota(s1, tenant)
    else if t.blocked then RestoreTenantRules(s1, tenant)
    else s
  }

  predicate TenantBlocks(t: Tenant) {
    t.blocked || TenantOver(t)
  }

  /** What reconcileUserQuotaTx writes once the user is below the limit. */
  function UserRestored(r: Rule, user: Id, tenantBlocks: bool): Rule {
    if r.user == user && r.status == QuotaExhausted && r.source == UserSource then
      if tenantBlocks
      then r.(status := QuotaExhausted, source := TenantSource)
      else r.(status := Active, source := NoSource)
    else r
  }

  function RestoreUserRules(s: State, user: Id, tenantBlocks: bool): State {
    s.(rules := map id | id in s.rules :: UserRestored(s.rules[id], user, tenantBlocks))
  }

  function ReconcileUserQuota(s: State, user: Id): Result<State, Error>
    requires user in s.users
  {
    var u := s.users[user];
    if UserSpent(u) then Ok(ExhaustUserQuota(s, user))
    else if u.tenant > 0 && u.tenant !in s.tenants then Err(NotFound)
    else Ok(RestoreUserRules(s, user, u.tenant > 0 && TenantBlocks(s.tenants[u.tenant])))
  }

  // ---- what the updates write ----

  /** A status that no quota ever gives or takes away. */
  predicate Shelved(status: Status) {
    status == Paused || status == Disabled || status == Deleted
  }

  /**
   * How quotas may move a rule: they never shelve or unshelve it, a stopped one comes back as active and nothing else,
   * and a running one is stopped or left exactly as it is.
   */
  predicate StatusMoves(r: Rule, r': Rule) {
    && (Shelved(r'.status) <==> Shelved(r.status))
    && (r.status == QuotaExhausted && r'.status != QuotaExhausted ==> r'.status == Active)
    && (r.status != QuotaExhausted && r'.status != QuotaExhausted ==> r'.status == r.status && r'.source == r.source)
  }

  /** A write of status and source alone, within what quotas may do. */
  ghost predicate StatusWrite(r: Rule, r': Rule) {
    r' == r.(status := r'.status, source := r'.source) && StatusMoves(r, r')
  }

  /** s' differs from s only in rule statuses and tenant rows. */
  ghost predicate QuotaWrites(s: State, s': State) {
    && s' == s.(rules := s'.rules, tenants := s'.tenants)
    && s'.tenants.Keys == s.tenants.Keys
    && s'.rules.Keys == s.rules.Keys
    && forall r | r in s.rules :: StatusWrite(s.rules[r], s'.rules[r])
  }

  /** Only stopped rules are written. */
  ghost predicate OnlyWakes(s: State, s': State) {
    forall r | r in s.rules && s.rules[r].status != QuotaExhausted :: r in s'.rules && s'.rules[r] == s.rules[r]
  }

  /** Only running rules are written. */
  ghost predicate OnlyStops(s: State, s': State) {
    forall r | r in s.rules && s.rules[r].status == QuotaExhausted :: r in s'.rules && s'.rules[r] == s.rules[r]
  }

  /** Only rules of these tenants are written. */
  ghost predicate OnlyRulesOf(s: State, s': State, tenants: set<Id>) {
    forall r | r in s.rules && s.rules[r].tenant !in tenants :: r in s'.rules && s'.rules[r] == s.rules[r]
  }

  /** Only waking moves, as one rule sees it. */
  ghost predicate Woken(r: Rule, r': Rule) {
    StatusWrite(r, r') && (r.status != QuotaExhausted ==> r' == r)
  }

  /** Waking first or stopping last keeps to what quotas may do; stopping and then waking would not. */
  lemma QuotaWritesCompose(a: State, b: State, c: State)
    requires QuotaWrites(a, b) && QuotaWrites(b, c) && (OnlyWakes(a, b) || OnlyStops(b, c))
    ensures QuotaWrites(a, c)
    ensures OnlyWakes(a, b) && OnlyWakes(b, c) ==> OnlyWakes(a, c)
    ensures OnlyStops(a, b) && OnlyStops(b, c) ==> OnlyStops(a, c)
  {
    forall r | r in a.rules ensures StatusWrite(a.rules[r], c.rules[r]) {
      assert StatusWrite(a.rules[r], b.rules[r]) && StatusWrite(b.rules[r], c.rules[r]);
    }
  }

  lemma ExhaustUserWrites(s: State, user: Id)
    ensures QuotaWrites(s, ExhaustUserQuota(s, user)) && OnlyStops(s, ExhaustUserQuota(s, user))
    ensures ExhaustUserQuota(s, user).tenants == s.tenants
  {
  }

  lemma ExhaustTenantWrites(s: State, tenant: Id)
    ensures var s' := ExhaustTenantQuota(s, tenant);
      && QuotaWrites(s, s') && OnlyStops(s, s') && OnlyRulesOf(s, s', {tenant}) && s'.tenants == s.tenants
  {
  }

  /** A reset wakes rules of the tenant only, and nothing but its row and those rules change. */
  lemma ResetTenantWrites(s: State, tenant: Id, now: int)
    requires tenant in s.tenants
    ensures var s' := ResetTenantTraffic(s, tenant, now);
      && QuotaWrites(s, s') && OnlyWakes(s, s') && OnlyRulesOf(s, s', {tenant})
      && s'.tenants == s.tenants[tenant := s'.tenants[tenant]]
  {
  }

  lemma RollWrites(s: State, tenant: Id, now: int)
    requires tenant in s.tenants
    ensures var s' := RollTenantPeriod(s, tenant, now);
      && QuotaWrites(s, s') && OnlyWakes(s, s') && OnlyRulesOf(s, s', {tenant})
      && s'.tenants == s.tenants[tenant := s'.tenants[tenant]]
  {
  }

  lemma ReconcileTenantWrites(s: State, tenant: Id, now: int)
    requires tenant in s.tenants
    ensures var s' := ReconcileTenantQuota(s, tenant, now);
      && QuotaWrites(s, s') && OnlyRulesOf(s, s', {tenant})
      && s'.tenants == s.tenants[tenant := s.tenants[tenant].(blocked := s'.tenants[tenant].blocked, blockedAt := s'.tenants[tenant].blockedAt)]
  {
  }

  lemma ReconcileUserWrites(s: State, user: Id)
    requires user in s.users && ReconcileUserQuota(s, user).Ok?
    ensures QuotaWrites(s, ReconcileUserQuota(s, user).value) && ReconcileUserQuota(s, user).value.tenants == s.tenants
  {
  }

  // ---- the invariant ----

  ghost predicate Blocked(s: State, tenant: Id) {
    tenant != 0 && tenant in s.tenants && s.tenants[tenant].blocked
  }

  ghost predicate Spent(s: State, user: Id) {
    user in s.users && UserSpent(s.users[user])
  }

  /**
   * Status and source of one rule agree with both layers. Users in pending are over their limit but
   * their rules have not been turned off yet; outside a traffic report there are none.
   */
  ghost predicate RuleExact(s: State, r: Rule, pending: set<Id>) {
    && (r.status == QuotaExhausted ==>
          (r.source == UserSource && Spent(s, r.user)) || (r.source == TenantSource && Blocked(s, r.tenant)))
    && (r.status != QuotaExhausted ==> r.source == NoSource)
    && (Stoppable(r.status) ==> !Blocked(s, r.tenant) && (Spent(s, r.user) ==> r.user in pending))
  }

  ghost predicate TenantExact(t: Tenant) {
    && (t.blocked <==> TenantOver(t))
    && (t.blockedAt.Some? <==> t.blocked)
    && 0 <= t.used <= MAX_INT64
  }

  ghost predicate RulesExact(s: State, pending: set<Id>) {
    forall r | r in s.rules :: RuleExact(s, s.rules[r], pending)
  }

  ghost predicate TenantsExact(s: State) {
    forall t | t in s.tenants :: TenantExact(s.tenants[t])
  }

  ghost predicate UsersBounded(s: State) {
    forall u | u in s.users :: 0 <= s.users[u].used <= MAX_INT64
  }

  ghost predicate ExactExcept(s: State, pending: set<Id>) {
    Linked(s) && UsersBounded(s) && TenantsExact(s) && RulesExact(s, pending)
  }

  /** Quota state is exact: no rule is waiting to be turned off. */
  ghost predicate QuotaExact(s: State) {
    ExactExcept(s, {})
  }

  /** A limit of 0 or less is none, any other is used up once it is reached. */
  predicate UsedUp(limit: int, used: int) {
    0 < limit <= used
  }

  /** Its period is over: it has one, and its end has come. */
  predicate PeriodOver(t: Tenant, now: int) {
    t.resetDays > 0 && t.nextReset.Some? && t.nextReset.value <= now
  }

  /** The invariant in plain terms: either quota used up stops a rule, and each layer is honoured by itself. */
  lemma ExactMeans(s: State, id: Id)
    requires QuotaExact(s) && id in s.rules
    ensures var r := s.rules[id];
      && r.user in s.users && r.tenant == s.users[r.user].tenant && (r.tenant == 0 || r.tenant in s.tenants)
      && var u := s.users[r.user];
         var overTenant := r.tenant != 0 && UsedUp(s.tenants[r.tenant].trafficLimit, s.tenants[r.tenant].used);
      && (!Shelved(r.status) ==> (r.status == QuotaExhausted <==> UsedUp(u.flowLimit, u.used) || overTenant))
      && (r.source == UserSource ==> UsedUp(u.flowLimit, u.used))
      && (r.source == TenantSource ==> overTenant)
      && (r.source == NoSource <==> r.status != QuotaExhausted)
  {
    var r := s.rules[id];
    assert RuleExact(s, r, {}) && s.users[r.user].tenant == r.tenant;
    if r.tenant != 0 {
      assert TenantExact(s.tenants[r.tenant]);
    }
  }

  // ---- every update keeps it ----

  lemma ExhaustUserKeeps(s: State, user: Id, pending: set<Id>)
    requires ExactExcept(s, pending) && Spent(s, user)
    ensures ExactExcept(ExhaustUserQuota(s, user), pending - {user})
  {
    var s' := ExhaustUserQuota(s, user);
    forall r | r in s'.rules ensures RuleExact(s', s'.rules[r], pending - {user}) {
      assert RuleExact(s, s.rules[r], pending);
    }
  }

  lemma RestoreTenantKeeps(s0: State, s: State, tenant: Id, pending: set<Id>)
    requires tenant in s.tenants && !s.tenants[tenant].blocked && TenantExact(s.tenants[tenant])
    requires tenant in s0.tenants && s == s0.(tenants := s0.tenants[tenant := s.tenants[tenant]])
    requires ExactExcept(s0, pending)
    ensures ExactExcept(RestoreTenantRules(s, tenant), pending)
  {
    var s' := RestoreTenantRules(s, tenant);
    forall r | r in s'.rules ensures RuleExact(s', s'.rules[r], pending) {
      assert RuleExact(s0, s0.rules[r], pending);
    }
  }

  lemma ResetTenantKeeps(s: State, tenant: Id, now: int, pending: set<Id>)
    requires ExactExcept(s, pending) && tenant in s.tenants
    ensures ExactExcept(ResetTenantTraffic(s, tenant, now), pending)
    ensures var t' := ResetTenantTraffic(s, tenant, now).tenants[tenant];
            t'.used == 0 && t' == s.tenants[tenant].(used := 0, blocked := false, blockedAt := None, nextReset := t'.nextReset)
  {
    var s1 := s.(tenants := s.tenants[tenant := ResetTenantRow(s.tenants[tenant], now)]);
    RestoreTenantKeeps(s, s1, tenant, pending);
  }

  lemma RollTenantKeeps(s: State, tenant: Id, now: int, pending: set<Id>)
    requires ExactExcept(s, pending) && tenant in s.tenants
    ensures ExactExcept(RollTenantPeriod(s, tenant, now), pending)
    ensures var t := s.tenants[tenant];
            RollTenantPeriod(s, tenant, now).tenants[tenant].used
            == if PeriodOver(t, now) then 0 else t.used
  {
    if RollDue(s.tenants[tenant], now) {
      ResetTenantKeeps(s, tenant, now, pending);
    }
  }

  /** A period lasts as many days as the tenant's row says: rolling before that changes nothing, from then on it resets again. */
  lemma PeriodLasts(s: State, tenant: Id, now: int, later: int)
    requires tenant in s.tenants
    ensures var s' := ResetTenantTraffic(s, tenant, now); var days := s.tenants[tenant].resetDays;
            RollTenantPeriod(s', tenant, later)
            == if days > 0 && later >= now + days * (24 * 60 * 60 * 1_000_000_000) then ResetTenantTraffic(s', tenant, later) else s'
  {
  }

  /**
   * Whatever a request does to a tenant's usage or limit, reconciling afterwards makes the state
   * exact again, as long as the blocked flag is still the one the rules were written under.
   */
  lemma ReconcileTenantKeeps(s: State, tenant: Id, t: Tenant, now: int, pending: set<Id>)
    requires ExactExcept(s, pending) && tenant in s.tenants
    requires t.blocked == s.tenants[tenant].blocked && t.blockedAt == s.tenants[tenant].blockedAt
    requires 0 <= t.used <= MAX_INT64
    ensures ExactExcept(ReconcileTenantQuota(s.(tenants := s.tenants[tenant := t]), tenant, now), pending)
    ensures ReconcileTenantQuota(s.(tenants := s.tenants[tenant := t]), tenant, now).tenants[tenant].blockedAt
            == if !UsedUp(t.trafficLimit, t.used) then None else if t.blocked then t.blockedAt else Some(now)
  {
    assert TenantExact(s.tenants[tenant]);
    var s1 := s.(tenants := s.tenants[tenant := t]);
    var s2 := s1.(tenants := s1.tenants[tenant := ReconcileTenantRow(t, now)]);
    assert s2 == s.(tenants := s.tenants[tenant := ReconcileTenantRow(t, now)]);
    if TenantOver(t) {
      var s' := ExhaustTenantQuota(s2, tenant);
      forall r | r in s'.rules ensures RuleExact(s', s'.rules[r], pending) {
        assert RuleExact(s, s.rules[r], pending);
      }
    } else if t.blocked {
      RestoreTenantKeeps(s, s2, tenant, pending);
    } else {
      forall r | r in s1.rules ensures RuleExact(s1, s1.rules[r], pending) {
        assert RuleExact(s, s.rules[r], pending);
      }
    }
  }

  /** A user may change limit and usage, but changes tenant only while owning no rule. */
  ghost predicate UserEdit(s: State, user: Id, u: User) {
    && user in s.users && 0 <= u.used <= MAX_INT64
    && (u.tenant == 0 || u.tenant in s.tenants)
    && (u.tenant != s.users[user].tenant ==> forall r | r in s.rules :: s.rules[r].user != user)
  }

  /** One rule's share of the argument: its row is exact again after the user's reconcile. */
  lemma RestoredUserRuleExact(s: State, user: Id, u: User, r: Rule)
    requires QuotaExact(s) && UserEdit(s, user, u) && !UserSpent(u)
    requires r in s.rules.Values
    ensures var blocks := u.tenant > 0 && TenantBlocks(s.tenants[u.tenant]);
            RuleExact(s.(users := s.users[user := u]), UserRestored(r, user, blocks), {})
  {
    var id :| id in s.rules && s.rules[id] == r;
    assert RuleExact(s, r, {});
    if u.tenant != 0 {
      assert TenantExact(s.tenants[u.tenant]);
    }
  }

  lemma SpentUserKeeps(s: State, user: Id, u: User)
    requires QuotaExact(s) && UserEdit(s, user, u) && UserSpent(u)
    ensures QuotaExact(ExhaustUserQuota(s.(users := s.users[user := u]), user))
  {
    var s1 := s.(users := s.users[user := u]);
    forall r | r in s1.rules ensures RuleExact(s1, s1.rules[r], {user}) {
      assert RuleExact(s, s.rules[r], {});
    }
    ExhaustUserKeeps(s1, user, {user});
    assert {user} - {user} == {};
  }

  lemma RestoredUserKeeps(s: State, user: Id, u: User)
    requires QuotaExact(s) && UserEdit(s, user, u) && !UserSpent(u)
    ensures var blocks := u.tenant > 0 && TenantBlocks(s.tenants[u.tenant]);
            QuotaExact(RestoreUserRules(s.(users := s.users[user := u]), user, blocks))
  {
    var s1 := s.(users := s.users[user := u]);
    var s' := RestoreUserRules(s1, user, u.tenant > 0 && TenantBlocks(s.tenants[u.tenant]));
    forall r | r in s'.rules ensures RuleExact(s', s'.rules[r], {}) {
      RestoredUserRuleExact(s, user, u, s.rules[r]);
    }
  }

  /** Reconciling after any permitted edit of a user makes the whole quota state exact again. */
  lemma ReconcileUserKeeps(s: State, user: Id, u: User)
    requires QuotaExact(s) && UserEdit(s, user, u)
    ensures ReconcileUserQuota(s.(users := s.users[user := u]), user).Ok?
    ensures QuotaExact(ReconcileUserQuota(s.(users := s.users[user := u]), user).value)
  {
    if UserSpent(u) {
      SpentUserKeeps(s, user, u);
    } else {
      RestoredUserKeeps(s, user, u);
    }
  }
}
